/** The data-call machine, its manager and the native handler as the program runs them: fields updated
    in place, subscriber lists walked and erased by loops. */
module AgpsProgram {
  import opened AgpsMachine
  import opened AgpsQueue
  import opened AgpsRouting
  import opened AgpsHost

  const TYPE_MOBILE: bv64 := 0

  /** A data item that the observer hands to the native handler. */
  datatype DataItem = NetworkInfo(allTypes: bv64) | OtherItem

  function ConnectedAfter(connected: bool, items: seq<DataItem>): bool {
    if items == [] then connected
    else
      var last := items[|items| - 1];
      if last.NetworkInfo? then last.allTypes & (1 << TYPE_MOBILE) == 1 << TYPE_MOBILE
      else ConnectedAfter(connected, items[..|items| - 1])
  }

  /** The last network item decides, by the lowest bit of its mask; without one the flag stays. */
  lemma {:induction false} LastItemDecides(connected: bool, items: seq<DataItem>, k: int)
    requires -1 <= k < |items| && (k >= 0 ==> items[k].NetworkInfo?)
    requires forall j :: k < j < |items| ==> !items[j].NetworkInfo?
    ensures ConnectedAfter(connected, items) == if k < 0 then connected else items[k].allTypes & 1 == 1
  {
    if k < |items| - 1 {
      LastItemDecides(connected, items[..|items| - 1], k);
    } else if k >= 0 {
      MobileIsLowest(items[k].allTypes);
    }
  }

  lemma MobileIsLowest(mask: bv64)
    ensures (mask & (1 << TYPE_MOBILE) == 1 << TYPE_MOBILE) == (mask & 1 == 1)
  {
  }

  class NativeAgpsHandler {
    var mConnected: bool
    /** Commands posted to the adapter and not yet processed. */
    var queue: seq<Reply>

    constructor ()
      ensures !mConnected && queue == []
    {
      mConnected, queue := false, [];
    }

    method Notify(items: seq<DataItem>)
      modifies this`mConnected
      ensures mConnected == ConnectedAfter(old(mConnected), items)
    {
      for i := 0 to |items|
        invariant mConnected == ConnectedAfter(old(mConnected), items[..i])
      {
        assert items[..i + 1][..i] == items[..i];
        match items[i]
        case NetworkInfo(allTypes) =>
          var mobileBit: bv64 := 1 << TYPE_MOBILE;
          mConnected := allTypes & mobileBit == mobileBit;
        case OtherItem =>
      }
      assert items[..|items|] == items;
    }

    method ProcessATLRequestRelease(typ: int, request: bool)
      modifies this`queue
      ensures queue == old(queue) + Answers(mConnected, [if request then CallRequest(typ) else CallRelease(typ)])
    {
      if typ == LOC_AGPS_TYPE_WWAN_ANY {
        if request {
          queue := queue + [if mConnected then ConnOpen else ConnFailed];
        } else {
          queue := queue + [ConnClosed];
        }
      }
    }
  }

  // ---------- walking a list while erasing from it

  function Staying(subs: seq<Subscriber>, erase: bool, who: Who): seq<Subscriber> {
    if erase then Miss(subs, who) else subs
  }

  ghost function Kept(kept: seq<Subscriber>, s: Subscriber, erase: bool, who: Who): seq<Subscriber> {
    if Selected(who, s) && erase then kept else kept + [s]
  }

  ghost function Said(said: seq<Obs>, s: Subscriber, n: Notice, who: Who): seq<Obs> {
    if Selected(who, s) then said + [Callback(n, s.handle)] else said
  }

  lemma WalkEnd(subs: seq<Subscriber>, erase: bool, who: Who, n: Notice)
    ensures Staying([], erase, who) == [] && Tell(n, Reach([], who)) == []
    ensures Staying(subs, erase, who) == if erase then Miss(subs, who) else subs
  {
  }

  lemma WalkKept(kept: seq<Subscriber>, rest: seq<Subscriber>, erase: bool, who: Who)
    requires rest != []
    ensures Kept(kept, rest[0], erase, who) + Staying(rest[1..], erase, who) == kept + Staying(rest, erase, who)
  {
    hide Selected;
    var tail := Staying(rest[1..], erase, who);
    if Selected(who, rest[0]) && erase {
      assert Staying(rest, erase, who) == [] + tail == tail;
    } else {
      assert Staying(rest, erase, who) == [rest[0]] + tail;
      assert (kept + [rest[0]]) + tail == kept + ([rest[0]] + tail);
    }
  }

  lemma TellCons(n: Notice, s: Subscriber, tail: seq<Subscriber>)
    ensures Tell(n, [s] + tail) == [Callback(n, s.handle)] + Tell(n, tail)
  {
    assert ([s] + tail)[1..] == tail;
  }

  lemma WalkSaid(said: seq<Obs>, rest: seq<Subscriber>, n: Notice, who: Who)
    requires rest != []
    ensures Said(said, rest[0], n, who) + Tell(n, Reach(rest[1..], who)) == said + Tell(n, Reach(rest, who))
  {
    hide Selected;
    var tail := Reach(rest[1..], who);
    if Selected(who, rest[0]) {
      assert Reach(rest, who) == [rest[0]] + tail;
      TellCons(n, rest[0], tail);
      hide Tell, Callback;
      var said' := [Callback(n, rest[0].handle)];
      assert (said + said') + Tell(n, tail) == said + (said' + Tell(n, tail));
    } else {
      assert Reach(rest, who) == [] + tail == tail;
    }
  }

  class AgpsStateMachine {
    const framework: NativeAgpsHandler
    var mState: State
    var mSubscriberList: seq<Subscriber>
    var mAgpsType: int
    /** Everything seen at the machine's edges so far. */
    ghost var history: seq<Obs>

    constructor (framework: NativeAgpsHandler, typ: int)
      ensures this.framework == framework && Value() == Start(typ)
    {
      this.framework, mState, mSubscriberList, mAgpsType, history := framework, Released, [], typ, [];
    }

    ghost function Value(): Machine
      reads this
    {
      Machine(mState, mSubscriberList, mAgpsType, history)
    }

    /** getSubscriber: where the first subscriber with the handle stands, or the length of the list. */
    method GetSubscriber(h: int) returns (at: nat)
      ensures at <= |mSubscriberList|
      ensures at < |mSubscriberList| <==> Listed(mSubscriberList, h)
      ensures at < |mSubscriberList| ==> mSubscriberList[at].handle == h
      ensures forall i :: 0 <= i < at ==> mSubscriberList[i].handle != h
    {
      at := 0;
      while at < |mSubscriberList| && mSubscriberList[at].handle != h
        invariant at <= |mSubscriberList|
        invariant forall i :: 0 <= i < at ==> mSubscriberList[i].handle != h
      {
        at := at + 1;
      }
    }

    method AnyActiveSubscribers() returns (any: bool)
      ensures any == AnyActive(mSubscriberList)
    {
      for i := 0 to |mSubscriberList|
        invariant forall j :: 0 <= j < i ==> mSubscriberList[j].inactive
      {
        if !mSubscriberList[i].inactive {
          return true;
        }
      }
      any := false;
    }

    method AddSubscriber(s: Subscriber)
      modifies this`mSubscriberList
      ensures mSubscriberList == Add(old(mSubscriberList), s)
    {
      var at := GetSubscriber(s.handle);
      if at == |mSubscriberList| {
        mSubscriberList := mSubscriberList + [s];
      }
    }

    method RequestOrReleaseDataConn(request: bool)
      modifies this`history, framework`queue
      ensures var call := if request then CallRequest(mAgpsType) else CallRelease(mAgpsType);
              && history == old(history) + [call]
              && framework.queue == old(framework.queue) + Answers(framework.mConnected, [call])
    {
      framework.ProcessATLRequestRelease(mAgpsType, request);
      history := history + [if request then CallRequest(mAgpsType) else CallRelease(mAgpsType)];
    }

    method NotifyEventToSubscriber(n: Notice, h: int)
      modifies this`history
      ensures history == old(history) + [Callback(n, h)]
    {
      history := history + [Callback(n, h)];
    }

    /** Walks the list, telling the selected subscribers and erasing them on the way if asked to. */
    method NotifyAllSubscribers(n: Notice, erase: bool, who: Who)
      modifies this`history, this`mSubscriberList
      ensures mSubscriberList == if erase then Miss(old(mSubscriberList), who) else old(mSubscriberList)
      ensures history == old(history) + Tell(n, Reach(old(mSubscriberList), who))
    {
      hide Staying, Tell, Reach, Selected;
      ghost var subs, kept, rest := mSubscriberList, [], mSubscriberList;
      ghost var said: seq<Obs> := [];
      var it := 0;
      while it < |mSubscriberList|
        invariant mSubscriberList == kept + rest && it == |kept|
        invariant kept + Staying(rest, erase, who) == Staying(subs, erase, who)
        invariant history == old(history) + said
        invariant said + Tell(n, Reach(rest, who)) == Tell(n, Reach(subs, who))
        decreases |rest|
      {
        var s := mSubscriberList[it];
        WalkKept(kept, rest, erase, who);
        WalkSaid(said, rest, n, who);
        if Selected(who, s) {
          NotifyEventToSubscriber(n, s.handle);
        }
        if Selected(who, s) && erase {
          mSubscriberList := mSubscriberList[..it] + mSubscriberList[it + 1..];
        } else {
          it := it + 1;
        }
        kept, said, rest := Kept(kept, s, erase, who), Said(said, s, n, who), rest[1..];
      }
      WalkEnd(subs, erase, who, n);
      assert rest == [];
    }

    method ProcessSubscribe(h: int)
      modifies this`history, this`mSubscriberList, this`mState, framework`queue
      ensures Value() == OnSubscribe(old(Value()), h)
      ensures framework.queue == old(framework.queue)
        + Answers(framework.mConnected, if old(mState).Released? then [CallRequest(mAgpsType)] else [])
    {
      hide Answer, Add;
      match mState {
        case Released =>
          AddSubscriber(Subscriber(h, false));
          RequestOrReleaseDataConn(true);
          mState := Pending;
        case Pending =>
          AddSubscriber(Subscriber(h, false));
        case Acquired =>
          NotifyEventToSubscriber(OpenOk, h);
          AddSubscriber(Subscriber(h, false));
        case Releasing =>
          AddSubscriber(Subscriber(h, false));
      }
    }

    /** at is where the unsubscribing client's entry stands. */
    method ProcessUnsubscribe(at: nat)
      requires at < |mSubscriberList|
      requires forall i :: 0 <= i < at ==> mSubscriberList[i].handle != mSubscriberList[at].handle
      modifies this`history, this`mSubscriberList, this`mState, framework`queue
      ensures Value() == OnUnsubscribe(old(Value()), old(mSubscriberList[at].handle))
      ensures framework.queue == old(framework.queue) + Answers(framework.mConnected,
        if (old(mState).Pending? || old(mState).Acquired?) && (mState.Releasing? || mState.Released?)
        then [CallRelease(mAgpsType)] else [])
    {
      hide Answer;
      var s := mSubscriberList[at];
      DeactivateAt(mSubscriberList, at);
      hide Deactivate;
      match mState {
        case Released =>
          NotifyEventToSubscriber(Close, s.handle);
        case Releasing =>
          // Every subscriber waits for the close, so the list keeps this one and is never empty here.
          mSubscriberList := mSubscriberList[at := s.(inactive := true)];
        case _ =>
          mSubscriberList := mSubscriberList[at := s.(inactive := true)];
          var any := AnyActiveSubscribers();
          if !any {
            mState := Releasing;
            RequestOrReleaseDataConn(false);
          }
      }
    }

    method ProcessGranted()
      modifies this`history, this`mSubscriberList, this`mState
      ensures Value() == OnGranted(old(Value()))
    {
      if mState.Pending? {
        mState := Acquired;
        NotifyAllSubscribers(OpenOk, false, Actives);
      }
    }

    /** The branch shared by a close and a denial while a call is being released. */
    method FinishRelease()
      modifies this`history, this`mSubscriberList, this`mState, framework`queue
      ensures Value() == EndRelease(old(Value()))
      ensures framework.queue == old(framework.queue)
        + Answers(framework.mConnected, if mState.Pending? then [CallRequest(mAgpsType)] else [])
    {
      hide Answer, Miss, Reach, Tell;
      NotifyAllSubscribers(Close, true, Inactives);
      var any := AnyActiveSubscribers();
      if any {
        mState := Pending;
        RequestOrReleaseDataConn(true);
      } else {
        mState := Released;
      }
    }

    method ProcessReleased()
      modifies this`history, this`mSubscriberList, this`mState, framework`queue
      ensures Value() == OnReleased(old(Value()))
      ensures framework.queue == old(framework.queue) + Answers(framework.mConnected,
        if old(mState).Releasing? && mState.Pending? then [CallRequest(mAgpsType)] else [])
    {
      hide Answer, Miss, Reach, Tell, EndRelease;
      match mState {
        case Released =>
        case Pending =>
        case Acquired =>
          mState := Released;
          NotifyAllSubscribers(Close, true, Everyone);
        case Releasing =>
          FinishRelease();
      }
    }

    method ProcessDenied()
      modifies this`history, this`mSubscriberList, this`mState, framework`queue
      ensures Value() == OnDenied(old(Value()))
      ensures framework.queue == old(framework.queue) + Answers(framework.mConnected,
        if old(mState).Releasing? && mState.Pending? then [CallRequest(mAgpsType)] else [])
    {
      hide Answer, Miss, Reach, Tell, EndRelease;
      match mState {
        case Released =>
        case Acquired =>
        case Pending =>
          mState := Released;
          NotifyAllSubscribers(OpenBad, true, Everyone);
        case Releasing =>
          FinishRelease();
      }
    }

    /** One input of the manager, whole: what the machine becomes and what its handler queues. */
    method Process(i: Input)
      modifies this`history, this`mSubscriberList, this`mState, this`mAgpsType, framework`queue
      ensures Value() == Step(old(Value()), i)
      ensures framework.queue == old(framework.queue) + Answers(framework.mConnected, CallOf(old(Value()), i))
    {
      ghost var m := Value();
      CallCases(m, i);
      hide Answer, Answers, OnSubscribe, OnUnsubscribe, OnGranted, OnReleased, OnDenied, CallOf, Listed;
      assert Answers(framework.mConnected, []) == [] by { NoAnswers(framework.mConnected); }
      match i {
        case Subscribe(h, typ) =>
          mAgpsType := typ;
          history := history + [if Listed(mSubscriberList, h) then AskedAgain(h) else Asked(h)];
          ProcessSubscribe(h);
        case Unsubscribe(h) =>
          var at := GetSubscriber(h);
          if at < |mSubscriberList| {
            history := history + [Left(h)];
            ProcessUnsubscribe(at);
          }
        case Granted =>
          history := history + [GotGranted];
          ProcessGranted();
        case Denied =>
          history := history + [GotDenied];
          ProcessDenied();
        case ClosedByFramework =>
          history := history + [GotReleased];
          ProcessReleased();
        case DropAll =>
          DropAllSubscribers();
      }
    }

    method DropAllSubscribers()
      modifies this`mSubscriberList
      ensures mSubscriberList == []
    {
      while mSubscriberList != []
        decreases |mSubscriberList|
      {
        mSubscriberList := mSubscriberList[1..];
      }
    }
  }

  lemma {:induction false} DeactivateAt(subs: seq<Subscriber>, at: nat)
    requires at < |subs| && forall i :: 0 <= i < at ==> subs[i].handle != subs[at].handle
    ensures Deactivate(subs, subs[at].handle) == subs[at := subs[at].(inactive := true)]
  {
    if at > 0 {
      assert subs == [subs[0]] + subs[1..];
      DeactivateAt(subs[1..], at - 1);
    }
  }

  // ---------- the manager

  class AgpsManager {
    var mAgnssNif: AgpsStateMachine?
    var mInternetNif: AgpsStateMachine?
    var useEmergencyPdn: bool
    /** Handles whose open failed at once because no machine serves their type. */
    ghost var refused: seq<int>
    const framework: NativeAgpsHandler

    constructor (framework: NativeAgpsHandler, useEmergencyPdn: bool)
      ensures this.framework == framework && Valid() && Spec() == Created(false, false, useEmergencyPdn)
    {
      this.framework, this.useEmergencyPdn := framework, useEmergencyPdn;
      mAgnssNif, mInternetNif, refused := null, null, [];
    }

    ghost predicate Valid()
      reads this, mAgnssNif, mInternetNif
    {
      && (mAgnssNif != null ==> mAgnssNif.framework == framework)
      && (mInternetNif != null ==> mInternetNif.framework == framework)
      && (mAgnssNif != null ==> mAgnssNif != mInternetNif)
    }

    ghost function ValueOf(nif: AgpsStateMachine?): Nif
      reads nif
    {
      if nif == null then Absent else Present(nif.Value())
    }

    ghost function Spec(): Manager
      reads this, mAgnssNif, mInternetNif
    {
      Manager(ValueOf(mAgnssNif), ValueOf(mInternetNif), useEmergencyPdn, refused)
    }

    method CreateAgpsStateMachines(wwan: bool, supl: bool, agpsCapable: bool)
      requires Valid()
      modifies this
      ensures Valid() && useEmergencyPdn == old(useEmergencyPdn) && refused == old(refused)
      ensures old(mInternetNif) == null && wwan ==>
        mInternetNif != null && fresh(mInternetNif) && mInternetNif.Value() == Start(LOC_AGPS_TYPE_WWAN_ANY)
      ensures !(old(mInternetNif) == null && wwan) ==> mInternetNif == old(mInternetNif)
      ensures old(mAgnssNif) == null && supl && agpsCapable ==>
        mAgnssNif != null && fresh(mAgnssNif) && mAgnssNif.Value() == Start(LOC_AGPS_TYPE_SUPL)
      ensures !(old(mAgnssNif) == null && supl && agpsCapable) ==> mAgnssNif == old(mAgnssNif)
    {
      if mInternetNif == null && wwan {
        mInternetNif := new AgpsStateMachine(framework, LOC_AGPS_TYPE_WWAN_ANY);
      }
      if agpsCapable {
        if mAgnssNif == null && supl {
          mAgnssNif := new AgpsStateMachine(framework, LOC_AGPS_TYPE_SUPL);
        }
      }
    }

    method GetAgpsStateMachine(typ: int) returns (sm: AgpsStateMachine?)
      ensures sm == if KindOf(typ).Agnss? then mAgnssNif else mInternetNif
    {
      if typ == LOC_AGPS_TYPE_INVALID || typ == LOC_AGPS_TYPE_SUPL || typ == LOC_AGPS_TYPE_SUPL_ES {
        sm := mAgnssNif;
      } else {
        sm := mInternetNif;
      }
    }

    method RequestATL(h: int, agpsType: int)
      requires Valid()
      modifies this`refused, mAgnssNif, mInternetNif, framework`queue
      ensures Valid() && Spec() == Dispatch(old(Spec()), RequestAtl(h, agpsType))
      ensures framework.queue
           == old(framework.queue) + Queued(old(Spec()), framework.mConnected, RequestAtl(h, agpsType))
    {
      hide Step, CallOf, Answers;
      var t := agpsType;
      if !useEmergencyPdn && t == LOC_AGPS_TYPE_SUPL_ES {
        t := LOC_AGPS_TYPE_SUPL;
      }
      var sm := GetAgpsStateMachine(t);
      if sm == null {
        refused := refused + [h];
        return;
      }
      sm.Process(Subscribe(h, t));
    }

    method ReleaseATL(h: int)
      requires Valid()
      modifies mAgnssNif, mInternetNif, framework`queue
      ensures Valid() && Spec() == Dispatch(old(Spec()), ReleaseAtl(h))
      ensures framework.queue == old(framework.queue) + Queued(old(Spec()), framework.mConnected, ReleaseAtl(h))
    {
      hide Step, CallOf, Answers;
      var sm: AgpsStateMachine? := null;
      if mAgnssNif != null {
        var at := mAgnssNif.GetSubscriber(h);
        if at < |mAgnssNif.mSubscriberList| {
          sm := mAgnssNif;
        }
      }
      if sm == null && mInternetNif != null {
        var at := mInternetNif.GetSubscriber(h);
        if at < |mInternetNif.mSubscriberList| {
          sm := mInternetNif;
        }
      }
      if sm != null {
        sm.Process(Unsubscribe(h));
      }
    }

    /** reportAtlOpenSuccess, reportAtlOpenFailed and reportAtlClosed differ only in the event. */
    method Report(msg: Msg)
      requires Valid() && (msg.OpenSuccess? || msg.OpenFailure? || msg.CloseReport?)
      modifies mAgnssNif, mInternetNif, framework`queue
      ensures Valid() && Spec() == Dispatch(old(Spec()), msg)
      ensures framework.queue == old(framework.queue) + Queued(old(Spec()), framework.mConnected, msg)
    {
      hide Step, CallOf, Answers;
      var sm := GetAgpsStateMachine(msg.typ);
      if sm != null {
        sm.Process(if msg.OpenSuccess? then Granted else if msg.OpenFailure? then Denied else ClosedByFramework);
      }
    }

    method HandleModemSSR()
      requires Valid()
      modifies mAgnssNif, mInternetNif
      ensures Valid() && Spec() == Dispatch(old(Spec()), ModemSsr)
    {
      if mAgnssNif != null {
        mAgnssNif.DropAllSubscribers();
      }
      if mInternetNif != null {
        mInternetNif.DropAllSubscribers();
      }
    }
  }
}
