/** What one client is told, exactly: which callback, on which event, and nothing else. All of it can be read
    off the history of the machine's edges. */
module AgpsService {
  import opened Common
  import opened AgpsMachine
  import opened AgpsTraces

  /** Where a handle stands: not subscribed, in line for a call, on a call that is up, or on its way out. */
  datatype Place = Outside | InLine | OnCall | OnTheWayOut

  /** A callback that must come before anything else happens at the edges. */
  datatype Debt = Nothing | Owes(callback: Obs)

  /** What the history says of a handle; right is false once something happened that should not, or something
      that should have did not. */
  datatype Service = Service(link: Link, place: Place, debt: Debt, right: bool)

  predicate ComesIn(o: Obs) {
    o.Asked? || o.AskedAgain? || o.Left? || o.GotGranted? || o.GotDenied? || o.GotReleased?
  }

  function Failed(v: Service): Service {
    v.(right := false)
  }

  function Pays(v: Service, o: Obs, h: int, g: int): Service {
    if g != h then v else if v.debt == Owes(o) then v.(debt := Nothing) else Failed(v)
  }

  /** Asking while the call is up is owed an open, at once. A grant owes one to whoever is in line. A denial
      while the call is wanted owes everyone a failure. The end of an established call owes everyone a close;
      the end of a release, by a close or a denial, owes one to whoever is on the way out. A call is requested
      when nobody is on the way out, and released when everybody is. */
  function NextService(h: int, v: Service, o: Obs): Service {
    if !v.right then v
    else if ComesIn(o) && v.debt != Nothing then Failed(v)
    else
      match o
      case Asked(g) =>
        if g != h then v
        else if !v.place.Outside? then Failed(v)
        else if v.link.Up? then v.(place := OnCall, debt := Owes(Opened(h)))
        else v.(place := InLine)
      case AskedAgain(g) =>
        if g != h then v
        else if v.place.Outside? then Failed(v)
        else if v.link.Up? then v.(debt := Owes(Opened(h)))
        else v
      case Left(g) => if g != h then v else if v.place.Outside? then Failed(v) else v.(place := OnTheWayOut)
      case GotGranted =>
        if !v.link.Wanted? then v
        else if v.place.InLine? then Service(Up, OnCall, Owes(Opened(h)), true)
        else v.(link := Up)
      case GotDenied =>
        if v.link.Wanted? then
          if v.place.Outside? then v.(link := Idle) else Service(Idle, Outside, Owes(OpenFailed(h)), true)
        else if v.link.Idle? && v.place.OnTheWayOut? then Service(Idle, Outside, Owes(Closed(h)), true)
        else v
      case GotReleased =>
        if v.link.Up? then
          if v.place.Outside? then v.(link := Idle) else Service(Idle, Outside, Owes(Closed(h)), true)
        else if v.link.Idle? && v.place.OnTheWayOut? then Service(Idle, Outside, Owes(Closed(h)), true)
        else v
      case CallRequest(_) =>
        if v.link.Idle? && v.debt.Nothing? && (v.place.Outside? || v.place.InLine?)
        then v.(link := Wanted) else Failed(v)
      case CallRelease(_) =>
        if (v.link.Wanted? || v.link.Up?) && v.debt.Nothing? && (v.place.Outside? || v.place.OnTheWayOut?)
        then v.(link := Idle) else Failed(v)
      case Opened(g) => Pays(v, o, h, g)
      case OpenFailed(g) => Pays(v, o, h, g)
      case Closed(g) => Pays(v, o, h, g)
  }

  function ServiceRule(h: int): (Service, Obs) -> Service {
    (v, o) => NextService(h, v, o)
  }

  const NEWCOMER := Service(Idle, Outside, Nothing, true)

  function ServiceOf(m: Machine, h: int): Service {
    Fold(ServiceRule(h), NEWCOMER, m.history)
  }

  function PlaceFor(m: Machine, h: int): Place {
    if !Listed(m.subs, h) then Outside
    else if !ActiveIn(m.subs, h) then OnTheWayOut
    else if m.state.Acquired? then OnCall
    else InLine
  }

  function ServiceFor(m: Machine, h: int): Service {
    Service(LinkFor(m.state), PlaceFor(m, h), Nothing, true)
  }

  lemma ServiceNote(m: Machine, o: Obs, h: int)
    ensures ServiceOf(Note(m, [o]), h) == NextService(h, ServiceOf(m, h), o)
  {
    FoldNote(ServiceRule(h), NEWCOMER, m, [o]);
    FoldOne(ServiceRule(h), ServiceOf(m, h), o);
  }

  lemma ServiceTell(m: Machine, n: Notice, subs: seq<Subscriber>, h: int)
    requires DistinctHandles(subs)
    ensures ServiceOf(Note(m, Tell(n, subs)), h)
         == if Listed(subs, h) then NextService(h, ServiceOf(m, h), Callback(n, h)) else ServiceOf(m, h)
  {
    FoldNote(ServiceRule(h), NEWCOMER, m, Tell(n, subs));
    TellFold(ServiceRule(h), h, ServiceOf(m, h), n, subs);
  }

  lemma SameHistoryService(m: Machine, n: Machine, h: int)
    requires m.history == n.history
    ensures ServiceOf(m, h) == ServiceOf(n, h)
  {
  }

  /** An event that ends a release has been noted; the rest of the step pays what it owes. */
  lemma ReleaseEnds(m: Machine, got: Obs, h: int)
    requires Agree(m) && m.state.Releasing? && ServiceOf(m, h) == ServiceFor(m, h)
    requires got.GotDenied? || got.GotReleased?
    ensures var n := Note(m, [got]); ServiceOf(EndRelease(n), h) == ServiceFor(EndRelease(n), h)
  {
    var n := Note(m, [got]);
    var rest, out := Miss(m.subs, Inactives), Reach(m.subs, Inactives);
    var told := Note(n.(subs := rest), Tell(Close, out));
    ReachedHandles(m.subs, h);
    SublistsDistinct(m.subs, Inactives);
    ActiveIsListed(m.subs, h);
    hide Reach, Miss, Tell, Listed, ActiveIn, DistinctHandles, AnyActive, ServiceOf;
    ServiceNote(m, got, h);
    SameHistoryService(n, n.(subs := rest), h);
    ServiceTell(n.(subs := rest), Close, out, h);
    ServiceNote(told.(state := Pending), CallRequest(m.typ), h);
    SameHistoryService(told, told.(state := Pending), h);
    SameHistoryService(told, told.(state := Released), h);
  }

  /** Everyone goes, with the notice that the event owes. */
  lemma EveryoneGoes(m: Machine, got: Obs, notice: Notice, h: int)
    requires Agree(m) && ServiceOf(m, h) == ServiceFor(m, h)
    requires (m.state.Pending? && got.GotDenied? && notice.OpenBad?)
             || (m.state.Acquired? && got.GotReleased? && notice.Close?)
    ensures var e := Note(m, [got]).(state := Released, subs := Miss(m.subs, Everyone));
            var t := Note(e, Tell(notice, Reach(m.subs, Everyone)));
            ServiceOf(t, h) == ServiceFor(t, h)
  {
    var e := Note(m, [got]).(state := Released, subs := Miss(m.subs, Everyone));
    NobodyMissed(m.subs);
    EmptyLists(h);
    ReachedHandles(m.subs, h);
    SublistsDistinct(m.subs, Everyone);
    hide Reach, Miss, Tell, Listed, ActiveIn, DistinctHandles, AnyActive, ServiceOf;
    ServiceNote(m, got, h);
    SameHistoryService(Note(m, [got]), e, h);
    ServiceTell(e, notice, Reach(m.subs, Everyone), h);
  }

  lemma StepService(m: Machine, i: Input, h: int)
    requires Agree(m) && !i.DropAll? && ServiceOf(m, h) == ServiceFor(m, h)
    ensures ServiceOf(Step(m, i), h) == ServiceFor(Step(m, i), h)
  {
    EmptyLists(h);
    ActiveIsListed(m.subs, h);
    hide Reach, Miss, Tell, Add, Deactivate, Listed, AnyActive, EndRelease, DistinctHandles, ActiveIn, ServiceOf;
    match i
    case Subscribe(g, typ) => SubscribeService(m, g, typ, h);
    case Unsubscribe(g) => if Listed(m.subs, g) { UnsubscribeService(m, g, h); }
    case Granted => GrantService(m, h);
    case Denied =>
      ServiceNote(m, GotDenied, h);
      if m.state.Releasing? { ReleaseEnds(m, GotDenied, h); }
      if m.state.Pending? { EveryoneGoes(m, GotDenied, OpenBad, h); }
    case ClosedByFramework =>
      ServiceNote(m, GotReleased, h);
      if m.state.Releasing? { ReleaseEnds(m, GotReleased, h); }
      if m.state.Acquired? { EveryoneGoes(m, GotReleased, Close, h); }
  }

  lemma SubscribeService(m: Machine, g: int, typ: int, h: int)
    requires Agree(m) && ServiceOf(m, h) == ServiceFor(m, h)
    ensures ServiceOf(Step(m, Subscribe(g, typ)), h) == ServiceFor(Step(m, Subscribe(g, typ)), h)
  {
    EmptyLists(h);
    EmptyLists(g);
    ActiveIsListed(m.subs, h);
    AddFacts(m.subs, g);
    AddActive(m.subs, g, h);
    hide Add, Listed, AnyActive, DistinctHandles, ActiveIn, ServiceOf;
    var asked := if Listed(m.subs, g) then AskedAgain(g) else Asked(g);
    var n := Note(m.(typ := typ), [asked]);
    var added := Add(n.subs, Subscriber(g, false));
    SameHistoryService(m, m.(typ := typ), h);
    ServiceNote(m.(typ := typ), asked, h);
    SameHistoryService(n, n.(subs := added, state := Pending), h);
    SameHistoryService(n, n.(subs := added), h);
    ServiceNote(n.(subs := added, state := Pending), CallRequest(typ), h);
    ServiceNote(n.(subs := added), Opened(g), h);
  }

  lemma UnsubscribeService(m: Machine, g: int, h: int)
    requires Agree(m) && Listed(m.subs, g) && ServiceOf(m, h) == ServiceFor(m, h)
    ensures ServiceOf(Step(m, Unsubscribe(g)), h) == ServiceFor(Step(m, Unsubscribe(g)), h)
  {
    var n := Note(m, [Left(g)]);
    var subs := Deactivate(n.subs, g);
    EmptyLists(g);
    ActiveIsListed(m.subs, h);
    DeactivateKeepsDistinct(m.subs, g);
    DeactivateActive(m.subs, g, h);
    if !AnyActive(subs) { NobodyActive(subs, h); }
    hide Deactivate, Listed, AnyActive, DistinctHandles, ActiveIn, ServiceOf;
    ServiceNote(m, Left(g), h);
    SameHistoryService(n, n.(subs := subs), h);
    SameHistoryService(n, n.(subs := subs, state := Releasing), h);
    ServiceNote(n.(subs := subs, state := Releasing), CallRelease(m.typ), h);
  }

  lemma GrantService(m: Machine, h: int)
    requires Agree(m) && ServiceOf(m, h) == ServiceFor(m, h)
    ensures ServiceOf(Step(m, Granted), h) == ServiceFor(Step(m, Granted), h)
  {
    var n := Note(m, [GotGranted]);
    ReachedHandles(m.subs, h);
    SublistsDistinct(m.subs, Actives);
    ActiveIsListed(m.subs, h);
    hide Reach, Tell, Listed, AnyActive, DistinctHandles, ActiveIn, ServiceOf;
    ServiceNote(m, GotGranted, h);
    SameHistoryService(n, n.(state := Acquired), h);
    ServiceTell(n.(state := Acquired), OpenOk, Reach(m.subs, Actives), h);
  }

  /** In every run without modem restarts, and for every handle: each callback comes on the event that owes
      it, none is left out, none comes unowed, and calls are requested and released when they should be. */
  lemma {:induction false} ServiceIsExact(typ: int, inputs: seq<Input>, h: int)
    requires NoDrop(inputs)
    ensures var m := Run(Start(typ), inputs); ServiceOf(m, h) == ServiceFor(m, h)
  {
    hide Step, Agree;
    if inputs != [] {
      var front := inputs[..|inputs| - 1];
      ServiceIsExact(typ, front, h);
      StateAndListAgree(typ, front);
      StepService(Run(Start(typ), front), inputs[|inputs| - 1], h);
    }
  }

  // ---------- the same, one step at a time

  /** What a step adds to the history. */
  function Added(m: Machine, i: Input): (os: seq<Obs>)
    ensures Step(m, i).history == m.history + os
  {
    StepExtendsHistory(m, i);
    Step(m, i).history[|m.history|..]
  }

  lemma {:induction false} TellMeans(n: Notice, subs: seq<Subscriber>, h: int)
    ensures Callback(n, h) in Tell(n, subs) <==> Listed(subs, h)
    ensures forall o :: o in Tell(n, subs) ==> exists g :: o == Callback(n, g)
  {
    if subs != [] {
      TellMeans(n, subs[1..], h);
      assert Listed(subs, h) <==> subs[0].handle == h || Listed(subs[1..], h) by {
        if i :| 0 <= i < |subs| && subs[i].handle == h && i > 0 { assert subs[1..][i - 1].handle == h; }
        if i :| 0 <= i < |subs[1..]| && subs[1..][i].handle == h { assert subs[i + 1].handle == h; }
      }
    }
  }

  function CallIf(wanted: bool, call: Obs): seq<Obs> {
    if wanted then [call] else []
  }

  /** What a release that ends adds after its event. */
  function EndAdds(m: Machine): seq<Obs> {
    Tell(Close, Reach(m.subs, Inactives)) + CallIf(AnyActive(Miss(m.subs, Inactives)), CallRequest(m.typ))
  }

  function Adds(m: Machine, i: Input): seq<Obs> {
    match i
    case Subscribe(h, typ) =>
      [if Listed(m.subs, h) then AskedAgain(h) else Asked(h)]
      + CallIf(m.state.Released?, CallRequest(typ)) + CallIf(m.state.Acquired?, Opened(h))
    case Unsubscribe(h) =>
      if !Listed(m.subs, h) then []
      else [Left(h)] + CallIf(m.state.Released?, Closed(h))
           + CallIf((m.state.Pending? || m.state.Acquired?) && !AnyActive(Deactivate(m.subs, h)), CallRelease(m.typ))
    case Granted => [GotGranted] + if m.state.Pending? then Tell(OpenOk, Reach(m.subs, Actives)) else []
    case Denied =>
      [GotDenied] + if m.state.Pending? then Tell(OpenBad, Reach(m.subs, Everyone))
                    else if m.state.Releasing? then EndAdds(m) else []
    case ClosedByFramework =>
      [GotReleased] + if m.state.Acquired? then Tell(Close, Reach(m.subs, Everyone))
                      else if m.state.Releasing? then EndAdds(m) else []
    case DropAll => []
  }

  lemma NobodyIsActive()
    ensures !AnyActive([])
  {
  }

  lemma StepAdds(m: Machine, i: Input)
    ensures Step(m, i).history == m.history + Adds(m, i)
  {
    NobodyIsActive();
    hide Reach, Miss, Tell, Add, Deactivate, AnyActive, Listed;
    match i
    case Subscribe(h, typ) =>
    case Unsubscribe(h) =>
    case Granted => Regrouped(m.history, [GotGranted], Tell(OpenOk, Reach(m.subs, Actives)));
    case Denied =>
      Regrouped(m.history, [GotDenied], Tell(OpenBad, Reach(m.subs, Everyone)));
      EndRegrouped(m, GotDenied);
    case ClosedByFramework =>
      Regrouped(m.history, [GotReleased], Tell(Close, Reach(m.subs, Everyone)));
      EndRegrouped(m, GotReleased);
    case DropAll =>
  }

  lemma EndRegrouped(m: Machine, got: Obs)
    ensures EndRelease(Note(m, [got])).history == m.history + ([got] + EndAdds(m))
  {
    hide Reach, Miss, Tell, AnyActive;
  }

  lemma AddedIs(m: Machine, i: Input)
    ensures Added(m, i) == Adds(m, i)
  {
    StepAdds(m, i);
    hide Step, Adds;
    assert (m.history + Adds(m, i))[|m.history|..] == Adds(m, i);
  }

  /** Which of the three callbacks a list of observables holds for a handle. */
  predicate Told(os: seq<Obs>, h: int, open: bool, fail: bool, close: bool) {
    (Opened(h) in os <==> open) && (OpenFailed(h) in os <==> fail) && (Closed(h) in os <==> close)
  }

  lemma ToldBoth(a: seq<Obs>, b: seq<Obs>, h: int, open: bool, fail: bool, close: bool)
    requires Told(a, h, false, false, false) && Told(b, h, open, fail, close)
    ensures Told(a + b, h, open, fail, close)
  {
  }

  lemma ToldThenCall(a: seq<Obs>, h: int, close: bool, wanted: bool, call: Obs)
    requires Told(a, h, false, false, close) && (call.CallRequest? || call.CallRelease?)
    ensures Told(a + CallIf(wanted, call), h, false, false, close)
  {
  }

  predicate OpensNow(m: Machine, i: Input, h: int) {
    (i.Granted? && m.state.Pending? && ActiveIn(m.subs, h)) || (i.Subscribe? && i.h == h && m.state.Acquired?)
  }

  predicate FailsNow(m: Machine, i: Input, h: int) {
    i.Denied? && m.state.Pending? && Listed(m.subs, h)
  }

  predicate ClosesNow(m: Machine, i: Input, h: int) {
    || (i.ClosedByFramework? && m.state.Acquired? && Listed(m.subs, h))
    || ((i.ClosedByFramework? || i.Denied?) && m.state.Releasing? && Listed(m.subs, h) && !ActiveIn(m.subs, h))
  }

  lemma EndAddsTold(m: Machine, h: int)
    requires DistinctHandles(m.subs)
    ensures Told(EndAdds(m), h, false, false, Listed(m.subs, h) && !ActiveIn(m.subs, h))
  {
    ReachedHandles(m.subs, h);
    TellMeans(Close, Reach(m.subs, Inactives), h);
    hide Reach, Miss, Tell, ActiveIn, DistinctHandles, Listed, AnyActive;
    ToldThenCall(Tell(Close, Reach(m.subs, Inactives)), h, Listed(m.subs, h) && !ActiveIn(m.subs, h),
                 AnyActive(Miss(m.subs, Inactives)), CallRequest(m.typ));
  }

  lemma EventAddsTold(m: Machine, i: Input, h: int)
    requires DistinctHandles(m.subs) && (i.Granted? || i.Denied? || i.ClosedByFramework?)
    ensures Told(Adds(m, i), h, OpensNow(m, i, h), FailsNow(m, i, h), ClosesNow(m, i, h))
  {
    ReachedHandles(m.subs, h);
    TellMeans(OpenOk, Reach(m.subs, Actives), h);
    TellMeans(OpenBad, Reach(m.subs, Everyone), h);
    TellMeans(Close, Reach(m.subs, Everyone), h);
    EndAddsTold(m, h);
    hide Reach, Tell, ActiveIn, DistinctHandles, Listed, EndAdds, Told;
    var got := if i.Granted? then GotGranted else if i.Denied? then GotDenied else GotReleased;
    EventIsNoCallback(got, h);
    if i.Granted? && m.state.Pending? {
      SameTold(Tell(OpenOk, Reach(m.subs, Actives)), h, ActiveIn(m.subs, h), false, false);
      ToldBoth([got], Tell(OpenOk, Reach(m.subs, Actives)), h, ActiveIn(m.subs, h), false, false);
    } else if i.Denied? && m.state.Pending? {
      SameTold(Tell(OpenBad, Reach(m.subs, Everyone)), h, false, Listed(m.subs, h), false);
      ToldBoth([got], Tell(OpenBad, Reach(m.subs, Everyone)), h, false, Listed(m.subs, h), false);
    } else if i.ClosedByFramework? && m.state.Acquired? {
      SameTold(Tell(Close, Reach(m.subs, Everyone)), h, false, false, Listed(m.subs, h));
      ToldBoth([got], Tell(Close, Reach(m.subs, Everyone)), h, false, false, Listed(m.subs, h));
    } else if !i.Granted? && m.state.Releasing? {
      ToldBoth([got], EndAdds(m), h, false, false, Listed(m.subs, h) && !ActiveIn(m.subs, h));
    } else {
      assert [got] + [] == [got];
    }
  }

  lemma SameTold(os: seq<Obs>, h: int, open: bool, fail: bool, close: bool)
    requires (Opened(h) in os <==> open) && (OpenFailed(h) in os <==> fail) && (Closed(h) in os <==> close)
    ensures Told(os, h, open, fail, close)
  {
  }

  lemma EventIsNoCallback(got: Obs, h: int)
    requires got.GotGranted? || got.GotDenied? || got.GotReleased?
    ensures Told([got], h, false, false, false)
  {
  }

  lemma ClientAddsTold(m: Machine, i: Input, h: int)
    requires AgreeDespiteDrops(m) && (i.Subscribe? || i.Unsubscribe? || i.DropAll?)
    ensures Told(Adds(m, i), h, OpensNow(m, i, h), FailsNow(m, i, h), ClosesNow(m, i, h))
  {
    if i.Unsubscribe? { EmptyLists(i.h); }
    hide Listed, ActiveIn, AnyActive, Deactivate, DistinctHandles;
  }

  /** A failure is told on a denial while the call is wanted, to everyone listed. A close is told when an
      established call ends, to everyone listed, and when a release ends, by a close or a denial, to those on
      the way out. An open is told on a grant, to those in line, and at once to whoever asks while it is up. */
  lemma CallbacksOfStep(m: Machine, i: Input, h: int)
    requires AgreeDespiteDrops(m)
    ensures Opened(h) in Added(m, i) <==>
              || (i.Granted? && m.state.Pending? && ActiveIn(m.subs, h))
              || (i.Subscribe? && i.h == h && m.state.Acquired?)
    ensures OpenFailed(h) in Added(m, i) <==> i.Denied? && m.state.Pending? && Listed(m.subs, h)
    ensures Closed(h) in Added(m, i) <==>
              || (i.ClosedByFramework? && m.state.Acquired? && Listed(m.subs, h))
              || ((i.ClosedByFramework? || i.Denied?) && m.state.Releasing?
                  && Listed(m.subs, h) && !ActiveIn(m.subs, h))
  {
    AddedIs(m, i);
    if i.Granted? || i.Denied? || i.ClosedByFramework? {
      EventAddsTold(m, i, h);
    } else {
      ClientAddsTold(m, i, h);
    }
    hide Listed, ActiveIn, Adds, Added, DistinctHandles;
  }

  // ---------- after a modem restart

  predicate ToldTo(o: Obs, h: int) {
    o == Opened(h) || o == OpenFailed(h) || o == Closed(h)
  }

  lemma UnlistedStays(m: Machine, i: Input, h: int)
    requires AgreeDespiteDrops(m) && !Listed(m.subs, h) && !(i.Subscribe? && i.h == h)
    ensures !Listed(Step(m, i).subs, h)
    ensures forall o :: o in Added(m, i) ==> !ToldTo(o, h)
  {
    CallbacksOfStep(m, i, h);
    ActiveIsListed(m.subs, h);
    UnlistedNext(m, i, h);
    hide Step, Listed, ActiveIn, Added;
  }

  lemma UnlistedNext(m: Machine, i: Input, h: int)
    requires AgreeDespiteDrops(m) && !Listed(m.subs, h) && !(i.Subscribe? && i.h == h)
    ensures !Listed(Step(m, i).subs, h)
  {
    ReachedHandles(m.subs, h);
    ActiveIsListed(m.subs, h);
    NobodyMissed(m.subs);
    EmptyLists(h);
    if i.Subscribe? { AddFacts(m.subs, i.h); }
    if i.Unsubscribe? { DeactivateKeepsDistinct(m.subs, i.h); }
    hide Reach, Miss, Tell, Add, Deactivate, AnyActive, ActiveIn, DistinctHandles, Listed;
  }

  /** A modem restart drops every subscription in silence: from then on no handle is told anything until it
      asks again. */
  lemma {:induction false} RestartSilences(typ: int, before: seq<Input>, after: seq<Input>, h: int)
    requires forall k :: 0 <= k < |after| && after[k].Subscribe? ==> after[k].h != h
    ensures var m, n := Run(Start(typ), before), Run(Start(typ), before + [DropAll] + after);
            && !Listed(n.subs, h) && m.history <= n.history
            && forall p :: |m.history| <= p < |n.history| ==> !ToldTo(n.history[p], h)
    decreases |after|
  {
    var dropped := before + [DropAll];
    if after == [] {
      assert before + [DropAll] + after == dropped && dropped[..|before|] == before;
      EmptyLists(h);
    } else {
      hide Step, Listed, ToldTo, Added, AgreeDespiteDrops;
      var k := |after| - 1;
      RestartSilences(typ, before, after[..k], h);
      StateAndListAgree(typ, dropped + after[..k]);
      UnlistedStays(Run(Start(typ), dropped + after[..k]), after[k], h);
      RunAdds(Start(typ), dropped + after[..k], after[k]);
      assert dropped + after[..k] + [after[k]] == dropped + after;
    }
  }

  lemma RunAdds(m: Machine, inputs: seq<Input>, i: Input)
    ensures Run(m, inputs + [i]) == Step(Run(m, inputs), i)
    ensures Run(m, inputs + [i]).history == Run(m, inputs).history + Added(Run(m, inputs), i)
  {
    hide Step;
    RunSnoc(m, inputs, i);
  }
}
