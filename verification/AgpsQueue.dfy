/** The machine joined to the framework side that answers it: every call of type WWAN_ANY is answered by
    one reply, and the replies wait in one first-in first-out queue. */
module AgpsQueue {
  import opened Common
  import opened AgpsMachine
  import opened AgpsTraces

  datatype Reply = ConnOpen | ConnFailed | ConnClosed

  datatype World = World(m: Machine, connected: bool, queue: seq<Reply>)

  datatype Action =
    | Ask(h: int, typ: int)       // a client's request reaches the machine
    | Leave(h: int)               // a client's release does
    | Deliver                     // the oldest reply does
    | Network(connected: bool)    // the handler is told about mobile data
    | ModemRestart

  /** NativeAgpsHandler's answer to one observable of the machine. */
  function Answer(connected: bool, o: Obs): seq<Reply> {
    match o
    case CallRequest(t) =>
      if t != LOC_AGPS_TYPE_WWAN_ANY then [] else if connected then [ConnOpen] else [ConnFailed]
    case CallRelease(t) => if t != LOC_AGPS_TYPE_WWAN_ANY then [] else [ConnClosed]
    case _ => []
  }

  function Answers(connected: bool, os: seq<Obs>): seq<Reply> {
    if os == [] then [] else Answer(connected, os[0]) + Answers(connected, os[1..])
  }

  function EventOf(r: Reply): Input {
    match r case ConnOpen => Granted case ConnFailed => Denied case ConnClosed => ClosedByFramework
  }

  /** The observables that one machine step adds. */
  function Emitted(m: Machine, i: Input): (os: seq<Obs>)
    ensures Step(m, i).history == m.history + os
  {
    StepExtendsHistory(m, i);
    Step(m, i).history[|m.history|..]
  }

  function Feed(w: World, i: Input): World {
    World(Step(w.m, i), w.connected, w.queue + Answers(w.connected, Emitted(w.m, i)))
  }

  function Act(w: World, a: Action): World {
    match a
    case Ask(h, typ) => Feed(w, Subscribe(h, typ))
    case Leave(h) => Feed(w, Unsubscribe(h))
    case Deliver => if w.queue == [] then w else Feed(w.(queue := w.queue[1..]), EventOf(w.queue[0]))
    case Network(c) => w.(connected := c)
    case ModemRestart => Feed(w, DropAll)
  }

  function Acts(w: World, actions: seq<Action>): World {
    if actions == [] then w else Act(Acts(w, actions[..|actions| - 1]), actions[|actions| - 1])
  }

  function Boot(connected: bool): World {
    World(Start(LOC_AGPS_TYPE_WWAN_ANY), connected, [])
  }

  ghost predicate WwanOnly(actions: seq<Action>) {
    forall k :: 0 <= k < |actions| ==> actions[k].Ask? ==> actions[k].typ == LOC_AGPS_TYPE_WWAN_ANY
  }

  // ---------- calls and events in a history

  predicate IsCall(o: Obs) { o.CallRequest? || o.CallRelease? }

  predicate IsEvent(o: Obs) { o.GotGranted? || o.GotDenied? || o.GotReleased? }

  /** A call that the native handler answers. */
  predicate IsAnswered(o: Obs) { (o.CallRequest? || o.CallRelease?) && o.typ == LOC_AGPS_TYPE_WWAN_ANY }

  function Only(keep: Obs -> bool, os: seq<Obs>): seq<Obs> {
    if os == [] then [] else (if keep(os[0]) then [os[0]] else []) + Only(keep, os[1..])
  }

  function Calls(os: seq<Obs>): seq<Obs> { Only(IsCall, os) }

  function Events(os: seq<Obs>): seq<Obs> { Only(IsEvent, os) }

  function Answered(calls: seq<Obs>): seq<Obs> { Only(IsAnswered, calls) }

  lemma OnlyFirst(keep: Obs -> bool, os: seq<Obs>)
    requires os != []
    ensures Only(keep, os) == (if keep(os[0]) then [os[0]] else []) + Only(keep, os[1..])
  {
  }

  lemma {:induction false} OnlyAppend(keep: Obs -> bool, a: seq<Obs>, b: seq<Obs>)
    ensures Only(keep, a + b) == Only(keep, a) + Only(keep, b)
  {
    if a == [] {
      assert a + b == b;
    } else {
      hide Only;
      assert (a + b)[0] == a[0] && (a + b)[1..] == a[1..] + b;
      OnlyAppend(keep, a[1..], b);
      OnlyFirst(keep, a);
      OnlyFirst(keep, a + b);
      Regrouped(if keep(a[0]) then [a[0]] else [], Only(keep, a[1..]), Only(keep, b));
    }
  }

  lemma OnlyOne(keep: Obs -> bool, o: Obs)
    ensures Only(keep, [o]) == if keep(o) then [o] else []
  {
    assert Only(keep, [o]) == (if keep(o) then [o] else []) + Only(keep, []);
  }

  lemma {:induction false} ProjectTell(n: Notice, subs: seq<Subscriber>)
    ensures Calls(Tell(n, subs)) == [] && Events(Tell(n, subs)) == []
  {
    if subs != [] {
      ProjectTell(n, subs[1..]);
    }
  }

  lemma {:induction false} AnswersAreToCalls(c: bool, os: seq<Obs>)
    ensures Answers(c, os) == Answers(c, Calls(os))
  {
    if os != [] {
      AnswersAreToCalls(c, os[1..]);
      var rest := Calls(os[1..]);
      if IsCall(os[0]) {
        assert Calls(os) == [os[0]] + rest;
        assert ([os[0]] + rest)[1..] == rest;
      } else {
        assert Calls(os) == [] + rest == rest;
      }
    }
  }

  function MCalls(m: Machine): seq<Obs> { Calls(m.history) }

  function MEvents(m: Machine): seq<Obs> { Events(m.history) }

  lemma ProjectNote(m: Machine, o: Obs)
    ensures MCalls(Note(m, [o])) == MCalls(m) + if IsCall(o) then [o] else []
    ensures MEvents(Note(m, [o])) == MEvents(m) + if IsEvent(o) then [o] else []
  {
    OnlyAppend(IsCall, m.history, [o]);
    OnlyAppend(IsEvent, m.history, [o]);
    OnlyOne(IsCall, o);
    OnlyOne(IsEvent, o);
  }

  lemma ProjectNoteTell(m: Machine, n: Notice, subs: seq<Subscriber>)
    ensures MCalls(Note(m, Tell(n, subs))) == MCalls(m) && MEvents(Note(m, Tell(n, subs))) == MEvents(m)
  {
    OnlyAppend(IsCall, m.history, Tell(n, subs));
    OnlyAppend(IsEvent, m.history, Tell(n, subs));
    ProjectTell(n, subs);
  }

  /** The framework call that a step makes, if it makes one. */
  function CallOf(m: Machine, i: Input): seq<Obs> {
    var n := Step(m, i);
    if n.state.Pending? && !m.state.Pending? then [CallRequest(n.typ)]
    else if (m.state.Pending? || m.state.Acquired?) && i.Unsubscribe? && (n.state.Releasing? || n.state.Released?) then
      [CallRelease(n.typ)]
    else []
  }

  function EventIn(i: Input): seq<Obs> {
    match i case Granted => [GotGranted] case Denied => [GotDenied] case ClosedByFramework => [GotReleased] case _ => []
  }

  lemma EndReleaseProjects(m: Machine)
    ensures MCalls(EndRelease(m)) == MCalls(m) + if EndRelease(m).state.Pending? then [CallRequest(m.typ)] else []
    ensures MEvents(EndRelease(m)) == MEvents(m) && EndRelease(m).typ == m.typ
  {
    hide Reach, Miss, Tell, Calls, Events;
    var rest := Miss(m.subs, Inactives);
    var told := Note(m.(subs := rest), Tell(Close, Reach(m.subs, Inactives)));
    ProjectNoteTell(m.(subs := rest), Close, Reach(m.subs, Inactives));
    ProjectNote(told.(state := Pending), CallRequest(m.typ));
  }

  lemma SubscribeProjects(m: Machine, h: int, typ: int)
    ensures var i := Subscribe(h, typ);
            MCalls(Step(m, i)) == MCalls(m) + CallOf(m, i) && MEvents(Step(m, i)) == MEvents(m)
  {
    hide Calls, Events, Add, Listed;
    var asked := if Listed(m.subs, h) then AskedAgain(h) else Asked(h);
    var n := Note(m.(typ := typ), [asked]);
    var added := Add(n.subs, Subscriber(h, false));
    ProjectNote(m.(typ := typ), asked);
    ProjectNote(n.(subs := added, state := Pending), CallRequest(typ));
    ProjectNote(n.(subs := added), Opened(h));
  }

  lemma UnsubscribeProjects(m: Machine, h: int)
    ensures var i := Unsubscribe(h); MCalls(Step(m, i)) == MCalls(m) + CallOf(m, i) && MEvents(Step(m, i)) == MEvents(m)
  {
    hide Calls, Events, Deactivate, Listed, AnyActive;
    var n := Note(m, [Left(h)]);
    var subs := Deactivate(n.subs, h);
    ProjectNote(m, Left(h));
    ProjectNote(n, Closed(h));
    ProjectNote(n.(subs := subs, state := Released), CallRelease(m.typ));
    ProjectNote(n.(subs := subs, state := Releasing), CallRelease(m.typ));
  }

  lemma StepProjects(m: Machine, i: Input)
    ensures MCalls(Step(m, i)) == MCalls(m) + CallOf(m, i)
    ensures MEvents(Step(m, i)) == MEvents(m) + EventIn(i)
  {
    hide Reach, Miss, Tell, Calls, Events, Add, Deactivate, Listed, AnyActive, EndRelease;
    match i
    case Subscribe(h, typ) => SubscribeProjects(m, h, typ);
    case Unsubscribe(h) => UnsubscribeProjects(m, h);
    case Granted =>
      var n := Note(m, [GotGranted]);
      ProjectNote(m, GotGranted);
      ProjectNoteTell(n.(state := Acquired), OpenOk, Reach(m.subs, Actives));
    case Denied => EndProjects(m, GotDenied, OpenBad);
    case ClosedByFramework => EndProjects(m, GotReleased, Close);
    case DropAll =>
  }

  lemma EndProjects(m: Machine, got: Obs, notice: Notice)
    requires IsEvent(got)
    ensures var n := Note(m, [got]);
            && MCalls(n) == MCalls(m) && MEvents(n) == MEvents(m) + [got]
            && MCalls(EndRelease(n)) == MCalls(m) + (if EndRelease(n).state.Pending? then [CallRequest(m.typ)] else [])
            && MEvents(EndRelease(n)) == MEvents(m) + [got] && EndRelease(n).typ == m.typ
    ensures var e := Note(m, [got]).(state := Released, subs := Miss(m.subs, Everyone));
            var t := Note(e, Tell(notice, Reach(m.subs, Everyone)));
            MCalls(t) == MCalls(m) && MEvents(t) == MEvents(m) + [got]
  {
    hide Reach, Miss, Tell, Calls, Events, EndRelease;
    var n := Note(m, [got]);
    ProjectNote(m, got);
    ProjectNoteTell(n.(state := Released, subs := Miss(m.subs, Everyone)), notice, Reach(m.subs, Everyone));
    EndReleaseProjects(n);
  }

  // ---------- the joined system

  function ObsOf(r: Reply): Obs {
    match r case ConnOpen => GotGranted case ConnFailed => GotDenied case ConnClosed => GotReleased
  }

  function Coming(queue: seq<Reply>): (os: seq<Obs>)
    ensures |os| == |queue|
    ensures forall k :: 0 <= k < |queue| ==> os[k] == ObsOf(queue[k])
  {
    if queue == [] then [] else [ObsOf(queue[0])] + Coming(queue[1..])
  }

  /** A release is answered by a close, a request by a grant or a denial. */
  predicate Fits(event: Obs, call: Obs) {
    if call.CallRelease? then event.GotReleased? else event.GotGranted? || event.GotDenied?
  }

  /** Replies heard and replies queued answer the calls one for one, in order. */
  ghost predicate InOrder(calls: seq<Obs>, replies: seq<Obs>) {
    |calls| == |replies| && forall k :: 0 <= k < |calls| ==> Fits(replies[k], calls[k])
  }

  function LatestCall(m: Machine): Obs
    requires MCalls(m) != []
  {
    MCalls(m)[|MCalls(m)| - 1]
  }

  /** The latest call is one that the native handler answers. */
  predicate LatestIsAnswered(m: Machine) {
    MCalls(m) != [] && IsAnswered(LatestCall(m))
  }

  /** Whatever the types: replies heard and queued answer the answered calls one for one; a call that is
      wanted or being released is the latest one; and if it is answered at all its answer is still queued. */
  ghost predicate Joined(w: World) {
    && InOrder(Answered(MCalls(w.m)), MEvents(w.m) + Coming(w.queue))
    && (w.m.state.Pending? ==> MCalls(w.m) != [] && LatestCall(w.m).CallRequest?)
    && (w.m.state.Releasing? ==> MCalls(w.m) != [] && LatestCall(w.m).CallRelease?)
    && ((w.m.state.Pending? || w.m.state.Releasing?) && LatestIsAnswered(w.m) ==> w.queue != [])
  }

  /** While an answered call is wanted the last reply in the queue answers the latest request; while it is
      being released the last reply is a close. */
  lemma LastReply(w: World)
    requires Joined(w) && LatestIsAnswered(w.m)
    ensures w.m.state.Pending? ==> w.queue != [] && !w.queue[|w.queue| - 1].ConnClosed?
    ensures w.m.state.Releasing? ==> w.queue != [] && w.queue[|w.queue| - 1].ConnClosed?
  {
    AnsweredLast(MCalls(w.m));
    hide MCalls, MEvents, Answered;
    var calls, replies := Answered(MCalls(w.m)), MEvents(w.m) + Coming(w.queue);
    if w.queue != [] {
      assert replies[|replies| - 1] == ObsOf(w.queue[|w.queue| - 1]);
      assert Fits(replies[|calls| - 1], calls[|calls| - 1]);
    }
  }

  lemma AnsweredLast(calls: seq<Obs>)
    requires calls != [] && IsAnswered(calls[|calls| - 1])
    ensures Answered(calls) != [] && Answered(calls)[|Answered(calls)| - 1] == calls[|calls| - 1]
  {
    var n := |calls| - 1;
    assert calls == calls[..n] + [calls[n]];
    OnlyAppend(IsAnswered, calls[..n], [calls[n]]);
    OnlyOne(IsAnswered, calls[n]);
  }

  /** What a machine step queues is the answer to the call it makes. */
  lemma FedQueue(w: World, i: Input)
    ensures Feed(w, i).queue == w.queue + Answers(w.connected, CallOf(w.m, i))
  {
    var os := Emitted(w.m, i);
    StepProjects(w.m, i);
    OnlyAppend(IsCall, w.m.history, os);
    assert Calls(os) == (MCalls(w.m) + Calls(os))[|MCalls(w.m)|..] == (MCalls(w.m) + CallOf(w.m, i))[|MCalls(w.m)|..];
    AnswersAreToCalls(w.connected, os);
  }

  lemma {:induction false} ComingAppend(a: seq<Reply>, b: seq<Reply>)
    ensures Coming(a + b) == Coming(a) + Coming(b)
  {
  }

  lemma InOrderExtends(calls: seq<Obs>, replies: seq<Obs>, call: Obs, reply: Obs)
    requires InOrder(calls, replies) && Fits(reply, call)
    ensures InOrder(calls + [call], replies + [reply])
  {
  }

  lemma AnswerToCall(c: bool, call: Obs)
    requires IsCall(call)
    ensures if IsAnswered(call) then |Answers(c, [call])| == 1 && Fits(ObsOf(Answers(c, [call])[0]), call)
            else Answers(c, [call]) == []
  {
    assert Answers(c, [call]) == Answer(c, call) + Answers(c, []);
  }

  /** Feeding the machine keeps the order: a reply that has just left the queue is among the events. */
  lemma FeedInOrder(w: World, i: Input)
    requires InOrder(Answered(MCalls(w.m)), MEvents(w.m) + EventIn(i) + Coming(w.queue))
    ensures var u := Feed(w, i); InOrder(Answered(MCalls(u.m)), MEvents(u.m) + Coming(u.queue))
    ensures var u, call := Feed(w, i), CallOf(w.m, i);
            call != [] ==> MCalls(u.m) != [] && LatestCall(u.m) == call[0] && (IsAnswered(call[0]) ==> u.queue != [])
  {
    FedQueue(w, i);
    StepProjects(w.m, i);
    NoAnswers(w.connected);
    CallIsCall(w.m, i);
    hide Step, MCalls, MEvents, EventIn, Answers, Fits, IsAnswered;
    var call, u := CallOf(w.m, i), Feed(w, i);
    if call != [] {
      AnswerToCall(w.connected, call[0]);
      assert call == [call[0]];
      OnlyAppend(IsAnswered, MCalls(w.m), call);
      OnlyOne(IsAnswered, call[0]);
    } else {
      assert MCalls(u.m) == MCalls(w.m);
    }
    hide Answered, CallOf;
    if call != [] && IsAnswered(call[0]) {
      var reply := Answers(w.connected, call);
      assert reply == [reply[0]];
      ComingAppend(w.queue, reply);
      InOrderExtends(Answered(MCalls(w.m)), MEvents(w.m) + EventIn(i) + Coming(w.queue), call[0], ObsOf(reply[0]));
      assert MEvents(u.m) + Coming(u.queue) == (MEvents(w.m) + EventIn(i) + Coming(w.queue)) + [ObsOf(reply[0])];
    } else {
      assert u.queue == w.queue;
      assert MEvents(u.m) + Coming(u.queue) == MEvents(w.m) + EventIn(i) + Coming(w.queue);
    }
  }

  lemma CallIsCall(m: Machine, i: Input)
    ensures var call := CallOf(m, i);
            call != [] ==> |call| == 1 && IsCall(call[0]) && call[0].typ == Step(m, i).typ
  {
  }

  lemma NoAnswers(c: bool)
    ensures Answers(c, []) == []
  {
  }

  // ---------- every run stays joined

  /** The states that an input can leave and reach. */
  lemma Transitions(m: Machine, i: Input)
    ensures var n := Step(m, i).state;
            && (m.state.Pending? && n.Pending? ==> !i.Granted? && !i.Denied?)
            && (m.state.Releasing? && n.Releasing? ==> !i.Denied? && !i.ClosedByFramework?)
            && (n.Releasing? && !m.state.Releasing? ==> i.Unsubscribe? && (m.state.Pending? || m.state.Acquired?))
    ensures !i.Subscribe? ==> Step(m, i).typ == m.typ
    ensures i.Subscribe? ==> Step(m, i).typ == i.typ
  {
    hide Reach, Miss, Tell, Add, Deactivate, Listed, AnyActive;
  }

  lemma FeedJoined(w: World, i: Input)
    requires InOrder(Answered(MCalls(w.m)), MEvents(w.m) + EventIn(i) + Coming(w.queue))
    requires w.m.state.Pending? && Step(w.m, i).state.Pending? ==> MCalls(w.m) != [] && LatestCall(w.m).CallRequest?
    requires w.m.state.Releasing? && Step(w.m, i).state.Releasing? ==> MCalls(w.m) != [] && LatestCall(w.m).CallRelease?
    requires var n := Step(w.m, i).state;
             (w.m.state.Pending? && n.Pending?) || (w.m.state.Releasing? && n.Releasing?) ==>
               (LatestIsAnswered(w.m) ==> w.queue != [])
    ensures Joined(Feed(w, i))
  {
    FeedInOrder(w, i);
    Transitions(w.m, i);
    StepProjects(w.m, i);
    FedQueue(w, i);
    NoAnswers(w.connected);
    hide Step, MCalls, MEvents, EventIn, Answers, Fits, InOrder, Answered, IsAnswered;
  }

  /** Taking the oldest reply moves it from the queue to the events. */
  lemma HeadIsHeard(events: seq<Obs>, queue: seq<Reply>)
    requires queue != []
    ensures events + EventIn(EventOf(queue[0])) + Coming(queue[1..]) == events + Coming(queue)
  {
    assert EventIn(EventOf(queue[0])) == [ObsOf(queue[0])];
  }

  /** A state that survives the delivery of the oldest reply has a younger reply queued. */
  lemma StayingNeedsAnother(w: World)
    requires Joined(w) && w.queue != [] && LatestIsAnswered(w.m)
    ensures var n := Step(w.m, EventOf(w.queue[0])).state;
            (w.m.state.Pending? && n.Pending?) || (w.m.state.Releasing? && n.Releasing?) ==> |w.queue| > 1
  {
    LastReply(w);
    Transitions(w.m, EventOf(w.queue[0]));
    hide Step, Joined;
  }

  lemma DeliverJoined(w: World)
    requires Joined(w) && w.queue != []
    ensures Joined(Act(w, Deliver))
  {
    var i, rest := EventOf(w.queue[0]), w.(queue := w.queue[1..]);
    if LatestIsAnswered(w.m) { StayingNeedsAnother(w); }
    HeadIsHeard(MEvents(w.m), w.queue);
    Transitions(w.m, i);
    hide Step, MCalls, MEvents, InOrder, EventIn, Coming, Feed, Answered, IsAnswered;
    FeedJoined(rest, i);
  }

  lemma InputJoined(w: World, i: Input)
    requires Joined(w) && EventIn(i) == []
    ensures Joined(Feed(w, i))
  {
    Transitions(w.m, i);
    hide Step, MCalls, MEvents, InOrder, Feed, Answered, LatestCall, LatestIsAnswered;
    assert MEvents(w.m) + [] + Coming(w.queue) == MEvents(w.m) + Coming(w.queue);
    hide Coming;
    FeedJoined(w, i);
  }

  lemma ActJoined(w: World, a: Action)
    requires Joined(w)
    ensures Joined(Act(w, a))
  {
    match a
    case Ask(h, typ) => InputJoined(w, Subscribe(h, typ));
    case Leave(h) => InputJoined(w, Unsubscribe(h));
    case Deliver => if w.queue != [] { DeliverJoined(w); }
    case Network(c) =>
    case ModemRestart => InputJoined(w, DropAll);
  }

  /** However clients of any type, the network, deliveries and modem restarts interleave: replies answer
      the answered calls one for one in order, and a call that is wanted or being released, if answered,
      has its answer queued last. */
  lemma {:induction false} AlwaysJoined(connected: bool, actions: seq<Action>)
    ensures Joined(Acts(Boot(connected), actions))
  {
    if actions == [] {
      assert MCalls(Start(LOC_AGPS_TYPE_WWAN_ANY)) == [] && MEvents(Start(LOC_AGPS_TYPE_WWAN_ANY)) == [];
    } else {
      hide Joined, Act;
      var front := actions[..|actions| - 1];
      AlwaysJoined(connected, front);
      ActJoined(Acts(Boot(connected), front), actions[|actions| - 1]);
    }
  }

  // ---------- quiescence

  /** Strictly less after every delivery. */
  function Measure(w: World): nat {
    |w.queue| + if w.m.state.Releasing? then 1 else 0
  }

  function Drained(w: World, n: nat): World
    decreases n
  {
    if n == 0 then w else Drained(Act(w, Deliver), n - 1)
  }

  /** Any reply that is delivered, in whatever state, brings the queue closer to its end, though it may
      queue a new one. */
  lemma DeliveryProgresses(w: World)
    requires w.queue != []
    ensures Measure(Act(w, Deliver)) < Measure(w)
  {
    var i, rest := EventOf(w.queue[0]), w.(queue := w.queue[1..]);
    FedQueue(rest, i);
    Transitions(w.m, i);
    NoAnswers(w.connected);
    CallIsCall(w.m, i);
    ReleasingOnlyRequests(w.m, i);
    hide Step;
    var call := CallOf(w.m, i);
    if call != [] {
      assert call == [call[0]];
      AnswerToCall(w.connected, call[0]);
    }
  }

  lemma ReleasingOnlyRequests(m: Machine, i: Input)
    requires !i.Subscribe? && !i.Unsubscribe?
    ensures CallOf(m, i) != [] ==> m.state.Releasing? && Step(m, i).state.Pending?
  {
    hide Reach, Miss, Tell, Add, Deactivate, Listed, AnyActive;
  }

  /** Nothing moves once the queue is empty. */
  lemma {:induction false} StaysPut(u: World, n: nat)
    requires u.queue == []
    ensures Drained(u, n) == u
    decreases n
  {
    if n > 0 {
      StaysPut(u, n - 1);
    }
  }

  /** Once clients fall silent the queue empties, whatever the types and wherever the machine stands. */
  lemma {:induction false} QueueDrains(w: World, n: nat)
    requires n >= Measure(w)
    ensures Drained(w, n).queue == []
    decreases n
  {
    hide Act;
    if w.queue == [] {
      StaysPut(w, n);
    } else {
      DeliveryProgresses(w);
      QueueDrains(Act(w, Deliver), n - 1);
    }
  }

  lemma {:induction false} DrainedJoined(w: World, n: nat)
    requires Joined(w)
    ensures Joined(Drained(w, n))
    decreases n
  {
    hide Joined, Act;
    if n > 0 {
      ActJoined(w, Deliver);
      DrainedJoined(Act(w, Deliver), n - 1);
    }
  }

  predicate Settled(m: Machine) {
    m.state.Released? || m.state.Acquired?
  }

  /** The end of silence after any run: the queue is empty, and the call is up or gone unless the latest
      call was of a type that is never answered. */
  lemma DrainsOrStalls(w: World, n: nat)
    requires Joined(w) && n >= Measure(w)
    ensures var u := Drained(w, n);
            && Joined(u) && u.queue == []
            && (!Settled(u.m) ==> MCalls(u.m) != [] && LatestCall(u.m) in MCalls(u.m)
                                  && !IsAnswered(LatestCall(u.m)))
  {
    hide MCalls, MEvents, InOrder, IsAnswered;
    QueueDrains(w, n);
    DrainedJoined(w, n);
  }

  // ---------- what silence leads to

  /** Read from its head, the queue settles the machine. A wanted call needs a grant or a denial. A call that
      is being released needs a denial or a close; if a subscriber is then waiting a new call is wanted, and
      that is answered if the current type is WWAN_ANY, or else by a stale grant or denial further on. */
  predicate Settles(state: State, waiting: bool, wwan: bool, queue: seq<Reply>)
    decreases |queue|
  {
    match state
    case Released => true
    case Acquired => true
    case Pending => queue != [] && (!queue[0].ConnClosed? || Settles(Pending, waiting, wwan, queue[1..]))
    case Releasing =>
      queue != [] &&
      if queue[0].ConnOpen? then Settles(Releasing, waiting, wwan, queue[1..])
      else !waiting || wwan || Settles(Pending, waiting, wwan, queue[1..])
  }

  predicate SettlesNext(w: World) {
    Settles(w.m.state, AnyActive(w.m.subs), w.m.typ == LOC_AGPS_TYPE_WWAN_ANY, w.queue)
  }

  lemma {:induction false} PendingSettles(waiting: bool, wwan: bool, waiting': bool, wwan': bool, queue: seq<Reply>)
    ensures Settles(Pending, waiting, wwan, queue) == Settles(Pending, waiting', wwan', queue)
    decreases |queue|
  {
    if queue != [] {
      PendingSettles(waiting, wwan, waiting', wwan', queue[1..]);
    }
  }

  lemma {:induction false} AnswerSettles(waiting: bool, wwan: bool, queue: seq<Reply>, answer: Reply)
    requires !answer.ConnClosed?
    ensures Settles(Pending, waiting, wwan, queue + [answer])
    decreases |queue|
  {
    if queue != [] {
      AnswerSettles(waiting, wwan, queue[1..], answer);
      assert (queue + [answer])[1..] == queue[1..] + [answer];
    }
  }

  lemma WaitingStays(subs: seq<Subscriber>)
    ensures AnyActive(Miss(subs, Inactives)) == AnyActive(subs)
  {
    ReachMiss(subs, Inactives);
    if i :| 0 <= i < |subs| && !subs[i].inactive {
      assert subs[i] in Miss(subs, Inactives);
    }
    if i :| 0 <= i < |Miss(subs, Inactives)| && !Miss(subs, Inactives)[i].inactive {
      assert Miss(subs, Inactives)[i] in subs;
    }
  }

  /** What a reply does to the state, and whether it makes a call. */
  lemma ReplyStep(m: Machine, r: Reply)
    ensures var n := Step(m, EventOf(r));
            && n.typ == m.typ
            && n.state == (match m.state
                           case Released => Released
                           case Acquired => if r.ConnClosed? then Released else Acquired
                           case Pending =>
                             if r.ConnOpen? then Acquired else if r.ConnFailed? then Released else Pending
                           case Releasing =>
                             if r.ConnOpen? then Releasing else if AnyActive(m.subs) then Pending else Released)
            && (m.state.Releasing? && n.state.Releasing? ==> n.subs == m.subs)
            && (CallOf(m, EventOf(r)) != [] <==> m.state.Releasing? && n.state.Pending?)
  {
    WaitingStays(m.subs);
    hide Reach, Miss, Tell, AnyActive;
  }

  lemma DeliverySettles(w: World)
    requires w.queue != []
    ensures SettlesNext(Act(w, Deliver)) == SettlesNext(w)
  {
    var r, rest := w.queue[0], w.queue[1..];
    var u := Act(w, Deliver);
    ReplyStep(w.m, r);
    FedQueue(w.(queue := rest), EventOf(r));
    NoAnswers(w.connected);
    CallIsCall(w.m, EventOf(r));
    hide Step, AnyActive;
    assert CallOf(w.m, EventOf(r)) == [] ==> u.queue == rest;
    assert w.m.state.Releasing? && u.m.state.Releasing? ==> u.m == Step(w.m, EventOf(r)) && u.m.subs == w.m.subs;
    if w.m.state.Releasing? && u.m.state.Pending? {
      var call := CallOf(w.m, EventOf(r));
      assert call == [call[0]];
      AnswerToCall(w.connected, call[0]);
      if IsAnswered(call[0]) {
        var a := Answers(w.connected, call);
        assert a == [a[0]];
        AnswerSettles(AnyActive(u.m.subs), true, rest, a[0]);
      } else {
        assert u.queue == rest;
        PendingSettles(AnyActive(u.m.subs), false, AnyActive(w.m.subs), false, rest);
      }
    } else if w.m.state.Pending? && u.m.state.Pending? {
      PendingSettles(AnyActive(u.m.subs), true, AnyActive(w.m.subs), true, rest);
      PendingSettles(AnyActive(u.m.subs), false, AnyActive(w.m.subs), false, rest);
    }
  }

  /** From any state, with requests of any types behind it: silence settles the machine exactly if the queue
      does, which can be read off beforehand. */
  lemma {:induction false} SettlesIff(w: World, n: nat)
    requires n >= Measure(w)
    ensures Settled(Drained(w, n).m) <==> SettlesNext(w)
    decreases n
  {
    hide Act, SettlesNext;
    if w.queue == [] {
      StaysPut(w, n);
      EmptySettles(w);
    } else {
      DeliveryProgresses(w);
      DeliverySettles(w);
      SettlesIff(Act(w, Deliver), n - 1);
    }
  }

  lemma EmptySettles(w: World)
    requires w.queue == []
    ensures SettlesNext(w) <==> Settled(w.m)
  {
  }

  // ---------- runs in which every type is WWAN_ANY

  ghost predicate OnlyWwan(m: Machine) {
    m.typ == LOC_AGPS_TYPE_WWAN_ANY && forall o :: o in MCalls(m) ==> IsAnswered(o)
  }

  lemma StepOnlyWwan(m: Machine, i: Input)
    requires OnlyWwan(m) && (i.Subscribe? ==> i.typ == LOC_AGPS_TYPE_WWAN_ANY)
    ensures OnlyWwan(Step(m, i))
  {
    StepProjects(m, i);
    CallIsCall(m, i);
    Transitions(m, i);
    hide Step, MCalls, CallOf;
    assert forall o :: o in CallOf(m, i) ==> IsAnswered(o);
  }

  lemma ActOnlyWwan(w: World, a: Action)
    requires OnlyWwan(w.m) && (a.Ask? ==> a.typ == LOC_AGPS_TYPE_WWAN_ANY)
    ensures OnlyWwan(Act(w, a).m)
  {
    hide Step, OnlyWwan, Answers;
    match a
    case Ask(h, typ) => StepOnlyWwan(w.m, Subscribe(h, typ));
    case Leave(h) => StepOnlyWwan(w.m, Unsubscribe(h));
    case Deliver => if w.queue != [] { StepOnlyWwan(w.m, EventOf(w.queue[0])); }
    case Network(c) =>
    case ModemRestart => StepOnlyWwan(w.m, DropAll);
  }

  lemma {:induction false} AlwaysOnlyWwan(connected: bool, actions: seq<Action>)
    requires WwanOnly(actions)
    ensures OnlyWwan(Acts(Boot(connected), actions).m)
  {
    if actions != [] {
      hide OnlyWwan, Act;
      AlwaysOnlyWwan(connected, actions[..|actions| - 1]);
      ActOnlyWwan(Acts(Boot(connected), actions[..|actions| - 1]), actions[|actions| - 1]);
    }
  }

  lemma {:induction false} DrainedOnlyWwan(w: World, n: nat)
    requires OnlyWwan(w.m)
    ensures OnlyWwan(Drained(w, n).m)
    decreases n
  {
    hide OnlyWwan, Act;
    if n > 0 {
      ActOnlyWwan(w, Deliver);
      DrainedOnlyWwan(Act(w, Deliver), n - 1);
    }
  }

  /** After any run of WWAN_ANY requests, once clients fall silent, the queue empties and the call is then
      either up or gone. */
  lemma Quiesces(connected: bool, actions: seq<Action>, n: nat)
    requires WwanOnly(actions) && n >= Measure(Acts(Boot(connected), actions))
    ensures var u := Drained(Acts(Boot(connected), actions), n); u.queue == [] && Settled(u.m)
  {
    hide Acts, MCalls, Joined, Settled, Measure;
    var w := Acts(Boot(connected), actions);
    AlwaysJoined(connected, actions);
    AlwaysOnlyWwan(connected, actions);
    DrainsOrStalls(w, n);
    DrainedOnlyWwan(w, n);
  }

  // ---------- calls of other types

  lemma {:induction false} DrainKeepsType(w: World, n: nat)
    requires w.m.typ == LOC_AGPS_TYPE_WWAN_ANY && LatestIsAnswered(w.m)
    ensures LatestIsAnswered(Drained(w, n).m)
    decreases n
  {
    if n > 0 {
      if w.queue != [] {
        var i := EventOf(w.queue[0]);
        StepProjects(w.m, i);
        CallIsCall(w.m, i);
        Transitions(w.m, i);
        hide Step, MCalls, CallOf, Answers;
        assert CallOf(w.m, i) == [] ==> MCalls(Step(w.m, i)) == MCalls(w.m);
      }
      DrainKeepsType(Act(w, Deliver), n - 1);
    }
  }

  /** A call made with nothing else queued: silence settles it exactly if it is of type WWAN_ANY, since a
      call of another type is never answered. */
  lemma LoneCallSettlesIff(w: World, i: Input, n: nat)
    requires w.queue == [] && CallOf(w.m, i) != [] && !Settled(Step(w.m, i))
    requires Joined(Feed(w, i)) && n >= Measure(Feed(w, i))
    ensures Settled(Drained(Feed(w, i), n).m) <==> CallOf(w.m, i)[0].typ == LOC_AGPS_TYPE_WWAN_ANY
  {
    var u, call := Feed(w, i), CallOf(w.m, i);
    FedQueue(w, i);
    StepProjects(w.m, i);
    CallIsCall(w.m, i);
    hide Step, MCalls, CallOf, Joined, Measure, Answers;
    assert call == [call[0]];
    assert MCalls(u.m) == MCalls(w.m) + call;
    AnswerToCall(w.connected, call[0]);
    if IsAnswered(call[0]) {
      DrainKeepsType(u, n);
      DrainsOrStalls(u, n);
    } else {
      StaysPut(u, n);
    }
  }

  // ---------- answers that the machine passes over

  /** A request stands: it waits or its call is up. */
  predicate Standing(w: World) {
    w.m.state.Pending? || w.m.state.Acquired?
  }

  predicate PassesOverNext(w: World) {
    w.queue != [] && PassesOver(w.m, EventOf(w.queue[0]))
  }

  /** Read from its head, the queue comes to an answer that the machine would pass over, before one that
      ends the request. */
  predicate Doomed(up: bool, queue: seq<Reply>)
    decreases |queue|
  {
    queue != [] &&
    match queue[0]
    case ConnOpen => Doomed(true, queue[1..])
    case ConnFailed => up
    case ConnClosed => !up
  }

  ghost predicate Stands(w: World, actions: seq<Action>) {
    forall n :: 0 <= n <= |actions| ==> Standing(Acts(w, actions[..n]))
  }

  /** While a request stands no call is made: the queue only loses its head. */
  lemma StandingStep(w: World, a: Action)
    requires Standing(w) && Standing(Act(w, a))
    ensures Act(w, a).queue == if a.Deliver? && w.queue != [] then w.queue[1..] else w.queue
    ensures Act(w, a).m.state == if a.Deliver? && w.queue != [] && w.queue[0].ConnOpen? then Acquired else w.m.state
    ensures a.Deliver? && w.queue != [] && !PassesOverNext(w) ==> w.queue[0].ConnOpen?
  {
    NoAnswers(w.connected);
    match a
    case Ask(h, typ) => FedQueue(w, Subscribe(h, typ)); StandingInput(w.m, Subscribe(h, typ));
    case Leave(h) => FedQueue(w, Unsubscribe(h)); StandingInput(w.m, Unsubscribe(h));
    case Deliver =>
      if w.queue != [] {
        FedQueue(w.(queue := w.queue[1..]), EventOf(w.queue[0]));
        StandingInput(w.m, EventOf(w.queue[0]));
      }
    case Network(c) =>
    case ModemRestart => FedQueue(w, DropAll); StandingInput(w.m, DropAll);
  }

  lemma StandingInput(m: Machine, i: Input)
    requires (m.state.Pending? || m.state.Acquired?) && (Step(m, i).state.Pending? || Step(m, i).state.Acquired?)
    ensures CallOf(m, i) == []
    ensures Step(m, i).state == if i.Granted? then Acquired else m.state
    ensures i.Denied? || i.ClosedByFramework? ==> PassesOver(m, i)
  {
    hide Reach, Miss, Tell, Add, Deactivate, Listed, AnyActive;
  }

  lemma DoomedBefore(w: World, a: Action)
    requires Standing(w) && Standing(Act(w, a)) && Doomed(Act(w, a).m.state.Acquired?, Act(w, a).queue)
    ensures Doomed(w.m.state.Acquired?, w.queue)
  {
    StandingStep(w, a);
    hide Act;
  }

  lemma {:induction false} PassedOverIsDoomed(w: World, actions: seq<Action>)
    requires Stands(w, actions) && PassesOverNext(Acts(w, actions))
    ensures Doomed(w.m.state.Acquired?, w.queue)
    decreases |actions|
  {
    hide Act;
    if actions == [] {
      assert Standing(Acts(w, actions[..0]));
    } else {
      var first := Act(w, actions[0]);
      FirstAct(w, actions);
      assert Acts(w, actions[..0]) == w && Acts(w, actions[..1]) == first by { FirstAct(w, actions[..1]); }
      forall n | 0 <= n <= |actions| - 1 ensures Standing(Acts(first, actions[1..][..n])) {
        FirstAct(w, actions[..n + 1]);
        assert actions[..n + 1][1..] == actions[1..][..n];
      }
      PassedOverIsDoomed(first, actions[1..]);
      DoomedBefore(w, actions[0]);
    }
  }

  lemma ActsOneMore(w: World, actions: seq<Action>, a: Action)
    ensures Acts(w, actions + [a]) == Act(Acts(w, actions), a)
  {
    assert (actions + [a])[..|actions|] == actions;
  }

  lemma {:induction false} FirstAct(w: World, actions: seq<Action>)
    requires actions != []
    ensures Acts(w, actions) == Acts(Act(w, actions[0]), actions[1..])
  {
    hide Act;
    if |actions| == 1 {
      assert actions[..0] == [];
    } else {
      var front := actions[..|actions| - 1];
      FirstAct(w, front);
      assert front[1..] == actions[1..][..|actions| - 2];
    }
  }

  /** Deliveries alone take a doomed request to the answer that is passed over. */
  lemma {:induction false} DoomedIsPassedOver(w: World) returns (actions: seq<Action>)
    requires Standing(w) && Doomed(w.m.state.Acquired?, w.queue)
    ensures Stands(w, actions) && PassesOverNext(Acts(w, actions))
    decreases |w.queue|
  {
    if PassesOverNext(w) {
      actions := [];
    } else {
      DoomedHead(w);
      var u := Act(w, Deliver);
      var rest := DoomedIsPassedOver(u);
      actions := [Deliver] + rest;
      hide Doomed, PassesOverNext, Act;
      StandsOneEarlier(w, Deliver, rest);
    }
  }

  lemma StandsOneEarlier(w: World, a: Action, rest: seq<Action>)
    requires Standing(w) && Stands(Act(w, a), rest)
    ensures Stands(w, [a] + rest) && Acts(w, [a] + rest) == Acts(Act(w, a), rest)
  {
    hide Act, Standing;
    var actions := [a] + rest;
    FirstAct(w, actions);
    assert actions[1..] == rest;
    forall n | 0 <= n <= |actions| ensures Standing(Acts(w, actions[..n])) {
      if n > 0 {
        FirstAct(w, actions[..n]);
        assert actions[..n][1..] == rest[..n - 1];
      }
    }
  }

  lemma DoomedHead(w: World)
    requires Standing(w) && Doomed(w.m.state.Acquired?, w.queue) && !PassesOverNext(w)
    ensures var u := Act(w, Deliver);
            Standing(u) && u.queue == w.queue[1..] && Doomed(u.m.state.Acquired?, u.queue)
  {
    assert w.queue[0].ConnOpen?;
    GrantStands(w.m);
    StandingStep(w, Deliver);
  }

  lemma GrantStands(m: Machine)
    requires m.state.Pending? || m.state.Acquired?
    ensures Step(m, Granted).state.Acquired?
  {
  }

  /** A request that stands can meet an answer that is passed over, whatever clients, network and restarts
      do, exactly if its queue dooms it. */
  lemma PassedOverIffDoomed(w: World)
    requires Standing(w)
    ensures (exists actions :: Stands(w, actions) && PassesOverNext(Acts(w, actions)))
       <==> Doomed(w.m.state.Acquired?, w.queue)
  {
    hide Doomed, Stands, PassesOverNext, Standing;
    if actions :| Stands(w, actions) && PassesOverNext(Acts(w, actions)) {
      PassedOverIsDoomed(w, actions);
    }
    if Doomed(w.m.state.Acquired?, w.queue) {
      var actions := DoomedIsPassedOver(w);
    }
  }

  /** A request made while nothing else is queued is not doomed: until its release nothing denies or closes
      it without ending it. */
  lemma PromptRequestIsNotDoomed(w: World, i: Input)
    requires w.queue == [] && !w.m.state.Pending? && Step(w.m, i).state.Pending?
    ensures Standing(Feed(w, i)) && !Doomed(false, Feed(w, i).queue)
  {
    FedQueue(w, i);
    NoAnswers(w.connected);
    hide Step;
    assert Answers(w.connected, CallOf(w.m, i)) == Answer(w.connected, CallOf(w.m, i)[0]) + Answers(w.connected, []);
  }
}
