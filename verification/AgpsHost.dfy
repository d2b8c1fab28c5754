/** The manager and the native handler together, as one system: the manager's messages, and the replies that
    the handler queues for the calls they lead to. */
module AgpsHost {
  import opened AgpsMachine
  import opened AgpsQueue
  import opened AgpsRouting

  datatype Host = Host(g: Manager, connected: bool, queue: seq<Reply>)

  /** What a message makes the native handler queue. */
  function Queued(g: Manager, connected: bool, msg: Msg): seq<Reply> {
    match msg
    case RequestAtl(h, typ) =>
      var t := EffectiveType(g.usePdn, typ);
      QueuedBy(Get(g, KindOf(t)), connected, Subscribe(h, t))
    case ReleaseAtl(h) =>
      if Knows(g.agnss, h) then QueuedBy(g.agnss, connected, Unsubscribe(h))
      else if Knows(g.internet, h) then QueuedBy(g.internet, connected, Unsubscribe(h))
      else []
    case OpenSuccess(typ) => QueuedBy(Get(g, KindOf(typ)), connected, Granted)
    case OpenFailure(typ) => QueuedBy(Get(g, KindOf(typ)), connected, Denied)
    case CloseReport(typ) => QueuedBy(Get(g, KindOf(typ)), connected, ClosedByFramework)
    case ModemSsr => []
  }

  function QueuedBy(n: Nif, connected: bool, i: Input): seq<Reply> {
    if n.Absent? then [] else Answers(connected, CallOf(n.m, i))
  }

  /** The report that delivers a queued reply. */
  function ReportOf(r: Reply): Msg {
    match r
    case ConnOpen => OpenSuccess(LOC_AGPS_TYPE_WWAN_ANY)
    case ConnFailed => OpenFailure(LOC_AGPS_TYPE_WWAN_ANY)
    case ConnClosed => CloseReport(LOC_AGPS_TYPE_WWAN_ANY)
  }

  function Sent(x: Host, msg: Msg): Host {
    Host(Dispatch(x.g, msg), x.connected, x.queue + Queued(x.g, x.connected, msg))
  }

  function HostAct(x: Host, a: Action): Host {
    match a
    case Ask(h, typ) => Sent(x, RequestAtl(h, typ))
    case Leave(h) => Sent(x, ReleaseAtl(h))
    case Deliver => if x.queue == [] then x else Sent(x.(queue := x.queue[1..]), ReportOf(x.queue[0]))
    case Network(c) => x.(connected := c)
    case ModemRestart => Sent(x, ModemSsr)
  }

  function HostActs(x: Host, actions: seq<Action>): Host {
    if actions == [] then x else HostAct(HostActs(x, actions[..|actions| - 1]), actions[|actions| - 1])
  }

  /** The native handler serves the internet machine only. */
  function NativeHost(connected: bool, usePdn: bool): Host {
    Host(Created(false, true, usePdn), connected, [])
  }

  /** A request of a SUPL type finds no machine. */
  predicate IsServed(usePdn: bool, a: Action) {
    a.Ask? ==> KindOf(EffectiveType(usePdn, a.typ)).Internet?
  }

  function Served(usePdn: bool, actions: seq<Action>): seq<Action> {
    if actions == [] then []
    else Served(usePdn, actions[..|actions| - 1])
         + if IsServed(usePdn, actions[|actions| - 1]) then [actions[|actions| - 1]] else []
  }

  function Refused(usePdn: bool, actions: seq<Action>): seq<int> {
    if actions == [] then []
    else Refused(usePdn, actions[..|actions| - 1])
         + if IsServed(usePdn, actions[|actions| - 1]) then [] else [actions[|actions| - 1].h]
  }

  /** The host when its one machine and its queue are those of the joined system. */
  function HostOf(w: World, usePdn: bool, refused: seq<int>): Host {
    Host(Manager(Absent, Present(w.m), usePdn, refused), w.connected, w.queue)
  }

  /** The call of a step, event by event. */
  lemma CallCases(m: Machine, i: Input)
    ensures CallOf(m, i) == match i
      case Subscribe(h, typ) => if m.state.Released? then [CallRequest(typ)] else []
      case Unsubscribe(h) =>
        var n := Step(m, i).state;
        if (m.state.Pending? || m.state.Acquired?) && (n.Releasing? || n.Released?) then [CallRelease(m.typ)] else []
      case Denied => if m.state.Releasing? && Step(m, i).state.Pending? then [CallRequest(m.typ)] else []
      case ClosedByFramework => if m.state.Releasing? && Step(m, i).state.Pending? then [CallRequest(m.typ)] else []
      case _ => []
  {
    hide Reach, Miss, Tell, Add, Deactivate, Listed, AnyActive;
  }

  lemma ServedStep(w: World, usePdn: bool, refused: seq<int>, a: Action)
    requires IsServed(usePdn, a)
    ensures HostAct(HostOf(w, usePdn, refused), a) == HostOf(Act(w, a), usePdn, refused)
  {
    hide Answers, Answer, Emitted, OnSubscribe, OnUnsubscribe, OnGranted, OnDenied, OnReleased, CallOf, Listed;
    NoAnswers(w.connected);
    match a
    case Ask(h, typ) => FedQueue(w, Subscribe(h, typ));
    case Leave(h) =>
      FedQueue(w, Unsubscribe(h));
      CallCases(w.m, Unsubscribe(h));
    case Deliver => if w.queue != [] { FedQueue(w.(queue := w.queue[1..]), EventOf(w.queue[0])); }
    case Network(c) =>
    case ModemRestart =>
      FedQueue(w, DropAll);
      CallCases(w.m, DropAll);
  }

  lemma RefusedStep(w: World, usePdn: bool, refused: seq<int>, a: Action)
    requires !IsServed(usePdn, a)
    ensures HostAct(HostOf(w, usePdn, refused), a) == HostOf(w, usePdn, refused + [a.h])
  {
  }

  /** In every run the manager with its native handler is the joined system under the requests it serves;
      the others are refused at once, and no other machine ever appears. */
  lemma {:induction false} HostIsWorld(connected: bool, usePdn: bool, actions: seq<Action>)
    ensures HostActs(NativeHost(connected, usePdn), actions)
         == HostOf(Acts(Boot(connected), Served(usePdn, actions)), usePdn, Refused(usePdn, actions))
  {
    hide HostAct, HostOf, Act, IsServed;
    if actions == [] {
      FreshHost(connected, usePdn);
    } else {
      var front, a := actions[..|actions| - 1], actions[|actions| - 1];
      HostIsWorld(connected, usePdn, front);
      var w := Acts(Boot(connected), Served(usePdn, front));
      if IsServed(usePdn, a) {
        ServedStep(w, usePdn, Refused(usePdn, front), a);
        ActsOneMore(Boot(connected), Served(usePdn, front), a);
        assert Refused(usePdn, actions) == Refused(usePdn, front);
      } else {
        RefusedStep(w, usePdn, Refused(usePdn, front), a);
        assert Served(usePdn, actions) == Served(usePdn, front);
      }
    }
  }

  lemma FreshHost(connected: bool, usePdn: bool)
    ensures NativeHost(connected, usePdn) == HostOf(Boot(connected), usePdn, [])
  {
  }

  function Silence(n: nat): seq<Action> {
    if n == 0 then [] else Silence(n - 1) + [Deliver]
  }

  lemma {:induction false} DrainedLast(w: World, n: nat)
    requires n > 0
    ensures Drained(w, n) == Act(Drained(w, n - 1), Deliver)
    decreases n
  {
    hide Act;
    if n > 1 {
      DrainedLast(Act(w, Deliver), n - 1);
    }
  }

  lemma {:induction false} SilenceDrains(w: World, n: nat)
    ensures Acts(w, Silence(n)) == Drained(w, n)
    decreases n
  {
    hide Act;
    if n > 0 {
      SilenceDrains(w, n - 1);
      ActsOneMore(w, Silence(n - 1), Deliver);
      DrainedLast(w, n);
    }
  }

  lemma ServedOneMore(usePdn: bool, actions: seq<Action>, a: Action)
    requires IsServed(usePdn, a)
    ensures Served(usePdn, actions + [a]) == Served(usePdn, actions) + [a]
  {
    assert (actions + [a])[..|actions|] == actions;
  }

  lemma {:induction false} ServedThenSilent(connected: bool, usePdn: bool, actions: seq<Action>, n: nat)
    ensures Served(usePdn, actions + Silence(n)) == Served(usePdn, actions) + Silence(n)
  {
    hide Served;
    if n == 0 {
      assert actions + Silence(0) == actions;
    } else {
      ServedThenSilent(connected, usePdn, actions, n - 1);
      ServedOneMore(usePdn, actions + Silence(n - 1), Deliver);
      assert actions + Silence(n) == actions + Silence(n - 1) + [Deliver];
      assert Served(usePdn, actions) + Silence(n) == Served(usePdn, actions) + Silence(n - 1) + [Deliver];
    }
  }

  lemma {:induction false} ActsConcat(w: World, a: seq<Action>, b: seq<Action>)
    ensures Acts(w, a + b) == Acts(Acts(w, a), b)
  {
    hide Act;
    if b == [] {
      assert a + b == a;
    } else {
      ActsConcat(w, a, b[..|b| - 1]);
      assert (a + b)[..|a + b| - 1] == a + b[..|b| - 1];
    }
  }

  /** Quiescence of the manager itself: after any messages and enough silence the queue is empty, and its
      machine is RELEASED or ACQUIRED exactly if the queue it had settles it; if it is not, its latest call was of
      a type that is never answered, and if every request served was for WWAN_ANY it always is. */
  lemma HostQuiesces(connected: bool, usePdn: bool, actions: seq<Action>, n: nat)
    requires n >= Measure(Acts(Boot(connected), Served(usePdn, actions)))
    ensures var x := HostActs(NativeHost(connected, usePdn), actions + Silence(n));
            && x.queue == [] && x.g.agnss == Absent && x.g.internet.Present?
            && (Settled(x.g.internet.m)
                || (MCalls(x.g.internet.m) != [] && !IsAnswered(LatestCall(x.g.internet.m))))
            && (Settled(x.g.internet.m) <==> SettlesNext(Acts(Boot(connected), Served(usePdn, actions))))
            && (WwanOnly(Served(usePdn, actions)) ==> Settled(x.g.internet.m))
  {
    hide HostActs, Acts, Served, Measure, Drained, MCalls, Joined, WwanOnly, SettlesNext;
    var served := Served(usePdn, actions);
    var w := Acts(Boot(connected), served);
    HostIsWorld(connected, usePdn, actions + Silence(n));
    ServedThenSilent(connected, usePdn, actions, n);
    ActsConcat(Boot(connected), served, Silence(n));
    SilenceDrains(w, n);
    AlwaysJoined(connected, served);
    DrainsOrStalls(w, n);
    SettlesIff(w, n);
    if WwanOnly(served) { Quiesces(connected, served, n); }
  }
}
