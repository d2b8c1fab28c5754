/** What the native handler answers: every reply is the one that the connected flag called for when the call
    was made. */
module AgpsReplies {
  import opened Common
  import opened AgpsMachine
  import opened AgpsService
  import opened AgpsQueue

  /** What the handler was last told about mobile data. */
  function LastTold(connected: bool, actions: seq<Action>): bool {
    if actions == [] then connected
    else if actions[|actions| - 1].Network? then actions[|actions| - 1].connected
    else LastTold(connected, actions[..|actions| - 1])
  }

  /** A call of type WWAN_ANY, and what the handler had last been told when it was made. */
  datatype Timed = Timed(call: Obs, up: bool)

  /** A release is answered by a close; a request by a grant if mobile data was up, and else by a denial. */
  function Due(t: Timed): Obs {
    if t.call.CallRelease? then GotReleased else if t.up then GotGranted else GotDenied
  }

  function InputOf(w: World, a: Action): seq<Input> {
    match a
    case Ask(h, typ) => [Subscribe(h, typ)]
    case Leave(h) => [Unsubscribe(h)]
    case Deliver => if w.queue == [] then [] else [EventOf(w.queue[0])]
    case Network(_) => []
    case ModemRestart => [DropAll]
  }

  /** The calls of type WWAN_ANY that an action leads to, read off what it adds to the history. */
  function CallsMade(w: World, a: Action): seq<Obs> {
    if InputOf(w, a) == [] then [] else Answered(Calls(Added(w.m, InputOf(w, a)[0])))
  }

  function TimedCalls(connected: bool, actions: seq<Action>): seq<Timed> {
    if actions == [] then []
    else
      var front, a := actions[..|actions| - 1], actions[|actions| - 1];
      TimedCalls(connected, front)
      + Stamped(CallsMade(Acts(Boot(connected), front), a), LastTold(connected, front))
  }

  function Stamped(calls: seq<Obs>, up: bool): seq<Timed> {
    seq(|calls|, i requires 0 <= i < |calls| => Timed(calls[i], up))
  }

  function CallsOf(ts: seq<Timed>): seq<Obs> {
    seq(|ts|, i requires 0 <= i < |ts| => ts[i].call)
  }

  function DueOf(ts: seq<Timed>): seq<Obs> {
    seq(|ts|, i requires 0 <= i < |ts| => Due(ts[i]))
  }

  lemma {:induction false} FlagIsLastTold(connected: bool, actions: seq<Action>)
    ensures Acts(Boot(connected), actions).connected == LastTold(connected, actions)
  {
    hide Step, Answers;
    if actions != [] {
      FlagIsLastTold(connected, actions[..|actions| - 1]);
    }
  }

  lemma CallsMadeAre(w: World, i: Input)
    ensures Answered(Calls(Added(w.m, i))) == Answered(CallOf(w.m, i))
  {
    var os := Added(w.m, i);
    StepProjects(w.m, i);
    OnlyAppend(IsCall, w.m.history, os);
    assert Calls(os) == (MCalls(w.m) + Calls(os))[|MCalls(w.m)|..] == (MCalls(w.m) + CallOf(w.m, i))[|MCalls(w.m)|..];
  }

  /** What an input queues, against what is due. */
  lemma FeedQueues(w: World, i: Input)
    ensures Coming(Feed(w, i).queue) == Coming(w.queue) + DueOf(Stamped(Answered(CallOf(w.m, i)), w.connected))
    ensures CallsOf(Stamped(Answered(CallOf(w.m, i)), w.connected)) == Answered(CallOf(w.m, i))
  {
    var call := CallOf(w.m, i);
    FedQueue(w, i);
    CallIsCall(w.m, i);
    NoAnswers(w.connected);
    ComingAppend(w.queue, Answers(w.connected, call));
    hide Step, CallOf;
    if call == [] {
      assert Answered(call) == [];
    } else {
      assert call == [call[0]];
      OnlyOne(IsAnswered, call[0]);
      AnswerIsDue(w.connected, call[0]);
    }
  }

  lemma AnswerIsDue(up: bool, call: Obs)
    requires IsCall(call)
    ensures Coming(Answers(up, [call])) == if IsAnswered(call) then [Due(Timed(call, up))] else []
  {
    assert Answers(up, [call]) == Answer(up, call) + Answers(up, []);
  }

  lemma FeedDue(w: World, i: Input)
    ensures var u, made := Feed(w, i), Stamped(Answered(CallOf(w.m, i)), w.connected);
            && MEvents(u.m) + Coming(u.queue) == MEvents(w.m) + EventIn(i) + Coming(w.queue) + DueOf(made)
            && Answered(MCalls(u.m)) == Answered(MCalls(w.m)) + CallsOf(made)
  {
    FeedQueues(w, i);
    StepProjects(w.m, i);
    OnlyAppend(IsAnswered, MCalls(w.m), CallOf(w.m, i));
    var u := Feed(w, i);
    assert u.m == Step(w.m, i);
    hide Step, MCalls, MEvents, Answers, Answered, CallOf, Stamped, DueOf, CallsOf, EventIn, Coming, Feed;
    Regrouped(MEvents(w.m) + EventIn(i), Coming(w.queue), DueOf(Stamped(Answered(CallOf(w.m, i)), w.connected)));
  }

  lemma NothingMade(up: bool)
    ensures DueOf(Stamped([], up)) == [] && CallsOf(Stamped([], up)) == []
  {
  }

  lemma ActQueues(w: World, a: Action)
    ensures var u, made := Act(w, a), Stamped(CallsMade(w, a), w.connected);
            && MEvents(u.m) + Coming(u.queue) == MEvents(w.m) + Coming(w.queue) + DueOf(made)
            && Answered(MCalls(u.m)) == Answered(MCalls(w.m)) + CallsOf(made)
  {
    NothingMade(w.connected);
    hide Feed, MCalls, MEvents, Answered, Stamped, DueOf, CallsOf, Coming, Added;
    if InputOf(w, a) != [] {
      var i := InputOf(w, a)[0];
      CallsMadeAre(w, i);
      if a.Deliver? {
        FeedDue(w.(queue := w.queue[1..]), i);
        HeadIsHeard(MEvents(w.m), w.queue);
      } else {
        FeedDue(w, i);
        assert MEvents(w.m) + [] == MEvents(w.m);
      }
    }
  }

  /** Over every run, whatever the types: the replies heard and queued are, one for one, those due to the calls
      of type WWAN_ANY; so the reply to a request is a grant exactly if the handler was last told, before that
      request, that mobile data was up. */
  lemma {:induction false} RepliesAreDue(connected: bool, actions: seq<Action>)
    ensures var w, ts := Acts(Boot(connected), actions), TimedCalls(connected, actions);
            && Answered(MCalls(w.m)) == CallsOf(ts)
            && MEvents(w.m) + Coming(w.queue) == DueOf(ts)
  {
    hide Act, CallsMade, Due;
    if actions == [] {
      assert MCalls(Start(LOC_AGPS_TYPE_WWAN_ANY)) == [] && MEvents(Start(LOC_AGPS_TYPE_WWAN_ANY)) == [];
    } else {
      hide MCalls, MEvents, Answered;
      var front, a := actions[..|actions| - 1], actions[|actions| - 1];
      var w := Acts(Boot(connected), front);
      var made := Stamped(CallsMade(w, a), w.connected);
      RepliesAreDue(connected, front);
      FlagIsLastTold(connected, front);
      ActQueues(w, a);
      assert DueOf(TimedCalls(connected, front) + made) == DueOf(TimedCalls(connected, front)) + DueOf(made);
      assert CallsOf(TimedCalls(connected, front) + made) == CallsOf(TimedCalls(connected, front)) + CallsOf(made);
    }
  }

  // ---------- a request on its own

  /** With nobody subscribed and nothing queued a client asks. If mobile data is up the call is acquired and the
      client told of its open; if not it is released and the client told of the failure. */
  lemma LoneRequest(w: World, h: int, n: nat)
    requires w.m.state.Released? && w.m.subs == [] && w.queue == [] && n > 0
    ensures var u := Drained(Act(w, Ask(h, LOC_AGPS_TYPE_WWAN_ANY)), n);
            && u.queue == []
            && (if w.connected then u.m.state.Acquired? && u.m.subs == [Subscriber(h, false)]
                else u.m.state.Released? && u.m.subs == [])
            && u.m.history == w.m.history + [Asked(h), CallRequest(LOC_AGPS_TYPE_WWAN_ANY)]
                              + if w.connected then [GotGranted, Opened(h)] else [GotDenied, OpenFailed(h)]
  {
    hide Act;
    var ask := Act(w, Ask(h, LOC_AGPS_TYPE_WWAN_ANY));
    LoneAsk(w, h);
    LoneAnswer(ask, h);
    DrainedNext(ask, n);
    StaysPut(Act(ask, Deliver), n - 1);
    hide Drained;
  }

  lemma DrainedNext(w: World, n: nat)
    requires n > 0
    ensures Drained(w, n) == Drained(Act(w, Deliver), n - 1)
  {
  }

  lemma LoneAsk(w: World, h: int)
    requires w.m.state.Released? && w.m.subs == [] && w.queue == []
    ensures Act(w, Ask(h, LOC_AGPS_TYPE_WWAN_ANY))
         == World(Machine(Pending, [Subscriber(h, false)], LOC_AGPS_TYPE_WWAN_ANY,
                          w.m.history + [Asked(h), CallRequest(LOC_AGPS_TYPE_WWAN_ANY)]),
                  w.connected, [if w.connected then ConnOpen else ConnFailed])
  {
    FedQueue(w, Subscribe(h, LOC_AGPS_TYPE_WWAN_ANY));
    assert w.m.history + [Asked(h)] + [CallRequest(LOC_AGPS_TYPE_WWAN_ANY)]
        == w.m.history + [Asked(h), CallRequest(LOC_AGPS_TYPE_WWAN_ANY)];
    var call := CallRequest(LOC_AGPS_TYPE_WWAN_ANY);
    assert Answers(w.connected, [call]) == Answer(w.connected, call) + Answers(w.connected, []);
  }

  lemma LoneAnswer(u: World, h: int)
    requires u.m.state.Pending? && u.m.subs == [Subscriber(h, false)]
    requires u.queue == [ConnOpen] || u.queue == [ConnFailed]
    ensures var v, up := Act(u, Deliver), u.queue == [ConnOpen];
            && v.queue == []
            && (if up then v.m.state.Acquired? && v.m.subs == u.m.subs else v.m.state.Released? && v.m.subs == [])
            && v.m.history == u.m.history + if up then [GotGranted, Opened(h)] else [GotDenied, OpenFailed(h)]
  {
    var s := Subscriber(h, false);
    OneSubscriber(s, OpenOk);
    OneSubscriber(s, OpenBad);
    hide Reach, Miss, Tell;
    var i := EventOf(u.queue[0]);
    FedQueue(u.(queue := []), i);
    NoAnswers(u.connected);
    assert CallOf(u.m, i) == [];
    assert u.m.history + [GotGranted] + [Opened(h)] == u.m.history + [GotGranted, Opened(h)];
    assert u.m.history + [GotDenied] + [OpenFailed(h)] == u.m.history + [GotDenied, OpenFailed(h)];
  }

  lemma OneSubscriber(s: Subscriber, n: Notice)
    requires !s.inactive
    ensures Reach([s], Actives) == [s] && Reach([s], Everyone) == [s] && Miss([s], Everyone) == []
    ensures Tell(n, [s]) == [Callback(n, s.handle)]
  {
    assert [s][1..] == [];
    assert Miss([s], Everyone) == [] + Miss([], Everyone);
    assert Reach([s], Everyone) == [s] + Reach([], Everyone) && Reach([s], Actives) == [s] + Reach([], Actives);
    assert Tell(n, [s]) == [Callback(n, s.handle)] + Tell(n, []);
  }
}
