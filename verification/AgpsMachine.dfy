/** The A-GPS data-call state machine: what each event does to the state, to the subscribers and to
    what clients and the framework observe. */
module AgpsMachine {
  const LOC_AGPS_TYPE_INVALID := -1
  const LOC_AGPS_TYPE_SUPL := 1
  const LOC_AGPS_TYPE_WWAN_ANY := 3
  const LOC_AGPS_TYPE_SUPL_ES := 5

  datatype State = Released | Pending | Acquired | Releasing

  datatype Subscriber = Subscriber(handle: int, inactive: bool)

  /** What can be observed at the machine's edges, in order. */
  datatype Obs =
    | Asked(h: int) | AskedAgain(h: int) | Left(h: int)            // clients: subscribe, resubscribe, unsubscribe
    | Opened(h: int) | OpenFailed(h: int) | Closed(h: int)         // callbacks to clients
    | CallRequest(typ: int) | CallRelease(typ: int)                // calls to the framework
    | GotGranted | GotDenied | GotReleased                         // events from the framework

  datatype Machine = Machine(state: State, subs: seq<Subscriber>, typ: int, history: seq<Obs>)

  datatype Input =
    | Subscribe(h: int, typ: int)
    | Unsubscribe(h: int)
    | Granted | Denied | ClosedByFramework
    | DropAll

  // ---------- subscriber lists

  predicate Listed(subs: seq<Subscriber>, h: int) {
    exists i :: 0 <= i < |subs| && subs[i].handle == h
  }

  predicate AnyActive(subs: seq<Subscriber>) {
    exists i :: 0 <= i < |subs| && !subs[i].inactive
  }

  ghost predicate DistinctHandles(subs: seq<Subscriber>) {
    forall i, j :: 0 <= i < j < |subs| ==> subs[i].handle != subs[j].handle
  }

  function Add(subs: seq<Subscriber>, s: Subscriber): seq<Subscriber> {
    if Listed(subs, s.handle) then subs else subs + [s]
  }

  /** The first subscriber with the handle becomes inactive. */
  function Deactivate(subs: seq<Subscriber>, h: int): (r: seq<Subscriber>)
    ensures |r| == |subs|
  {
    if subs == [] then []
    else if subs[0].handle == h then [subs[0].(inactive := true)] + subs[1..]
    else [subs[0]] + Deactivate(subs[1..], h)
  }

  datatype Who = Everyone | Inactives | Actives

  predicate Selected(who: Who, s: Subscriber) {
    who.Everyone? || (who.Inactives? && s.inactive) || (who.Actives? && !s.inactive)
  }

  /** The subscribers that a notification reaches, and those it does not, in list order. */
  function Reach(subs: seq<Subscriber>, who: Who): seq<Subscriber> {
    if subs == [] then []
    else (if Selected(who, subs[0]) then [subs[0]] else []) + Reach(subs[1..], who)
  }

  function Miss(subs: seq<Subscriber>, who: Who): seq<Subscriber> {
    if subs == [] then []
    else (if Selected(who, subs[0]) then [] else [subs[0]]) + Miss(subs[1..], who)
  }

  datatype Notice = OpenOk | OpenBad | Close

  function Callback(n: Notice, h: int): Obs {
    match n case OpenOk => Opened(h) case OpenBad => OpenFailed(h) case Close => Closed(h)
  }

  function Tell(n: Notice, subs: seq<Subscriber>): seq<Obs> {
    if subs == [] then [] else [Callback(n, subs[0].handle)] + Tell(n, subs[1..])
  }

  // ---------- the five events

  function Note(m: Machine, os: seq<Obs>): Machine {
    m.(history := m.history + os)
  }

  function OnSubscribe(m: Machine, h: int): Machine {
    var added := Add(m.subs, Subscriber(h, false));
    match m.state
    case Released => Note(m.(subs := added, state := Pending), [CallRequest(m.typ)])
    case Pending => m.(subs := added)
    case Acquired => Note(m.(subs := added), [Opened(h)])
    case Releasing => m.(subs := added)
  }

  function OnUnsubscribe(m: Machine, h: int): Machine {
    match m.state
    case Released => Note(m, [Closed(h)])
    case Releasing =>
      var subs := Deactivate(m.subs, h);
      if subs == [] then m.(subs := subs, state := Released) else m.(subs := subs)
    case _ =>
      var subs := Deactivate(m.subs, h);
      if subs == [] then Note(m.(subs := subs, state := Released), [CallRelease(m.typ)])
      else if !AnyActive(subs) then Note(m.(subs := subs, state := Releasing), [CallRelease(m.typ)])
      else m.(subs := subs)
  }

  function OnGranted(m: Machine): Machine {
    if m.state.Pending? then Note(m.(state := Acquired), Tell(OpenOk, Reach(m.subs, Actives))) else m
  }

  /** Both a close and a denial end a release: inactive subscribers go, active ones want a new call. */
  function EndRelease(m: Machine): Machine {
    var rest := Miss(m.subs, Inactives);
    var told := Note(m.(subs := rest), Tell(Close, Reach(m.subs, Inactives)));
    if AnyActive(rest) then Note(told.(state := Pending), [CallRequest(m.typ)]) else told.(state := Released)
  }

  function OnReleased(m: Machine): Machine {
    match m.state
    case Released => m
    case Pending => m
    case Acquired => Note(m.(state := Released, subs := Miss(m.subs, Everyone)), Tell(Close, Reach(m.subs, Everyone)))
    case Releasing => EndRelease(m)
  }

  function OnDenied(m: Machine): Machine {
    match m.state
    case Released => m
    case Acquired => m
    case Pending => Note(m.(state := Released, subs := Miss(m.subs, Everyone)), Tell(OpenBad, Reach(m.subs, Everyone)))
    case Releasing => EndRelease(m)
  }

  /** One input, as the manager hands it to the machine; a release of an unknown handle goes nowhere. */
  function Step(m: Machine, i: Input): Machine {
    match i
    case Subscribe(h, typ) =>
      var asked := if Listed(m.subs, h) then AskedAgain(h) else Asked(h);
      OnSubscribe(Note(m.(typ := typ), [asked]), h)
    case Unsubscribe(h) => if Listed(m.subs, h) then OnUnsubscribe(Note(m, [Left(h)]), h) else m
    case Granted => OnGranted(Note(m, [GotGranted]))
    case Denied => OnDenied(Note(m, [GotDenied]))
    case ClosedByFramework => OnReleased(Note(m, [GotReleased]))
    case DropAll => m.(subs := [])
  }

  function Start(typ: int): Machine {
    Machine(Released, [], typ, [])
  }

  function Run(m: Machine, inputs: seq<Input>): Machine {
    if inputs == [] then m else Step(Run(m, inputs[..|inputs| - 1]), inputs[|inputs| - 1])
  }

  lemma RunSnoc(m: Machine, inputs: seq<Input>, i: Input)
    ensures Run(m, inputs + [i]) == Step(Run(m, inputs), i)
  {
    hide Step;
    assert (inputs + [i])[..|inputs|] == inputs;
  }

  ghost predicate NoDrop(inputs: seq<Input>) {
    forall k :: 0 <= k < |inputs| ==> !inputs[k].DropAll?
  }

  // ---------- laws of the lists

  lemma {:induction false} ReachMiss(subs: seq<Subscriber>, who: Who)
    ensures forall s :: s in Reach(subs, who) <==> s in subs && Selected(who, s)
    ensures forall s :: s in Miss(subs, who) <==> s in subs && !Selected(who, s)
  {
    if subs != [] {
      ReachMiss(subs[1..], who);
    }
  }

  lemma {:induction false} SublistsDistinct(subs: seq<Subscriber>, who: Who)
    requires DistinctHandles(subs)
    ensures DistinctHandles(Reach(subs, who)) && DistinctHandles(Miss(subs, who))
  {
    if subs != [] {
      ReachMiss(subs[1..], who);
      SublistsDistinct(subs[1..], who);
      forall s | s in subs[1..]
        ensures s.handle != subs[0].handle
      {
      }
    }
  }

  lemma {:induction false} DeactivateFacts(subs: seq<Subscriber>, h: int)
    requires DistinctHandles(subs)
    ensures forall i :: 0 <= i < |subs| ==>
      Deactivate(subs, h)[i] == if subs[i].handle == h then subs[i].(inactive := true) else subs[i]
  {
    if subs != [] {
      DeactivateFacts(subs[1..], h);
    }
  }

  // ---------- the state and the list agree

  /** Without modem restarts: released exactly when nobody is listed, somebody active is listed while a
      call is wanted or up, and no handle is listed twice. */
  ghost predicate Agree(m: Machine) {
    && DistinctHandles(m.subs)
    && (m.state.Released? <==> m.subs == [])
    && (m.state.Pending? || m.state.Acquired? ==> AnyActive(m.subs))
  }

  /** With modem restarts, which empty the list in any state, this much is left. */
  ghost predicate AgreeDespiteDrops(m: Machine) {
    DistinctHandles(m.subs) && (m.state.Released? ==> m.subs == [])
  }

  lemma AddFacts(subs: seq<Subscriber>, h: int)
    requires DistinctHandles(subs)
    ensures var r := Add(subs, Subscriber(h, false));
            && DistinctHandles(r) && r != [] && Listed(r, h)
            && (AnyActive(subs) ==> AnyActive(r)) && (subs == [] ==> AnyActive(r))
            && (forall g :: g != h ==> Listed(r, g) == Listed(subs, g))
  {
    var r := Add(subs, Subscriber(h, false));
    if !Listed(subs, h) {
      assert r[|subs|].handle == h;
      forall g | g != h
        ensures Listed(r, g) == Listed(subs, g)
      {
        if i :| 0 <= i < |subs| && subs[i].handle == g { assert r[i].handle == g; }
      }
      if i :| 0 <= i < |subs| && !subs[i].inactive { assert !r[i].inactive; }
      if subs == [] { assert !r[0].inactive; }
    }
  }

  lemma EndReleaseAgrees(m: Machine)
    requires DistinctHandles(m.subs)
    ensures Agree(EndRelease(m))
  {
    ReachMiss(m.subs, Inactives);
    SublistsDistinct(m.subs, Inactives);
    var rest := Miss(m.subs, Inactives);
    if rest != [] {
      assert rest[0] in rest;
    }
  }

  lemma DropLeavesNone()
    ensures DistinctHandles([])
  {
  }

  lemma NobodyMissed(subs: seq<Subscriber>)
    ensures Miss(subs, Everyone) == []
  {
    ReachMiss(subs, Everyone);
    if Miss(subs, Everyone) != [] {
      assert Miss(subs, Everyone)[0] in Miss(subs, Everyone);
      assert false;
    }
  }

  lemma DeactivateKeepsDistinct(subs: seq<Subscriber>, h: int)
    requires DistinctHandles(subs)
    ensures DistinctHandles(Deactivate(subs, h))
    ensures forall g :: Listed(Deactivate(subs, h), g) == Listed(subs, g)
  {
    DeactivateFacts(subs, h);
    forall g
      ensures Listed(Deactivate(subs, h), g) == Listed(subs, g)
    {
      if i :| 0 <= i < |subs| && subs[i].handle == g { assert Deactivate(subs, h)[i].handle == g; }
    }
  }

  lemma StepAgrees(m: Machine, i: Input)
    requires Agree(m) && !i.DropAll?
    ensures Agree(Step(m, i))
  {
    hide DistinctHandles, AnyActive, Listed, Tell, Reach, Deactivate, EndRelease, Add;
    DropLeavesNone();
    match i
    case Subscribe(h, typ) => AddFacts(m.subs, h);
    case Unsubscribe(h) => DeactivateKeepsDistinct(m.subs, h);
    case Granted =>
    case Denied => EndReleaseAgrees(Note(m, [GotDenied])); NobodyMissed(m.subs);
    case ClosedByFramework => EndReleaseAgrees(Note(m, [GotReleased])); NobodyMissed(m.subs);
  }

  lemma StepAgreesDespiteDrops(m: Machine, i: Input)
    requires AgreeDespiteDrops(m)
    ensures AgreeDespiteDrops(Step(m, i))
  {
    hide DistinctHandles, AnyActive, Listed, Tell, Reach, Deactivate, EndRelease, Add;
    DropLeavesNone();
    match i
    case Subscribe(h, typ) => AddFacts(m.subs, h);
    case Unsubscribe(h) => DeactivateKeepsDistinct(m.subs, h);
    case Granted =>
    case Denied => EndReleaseAgrees(Note(m, [GotDenied])); NobodyMissed(m.subs);
    case ClosedByFramework => EndReleaseAgrees(Note(m, [GotReleased])); NobodyMissed(m.subs);
    case DropAll =>
  }

  lemma {:induction false} StateAndListAgree(typ: int, inputs: seq<Input>)
    ensures AgreeDespiteDrops(Run(Start(typ), inputs))
    ensures NoDrop(inputs) ==> Agree(Run(Start(typ), inputs))
  {
    hide Step;
    if inputs != [] {
      var front := inputs[..|inputs| - 1];
      StateAndListAgree(typ, front);
      StepAgreesDespiteDrops(Run(Start(typ), front), inputs[|inputs| - 1]);
      if NoDrop(inputs) {
        StepAgrees(Run(Start(typ), front), inputs[|inputs| - 1]);
      }
    }
  }
}
