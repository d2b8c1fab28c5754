/** The manager in front of the two data-call machines: which machine a type, a handle or a report is
    routed to. */
module AgpsRouting {
  import opened AgpsMachine

  datatype Kind = Agnss | Internet

  datatype Nif = Absent | Present(m: Machine)

  /** The two machines, the emergency-PDN setting, and the handles refused for want of a machine. */
  datatype Manager = Manager(agnss: Nif, internet: Nif, usePdn: bool, refused: seq<int>)

  datatype Msg =
    | RequestAtl(h: int, typ: int)
    | ReleaseAtl(h: int)
    | OpenSuccess(typ: int) | OpenFailure(typ: int) | CloseReport(typ: int)
    | ModemSsr

  /** getAgpsStateMachine: everything that is not a SUPL type goes to the internet machine. */
  function KindOf(typ: int): Kind {
    if typ == LOC_AGPS_TYPE_INVALID || typ == LOC_AGPS_TYPE_SUPL || typ == LOC_AGPS_TYPE_SUPL_ES then Agnss
    else Internet
  }

  /** Emergency SUPL is demoted to SUPL when the emergency PDN is not to be used. */
  function EffectiveType(usePdn: bool, typ: int): int {
    if !usePdn && typ == LOC_AGPS_TYPE_SUPL_ES then LOC_AGPS_TYPE_SUPL else typ
  }

  function Get(g: Manager, k: Kind): Nif {
    if k.Agnss? then g.agnss else g.internet
  }

  function Put(g: Manager, k: Kind, m: Machine): Manager {
    if k.Agnss? then g.(agnss := Present(m)) else g.(internet := Present(m))
  }

  predicate Knows(n: Nif, h: int) {
    n.Present? && Listed(n.m.subs, h)
  }

  function Send(g: Manager, k: Kind, i: Input): Manager {
    if Get(g, k).Absent? then g else Put(g, k, Step(Get(g, k).m, i))
  }

  /** The machine that a message is for, and what it becomes there. */
  function Dispatch(g: Manager, msg: Msg): Manager {
    match msg
    case RequestAtl(h, typ) =>
      var t := EffectiveType(g.usePdn, typ);
      if Get(g, KindOf(t)).Absent? then g.(refused := g.refused + [h]) else Send(g, KindOf(t), Subscribe(h, t))
    case ReleaseAtl(h) =>
      if Knows(g.agnss, h) then Send(g, Agnss, Unsubscribe(h))
      else if Knows(g.internet, h) then Send(g, Internet, Unsubscribe(h))
      else g
    case OpenSuccess(typ) => Send(g, KindOf(typ), Granted)
    case OpenFailure(typ) => Send(g, KindOf(typ), Denied)
    case CloseReport(typ) => Send(g, KindOf(typ), ClosedByFramework)
    case ModemSsr => Send(Send(g, Agnss, DropAll), Internet, DropAll)
  }

  function Handle(g: Manager, msgs: seq<Msg>): Manager {
    if msgs == [] then g else Dispatch(Handle(g, msgs[..|msgs| - 1]), msgs[|msgs| - 1])
  }

  /** createAgpsStateMachines, with either machine or both. */
  function Created(agnss: bool, internet: bool, usePdn: bool): Manager {
    Manager(if agnss then Present(Start(LOC_AGPS_TYPE_SUPL)) else Absent,
            if internet then Present(Start(LOC_AGPS_TYPE_WWAN_ANY)) else Absent, usePdn, [])
  }

  function InitialType(k: Kind): int {
    if k.Agnss? then LOC_AGPS_TYPE_SUPL else LOC_AGPS_TYPE_WWAN_ANY
  }

  /** The types a machine carries, by number: -1, 1 and 5 are carried on the A-GNSS machine and all others on
      the internet machine, but 5 is never carried if the emergency PDN is not to be used. */
  predicate Carried(k: Kind, usePdn: bool, typ: int) {
    (k.Agnss? <==> typ in {-1, 1, 5}) && (typ == 5 ==> usePdn)
  }

  /** What a message means to machine k. */
  function InputsFor(g: Manager, k: Kind, msg: Msg): (inputs: seq<Input>)
    ensures |inputs| <= 1
  {
    match msg
    case RequestAtl(h, typ) =>
      var t := EffectiveType(g.usePdn, typ);
      if KindOf(t) == k then [Subscribe(h, t)] else []
    case ReleaseAtl(h) =>
      if Knows(g.agnss, h) then (if k.Agnss? then [Unsubscribe(h)] else [])
      else if Knows(g.internet, h) && k.Internet? then [Unsubscribe(h)]
      else []
    case OpenSuccess(typ) => if KindOf(typ) == k then [Granted] else []
    case OpenFailure(typ) => if KindOf(typ) == k then [Denied] else []
    case CloseReport(typ) => if KindOf(typ) == k then [ClosedByFramework] else []
    case ModemSsr => [DropAll]
  }

  lemma DispatchOnMachine(g: Manager, k: Kind, msg: Msg)
    ensures Dispatch(g, msg).usePdn == g.usePdn
    ensures var n, inputs := Get(g, k), InputsFor(g, k, msg);
            Get(Dispatch(g, msg), k) ==
              if n.Absent? then Absent else if inputs == [] then n else Present(Step(n.m, inputs[0]))
  {
    hide Step;
  }

  lemma InputsForFacts(g: Manager, k: Kind, msg: Msg)
    ensures var inputs := InputsFor(g, k, msg);
            inputs != [] ==>
              && (inputs[0].Subscribe? ==> Carried(k, g.usePdn, inputs[0].typ))
              && (inputs[0].DropAll? ==> msg.ModemSsr?)
  {
  }

  /** Each machine sees a run of its own, so what holds of every machine run holds behind the manager;
      and every type the machine ever takes on is one it carries. */
  lemma {:induction false} ManagerRunsMachines(agnss: bool, internet: bool, usePdn: bool, msgs: seq<Msg>, k: Kind)
      returns (inputs: seq<Input>)
    requires if k.Agnss? then agnss else internet
    ensures Get(Handle(Created(agnss, internet, usePdn), msgs), k) == Present(Run(Start(InitialType(k)), inputs))
    ensures ModemSsr !in msgs ==> NoDrop(inputs)
    ensures forall i :: 0 <= i < |inputs| && inputs[i].Subscribe? ==> Carried(k, usePdn, inputs[i].typ)
    ensures Handle(Created(agnss, internet, usePdn), msgs).usePdn == usePdn
  {
    hide Step, Dispatch, InputsFor, KindOf, Carried;
    if msgs == [] {
      inputs := [];
    } else {
      var front, msg := msgs[..|msgs| - 1], msgs[|msgs| - 1];
      var g := Handle(Created(agnss, internet, usePdn), front);
      inputs := ManagerRunsMachines(agnss, internet, usePdn, front, k);
      DispatchOnMachine(g, k, msg);
      InputsForFacts(g, k, msg);
      var more := InputsFor(g, k, msg);
      hide Run;
      if more != [] {
        RunSnoc(Start(InitialType(k)), inputs, more[0]);
        inputs := inputs + [more[0]];
      }
    }
  }

  // ---------- replies find their machine

  predicate TypeFor(k: Kind, usePdn: bool, o: Obs) {
    (o.CallRequest? || o.CallRelease?) ==> Carried(k, usePdn, o.typ)
  }

  ghost predicate Routed(k: Kind, usePdn: bool, m: Machine) {
    Carried(k, usePdn, m.typ) && forall o :: o in m.history ==> TypeFor(k, usePdn, o)
  }

  lemma {:induction false} TellIsRouted(k: Kind, usePdn: bool, n: Notice, subs: seq<Subscriber>)
    ensures forall o :: o in Tell(n, subs) ==> TypeFor(k, usePdn, o)
  {
    if subs != [] {
      TellIsRouted(k, usePdn, n, subs[1..]);
    }
  }

  lemma StepRouted(k: Kind, usePdn: bool, m: Machine, i: Input)
    requires Routed(k, usePdn, m) && (i.Subscribe? ==> Carried(k, usePdn, i.typ))
    ensures Routed(k, usePdn, Step(m, i))
  {
    TellIsRouted(k, usePdn, OpenOk, Reach(m.subs, Actives));
    TellIsRouted(k, usePdn, OpenBad, Reach(m.subs, Everyone));
    TellIsRouted(k, usePdn, Close, Reach(m.subs, Everyone));
    TellIsRouted(k, usePdn, Close, Reach(m.subs, Inactives));
    hide Tell, Reach, Miss, Add, Deactivate, Listed, AnyActive, Carried;
  }

  lemma {:induction false} RunRouted(k: Kind, usePdn: bool, inputs: seq<Input>)
    requires forall i :: 0 <= i < |inputs| && inputs[i].Subscribe? ==> Carried(k, usePdn, inputs[i].typ)
    ensures Routed(k, usePdn, Run(Start(InitialType(k)), inputs))
  {
    hide Step;
    if inputs != [] {
      RunRouted(k, usePdn, inputs[..|inputs| - 1]);
      StepRouted(k, usePdn, Run(Start(InitialType(k)), inputs[..|inputs| - 1]), inputs[|inputs| - 1]);
    }
  }

  /** Whatever messages arrive, a machine's current type and the type of every call it ever made are among
      those it carries, and a reply with such a type is routed back to it. */
  lemma RepliesRouteBack(agnss: bool, internet: bool, usePdn: bool, msgs: seq<Msg>, k: Kind)
    requires if k.Agnss? then agnss else internet
    ensures var n := Get(Handle(Created(agnss, internet, usePdn), msgs), k);
            && n.Present? && Carried(k, usePdn, n.m.typ)
            && (forall o :: o in n.m.history && (o.CallRequest? || o.CallRelease?) ==> Carried(k, usePdn, o.typ))
    ensures forall typ :: Carried(k, usePdn, typ) ==> KindOf(typ) == k
  {
    var inputs := ManagerRunsMachines(agnss, internet, usePdn, msgs, k);
    RunRouted(k, usePdn, inputs);
    hide Run, Handle, Carried;
  }

  // ---------- where each message goes, by the numbers of the types

  /** A request for -1, 1 or 5 is made at the A-GNSS machine, with 5 made 1 if the emergency PDN is not to be
      used, and any other at the internet machine; without that machine the client is refused. */
  lemma RequestGoesTo(g: Manager, h: int, typ: int)
    ensures var t := if typ == 5 && !g.usePdn then 1 else typ;
            Dispatch(g, RequestAtl(h, typ)) ==
              if typ in {-1, 1, 5} then
                if g.agnss.Present? then g.(agnss := Present(Step(g.agnss.m, Subscribe(h, t))))
                else g.(refused := g.refused + [h])
              else
                if g.internet.Present? then g.(internet := Present(Step(g.internet.m, Subscribe(h, t))))
                else g.(refused := g.refused + [h])
  {
    hide Step;
  }

  /** A release is made at the machine that lists the client, the A-GNSS machine if both do. */
  lemma ReleaseGoesTo(g: Manager, h: int)
    ensures var atAgnss := g.agnss.Present? && Listed(g.agnss.m.subs, h);
            var atInternet := g.internet.Present? && Listed(g.internet.m.subs, h);
            Dispatch(g, ReleaseAtl(h)) ==
              if atAgnss then g.(agnss := Present(Step(g.agnss.m, Unsubscribe(h))))
              else if atInternet then g.(internet := Present(Step(g.internet.m, Unsubscribe(h))))
              else g
  {
    hide Step;
  }

  /** A report reaches the machine that carries its type, as the event it reports. */
  lemma ReportGoesTo(g: Manager, typ: int, msg: Msg, i: Input)
    requires (msg, i) in {(OpenSuccess(typ), Granted), (OpenFailure(typ), Denied),
                          (CloseReport(typ), ClosedByFramework)}
    ensures Dispatch(g, msg) ==
              if typ in {-1, 1, 5} then
                if g.agnss.Present? then g.(agnss := Present(Step(g.agnss.m, i))) else g
              else
                if g.internet.Present? then g.(internet := Present(Step(g.internet.m, i))) else g
  {
    hide Step;
  }

  /** A restart leaves both machines without clients and otherwise as they were. */
  lemma RestartReachesBoth(g: Manager)
    ensures var d := Dispatch(g, ModemSsr);
            && d.usePdn == g.usePdn && d.refused == g.refused
            && d.agnss == (if g.agnss.Present? then Present(g.agnss.m.(subs := [])) else Absent)
            && d.internet == (if g.internet.Present? then Present(g.internet.m.(subs := [])) else Absent)
  {
  }
}
