/** The adapters registered with the location API: a fixed array kept without holes, so that a broadcast
    can stop at the first empty place. */
module AdapterArray {
  import opened Common
  import opened Masks

  const MAX_ADAPTERS := 10

  /** A pointer to an adapter; 0 is the null pointer. */
  type Adapter = nat
  const NULL: Adapter := 0

  type Slots = t: seq<Adapter> | |t| == MAX_ADAPTERS witness seq(MAX_ADAPTERS, _ => NULL)

  /** An open message names the adapter to be told that the engine is up, if any. */
  datatype Msg = OpenMsg(adapter: Adapter) | CloseMsg

  datatype State = State(slots: Slots, sent: seq<Msg>)

  datatype Op = AddAdapter(adapter: Adapter) | RemoveAdapter(adapter: Adapter)

  /** The first place that holds the adapter or nothing. */
  function Stop(t: seq<Adapter>, x: Adapter): (k: nat)
    ensures k <= |t| && (k < |t| ==> t[k] == x || t[k] == NULL)
    ensures forall i :: 0 <= i < k ==> t[i] != x && t[i] != NULL
  {
    Until(t, y => y == x || y == NULL)
  }

  /** How many adapters come before the first empty place. */
  function Filled(t: seq<Adapter>): nat {
    Stop(t, NULL)
  }

  function Apply(s: State, op: Op): State {
    match op
    case AddAdapter(x) =>
      var k := Stop(s.slots, x);
      if k < MAX_ADAPTERS && s.slots[k] != x then State(s.slots[k := x], s.sent + [OpenMsg(x)]) else s
    case RemoveAdapter(x) =>
      var k, n := Stop(s.slots, x), Filled(s.slots);
      if k < n then
        State(s.slots[k := s.slots[n - 1]][n - 1 := NULL], s.sent + [if n == 1 then CloseMsg else OpenMsg(NULL)])
      else s
  }

  const NONE: Slots := [NULL, NULL, NULL, NULL, NULL, NULL, NULL, NULL, NULL, NULL]
  const START := State(NONE, [])

  function Run(ops: seq<Op>): State {
    if ops == [] then START else Apply(Run(ops[..|ops| - 1]), ops[|ops| - 1])
  }

  // ---------- the bounded set

  function Registered(t: seq<Adapter>): set<Adapter> {
    set i | 0 <= i < Filled(t) :: t[i]
  }

  ghost predicate WellFormed(t: seq<Adapter>) {
    && (forall i :: Filled(t) <= i < |t| ==> t[i] == NULL)
    && (forall i, j :: 0 <= i < j < Filled(t) ==> t[i] != t[j])
  }

  /** The set over a run: an adapter is entered if there is room, and taken out if it is there. */
  function Members(ops: seq<Op>): set<Adapter> {
    if ops == [] then {} else MembersAfter(Members(ops[..|ops| - 1]), ops[|ops| - 1])
  }

  function MembersAfter(before: set<Adapter>, op: Op): set<Adapter> {
    if op.RemoveAdapter? then before - {op.adapter}
    else if op.adapter == NULL || |before| >= MAX_ADAPTERS then before
    else before + {op.adapter}
  }

  /** What one call sends, in terms of the set before and after: an open for an adapter that enters, and
      for one that leaves a close if none is left, else an open. */
  function SentBy(op: Op, before: set<Adapter>, after: set<Adapter>): seq<Msg> {
    if after == before then []
    else if op.AddAdapter? then [OpenMsg(op.adapter)]
    else if after == {} then [CloseMsg]
    else [OpenMsg(NULL)]
  }

  function Sent(ops: seq<Op>): seq<Msg> {
    if ops == [] then []
    else
      var front, op := ops[..|ops| - 1], ops[|ops| - 1];
      Sent(front) + SentBy(op, Members(front), Members(ops))
  }

  lemma FilledIs(t: seq<Adapter>, n: nat)
    requires n <= |t| && (n < |t| ==> t[n] == NULL) && forall i :: 0 <= i < n ==> t[i] != NULL
    ensures Filled(t) == n
  {
  }

  /** An adapter is found exactly if it is registered; otherwise the search ends at the end of the prefix. */
  lemma StopFinds(t: seq<Adapter>, x: Adapter)
    requires WellFormed(t)
    ensures x in Registered(t) <==> Stop(t, x) < Filled(t)
    ensures Stop(t, x) <= Filled(t)
    ensures if x in Registered(t) then t[Stop(t, x)] == x else Stop(t, x) == Filled(t)
    ensures |Registered(t)| == Filled(t) && NULL !in Registered(t)
  {
    PrefixSize(t, Filled(t));
  }

  lemma EnteredAtTheEnd(t: Slots, x: Adapter)
    requires WellFormed(t) && x != NULL && x !in Registered(t) && Filled(t) < MAX_ADAPTERS
    ensures WellFormed(t[Filled(t) := x]) && Registered(t[Filled(t) := x]) == Registered(t) + {x}
  {
    var n := Filled(t);
    var t' := t[n := x];
    FilledIs(t', n + 1);
    forall y | y in Registered(t) ensures y in Registered(t') {
      var i :| 0 <= i < n && t[i] == y;
      assert t'[i] == y;
    }
    assert t'[n] == x;
    forall i | 0 <= i < n ensures t[i] != x { assert t[i] in Registered(t); }
  }

  lemma TakenOut(t: Slots, k: nat)
    requires WellFormed(t) && k < Filled(t)
    ensures var n := Filled(t); var t' := t[k := t[n - 1]][n - 1 := NULL];
            WellFormed(t') && Registered(t') == Registered(t) - {t[k]}
  {
    var n := Filled(t);
    var t' := t[k := t[n - 1]][n - 1 := NULL];
    FilledIs(t', n - 1);
    forall y | y in Registered(t) && y != t[k] ensures y in Registered(t') {
      var i :| 0 <= i < n && t[i] == y;
      if i == n - 1 { assert t'[k] == y; } else { assert t'[i] == y; }
    }
  }

  lemma AddRefines(s: State, x: Adapter)
    requires WellFormed(s.slots)
    ensures var t, before := Apply(s, AddAdapter(x)), Registered(s.slots);
            var after := MembersAfter(before, AddAdapter(x));
            && WellFormed(t.slots) && Registered(t.slots) == after
            && t.sent == s.sent + SentBy(AddAdapter(x), before, after)
  {
    hide WellFormed, Registered, Filled;
    StopFinds(s.slots, x);
    FilledFacts(s.slots);
    if x != NULL && x !in Registered(s.slots) && Filled(s.slots) < MAX_ADAPTERS {
      EnteredAtTheEnd(s.slots, x);
      assert x in MembersAfter(Registered(s.slots), AddAdapter(x));
    } else {
      assert MembersAfter(Registered(s.slots), AddAdapter(x)) == Registered(s.slots);
    }
  }

  lemma RemoveRefines(s: State, x: Adapter)
    requires WellFormed(s.slots)
    ensures var t, before := Apply(s, RemoveAdapter(x)), Registered(s.slots);
            var after := MembersAfter(before, RemoveAdapter(x));
            && WellFormed(t.slots) && Registered(t.slots) == after
            && t.sent == s.sent + SentBy(RemoveAdapter(x), before, after)
  {
    hide WellFormed, Registered, Filled;
    var before := Registered(s.slots);
    StopFinds(s.slots, x);
    if x in before {
      TakenOut(s.slots, Stop(s.slots, x));
      assert |before - {x}| == |before| - 1;
      assert x !in before - {x};
    } else {
      assert before - {x} == before;
    }
  }

  /** Over every run the array is without holes and without repeats, holds the bounded set, and the
      messages sent are those the set calls for. */
  lemma {:induction false} AlwaysTheSet(ops: seq<Op>)
    ensures var s := Run(ops);
            WellFormed(s.slots) && Registered(s.slots) == Members(ops) && s.sent == Sent(ops)
  {
    if ops == [] {
      FilledIs(START.slots, 0);
    } else {
      hide WellFormed, Registered, Apply, MembersAfter, SentBy;
      var front, op := ops[..|ops| - 1], ops[|ops| - 1];
      AlwaysTheSet(front);
      if op.AddAdapter? {
        AddRefines(Run(front), op.adapter);
      } else {
        RemoveRefines(Run(front), op.adapter);
      }
    }
  }

  // ---------- broadcasts

  /** The union of the event masks. */
  function UnionMask(mask: Adapter -> bv64, adapters: seq<Adapter>): bv64 {
    if adapters == [] then 0 else With(UnionMask(mask, adapters[..|adapters| - 1]), mask(adapters[|adapters| - 1]))
  }

  /** A set of events meets the union exactly if some adapter asks for one of them. */
  lemma {:induction false} UnionMaskMeans(mask: Adapter -> bv64, adapters: seq<Adapter>, events: bv64)
    ensures Meets(UnionMask(mask, adapters), events) <==> exists x :: x in adapters && Meets(mask(x), events)
  {
    if adapters == [] {
      NothingMeets(events);
    } else {
      hide Meets, With;
      var n := |adapters| - 1;
      UnionMaskMeans(mask, adapters[..n], events);
      MeetsWith(UnionMask(mask, adapters[..n]), mask(adapters[n]), events);
      assert adapters == adapters[..n] + [adapters[n]];
    }
  }

  lemma NothingMeets(events: bv64)
    ensures !Meets(0, events)
  {
  }

  /** What an event mask must be: an event is in it exactly if it is not excluded and a registered adapter
      asks for it. */
  lemma EvtMaskMeans(mask: Adapter -> bv64, t: seq<Adapter>, excluded: bv64, events: bv64)
    ensures Meets(Without(UnionMask(mask, t[..Filled(t)]), excluded), events)
       <==> exists x :: x in Registered(t) && Meets(mask(x), Without(events, excluded))
  {
    hide Meets, Without;
    MeetsWithout(UnionMask(mask, t[..Filled(t)]), excluded, events);
    UnionMaskMeans(mask, t[..Filled(t)], Without(events, excluded));
    assert forall x :: x in t[..Filled(t)] <==> x in Registered(t);
  }

  class LocApiBase {
    const adapters: array<Adapter>
    const excludedMask: bv64
    ghost var sent: seq<Msg>
    ghost var ops: seq<Op>

    /** The array and the messages are those of the calls so far. */
    ghost predicate Valid()
      reads this, adapters
    {
      adapters.Length == MAX_ADAPTERS && State(adapters[..], sent) == Run(ops)
    }

    constructor (excludedMask: bv64)
      ensures Valid() && ops == [] && this.excludedMask == excludedMask && fresh(adapters)
    {
      var a := new Adapter[MAX_ADAPTERS](_ => NULL);
      adapters := a;
      this.excludedMask := excludedMask;
      sent, ops := [], [];
      new;
      assert adapters[..] == START.slots;
    }

    method AddAdapter(adapter: Adapter)
      requires Valid()
      modifies this, adapters
      ensures Valid() && ops == old(ops) + [Op.AddAdapter(adapter)]
    {
      ops := ops + [Op.AddAdapter(adapter)];
      assert ops[..|ops| - 1] == old(ops);
      var i := 0;
      while i < MAX_ADAPTERS && adapters[i] != adapter
        invariant 0 <= i <= Stop(adapters[..], adapter)
        invariant adapters[..] == old(adapters[..]) && sent == old(sent)
      {
        if adapters[i] == NULL {
          adapters[i] := adapter;
          sent := sent + [OpenMsg(adapter)];
          break;
        }
        i := i + 1;
      }
    }

    method RemoveAdapter(adapter: Adapter)
      requires Valid()
      modifies this, adapters
      ensures Valid() && ops == old(ops) + [Op.RemoveAdapter(adapter)]
    {
      hide Run;
      AfterOneMore(ops, Op.RemoveAdapter(adapter));
      ops := ops + [Op.RemoveAdapter(adapter)];
      ghost var t := adapters[..];
      var i := 0;
      while i < MAX_ADAPTERS && adapters[i] != NULL
        invariant 0 <= i <= MAX_ADAPTERS
        invariant adapters[..] == t && sent == old(sent) && i <= Stop(t, adapter) && i <= Filled(t)
        decreases MAX_ADAPTERS - i
      {
        if adapters[i] == adapter {
          i := CloseGap(i);
          sent := sent + [if i == 0 then CloseMsg else OpenMsg(NULL)];
          break;
        }
        i := i + 1;
      }
    }

    /** The last adapter moves into the place, and its own place becomes empty. */
    method CloseGap(j: nat) returns (i: nat)
      requires adapters.Length == MAX_ADAPTERS && j < Filled(adapters[..])
      modifies adapters
      ensures var t := old(adapters[..]); i == Filled(t) - 1 && adapters[..] == t[j := t[i]][i := NULL]
    {
      ghost var t := adapters[..];
      i := j;
      adapters[i] := NULL;
      i := i + 1;
      while i < MAX_ADAPTERS && adapters[i] != NULL
        invariant j < i <= Filled(t) && adapters[..] == t[j := NULL]
      {
        i := i + 1;
      }
      i := i - 1;
      adapters[j] := adapters[i];
      adapters[i] := NULL;
    }

    method GetEvtMask(evtMask: Adapter -> bv64) returns (mask: bv64)
      requires Valid()
      ensures forall events :: Meets(mask, events)
                <==> exists x :: x in Members(ops) && Meets(evtMask(x), Without(events, excludedMask))
    {
      hide Run, Meets, With, Without, Stop;
      mask := 0;
      var i := 0;
      while i < MAX_ADAPTERS && adapters[i] != NULL
        invariant 0 <= i <= Filled(adapters[..]) && mask == UnionMask(evtMask, adapters[..i])
        decreases MAX_ADAPTERS - i
      {
        assert adapters[..i + 1][..i] == adapters[..i];
        mask := With(mask, evtMask(adapters[i]));
        i := i + 1;
      }
      mask := Without(mask, excludedMask);
      AlwaysTheSet(ops);
      forall events
        ensures Meets(mask, events)
           <==> exists x :: x in Members(ops) && Meets(evtMask(x), Without(events, excludedMask))
      {
        EvtMaskMeans(evtMask, adapters[..], excludedMask, events);
      }
    }

    /** A call to all adapters reaches each registered one exactly once, and nobody else. */
    method ToAllAdapters() returns (called: seq<Adapter>)
      requires Valid()
      ensures multiset(called) == multiset(Members(ops))
    {
      called := [];
      var i := 0;
      AlwaysTheSet(ops);
      hide Run, Members, Filled;
      FilledFacts(adapters[..]);
      while i < MAX_ADAPTERS && adapters[i] != NULL
        invariant 0 <= i <= Filled(adapters[..]) && called == adapters[..i]
        decreases MAX_ADAPTERS - i
      {
        called := called + [adapters[i]];
        i := i + 1;
      }
      OnceEach(called);
      assert Members(ops) == set x | x in called;
    }

    /** The adapters are asked in order until one handles the call. */
    method ToFirstHandlingAdapter(handles: Adapter -> bool) returns (asked: seq<Adapter>)
      requires Valid()
      ensures forall k :: 0 <= k < |asked| - 1 ==> !handles(asked[k])
      ensures (exists x :: x in asked && handles(x)) <==> exists x :: x in Members(ops) && handles(x)
      ensures !(exists x :: x in asked && handles(x)) ==> multiset(asked) == multiset(Members(ops))
    {
      asked := [];
      var i := 0;
      AlwaysTheSet(ops);
      hide Run, Members, Filled;
      FilledFacts(adapters[..]);
      while i < MAX_ADAPTERS && adapters[i] != NULL
        invariant 0 <= i <= Filled(adapters[..]) && asked == adapters[..i]
        invariant forall k :: 0 <= k < |asked| ==> !handles(asked[k])
        decreases MAX_ADAPTERS - i
      {
        asked := asked + [adapters[i]];
        if handles(adapters[i]) {
          assert adapters[i] in Registered(adapters[..]);
          return;
        }
        i := i + 1;
      }
      OnceEach(asked);
      assert Members(ops) == set x | x in asked;
    }
  }

  lemma FilledFacts(t: seq<Adapter>)
    ensures Filled(t) <= |t| && (Filled(t) < |t| ==> t[Filled(t)] == NULL)
    ensures forall i :: 0 <= i < Filled(t) ==> t[i] != NULL
  {
  }

  lemma AfterOneMore(ops: seq<Op>, op: Op)
    ensures Run(ops + [op]) == Apply(Run(ops), op)
  {
    assert (ops + [op])[..|ops|] == ops;
  }

  lemma {:induction false} OnceEach(s: seq<Adapter>)
    requires forall i, j :: 0 <= i < j < |s| ==> s[i] != s[j]
    ensures multiset(s) == multiset(set x | x in s)
  {
    if s != [] {
      var n := |s| - 1;
      OnceEach(s[..n]);
      assert s == s[..n] + [s[n]];
      assert (set x | x in s) == (set x | x in s[..n]) + {s[n]};
    }
  }
}
