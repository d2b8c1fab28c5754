/** Network reports through the status history: over any run the newest table is the bounded set of
    networks, and exactly when the mask of types goes wrong. */
module NetworkReports {
  import opened StatusHistory
  import opened NetworkTable
  import opened Masks

  const NETWORK: Kind<NetworkInfo> :=
    Kind(_ => false, SameNetworks, Collated, (e: NetworkInfo, s: NetworkInfo) => e.(reported := s.reported))

  type History = seq<Entry<NetworkInfo>>

  function Calls(reports: seq<NetworkInfo>): seq<Op<NetworkInfo>> {
    seq(|reports|, i requires 0 <= i < |reports| => Report(reports[i]))
  }

  function Newest(all: History): NetworkInfo
    requires all != []
  {
    all[|all| - 1].item
  }

  /** Something is recorded, and its newest table is without holes and without repeated handles. */
  ghost predicate Sound(all: History) {
    all != [] && WellFormed(Newest(all).slots)
  }

  function After(all: History, reports: seq<NetworkInfo>): History {
    RecordAll(NETWORK, all, Calls(reports))
  }

  // ---------- the table

  /** From any recorded well-formed table, after any run of reports: the newest recorded table is well
      formed and stands for the bounded set, even where the last reports were found to be no news. */
  lemma {:induction false} NewestTableIsTheSet(all: History, reports: seq<NetworkInfo>)
    requires Sound(all)
    ensures Sound(After(all, reports))
    ensures Live(Newest(After(all, reports)).slots) == Networks(Live(Newest(all).slots), reports)
  {
    hide Sound, Live, NetworksAfter, Record;
    if reports == [] {
      assert Calls(reports) == [];
    } else {
      var n := |reports| - 1;
      NewestTableIsTheSet(all, reports[..n]);
      AfterOneMore(all, reports[..n], reports[n]);
      assert reports == reports[..n] + [reports[n]];
      RecordRefines(After(all, reports[..n]), reports[n]);
    }
  }

  /** From nothing recorded the first report is taken as it is, table and all. */
  lemma TableFromTheStart(reports: seq<NetworkInfo>)
    requires reports != [] && WellFormed(reports[0].slots)
    ensures var all := FullHistory(NETWORK, Calls(reports));
            Sound(all) && Live(Newest(all).slots) == Networks(Live(reports[0].slots), reports[1..])
  {
    hide WellFormed, Live, Record;
    assert Calls(reports) == [Report(reports[0])] + Calls(reports[1..]);
    RecordAllConcat(NETWORK, [], [Report(reports[0])], Calls(reports[1..]));
    FirstIsRecorded(reports[0]);
    NewestTableIsTheSet([Entry(reports[0], true)], reports[1..]);
  }

  lemma AfterOneMore(all: History, reports: seq<NetworkInfo>, s: NetworkInfo)
    ensures After(all, reports + [s]) == Record(NETWORK, After(all, reports), Report(s))
  {
    hide Record;
    assert Calls(reports + [s])[..|reports|] == Calls(reports);
  }

  lemma FirstIsRecorded(s: NetworkInfo)
    ensures RecordAll(NETWORK, [], [Report(s)]) == [Entry(s, true)]
  {
    assert [Report(s)][..0] == [];
  }

  lemma RecordRefines(all: History, s: NetworkInfo)
    requires Sound(all)
    ensures var after := Record(NETWORK, all, Report(s));
            Sound(after) && Live(Newest(after).slots) == NetworksAfter(Live(Newest(all).slots), s)
  {
    hide Collated, WellFormed, Live, NetworksAfter, SameNetworks;
    CollatedRefines(s, Newest(all));
    RecordedIsMerged(all, s);
  }

  /** Recorded or not, the newest entry then has the table and the mask of the merged report. */
  lemma RecordedIsMerged(all: History, s: NetworkInfo)
    requires all != []
    ensures var after, c := Record(NETWORK, all, Report(s)), Collated(s, Newest(all));
            after != [] && Newest(after).slots == c.slots && Newest(after).allTypes == c.allTypes
  {
    hide Collated;
  }

  /** The reporting time plays no part in comparing networks, so recorded neighbours differ. */
  lemma NetworkNeighboursDiffer(ops: seq<Op<NetworkInfo>>)
    ensures var all := FullHistory(NETWORK, ops);
            forall i :: 0 < i < |all| && all[i].reported ==> !SameNetworks(all[i - 1].item, all[i].item)
  {
    NeighboursDiffer(NETWORK, ops);
  }

  /** A report is news exactly if, merged, it is not the newest entry with another type, names, availability,
      roaming, handle or time. */
  lemma NewsIff(all: History, s: NetworkInfo)
    requires all != []
    ensures var e, c := Newest(all), Collated(s, Newest(all));
            Grows(NETWORK, all, Report(s))
            <==> c != e.(typ := c.typ, names := c.names, available := c.available, roaming := c.roaming,
                         handle := c.handle, reported := c.reported)
  {
    hide Collated;
  }

  /** A report that is not news moves the time of the newest entry to its own and touches nothing else. */
  lemma NoNewsMovesTheTime(all: History, s: NetworkInfo)
    requires all != [] && !Grows(NETWORK, all, Report(s))
    ensures var after := After(all, [s]);
            && |after| == |all| && after[..|all| - 1] == all[..|all| - 1]
            && Newest(after) == Newest(all).(reported := s.reported)
            && after[|all| - 1].reported == all[|all| - 1].reported
  {
    hide Collated, SameNetworks;
    AfterOneMore(all, [], s);
    assert [] + [s] == [s] && Calls([]) == [];
    CollatedKeepsTime(s, Newest(all));
  }

  lemma CollatedKeepsTime(s: NetworkInfo, cur: NetworkInfo)
    ensures Collated(s, cur).reported == s.reported
  {
  }

  /** So in every run the newest entry has the time of the last report. */
  lemma NewestTime(all: History, reports: seq<NetworkInfo>)
    requires all != [] && reports != []
    ensures var after := After(all, reports); after != [] && Newest(after).reported == reports[|reports| - 1].reported
  {
    hide Collated, SameNetworks;
    var n := |reports| - 1;
    SomethingStays(all, reports[..n]);
    assert reports == reports[..n] + [reports[n]];
    AfterOneMore(all, reports[..n], reports[n]);
    CollatedKeepsTime(reports[n], Newest(After(all, reports[..n])));
    hide RecordAll;
  }

  lemma {:induction false} SomethingStays(all: History, reports: seq<NetworkInfo>)
    requires all != []
    ensures After(all, reports) != []
  {
    if reports == [] {
      assert Calls(reports) == [];
    } else {
      var n := |reports| - 1;
      hide Collated, SameNetworks;
      SomethingStays(all, reports[..n]);
      assert reports == reports[..n] + [reports[n]];
      AfterOneMore(all, reports[..n], reports[n]);
      hide RecordAll;
    }
  }

  // ---------- the access point name

  /** The first name that is not empty, if there is one. */
  function FirstNamed(names: seq<string>): (n: string)
    ensures n == "" ==> forall i :: 0 <= i < |names| ==> names[i] == ""
    ensures n != "" ==> exists i :: 0 <= i < |names| && names[i] == n && forall j :: 0 <= j < i ==> names[j] == ""
  {
    if names == [] then "" else if names[0] != "" then names[0] else FirstNamed(names[1..])
  }

  /** The APNs from the last report of a mobile network on, or else from the one recorded. */
  function ApnsSinceMobile(recorded: string, reports: seq<NetworkInfo>): seq<string> {
    if reports == [] then [recorded]
    else
      var s := reports[|reports| - 1];
      (if s.typ == 0 then [] else ApnsSinceMobile(recorded, reports[..|reports| - 1])) + [s.apn]
  }

  lemma FirstNamedSnoc(names: seq<string>, n: string)
    ensures FirstNamed(names + [n]) == if FirstNamed(names) != "" then FirstNamed(names) else n
  {
    if names != [] {
      FirstNamedSnoc(names[1..], n);
      assert (names + [n])[1..] == names[1..] + [n];
    } else {
      assert [] + [n] == [n];
    }
  }

  /** In any run the newest entry has the APN of the last mobile report, and keeps it while other networks come
      and go; only where that is empty does the first name to come take its place. */
  lemma {:induction false} ApnIsTheMobiles(all: History, reports: seq<NetworkInfo>)
    requires all != []
    ensures var after := After(all, reports);
            after != [] && Newest(after).apn == FirstNamed(ApnsSinceMobile(Newest(all).apn, reports))
  {
    hide Record;
    if reports == [] {
      assert Calls(reports) == [];
      assert FirstNamed([Newest(all).apn]) == Newest(all).apn;
    } else {
      var n := |reports| - 1;
      ApnIsTheMobiles(all, reports[..n]);
      assert reports == reports[..n] + [reports[n]];
      AfterOneMore(all, reports[..n], reports[n]);
      ApnStep(After(all, reports[..n]), reports[n]);
      FirstNamedSnoc(ApnsSinceMobile(Newest(all).apn, reports[..n]), reports[n].apn);
      FirstNamedSnoc([], reports[n].apn);
      assert [] + [reports[n].apn] == [reports[n].apn];
    }
  }

  lemma ApnStep(all: History, s: NetworkInfo)
    requires all != []
    ensures var after, known := Record(NETWORK, all, Report(s)), Newest(all).apn;
            after != [] && Newest(after).apn == if s.typ != 0 && known != "" then known else s.apn
  {
    hide TableAfter, MaskAfter;
  }

  // ---------- the table and the networks that are connected

  function Handles(live: set<Slot>): set<Handle> {
    set x | x in live :: x.handle
  }

  /** The handles that have been reported connected and not disconnected since. */
  function ConnectedAfter(handles: set<Handle>, s: NetworkInfo): set<Handle> {
    if s.connected then handles + {s.handle} else handles - {s.handle}
  }

  function Connected(handles: set<Handle>, reports: seq<NetworkInfo>): set<Handle> {
    if reports == [] then handles
    else ConnectedAfter(Connected(handles, reports[..|reports| - 1]), reports[|reports| - 1])
  }

  /** A connection finds its handle listed, or a place for it. A disconnection of a listed handle names some
      type and the very type code that the handle is listed under. */
  predicate Tracks(s: NetworkInfo, live: set<Slot>) {
    if s.connected then Listed(live, s.handle) || Insert(live, Own(s)) != live
    else Listed(live, s.handle) ==> s.allTypes != 0 && Own(s) in live
  }

  ghost predicate NoHandleTwice(live: set<Slot>) {
    forall x, y :: x in live && y in live && x.handle == y.handle ==> x == y
  }

  lemma WellFormedHandles(t: seq<Slot>)
    requires WellFormed(t)
    ensures NoHandleTwice(Live(t))
  {
  }

  /** The table follows the report exactly if the report meets that; in particular a disconnection takes its
      handle out of the table exactly if the handle is listed under the type code that it carries. */
  lemma TracksIff(s: NetworkInfo, live: set<Slot>)
    requires NoHandleTwice(live)
    ensures Handles(NetworksAfter(live, s)) == ConnectedAfter(Handles(live), s) <==> Tracks(s, live)
    ensures !s.connected && s.handle in Handles(live) ==>
              (s.handle !in Handles(NetworksAfter(live, s)) <==> s.allTypes != 0 && Own(s) in live)
  {
    assert Listed(live, s.handle) <==> s.handle in Handles(live);
    if s.connected {
      EnteredHandles(live, Own(s));
    } else {
      TakenOutHandles(live, Own(s));
    }
  }

  lemma EnteredHandles(live: set<Slot>, x: Slot)
    ensures Handles(Insert(live, x)) == if Insert(live, x) == live then Handles(live) else Handles(live) + {x.handle}
  {
    if Insert(live, x) != live {
      assert Insert(live, x) == live + {x};
      forall h | h in Handles(live) + {x.handle} ensures h in Handles(live + {x}) {
        if h == x.handle {
          assert x in live + {x};
        } else {
          var y :| y in live && y.handle == h;
          assert y in live + {x};
        }
      }
    }
  }

  lemma TakenOutHandles(live: set<Slot>, x: Slot)
    requires NoHandleTwice(live)
    ensures Handles(live - {x}) == if x in live then Handles(live) - {x.handle} else Handles(live)
  {
    forall h | h in Handles(live) && h != x.handle ensures h in Handles(live - {x}) {
      var y :| y in live && y.handle == h;
      assert y in live - {x};
    }
    if x !in live { assert live - {x} == live; }
  }

  /** The newest entry once the first n reports have come in. */
  ghost function NewestAfter(all: History, reports: seq<NetworkInfo>, n: nat): (s: NetworkInfo)
    requires Sound(all) && n <= |reports|
    ensures WellFormed(s.slots)
  {
    NewestTableIsTheSet(all, reports[..n]);
    Newest(After(all, reports[..n]))
  }

  lemma NothingAfter(all: History, reports: seq<NetworkInfo>)
    requires Sound(all)
    ensures NewestAfter(all, reports, 0) == Newest(all)
  {
  }

  /** The table lists exactly the connected handles once n reports have come in. */
  ghost predicate InStepAt(all: History, reports: seq<NetworkInfo>, n: nat)
    requires Sound(all) && n <= |reports|
  {
    Handles(Live(NewestAfter(all, reports, n).slots)) == Connected(Handles(Live(Newest(all).slots)), reports[..n])
  }

  /** Over a run: the table lists exactly the connected handles all the time exactly if every report meets
      the condition on it and the table before it. */
  lemma {:induction false} TableTracksThroughoutIff(all: History, reports: seq<NetworkInfo>)
    requires Sound(all)
    ensures (forall n :: 0 <= n <= |reports| ==> InStepAt(all, reports, n))
       <==> (forall n :: 0 <= n < |reports| ==> Tracks(reports[n], Live(NewestAfter(all, reports, n).slots)))
  {
    hide Sound, InStepAt, Tracks, NewestAfter, Live, WellFormed, Handles, Connected, Newest;
    InStepAtFirst(all, reports);
    if forall n :: 0 <= n < |reports| ==> Tracks(reports[n], Live(NewestAfter(all, reports, n).slots)) {
      var n := 0;
      while n < |reports|
        invariant 0 <= n <= |reports|
        invariant forall k :: 0 <= k <= n ==> InStepAt(all, reports, k)
      {
        TrackStep(all, reports, n);
        n := n + 1;
      }
    } else {
      var n :| 0 <= n < |reports| && !Tracks(reports[n], Live(NewestAfter(all, reports, n).slots));
      if InStepAt(all, reports, n) { TrackStep(all, reports, n); }
      assert !InStepAt(all, reports, n) || !InStepAt(all, reports, n + 1);
    }
  }

  lemma InStepAtFirst(all: History, reports: seq<NetworkInfo>)
    requires Sound(all)
    ensures InStepAt(all, reports, 0)
  {
    NothingAfter(all, reports);
    hide NewestAfter, Live, Handles, WellFormed;
  }

  lemma TrackStep(all: History, reports: seq<NetworkInfo>, n: nat)
    requires Sound(all) && n < |reports| && InStepAt(all, reports, n)
    ensures InStepAt(all, reports, n + 1) <==> Tracks(reports[n], Live(NewestAfter(all, reports, n).slots))
  {
    hide Record, After, Live, WellFormed, NetworksAfter, Tracks, Handles, ConnectedAfter;
    NewestTableIsTheSet(all, reports[..n]);
    assert reports[..n + 1] == reports[..n] + [reports[n]];
    AfterOneMore(all, reports[..n], reports[n]);
    RecordRefines(After(all, reports[..n]), reports[n]);
    WellFormedHandles(NewestAfter(all, reports, n).slots);
    TracksIff(reports[n], Live(NewestAfter(all, reports, n).slots));
    assert reports[..n + 1][..n] == reports[..n];
  }

  /** The first network that the framework reports is entered under its type; its disconnection carries the
      code, so it stays in the table, and the mask lets go of it. */
  lemma FirstCodedNetworkStays(code: int, h: Handle)
    requires Normalized(code) != TYPE_UNKNOWN && h != NETWORK_HANDLE_UNKNOWN
    ensures var r := Collated(FrameworkReport(code, false, h, ""), FrameworkReport(code, true, h, ""));
            Slot(h, Normalized(code)) in Live(r.slots) && r.allTypes == 0 && !MaskCovers(r)
  {
    var a, s := FrameworkReport(code, true, h, ""), FrameworkReport(code, false, h, "");
    CodeIsNoType(code);
    FreshRefines(a);
    CollatedRefines(s, a);
    assert Live(a.slots) == {Slot(h, Normalized(code))};
    NoOtherLeft(s, a);
    OwnCleared(TypeBit(Normalized(code)));
    hide Live, Covers, WellFormed, SlotBit, Normalized, TypeBit, Within, Without;
    OnlyOne(0, Slot(h, Normalized(code)));
  }

  lemma CodeIsNoType(code: int)
    requires Normalized(code) != TYPE_UNKNOWN
    ensures code != Normalized(code) && SlotBit(Normalized(code)) == TypeBit(Normalized(code)) != 0
  {
  }

  lemma OwnCleared(x: bv64)
    ensures Without(x, x) == 0 && (Within(x, 0) <==> x == 0)
  {
  }

  // ---------- the mask of types

  /** The mask of the report has the type of every network in its table. */
  ghost predicate MaskCovers(s: NetworkInfo) {
    Covers(s.allTypes, Live(s.slots))
  }

  /** No other handle of the departing type is listed. */
  ghost predicate NoOther(s: NetworkInfo, live: set<Slot>) {
    forall x :: x in live && x.typ == s.typ ==> x.handle == s.handle
  }

  /** What the merge leaves of the mask, seen from the report and the newest entry before it. A connection
      adds its own mask. A disconnection without any type leaves nothing; one with types takes them out if
      no other handle of its type is listed, and otherwise leaves only them. */
  ghost predicate Spares(s: NetworkInfo, cur: NetworkInfo) {
    var live := Live(cur.slots);
    if s.connected then
      Insert(live, Own(s)) == live || Within(SlotBit(s.typ), With(s.allTypes, cur.allTypes))
    else if s.allTypes == 0 then
      forall x :: x in live ==> SlotBit(x.typ) == 0
    else if NoOther(s, live) then
      forall x :: x in live && x != Own(s) ==> !Meets(SlotBit(x.typ), s.allTypes)
    else
      forall x :: x in live && x != Own(s) ==> Within(SlotBit(x.typ), s.allTypes)
  }

  /** Whatever mask a report carries: the merged mask has the type of every network listed exactly if the
      report spares them. */
  lemma CoversAfterIff(s: NetworkInfo, cur: NetworkInfo)
    requires WellFormed(cur.slots) && MaskCovers(cur)
    ensures MaskCovers(Collated(s, cur)) <==> Spares(s, cur)
  {
    hide SlotBit, WellFormed, Disconnect, Connect, Within, With, Without, Meets, Live, NoOther, Insert, Covers;
    var live := Live(cur.slots);
    CollatedRefines(s, cur);
    NoOtherLeft(s, cur);
    if s.connected {
      EnteredCovers(s, cur);
    } else if s.allTypes == 0 {
      NoMaskCovers(live);
    } else if NoOther(s, live) {
      ClearedCovers(cur.allTypes, s.allTypes, live, Own(s));
    } else {
      MaskCoversLeft(s.allTypes, live, Own(s));
    }
  }

  lemma EnteredCovers(s: NetworkInfo, cur: NetworkInfo)
    requires MaskCovers(cur)
    ensures var live := Live(cur.slots);
            (Covers(With(s.allTypes, cur.allTypes), Insert(live, Own(s)))
             <==> Insert(live, Own(s)) == live || Within(SlotBit(s.typ), With(s.allTypes, cur.allTypes)))
  {
    hide SlotBit, Within, With, Live;
    var live := Live(cur.slots);
    forall x | x in live ensures Within(SlotBit(x.typ), With(s.allTypes, cur.allTypes)) {
      StaysInUnion(SlotBit(x.typ), cur.allTypes, s.allTypes);
    }
    if Insert(live, Own(s)) != live {
      assert Insert(live, Own(s)) == live + {Own(s)};
      assert Own(s) in live + {Own(s)};
    }
  }

  lemma NoMaskCovers(live: set<Slot>)
    ensures Covers(0, live) <==> forall x :: x in live ==> SlotBit(x.typ) == 0
  {
    hide SlotBit;
    forall x | x in live ensures Within(SlotBit(x.typ), 0) <==> SlotBit(x.typ) == 0 {
      WithinNothing(SlotBit(x.typ));
    }
    hide Within;
  }

  lemma ClearedCovers(mask: bv64, own: bv64, live: set<Slot>, gone: Slot)
    requires Covers(mask, live)
    ensures Covers(Without(mask, own), live - {gone})
       <==> forall x :: x in live && x != gone ==> !Meets(SlotBit(x.typ), own)
  {
    hide SlotBit, Within, With, Without, Meets;
    forall x | x in live ensures Within(SlotBit(x.typ), Without(mask, own)) <==> !Meets(SlotBit(x.typ), own) {
      StaysAfterClearing(SlotBit(x.typ), mask, own);
    }
  }

  lemma MaskCoversLeft(own: bv64, live: set<Slot>, gone: Slot)
    ensures Covers(own, live - {gone}) <==> forall x :: x in live && x != gone ==> Within(SlotBit(x.typ), own)
  {
    hide SlotBit, Within;
  }

  lemma NoOtherLeft(s: NetworkInfo, cur: NetworkInfo)
    ensures Others(cur.slots, Count(cur.slots), Own(s)) == 0 <==> NoOther(s, Live(cur.slots))
  {
    var n := Count(cur.slots);
    if i :| 0 <= i < n && cur.slots[i].typ == s.typ && cur.slots[i].handle != s.handle {
      assert cur.slots[i] in Live(cur.slots);
    }
  }

  /** What is listed of the departing type, whether entered as the type or as a code for it. */
  ghost predicate SameType(s: NetworkInfo, x: Slot) {
    SlotBit(x.typ) == SlotBit(s.typ)
  }

  /** For disconnections whose mask is the bit of their type, coded or not. One of no type must find no type
      listed. Any other goes by the code it carries: if no other handle is listed under that code, none may
      be listed of its type, under another code for it; if one is, nothing of another type may be listed. */
  lemma SparesByType(s: NetworkInfo, cur: NetworkInfo)
    requires !s.connected && s.allTypes == SlotBit(s.typ)
    ensures var live := Live(cur.slots);
            Spares(s, cur) <==>
              if SlotBit(s.typ) == 0 then forall x :: x in live ==> SlotBit(x.typ) == 0
              else if NoOther(s, live) then forall x :: x in live && x != Own(s) ==> !SameType(s, x)
              else forall x :: x in live && x != Own(s) ==> SameType(s, x) || SlotBit(x.typ) == 0
  {
    hide SlotBit, Within, Meets, Live;
    if SlotBit(s.typ) != 0 {
      forall x: Slot
        ensures Within(SlotBit(x.typ), s.allTypes) <==> SameType(s, x) || SlotBit(x.typ) == 0
        ensures Meets(SlotBit(x.typ), s.allTypes) <==> SameType(s, x)
      {
        SlotBitsApart(x.typ, s.typ);
      }
    }
  }

  lemma SlotBitsApart(a: int, b: int)
    requires SlotBit(b) != 0
    ensures Within(SlotBit(a), SlotBit(b)) <==> SlotBit(a) == SlotBit(b) || SlotBit(a) == 0
    ensures Meets(SlotBit(a), SlotBit(b)) <==> SlotBit(a) == SlotBit(b)
  {
    hide SlotType, Within, Meets, TypeBit;
    BitsApart(SlotType(a), SlotType(b));
  }

  lemma BitsApart(a: int, b: int)
    requires TypeBit(b) != 0
    ensures Within(TypeBit(a), TypeBit(b)) <==> TypeBit(a) == TypeBit(b) || TypeBit(a) == 0
    ensures Meets(TypeBit(a), TypeBit(b)) <==> TypeBit(a) == TypeBit(b)
  {
  }

  /** Over a run: the mask has every listed type all the time exactly if every report spares them. */
  lemma {:induction false} MaskHoldsThroughoutIff(all: History, reports: seq<NetworkInfo>)
    requires Sound(all) && MaskCovers(Newest(all))
    ensures (forall n :: 0 <= n <= |reports| ==> MaskCovers(NewestAfter(all, reports, n)))
       <==> (forall n :: 0 <= n < |reports| ==> Spares(reports[n], NewestAfter(all, reports, n)))
  {
    hide Sound, MaskCovers, Spares, NewestAfter;
    NothingAfter(all, reports);
    forall n | 0 <= n < |reports| && MaskCovers(NewestAfter(all, reports, n))
      ensures MaskCovers(NewestAfter(all, reports, n + 1)) <==> Spares(reports[n], NewestAfter(all, reports, n))
    {
      MaskStep(all, reports, n);
    }
    if forall n :: 0 <= n < |reports| ==> Spares(reports[n], NewestAfter(all, reports, n)) {
      var n := 0;
      while n < |reports|
        invariant 0 <= n <= |reports|
        invariant forall k :: 0 <= k <= n ==> MaskCovers(NewestAfter(all, reports, k))
      {
        MaskStep(all, reports, n);
        n := n + 1;
      }
    } else {
      var n :| 0 <= n < |reports| && !Spares(reports[n], NewestAfter(all, reports, n));
      assert MaskCovers(NewestAfter(all, reports, n)) ==> !MaskCovers(NewestAfter(all, reports, n + 1));
    }
  }

  lemma MaskStep(all: History, reports: seq<NetworkInfo>, n: nat)
    requires Sound(all) && n < |reports| && MaskCovers(NewestAfter(all, reports, n))
    ensures MaskCovers(NewestAfter(all, reports, n + 1)) <==> Spares(reports[n], NewestAfter(all, reports, n))
  {
    hide MaskCovers, Spares, Record, After, Collated, WellFormed;
    NewestTableIsTheSet(all, reports[..n]);
    assert reports[..n + 1] == reports[..n] + [reports[n]];
    AfterOneMore(all, reports[..n], reports[n]);
    CoversAfterIff(reports[n], NewestAfter(all, reports, n));
    RecordedIsMerged(After(all, reports[..n]), reports[n]);
    SameMaskAndTable(NewestAfter(all, reports, n + 1), Collated(reports[n], NewestAfter(all, reports, n)));
  }

  lemma SameMaskAndTable(a: NetworkInfo, b: NetworkInfo)
    requires a.slots == b.slots && a.allTypes == b.allTypes
    ensures MaskCovers(a) == MaskCovers(b)
  {
  }

  // ---------- how it goes wrong

  function Made(typ: int8, connected: bool, handle: Handle): (s: NetworkInfo)
    ensures Fresh(s)
  {
    ConnectionStatus(connected, typ, false, handle, "", 0)
  }

  /** A second network of the departing type stays listed, and the mask forgets a network of a third
      kind that is listed too. */
  lemma MaskForgetsANetwork()
    ensures var a := Made(1, true, 5);
            var b := Collated(Made(2, true, 6), a);
            var c := Collated(Made(1, true, 7), b);
            var d := Collated(Made(1, false, 5), c);
            Slot(6, 2) in Live(d.slots) && d.allTypes == TypeBit(1)
  {
    hide Collated, Live, WellFormed, Count, Others, TypeBit;
    var a := Made(1, true, 5);
    var b := Collated(Made(2, true, 6), a);
    var c := Collated(Made(1, true, 7), b);
    FreshRefines(a);
    CollatedRefines(Made(2, true, 6), a);
    CollatedRefines(Made(1, true, 7), b);
    CollatedRefines(Made(1, false, 5), c);
    TypeBitOne();
    assert !Listed({Slot(5, 1)}, 6);
    assert !Listed({Slot(5, 1), Slot(6, 2)}, 7);
    assert Live(c.slots) == {Slot(5, 1), Slot(6, 2), Slot(7, 1)};
    LeavesOwnMask(Made(1, false, 5), c, Slot(7, 1));
  }

  /** A disconnection of an unknown type, whatever its handle, makes the mask forget every network listed:
      here a mobile network that is up. */
  lemma UnknownTypeForgetsAll()
    ensures var a := Made(TYPE_MOBILE, true, 5);
            var r := Collated(Made(TYPE_UNKNOWN, false, 6), a);
            && MaskCovers(a) && !MaskCovers(r) && r.allTypes == 0 && Slot(5, TYPE_MOBILE) in Live(r.slots)
            && !SameNetworks(a, r)
  {
    var a, s := Made(TYPE_MOBILE, true, 5), Made(TYPE_UNKNOWN, false, 6);
    FreshRefines(a);
    CollatedRefines(s, a);
    MobileBit();
    hide Live, Covers, WellFormed;
    assert Live(a.slots) == {Slot(5, TYPE_MOBILE)};
    OnlyOne(a.allTypes, Slot(5, TYPE_MOBILE));
    OnlyOne(0, Slot(5, TYPE_MOBILE));
  }

  /** The framework's reports enter their codes. A network of the departing code stays listed, and the mask
      forgets a mobile network that is listed under its code. */
  lemma MaskForgetsACodedNetwork()
    ensures var a := FrameworkReport(100, true, 5, "");
            var b := Collated(FrameworkReport(201, true, 6, ""), a);
            var c := Collated(FrameworkReport(100, true, 7, ""), b);
            var d := Collated(FrameworkReport(100, true, 8, ""), c);
            var e := Collated(FrameworkReport(100, false, 8, ""), d);
            Slot(6, 201) in Live(e.slots) && e.allTypes == TypeBit(1) && !Within(SlotBit(201), e.allTypes)
  {
    hide Collated, Live, WellFormed, Count, Others, FrameworkReport, TypeBit, Insert, Normalized;
    var a := FrameworkReport(100, true, 5, "");
    var b := Collated(FrameworkReport(201, true, 6, ""), a);
    var c := Collated(FrameworkReport(100, true, 7, ""), b);
    var d := Collated(FrameworkReport(100, true, 8, ""), c);
    WifiReport(true, 5);
    WifiReport(true, 7);
    WifiReport(true, 8);
    WifiReport(false, 8);
    MobileReport(6);
    FreshRefines(a);
    CollatedRefines(FrameworkReport(201, true, 6, ""), a);
    CollatedRefines(FrameworkReport(100, true, 7, ""), b);
    CollatedRefines(FrameworkReport(100, true, 8, ""), c);
    CollatedRefines(FrameworkReport(100, false, 8, ""), d);
    FourEntered();
    LeavesOwnMask(FrameworkReport(100, false, 8, ""), d, Slot(7, 100));
    MobileNotInWifi();
  }

  lemma WifiReport(connected: bool, h: Handle)
    ensures var s := FrameworkReport(100, connected, h, "");
            && Own(s) == Slot(h, 100) && s.typ == 100 && s.handle == h && s.connected == connected
            && s.allTypes == TypeBit(1) == 2 && s.slots[0] == Slot(h, 1)
  {
  }

  lemma MobileReport(h: Handle)
    ensures var s := FrameworkReport(201, true, h, ""); Own(s) == Slot(h, 201) && s.connected
  {
  }

  lemma FourEntered()
    ensures Insert({}, Slot(5, 1)) == {Slot(5, 1)}
    ensures Insert({Slot(5, 1)}, Slot(6, 201)) == {Slot(5, 1), Slot(6, 201)}
    ensures Insert({Slot(5, 1), Slot(6, 201)}, Slot(7, 100)) == {Slot(5, 1), Slot(6, 201), Slot(7, 100)}
    ensures Insert({Slot(5, 1), Slot(6, 201), Slot(7, 100)}, Slot(8, 100))
         == {Slot(5, 1), Slot(6, 201), Slot(7, 100), Slot(8, 100)}
  {
    assert !Listed({Slot(5, 1)}, 6);
    assert !Listed({Slot(5, 1), Slot(6, 201)}, 7);
    assert !Listed({Slot(5, 1), Slot(6, 201), Slot(7, 100)}, 8);
  }

  lemma MobileNotInWifi()
    ensures SlotBit(201) == 1 && !Within(1, 2)
  {
  }

  /** The first network is entered under its type and so is not counted with its code: when a later one of
      its kind goes, the mask forgets it. */
  lemma MaskForgetsTheFirstNetwork()
    ensures var a := FrameworkReport(100, true, 5, "");
            var b := Collated(FrameworkReport(100, true, 7, ""), a);
            var c := Collated(FrameworkReport(100, false, 7, ""), b);
            Live(c.slots) == {Slot(5, 1)} && c.allTypes == 0
  {
    hide Live, WellFormed, Count, Others, TableAfter, Insert;
    var a := FrameworkReport(100, true, 5, "");
    var s := FrameworkReport(100, false, 7, "");
    var b := Collated(FrameworkReport(100, true, 7, ""), a);
    FreshRefines(a);
    CollatedRefines(FrameworkReport(100, true, 7, ""), a);
    CollatedRefines(s, b);
    InsertTwo(Slot(5, 1), Slot(7, 100));
    NoOtherLeft(s, b);
    WifiGone();
  }

  lemma InsertTwo(x: Slot, y: Slot)
    requires x.handle != y.handle && x.handle != NETWORK_HANDLE_UNKNOWN && y.handle != NETWORK_HANDLE_UNKNOWN
    ensures Insert({}, x) == {x} && Insert({x}, y) == {x, y} && {x, y} - {y} == {x}
  {
    assert !Listed({x}, y.handle);
    assert {x} + {y} == {x, y};
  }

  lemma WifiGone()
    ensures TypeBit(1) == 2 && With(2, 2) == 2 && Without(2, 2) == 0
  {
  }

  lemma MobileBit()
    ensures TypeBit(TYPE_MOBILE) == SlotBit(TYPE_MOBILE) == 1 && TypeBit(TYPE_UNKNOWN) == 0
    ensures Within(1, 1) && !Within(1, 0)
  {
  }

  lemma OnlyOne(mask: bv64, x: Slot)
    ensures Covers(mask, {x}) <==> Within(SlotBit(x.typ), mask)
  {
    assert x in {x};
  }

  lemma TypeBitOne()
    ensures TypeBit(1) != 0
  {
  }

  lemma LeavesOwnMask(s: NetworkInfo, cur: NetworkInfo, other: Slot)
    requires !s.connected && s.allTypes != 0
    requires other in Live(cur.slots) && other.typ == s.typ && other.handle != s.handle
    ensures Collated(s, cur).allTypes == s.allTypes
  {
    NoOtherLeft(s, cur);
  }

  // ---------- resetting

  /** What resetNetworkInfo reports: a disconnection for each record kept, its type cut to eight bits. */
  function ResetReport(r: NetworkInfo, now: int): (s: NetworkInfo)
    ensures !s.connected && s.handle == r.handle && s.apn == r.apn && s.roaming == r.roaming && s.reported == now
    ensures -128 <= s.typ < 128 && (r.typ - s.typ) % 256 == 0
  {
    ConnectionStatus(false, Int8(r.typ), r.roaming, r.handle, r.apn, now)
  }

  function ResetReports(kept: seq<NetworkInfo>, now: int): seq<NetworkInfo> {
    seq(|kept|, i requires 0 <= i < |kept| => ResetReport(kept[i], now))
  }

  /** The networks that these reports can take out. */
  function Dropped(kept: seq<NetworkInfo>): set<Slot> {
    set i | 0 <= i < |kept| && TypeBit(Int8(kept[i].typ)) != 0 :: Slot(kept[i].handle, Int8(kept[i].typ))
  }

  lemma {:induction false} ResetDrops(live: set<Slot>, kept: seq<NetworkInfo>, now: int)
    ensures Networks(live, ResetReports(kept, now)) == live - Dropped(kept)
    ensures |Dropped(kept)| <= |kept|
  {
    hide TypeBit, ResetReport, NetworksAfter, Dropped;
    var x := DroppedOneMore(kept);
    if kept != [] {
      var n := |kept| - 1;
      ResetDrops(live, kept[..n], now);
      assert ResetReports(kept, now)[..n] == ResetReports(kept[..n], now);
      ResetOne(live - Dropped(kept[..n]), kept[n], now);
      assert live - Dropped(kept[..n]) - x == live - Dropped(kept);
    }
  }

  lemma DroppedOneMore(kept: seq<NetworkInfo>) returns (x: set<Slot>)
    ensures kept == [] ==> Dropped(kept) == {}
    ensures kept != [] ==> x == DroppedBy(kept[|kept| - 1]) && Dropped(kept) == Dropped(kept[..|kept| - 1]) + x
    ensures |x| <= 1
  {
    hide TypeBit, Int8;
    x := {};
    if kept != [] { x := DroppedBy(kept[|kept| - 1]); }
  }

  function DroppedBy(r: NetworkInfo): set<Slot> {
    if TypeBit(Int8(r.typ)) != 0 then {Slot(r.handle, Int8(r.typ))} else {}
  }

  lemma ResetOne(live: set<Slot>, r: NetworkInfo, now: int)
    ensures NetworksAfter(live, ResetReport(r, now)) == live - DroppedBy(r)
  {
    hide TypeBit, Int8;
  }

  /** A reset empties the table exactly if each network listed is that of one of the last few records, by
      its handle and its type, and has a bit; with more networks listed than records are kept it never does. */
  lemma ResetEmptiesIff(all: History, now: int)
    requires Sound(all)
    ensures var kept, before := LastOf(Items(all), MAX_ITEM), Live(Newest(all).slots);
            var after := After(all, ResetReports(kept, now));
            && Sound(after)
            && Live(Newest(after).slots) == before - Dropped(kept)
            && (Live(Newest(after).slots) == {} <==> before <= Dropped(kept))
            && (|before| > MAX_ITEM ==> Live(Newest(after).slots) != {})
  {
    hide After, Live, WellFormed, Dropped;
    var kept, before := LastOf(Items(all), MAX_ITEM), Live(Newest(all).slots);
    NewestTableIsTheSet(all, ResetReports(kept, now));
    ResetDrops(before, kept, now);
    LastOfIdempotent(Items(all), MAX_ITEM);
    NothingLeft(before, Dropped(kept));
    if before <= Dropped(kept) { SubsetSize(before, Dropped(kept)); }
  }

  lemma NothingLeft(a: set<Slot>, b: set<Slot>)
    ensures a - b == {} <==> a <= b
  {
    assert forall x :: x in a ==> x in b || x in a - b;
  }

  lemma SubsetSize(a: set<Slot>, b: set<Slot>)
    requires a <= b
    ensures |a| <= |b|
  {
    assert b == a + (b - a);
  }

  function Opening(n: nat): seq<NetworkInfo>
    requires n <= MAX_NETWORK_HANDLES
  {
    if n == 0 then [] else Opening(n - 1) + [Made(1, true, n)]
  }

  function Opened(n: nat): set<Slot> {
    set i: Handle | 1 <= i <= n :: Slot(i, 1)
  }

  lemma OpenedOneMore(n: nat)
    requires n < MAX_NETWORK_HANDLES
    ensures !Listed(Opened(n), n + 1) && Opened(n + 1) == Opened(n) + {Slot(n + 1, 1)}
  {
  }

  lemma {:induction false} OpeningLists(n: nat)
    requires 1 <= n <= MAX_NETWORK_HANDLES
    ensures |Opening(n)| == n && |Opened(n)| == n && Opening(n)[0] == Made(1, true, 1)
    ensures Networks(Opened(1), Opening(n)[1..]) == Opened(n)
  {
    hide Opened, Made;
    NothingOpened();
    OpenedOneMore(n - 1);
    if n > 1 {
      OpeningLists(n - 1);
      var s := Made(1, true, n);
      assert Opening(n)[1..] == Opening(n - 1)[1..] + [s];
      assert (Opening(n - 1)[1..] + [s])[..n - 2] == Opening(n - 1)[1..];
      MadeConnection(n);
    } else {
      assert Opening(0) + [Made(1, true, 1)] == [Made(1, true, 1)];
    }
  }

  lemma NothingOpened()
    ensures Opened(0) == {}
  {
  }

  lemma MadeConnection(h: Handle)
    ensures Made(1, true, h).connected && Own(Made(1, true, h)) == Slot(h, 1)
  {
  }

  /** From nothing recorded: more than five networks come, a reset follows, and some are still listed. */
  lemma ManySurviveAReset(n: nat, now: int)
    requires MAX_ITEM < n <= MAX_NETWORK_HANDLES
    ensures var all := FullHistory(NETWORK, Calls(Opening(n)));
            && Sound(all) && |Live(Newest(all).slots)| == n
            && var after := After(all, ResetReports(LastOf(Items(all), MAX_ITEM), now));
               after != [] && Live(Newest(after).slots) != {}
  {
    hide Sound, After, Live, Opened, Networks, WellFormed, Dropped;
    OpeningLists(n);
    OpenedOneMore(0);
    NothingOpened();
    FreshRefines(Made(1, true, 1));
    FirstMade();
    TableFromTheStart(Opening(n));
    ResetEmptiesIff(FullHistory(NETWORK, Calls(Opening(n))), now);
    SoundIsSome(After(FullHistory(NETWORK, Calls(Opening(n))),
                      ResetReports(LastOf(Items(FullHistory(NETWORK, Calls(Opening(n)))), MAX_ITEM), now)));
  }

  lemma FirstMade()
    ensures Insert({}, Made(1, true, 1).slots[0]) == {Slot(1, 1)}
  {
  }

  lemma SoundIsSome(all: History)
    requires Sound(all)
    ensures all != []
  {
  }
}
