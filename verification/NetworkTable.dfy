/** The table of connected networks that travels with every network report. A new report is merged with
    the newest recorded one: a connection is entered, a disconnection is taken out by moving the last
    entry into its place. */
module NetworkTable {
  import opened Common
  import opened Masks

  const MAX_NETWORK_HANDLES := 10
  const NETWORK_HANDLE_UNKNOWN: Handle := 0xFFFF_FFFF_FFFF_FFFF
  const TYPE_MOBILE := 0
  const TYPE_UNKNOWN := 10

  type Handle = h: int | 0 <= h < 0x1_0000_0000_0000_0000

  datatype Slot = Slot(handle: Handle, typ: int)

  const FREE := Slot(NETWORK_HANDLE_UNKNOWN, TYPE_UNKNOWN)

  type Table = t: seq<Slot> | |t| == MAX_NETWORK_HANDLES witness seq(MAX_NETWORK_HANDLES, _ => FREE)

  /** names stands for the two type names; reported is the time at which the status last had the report. */
  datatype NetworkInfo = NetworkInfo(allTypes: bv64, typ: int, names: string, available: bool, connected: bool,
                                     roaming: bool, handle: Handle, apn: string, slots: Table, reported: int)

  // ---------- one table

  /** How many slots come before the first free one. */
  function Count(t: seq<Slot>): (n: nat)
    ensures n <= |t| && (n < |t| ==> t[n].handle == NETWORK_HANDLE_UNKNOWN)
    ensures forall i :: 0 <= i < n ==> t[i].handle != NETWORK_HANDLE_UNKNOWN
  {
    Until(t, (s: Slot) => s.handle == NETWORK_HANDLE_UNKNOWN)
  }

  /** The first slot that holds the handle or is free. */
  function Stop(t: seq<Slot>, h: Handle): (n: nat)
    ensures n <= |t| && (n < |t| ==> t[n].handle == h || t[n].handle == NETWORK_HANDLE_UNKNOWN)
    ensures forall i :: 0 <= i < n ==> t[i].handle != h && t[i].handle != NETWORK_HANDLE_UNKNOWN
  {
    Until(t, (s: Slot) => s.handle == h || s.handle == NETWORK_HANDLE_UNKNOWN)
  }

  /** The last of the first n slots that is s, or -1. */
  function LastMatch(t: seq<Slot>, n: nat, s: Slot): (d: int)
    requires n <= |t|
    ensures -1 <= d < n && (d >= 0 ==> t[d] == s)
    ensures forall i :: d < i < n ==> t[i] != s
  {
    if n == 0 then -1 else if t[n - 1] == s then n - 1 else LastMatch(t, n - 1, s)
  }

  /** How many of the first n slots have the type of s but another handle. */
  function Others(t: seq<Slot>, n: nat, s: Slot): (k: nat)
    requires n <= |t|
    ensures k <= n && (k == 0 <==> forall i :: 0 <= i < n && t[i].typ == s.typ ==> t[i].handle == s.handle)
  {
    if n == 0 then 0
    else Others(t, n - 1, s) + if t[n - 1].typ == s.typ && t[n - 1].handle != s.handle then 1 else 0
  }

  function Connect(t: Table, s: Slot): Table {
    var k := Stop(t, s.handle);
    if k < |t| && t[k].handle != s.handle then t[k := s] else t
  }

  function Disconnect(t: Table, s: Slot): Table {
    var n := Count(t);
    var d := LastMatch(t, n, s);
    if d >= 0 then t[d := t[n - 1]][n - 1 := FREE] else t
  }

  function Own(s: NetworkInfo): Slot {
    Slot(s.handle, s.typ)
  }

  function ApnAfter(typ: int, apn: string, curApn: string): string {
    if typ != TYPE_MOBILE && curApn != "" then curApn else apn
  }

  function TableAfter(connected: bool, allTypes: bv64, own: Slot, t: Table): Table {
    if connected then Connect(t, own) else if allTypes == 0 then t else Disconnect(t, own)
  }

  function MaskAfter(connected: bool, allTypes: bv64, own: Slot, t: Table, curTypes: bv64): bv64 {
    if connected then With(allTypes, curTypes)
    else if allTypes != 0 && Others(t, Count(t), own) == 0 then Without(curTypes, allTypes)
    else allTypes
  }

  /** A report merged with the newest recorded one. */
  function Collated(s: NetworkInfo, cur: NetworkInfo): NetworkInfo {
    s.(allTypes := MaskAfter(s.connected, s.allTypes, Own(s), cur.slots, cur.allTypes),
       slots := TableAfter(s.connected, s.allTypes, Own(s), cur.slots),
       apn := ApnAfter(s.typ, s.apn, cur.apn))
  }

  // ---------- the bounded set a table stands for

  function Live(t: seq<Slot>): set<Slot> {
    set i | 0 <= i < Count(t) :: t[i]
  }

  /** Without holes, and without a handle listed twice. */
  ghost predicate WellFormed(t: seq<Slot>) {
    && (forall i :: Count(t) <= i < |t| ==> t[i].handle == NETWORK_HANDLE_UNKNOWN)
    && (forall i, j :: 0 <= i < j < Count(t) ==> t[i].handle != t[j].handle)
  }

  predicate Listed(live: set<Slot>, h: Handle) {
    exists s :: s in live && s.handle == h
  }

  function Insert(live: set<Slot>, s: Slot): set<Slot> {
    if s.handle == NETWORK_HANDLE_UNKNOWN || Listed(live, s.handle) || |live| >= MAX_NETWORK_HANDLES then live
    else live + {s}
  }

  lemma CountIs(t: seq<Slot>, n: nat)
    requires n <= |t| && (n < |t| ==> t[n].handle == NETWORK_HANDLE_UNKNOWN)
    requires forall i :: 0 <= i < n ==> t[i].handle != NETWORK_HANDLE_UNKNOWN
    ensures Count(t) == n
  {
  }

  /** Entering a connection is inserting it into the bounded set. */
  lemma ConnectInserts(t: Table, s: Slot)
    requires WellFormed(t)
    ensures WellFormed(Connect(t, s)) && Live(Connect(t, s)) == Insert(Live(t), s)
  {
    var n, k := Count(t), Stop(t, s.handle);
    PrefixSize(t, n);
    if i :| 0 <= i < n && t[i].handle == s.handle {
      assert t[i] in Live(t);
      assert k <= i;
    } else {
      assert !Listed(Live(t), s.handle);
      assert k == n;
      if n < |t| && s.handle != NETWORK_HANDLE_UNKNOWN {
        EnteredAtTheEnd(t, s);
      }
    }
  }

  lemma EnteredAtTheEnd(t: Table, s: Slot)
    requires WellFormed(t) && s.handle != NETWORK_HANDLE_UNKNOWN && Count(t) < |t|
    requires forall i :: 0 <= i < Count(t) ==> t[i].handle != s.handle
    ensures var t' := t[Count(t) := s]; WellFormed(t') && Live(t') == Live(t) + {s}
  {
    var n := Count(t);
    var t' := t[n := s];
    CountIs(t', n + 1);
    forall x | x in Live(t) ensures x in Live(t') {
      var i :| 0 <= i < n && t[i] == x;
      assert t'[i] == x;
    }
    assert t'[n] == s;
  }

  /** Taking a disconnection out is deleting the entry with that handle and that type. */
  lemma DisconnectDeletes(t: Table, s: Slot)
    requires WellFormed(t)
    ensures WellFormed(Disconnect(t, s)) && Live(Disconnect(t, s)) == Live(t) - {s}
  {
    var n := Count(t);
    var d := LastMatch(t, n, s);
    if d >= 0 {
      var t' := t[d := t[n - 1]][n - 1 := FREE];
      CountIs(t', n - 1);
      forall x | x in Live(t) && x != s ensures x in Live(t') {
        var i :| 0 <= i < n && t[i] == x;
        if i == n - 1 { assert t'[d] == x; } else { assert t'[i] == x; }
      }
    }
  }

  // ---------- reports

  /** A report as it is made: its own connection in the first slot, the rest free. */
  predicate Fresh(s: NetworkInfo) {
    s.slots[0].handle == s.handle && forall i :: 1 <= i < MAX_NETWORK_HANDLES ==> s.slots[i] == FREE
  }

  /** Two reports tell the same. */
  predicate SameNetworks(a: NetworkInfo, b: NetworkInfo) {
    a.allTypes == b.allTypes && a.connected == b.connected && a.slots == b.slots && a.apn == b.apn
  }

  /** What a report does to the set: a connection is inserted, and a disconnection that names any type is
      deleted. */
  function NetworksAfter(live: set<Slot>, s: NetworkInfo): set<Slot> {
    if s.connected then Insert(live, Own(s))
    else if s.allTypes != 0 then live - {Own(s)}
    else live
  }

  function Networks(live: set<Slot>, reports: seq<NetworkInfo>): set<Slot> {
    if reports == [] then live
    else NetworksAfter(Networks(live, reports[..|reports| - 1]), reports[|reports| - 1])
  }

  lemma CollatedRefines(s: NetworkInfo, cur: NetworkInfo)
    requires WellFormed(cur.slots)
    ensures WellFormed(Collated(s, cur).slots)
    ensures Live(Collated(s, cur).slots) == NetworksAfter(Live(cur.slots), s)
  {
    ConnectInserts(cur.slots, Own(s));
    DisconnectDeletes(cur.slots, Own(s));
  }

  /** A report as it is made has a well-formed table. */
  lemma FreshRefines(s: NetworkInfo)
    requires Fresh(s)
    ensures WellFormed(s.slots) && Live(s.slots) == Insert({}, s.slots[0])
  {
    var n := if s.handle == NETWORK_HANDLE_UNKNOWN then 0 else 1;
    CountIs(s.slots, n);
    assert n == 1 ==> s.slots[0] in Live(s.slots);
  }

  // ---------- the mask of types

  /** The bit of a network type; types outside the enumeration have none. */
  function TypeBit(typ: int): bv64 {
    match typ
    case 0 => 1
    case 1 => 2
    case 2 => 4
    case 3 => 8
    case 4 => 16
    case 5 => 32
    case 6 => 64
    case 7 => 128
    case 8 => 256
    case 9 => 512
    case _ => 0
  }

  /** Each type of the enumeration has the bit of its own number. */
  lemma TypeBitIsShift(typ: int)
    ensures TypeBit(typ) == if 0 <= typ < TYPE_UNKNOWN then (1 as bv64) << typ else 0
  {
  }

  /** The network type that a type code of the framework stands for. */
  function Normalized(typ: int): int {
    match typ
    case 100 => 1
    case 101 => 2
    case 102 => 3
    case 201 => TYPE_MOBILE
    case 202 => 6
    case 203 => 7
    case 204 => 4
    case 205 => 5
    case 220 => 8
    case _ => TYPE_UNKNOWN
  }

  /** The network type of a table entry: the first report enters its type, later ones enter the code they
      came with, which for the framework's reports is not a type. */
  function SlotType(typ: int): int {
    if 0 <= typ < TYPE_UNKNOWN then typ else Normalized(typ)
  }

  function SlotBit(typ: int): bv64 {
    TypeBit(SlotType(typ))
  }

  type int8 = t: int | -128 <= t < 128

  function Int8(t: int): (r: int8)
    ensures (t - r) % 256 == 0
  {
    (t + 128) % 256 - 128
  }

  /** The report that eventConnectionStatus makes; a network that roams is connected but not available. */
  function ConnectionStatus(connected: bool, typ: int8, roaming: bool, handle: Handle, apn: string, now: int):
      (s: NetworkInfo)
    ensures Fresh(s) && s.slots[0].typ == s.typ == typ && s.allTypes == TypeBit(typ)
    ensures s.handle == handle && s.apn == apn && s.reported == now
    ensures s.connected == connected && s.roaming == roaming && (s.available <==> connected && !roaming)
  {
    NetworkInfo(TypeBit(typ), typ, "", connected && !roaming, connected, roaming, handle, apn,
                [Slot(handle, typ)] + seq(9, _ => FREE), now)
  }

  /** A report as the framework makes one, with its own type codes. */
  function FrameworkReport(typ: int, connected: bool, handle: Handle, apn: string): (s: NetworkInfo)
    ensures Fresh(s)
  {
    NetworkInfo(TypeBit(Normalized(typ)), typ, "", connected, connected, false, handle, apn,
                [Slot(handle, Normalized(typ))] + seq(9, _ => FREE), 0)
  }

  /** The mask has the type of every network listed. */
  ghost predicate Covers(mask: bv64, live: set<Slot>) {
    forall x :: x in live ==> Within(SlotBit(x.typ), mask)
  }
}
