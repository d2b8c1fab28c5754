/** Network reports all the way to the clients: through the status history, into the observer's own copy of
    the network item, and out in the bundles that clients are told. */
module NetworkDelivery {
  import opened Masks
  import opened StatusHistory
  import opened NetworkTable
  import opened NetworkReports
  import opened Observer
  import opened Subscriptions
  import opened Delivery

  const NETWORKINFO_DATA_ITEM_ID: ItemId := 5

  /** What a bundle holds of the observer's copy. */
  type Encode = NetworkInfo -> Value

  // ---------- the observer's copy

  /** The code that stands for a network type. */
  function CodeOf(typ: int): int {
    match typ
    case 0 => 201
    case 1 => 100
    case 2 => 101
    case 3 => 102
    case 4 => 204
    case 5 => 205
    case 6 => 202
    case 7 => 203
    case 8 => 220
    case _ => 300
  }

  /** The framework's codes and the types they stand for are in step both ways; other numbers are of an unknown
      type, and an unknown type has the code 300. */
  lemma CodesRoundTrip(x: int)
    ensures 0 <= x <= 8 ==> CodeOf(x) != 300 && Normalized(CodeOf(x)) == x
    ensures Normalized(x) != 10 ==> 0 <= Normalized(x) <= 8 && CodeOf(Normalized(x)) == x
    ensures Normalized(x) == 10 ==> CodeOf(Normalized(x)) == 300
  {
  }

  /** Everything is the same but the APN; then nothing is copied. */
  predicate OnlyApnDiffers(s: NetworkInfo, d: NetworkInfo) {
    && s.allTypes == d.allTypes && Normalized(s.typ) == Normalized(d.typ) && s.names == d.names
    && s.available == d.available && s.connected == d.connected && s.roaming == d.roaming
    && s.slots == d.slots && s.handle == d.handle && s.apn != d.apn
  }

  /** The network item's copyFrom: s after copying d. */
  function Copied(s: NetworkInfo, d: NetworkInfo): NetworkInfo {
    if OnlyApnDiffers(s, d) then s
    else
      d.(allTypes := if d.allTypes == 0 then TypeBit(Normalized(d.typ)) else d.allTypes,
         typ := if Normalized(s.typ) != Normalized(d.typ) then CodeOf(Normalized(d.typ)) else s.typ,
         reported := s.reported)
  }

  /** The first copy is made whole. */
  function CopyAfter(copy: Option<NetworkInfo>, d: NetworkInfo): NetworkInfo {
    if copy.None? then d else Copied(copy.value, d)
  }

  // ---------- one item of a batch

  /** What the status has recorded, and the observer's copy. */
  datatype Records = Records(all: History, copy: Option<NetworkInfo>)

  datatype Piece = Network(s: NetworkInfo) | Plain(o: Offer)

  predicate IsNews(r: Records, s: NetworkInfo) {
    Grows(NETWORK, r.all, Report(s))
  }

  /** The reporter's item once the status has taken it: it carries the merged mask and table. */
  function Taken(r: Records, s: NetworkInfo): NetworkInfo
    requires IsNews(r, s)
  {
    var newest := Newest(Record(NETWORK, r.all, Report(s)));
    s.(allTypes := newest.allTypes, slots := newest.slots)
  }

  function AfterReport(r: Records, s: NetworkInfo): Records {
    Records(Record(NETWORK, r.all, Report(s)), if IsNews(r, s) then Some(CopyAfter(r.copy, Taken(r, s))) else r.copy)
  }

  function AfterPiece(r: Records, p: Piece): Records {
    if p.Network? then AfterReport(r, p.s) else r
  }

  function OfferOf(enc: Encode, r: Records, p: Piece): Offer {
    if p.Plain? then p.o
    else
      var news := IsNews(r, p.s);
      Offer(NETWORKINFO_DATA_ITEM_ID, news, if news then enc(CopyAfter(r.copy, Taken(r, p.s))) else [])
  }

  function AfterPieces(r: Records, ps: seq<Piece>): Records {
    if ps == [] then r else AfterPiece(AfterPieces(r, ps[..|ps| - 1]), ps[|ps| - 1])
  }

  function Offers(enc: Encode, r: Records, ps: seq<Piece>): seq<Offer> {
    if ps == [] then []
    else Offers(enc, r, ps[..|ps| - 1]) + [OfferOf(enc, AfterPieces(r, ps[..|ps| - 1]), ps[|ps| - 1])]
  }

  // ---------- runs

  datatype Event = Batch(pieces: seq<Piece>) | Client(msg: Msg)

  datatype Net = Net(obs: State, records: Records)

  const QUIET := Net(EMPTY, Records([], None))

  function MsgOf(enc: Encode, r: Records, e: Event): Msg {
    if e.Batch? then Msg.Notify(Offers(enc, r, e.pieces)) else e.msg
  }

  function React(enc: Encode, n: Net, e: Event): Net {
    Net(Process(n.obs, MsgOf(enc, n.records, e)), if e.Batch? then AfterPieces(n.records, e.pieces) else n.records)
  }

  function Reacts(enc: Encode, events: seq<Event>): Net {
    if events == [] then QUIET else React(enc, Reacts(enc, events[..|events| - 1]), events[|events| - 1])
  }

  /** Network items come as reports only, and items only in batches. */
  predicate Proper(e: Event) {
    if e.Batch? then forall p :: p in e.pieces && p.Plain? ==> p.o.id != NETWORKINFO_DATA_ITEM_ID
    else !e.msg.Notify?
  }

  function ReportsIn(ps: seq<Piece>): seq<NetworkInfo> {
    if ps == [] then []
    else ReportsIn(ps[..|ps| - 1]) + if ps[|ps| - 1].Network? then [ps[|ps| - 1].s] else []
  }

  function ReportsOf(events: seq<Event>): seq<NetworkInfo> {
    if events == [] then []
    else ReportsOf(events[..|events| - 1]) + ReportsAt(events[|events| - 1])
  }

  function ReportsAt(e: Event): seq<NetworkInfo> {
    if e.Batch? then ReportsIn(e.pieces) else []
  }

  function MsgsOf(enc: Encode, events: seq<Event>): seq<Msg> {
    if events == [] then []
    else MsgsOf(enc, events[..|events| - 1])
         + [MsgOf(enc, Reacts(enc, events[..|events| - 1]).records, events[|events| - 1])]
  }

  /** The copy agrees with the newest record in all but mask, type and APN. */
  predicate Follows(copy: NetworkInfo, newest: NetworkInfo) {
    && copy.slots == newest.slots && copy.connected == newest.connected && copy.handle == newest.handle
    && copy.names == newest.names && copy.available == newest.available && copy.roaming == newest.roaming
  }

  predicate InStep(r: Records) {
    && (r.copy.Some? <==> r.all != [])
    && (r.copy.Some? ==> Follows(r.copy.value, Newest(r.all)))
  }

  predicate HeldIn(enc: Encode, cache: map<ItemId, Value>, r: Records) {
    if r.copy.None? then NETWORKINFO_DATA_ITEM_ID !in cache
    else NETWORKINFO_DATA_ITEM_ID in cache && cache[NETWORKINFO_DATA_ITEM_ID] == enc(r.copy.value)
  }

  lemma ReportInStep(r: Records, s: NetworkInfo)
    requires InStep(r)
    ensures InStep(AfterReport(r, s)) && AfterReport(r, s).all == Record(NETWORK, r.all, Report(s))
  {
    hide TableAfter, MaskAfter, ApnAfter, TypeBit, Normalized, CodeOf;
  }

  lemma {:induction false} PiecesInStep(enc: Encode, cache: map<ItemId, Value>, r: Records, ps: seq<Piece>)
    requires InStep(r) && HeldIn(enc, cache, r)
    requires forall p :: p in ps && p.Plain? ==> p.o.id != NETWORKINFO_DATA_ITEM_ID
    ensures InStep(AfterPieces(r, ps)) && HeldIn(enc, CacheAfter(cache, Offers(enc, r, ps)), AfterPieces(r, ps))
    ensures AfterPieces(r, ps).all == After(r.all, ReportsIn(ps))
  {
    hide InStep, AfterReport, IsNews;
    if ps == [] {
      assert Calls([]) == [];
    } else {
      var front, p := ps[..|ps| - 1], ps[|ps| - 1];
      PiecesInStep(enc, cache, r, front);
      OfferCached(enc, CacheAfter(cache, Offers(enc, r, front)), AfterPieces(r, front), p);
      assert Offers(enc, r, ps)[..|ps| - 1] == Offers(enc, r, front) by { OffersLength(enc, r, front); }
      if p.Network? {
        ReportInStep(AfterPieces(r, front), p.s);
        AfterOneMore(r.all, ReportsIn(front), p.s);
      } else {
        assert ReportsIn(ps) == ReportsIn(front);
      }
    }
  }

  lemma OfferCached(enc: Encode, cache: map<ItemId, Value>, r: Records, p: Piece)
    requires HeldIn(enc, cache, r) && (p.Plain? ==> p.o.id != NETWORKINFO_DATA_ITEM_ID)
    ensures HeldIn(enc, UpdateCache(cache, OfferOf(enc, r, p)), AfterPiece(r, p))
  {
  }

  lemma {:induction false} OffersLength(enc: Encode, r: Records, ps: seq<Piece>)
    ensures |Offers(enc, r, ps)| == |ps|
  {
    if ps != [] { OffersLength(enc, r, ps[..|ps| - 1]); }
  }

  ghost predicate AllProper(events: seq<Event>) {
    forall e :: e in events ==> Proper(e)
  }

  /** A joined run is a run of the observer and a run of the history at once, and the copy is what the
      observer's cache holds. */
  lemma {:induction false} ReactsAreRuns(enc: Encode, events: seq<Event>)
    requires AllProper(events)
    ensures var n := Reacts(enc, events);
            && n.obs == Run(EMPTY, MsgsOf(enc, events))
            && n.records.all == FullHistory(NETWORK, Calls(ReportsOf(events)))
            && InStep(n.records) && HeldIn(enc, n.obs.cache, n.records)
  {
    hide Process, InStep, HeldIn, MsgOf, Record, Proper, React, Converse;
    if events == [] {
      NothingYet(enc);
    } else {
      var front, e := events[..|events| - 1], events[|events| - 1];
      assert forall x :: x in front ==> x in events;
      ReactsAreRuns(enc, front);
      var n := Reacts(enc, front);
      MsgsLength(enc, front);
      assert MsgsOf(enc, events)[..|events| - 1] == MsgsOf(enc, front);
      AlwaysConverse(MsgsOf(enc, front));
      ReactStep(enc, n, e);
      CallsConcat(ReportsOf(front), ReportsAt(e));
      RecordAllConcat(NETWORK, [], Calls(ReportsOf(front)), Calls(ReportsAt(e)));
    }
  }

  lemma ReactStep(enc: Encode, n: Net, e: Event)
    requires Converse(n.obs) && InStep(n.records) && HeldIn(enc, n.obs.cache, n.records) && Proper(e)
    ensures var m := React(enc, n, e);
            && InStep(m.records) && HeldIn(enc, m.obs.cache, m.records)
            && m.records.all == After(n.records.all, ReportsAt(e))
            && m.obs == Process(n.obs, MsgOf(enc, n.records, e))
  {
    hide Process, InStep, HeldIn, Offers, Record, AfterPieces, CacheAfter;
    MessageTells(n.obs, MsgOf(enc, n.records, e), 0);
    if e.Batch? {
      PiecesInStep(enc, n.obs.cache, n.records, e.pieces);
    } else {
      NothingChanged(n.obs.cache);
      assert Calls([]) == [];
    }
  }

  lemma NothingYet(enc: Encode)
    ensures InStep(QUIET.records) && HeldIn(enc, QUIET.obs.cache, QUIET.records) && Calls([]) == []
  {
  }

  lemma {:induction false} MsgsLength(enc: Encode, events: seq<Event>)
    ensures |MsgsOf(enc, events)| == |events|
  {
    if events != [] { MsgsLength(enc, events[..|events| - 1]); }
  }

  lemma CallsConcat(a: seq<NetworkInfo>, b: seq<NetworkInfo>)
    ensures Calls(a + b) == Calls(a) + Calls(b)
  {
  }

  /** Over any run of reports, batches and subscriptions: a client that wants network information was last
      told the observer's copy, and its table stands for the bounded set of networks. */
  lemma ClientsKnowTheNetworks(enc: Encode, events: seq<Event>, c: Client)
    requires AllProper(events) && Wants(Reacts(enc, events).obs, c, NETWORKINFO_DATA_ITEM_ID)
    requires ReportsOf(events) != [] && WellFormed(ReportsOf(events)[0].slots)
    ensures var n, reports := Reacts(enc, events), ReportsOf(events);
            && n.records.copy.Some? && n.records.all != []
            && Latest(Log(n.obs.heard, c), NETWORKINFO_DATA_ITEM_ID) == Option.Some(enc(n.records.copy.value))
            && Follows(n.records.copy.value, Newest(n.records.all))
            && Live(n.records.copy.value.slots) == Networks(Live(reports[0].slots), reports[1..])
  {
    hide Reacts, Process, Latest, Log, Live, Record, MsgsOf, ReportsOf, Networks, WellFormed;
    ReactsAreRuns(enc, events);
    AlwaysUpToDate(MsgsOf(enc, events));
    TableFromTheStart(ReportsOf(events));
  }

  /** One report in a batch: a client that wants it is told the copy exactly if the report is news. */
  lemma ToldExactlyIfNews(enc: Encode, n: Net, s: NetworkInfo, c: Client)
    requires Converse(n.obs)
    ensures var m := React(enc, n, Batch([Network(s)]));
            var before, after := Log(n.obs.heard, c), Log(m.obs.heard, c);
            if IsNews(n.records, s) && Wants(n.obs, c, NETWORKINFO_DATA_ITEM_ID)
            then m.records.copy.Some? && after == before + [map[NETWORKINFO_DATA_ITEM_ID := enc(m.records.copy.value)]]
            else after == before
  {
    hide IsNews, CacheAfter, Changed, Converse, Process, HeardBy;
    var o := OfferOf(enc, n.records, Network(s));
    OneOffer(enc, n.records, Network(s));
    OneTold(n.obs, o, c);
    assert React(enc, n, Batch([Network(s)])).obs == OnNotify(n.obs, [o]) by { BatchIsNotify(enc, n, [Network(s)]); }
  }

  lemma BatchIsNotify(enc: Encode, n: Net, ps: seq<Piece>)
    ensures React(enc, n, Batch(ps)).obs == OnNotify(n.obs, Offers(enc, n.records, ps))
  {
  }

  /** A batch of one: told to who wants it, if it is taken. */
  lemma OneTold(s: State, o: Offer, c: Client)
    requires Converse(s)
    ensures Log(OnNotify(s, [o]).heard, c)
         == Log(s.heard, c) + if o.accepted && Wants(s, c, o.id) then [map[o.id := o.value]] else []
  {
    hide CacheAfter, Changed, Converse, OnNotify;
    OneChanged(s.cache, o);
    NotifyTells(s, [o], c);
    var b := DueTo(s.(cache := UpdateCache(s.cache, o)), Changed([o]), c);
    EmptyMap(b);
    if o.accepted && Wants(s, c, o.id) {
      assert o.id in b;
      assert b == map[o.id := o.value];
    } else {
      assert b == map[];
    }
  }

  lemma OneOffer(enc: Encode, r: Records, p: Piece)
    ensures Offers(enc, r, [p]) == [OfferOf(enc, r, p)] && AfterPieces(r, [p]) == AfterPiece(r, p)
  {
    hide OfferOf, AfterPiece;
    assert [p][..0] == [];
  }

  lemma OneChanged(cache: map<ItemId, Value>, o: Offer)
    ensures CacheAfter(cache, [o]) == UpdateCache(cache, o)
    ensures Changed([o]) == if o.accepted then {o.id} else {}
  {
    assert [o][..0] == [];
    assert o in [o];
  }

  // ---------- where the copy is not what the status took

  /** The client is told the mask of the newest record exactly if that is not 0, or the type has no bit, or
      nothing is copied because only the APN differs; otherwise it is told the bit of the type. */
  lemma MaskIsToldIff(r: Records, s: NetworkInfo)
    requires IsNews(r, s)
    ensures var q, d := AfterReport(r, s), Taken(r, s);
            q.copy.value.allTypes == Newest(q.all).allTypes
            <==> r.copy.None? || OnlyApnDiffers(r.copy.value, d) || d.allTypes != 0 || TypeBit(Normalized(s.typ)) == 0
    ensures var q := AfterReport(r, s);
            q.copy.value.allTypes == Newest(q.all).allTypes || q.copy.value.allTypes == TypeBit(Normalized(s.typ))
  {
    hide TypeBit, Normalized, CodeOf, TableAfter, MaskAfter, ApnAfter;
  }

  /** The client is told the report's APN exactly if that is not the only thing that is new; otherwise it is told
      just what it was told before. The time of the copy is that of the first. */
  lemma ApnIsToldIff(r: Records, s: NetworkInfo)
    requires IsNews(r, s)
    ensures AfterReport(r, s).copy.value.apn == s.apn
       <==> r.copy.None? || !OnlyApnDiffers(r.copy.value, Taken(r, s))
    ensures r.copy.Some? && AfterReport(r, s).copy.value.apn != s.apn ==> AfterReport(r, s).copy == r.copy
    ensures r.copy.Some? ==> AfterReport(r, s).copy.value.reported == r.copy.value.reported
  {
    hide TypeBit, Normalized, CodeOf, TableAfter, MaskAfter, ApnAfter, Record;
  }

  /** The client is told the report's type exactly if the copy has it already, or the copy's type differs as
      the framework reads codes and the report carries the framework's code for its type. In any case it is told
      a code or type that stands for the same as the report's. */
  lemma TypeIsToldIff(r: Records, s: NetworkInfo)
    requires IsNews(r, s)
    ensures var q := AfterReport(r, s);
            q.copy.value.typ == s.typ
            <==> || r.copy.None? || r.copy.value.typ == s.typ
                 || (Normalized(r.copy.value.typ) != Normalized(s.typ) && CodeOf(Normalized(s.typ)) == s.typ)
    ensures Normalized(AfterReport(r, s).copy.value.typ) == Normalized(s.typ)
  {
    CodesRoundTrip(s.typ);
    CodesRoundTrip(Normalized(s.typ));
    assert Normalized(300) == 10;
    hide TypeBit, Normalized, CodeOf, TableAfter, MaskAfter, ApnAfter, Record;
  }

  function AllReported(reports: seq<NetworkInfo>): Records {
    if reports == [] then QUIET.records else AfterReport(AllReported(reports[..|reports| - 1]), reports[|reports| - 1])
  }

  /** As eventConnectionStatus is called, with types and not codes, the type told never changes. */
  lemma {:induction false} TypeStaysTheFirst(reports: seq<NetworkInfo>)
    requires reports != [] && forall s :: s in reports ==> Normalized(s.typ) == TYPE_UNKNOWN
    ensures var r := AllReported(reports); r.copy.Some? && r.copy.value.typ == reports[0].typ
  {
    hide AfterReport, Normalized;
    var n := |reports| - 1;
    if n == 0 {
      assert AllReported(reports[..0]) == QUIET.records;
      FirstReported(reports[0]);
    } else {
      TypeStaysTheFirst(reports[..n]);
      SameTypeKept(AllReported(reports[..n]), reports[n]);
      assert reports[0] in reports;
    }
  }

  lemma SameTypeKept(r: Records, s: NetworkInfo)
    requires r.copy.Some? && Normalized(r.copy.value.typ) == Normalized(s.typ)
    ensures var q := AfterReport(r, s); q.copy.Some? && q.copy.value.typ == r.copy.value.typ
  {
    hide TypeBit, Normalized, CodeOf, TableAfter, MaskAfter, ApnAfter, Record;
  }

  /** The records of a joined run are those of its network reports. */
  lemma {:induction false} ReactsRecords(enc: Encode, events: seq<Event>)
    ensures Reacts(enc, events).records == AllReported(ReportsOf(events))
  {
    hide AfterReport, Process;
    if events != [] {
      var front, e := events[..|events| - 1], events[|events| - 1];
      ReactsRecords(enc, front);
      if e.Batch? {
        PiecesReported(ReportsOf(front), e.pieces);
      } else {
        assert ReportsOf(events) == ReportsOf(front);
      }
    }
  }

  lemma {:induction false} PiecesReported(reports: seq<NetworkInfo>, ps: seq<Piece>)
    ensures AfterPieces(AllReported(reports), ps) == AllReported(reports + ReportsIn(ps))
  {
    hide AfterReport;
    if ps == [] {
      assert reports + ReportsIn(ps) == reports;
    } else {
      var front, p := ps[..|ps| - 1], ps[|ps| - 1];
      PiecesReported(reports, front);
      if p.Network? {
        assert reports + ReportsIn(ps) == (reports + ReportsIn(front)) + [p.s];
        assert ((reports + ReportsIn(front)) + [p.s])[..|reports + ReportsIn(front)|] == reports + ReportsIn(front);
      } else {
        assert ReportsIn(ps) == ReportsIn(front);
      }
    }
  }

  /** So in every joined run of such reports a client that wants it was last told the first report's type. */
  lemma TypeToldNeverChanges(enc: Encode, events: seq<Event>)
    requires ReportsOf(events) != [] && forall s :: s in ReportsOf(events) ==> Normalized(s.typ) == TYPE_UNKNOWN
    ensures var n := Reacts(enc, events);
            n.records.copy.Some? && n.records.copy.value.typ == ReportsOf(events)[0].typ
  {
    hide Reacts, ReportsOf, Normalized;
    ReactsRecords(enc, events);
    TypeStaysTheFirst(ReportsOf(events));
  }

  lemma FirstReported(s: NetworkInfo)
    ensures IsNews(QUIET.records, s) && AfterReport(QUIET.records, s) == Records([Entry(s, true)], Some(s))
  {
  }

  /** A first report of no known handle lists nothing. Then a mobile network comes and goes: the table is
      empty, the recorded mask is 0, and the client is told the mobile bit. */
  lemma LastDisconnectionIsToldAsMobile()
    ensures var q := AfterReport(QUIET.records, FrameworkReport(201, true, NETWORK_HANDLE_UNKNOWN, ""));
            var r := AfterReport(q, FrameworkReport(201, true, 5, ""));
            var s := FrameworkReport(201, false, 5, "");
            && r.all != [] && Live(Newest(r.all).slots) == {Slot(5, 201)} && IsNews(r, s)
            && Live(Newest(AfterReport(r, s).all).slots) == {} && Newest(AfterReport(r, s).all).allTypes == 0
            && AfterReport(r, s).copy.value.allTypes == TypeBit(TYPE_MOBILE) != 0
  {
    var a, b, s := FrameworkReport(201, true, NETWORK_HANDLE_UNKNOWN, ""), FrameworkReport(201, true, 5, ""),
                   FrameworkReport(201, false, 5, "");
    MobileComes();
    FirstReported(a);
    var q := AfterReport(QUIET.records, a);
    FreshRefines(a);
    MobileGoes(q, b, s);
  }

  /** The two merges, on the table and the mask. */
  lemma MobileComes()
    ensures var a, b, s := FrameworkReport(201, true, NETWORK_HANDLE_UNKNOWN, ""), FrameworkReport(201, true, 5, ""),
                           FrameworkReport(201, false, 5, "");
            var c := Collated(b, a);
            var d := Collated(s, c);
            && WellFormed(c.slots) && Live(a.slots) == {} && Live(c.slots) == {Slot(5, 201)} && c.allTypes == 1
            && Live(d.slots) == {} && d.allTypes == 0
  {
    var a, b, s := FrameworkReport(201, true, NETWORK_HANDLE_UNKNOWN, ""), FrameworkReport(201, true, 5, ""),
                   FrameworkReport(201, false, 5, "");
    MobileOwn(NETWORK_HANDLE_UNKNOWN);
    MobileOwn(5);
    FreshRefines(a);
    hide Live, WellFormed, Count, Others, TableAfter, FrameworkReport;
    CollatedRefines(b, a);
    CollatedRefines(s, Collated(b, a));
    NoOtherLeft(s, Collated(b, a));
    OwnBitAgain();
    OwnBitGone();
  }

  lemma MobileOwn(h: Handle)
    ensures Fresh(FrameworkReport(201, true, h, ""))
    ensures forall connected ::
              var s := FrameworkReport(201, connected, h, "");
              && s.connected == connected && s.allTypes == 1 && Own(s) == Slot(h, 201) && s.handle == h && s.typ == 201
              && s.slots[0].handle == h
  {
  }

  lemma MobileGoes(q: Records, b: NetworkInfo, s: NetworkInfo)
    requires q.all != [] && q.copy.Some?
    requires b.typ == s.typ == 201 && b.connected && !s.connected
    requires var c := Collated(b, Newest(q.all)); c.allTypes == 1 && Collated(s, c).allTypes == 0
    requires IsNews(q, b)
    ensures var r := AfterReport(q, b);
            && Newest(r.all) == Collated(b, Newest(q.all)) && IsNews(r, s)
            && Newest(AfterReport(r, s).all) == Collated(s, Newest(r.all))
            && AfterReport(r, s).copy.value.allTypes == TypeBit(TYPE_MOBILE) != 0
  {
    hide TableAfter, MaskAfter, ApnAfter;
  }

  lemma OwnBitGone()
    ensures TypeBit(TYPE_MOBILE) == 1 && Without(1, 1) == 0
  {
  }

  /** A mobile network changes its APN: that is news, and the client is told the old one. */
  lemma NewApnIsNotTold()
    ensures var r := AfterReport(QUIET.records, ConnectionStatus(true, TYPE_MOBILE, false, 5, "a", 0));
            var s := ConnectionStatus(true, TYPE_MOBILE, false, 5, "b", 0);
            && IsNews(r, s)
            && Newest(AfterReport(r, s).all).apn == "b"
            && AfterReport(r, s).copy.value.apn == "a"
  {
    var a := ConnectionStatus(true, TYPE_MOBILE, false, 5, "a", 0);
    var s := ConnectionStatus(true, TYPE_MOBILE, false, 5, "b", 0);
    FirstReported(a);
    OwnBitAgain();
    assert Stop(a.slots, 5) == 0;
    assert "a"[0] != "b"[0];
  }

  lemma OwnBitAgain()
    ensures TypeBit(TYPE_MOBILE) == 1 && With(1, 1) == 1
  {
  }
}
