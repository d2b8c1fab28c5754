/** A small disk that an update can start from, for any checksum: what the theorems about updates and
    commits ask for can be met, and the update has something to do. */
module ExampleDisk {
  import opened Common
  import opened GptHeader
  import opened BootChain
  import opened SwapList
  import opened GptDisk
  import opened BootUpdate
  import opened CrashSafety
  import opened DiskCommit

  const BLK := 128

  /** Header fields of a table of two entries that starts at the given block. */
  function Fields(lba: word): (h: seq<byte>)
    ensures |h| == BLK
  {
    Put4(Put4(Put4(Put4(seq(BLK, _ => 0), HEADER_SIZE_OFFSET, MIN_BLOCK), PENTRIES_OFFSET, lba),
              PARTITION_COUNT_OFFSET, 2), PENTRY_SIZE_OFFSET, PTN_ENTRY_SIZE)
  }

  lemma FieldsRead(lba: word)
    ensures var h := Fields(lba);
            && Readable(h) && HeaderSize(h) == MIN_BLOCK && Get8(h, PENTRIES_OFFSET) == lba
            && Get4(h, PARTITION_COUNT_OFFSET) == 2 && Get4(h, PENTRY_SIZE_OFFSET) == PTN_ENTRY_SIZE
  {
    var a := Put4(seq(BLK, _ => 0), HEADER_SIZE_OFFSET, MIN_BLOCK);
    var b := Put4(a, PENTRIES_OFFSET, lba);
    var c := Put4(b, PARTITION_COUNT_OFFSET, 2);
    GetPut(seq(BLK, _ => 0), HEADER_SIZE_OFFSET, MIN_BLOCK);
    GetPut(a, PENTRIES_OFFSET, lba);
    GetPut(b, PARTITION_COUNT_OFFSET, 2);
    GetPut(c, PENTRY_SIZE_OFFSET, PTN_ENTRY_SIZE);
    hide Put4;
  }

  function TableHeader(crc: Checksum, lba: word, a: seq<byte>): (h: seq<byte>)
    ensures |h| == BLK
  {
    FieldsRead(lba);
    Canon(crc, Fields(lba), crc(a), true)
  }

  lemma TableHeaderReads(crc: Checksum, lba: word, a: seq<byte>)
    requires lba < 100
    ensures var h := TableHeader(crc, lba, a);
            && HeaderSize(h) <= BLK && HeaderState(crc, h) == Ok && Get4(h, PARTITION_CRC_OFFSET) == crc(a)
            && Get4(h, PENTRY_SIZE_OFFSET) == PTN_ENTRY_SIZE && ArraySize(h) == 256
            && forall pf: Platform :: pf.blk == BLK ==> ArrayAt(pf, h) == BLK * lba
  {
    hide Fields, Get4, Canon;
    FieldsRead(lba);
    CanonFacts(crc, Fields(lba), crc(a), true);
  }

  /** An entry called "abl". */
  function Abl(): Entry {
    seq(PTN_ENTRY_SIZE, i => if i == 56 then 97 else if i == 58 then 98 else if i == 60 then 108 else 0)
  }

  /** Its backup, called "ablbak". */
  function AblBak(): Entry {
    seq(PTN_ENTRY_SIZE, i => if i == 56 then 97 else if i == 58 then 98 else if i == 60 then 108
                             else if i == 62 then 98 else if i == 64 then 97 else if i == 66 then 107 else 0)
  }

  function Pair(): seq<Entry> { [Abl(), AblBak()] }

  function SwappedPair(): seq<Entry> { [AblBak(), Abl()] }

  lemma AblIsFound()
    ensures HasPair("abl", Pair()) && First("abl", Pair()) == 0 && Second("abl", Pair()) == 1
  {
    AblMatches();
    AblBakMatches();
    hide Matches, Abl, AblBak;
  }

  lemma AblMatches()
    ensures Matches("abl", Abl())
  {
    var n8 := Name8(Abl());
    assert n8[0] == 97 && n8[1] == 98 && n8[2] == 108 && n8[3] == 0;
  }

  lemma AblBakMatches()
    ensures Matches("abl", AblBak())
  {
    var n8 := Name8(AblBak());
    assert n8[0] == 97 && n8[1] == 98 && n8[2] == 108;
    assert n8[3..][0] == 98 && n8[3..][1] == 97 && n8[3..][2] == 107 && n8[6] == 0;
  }

  function Disk(crc: Checksum): (d: Image)
    ensures |d| == 7 * BLK
  {
    var a := Join(Pair());
    seq(BLK, _ => 0) + TableHeader(crc, 2, a) + a + a + TableHeader(crc, 4, a)
  }

  lemma DiskParts(crc: Checksum)
    ensures var d, a := Disk(crc), Join(Pair());
            && Slice(d, BLK, BLK) == TableHeader(crc, 2, a)
            && Slice(d, 2 * BLK, 256) == a
            && Slice(d, 4 * BLK, 256) == a
            && Slice(d, 6 * BLK, BLK) == TableHeader(crc, 4, a)
  {
    hide Pair, Join, TableHeader;
  }

  lemma DiskIsLaid(pf: Platform, crc: Checksum)
    requires pf.blk == BLK && pf.crc == crc
    ensures var d, a := Disk(crc), Join(Pair());
            && Laid(pf, d)
            && Header(pf, d, Primary) == TableHeader(crc, 2, a) && Header(pf, d, Secondary) == TableHeader(crc, 4, a)
            && (forall i :: Array(pf, d, i) == a)
  {
    hide Get4, Get8, ArrayAt, ArraySize, Slice, Join, Disk, TableHeader, HeaderState, Pair;
    var a := Join(Pair());
    DiskParts(crc);
    TableHeaderReads(crc, 2, a);
    TableHeaderReads(crc, 4, a);
  }

  lemma SameSizes(crc: Checksum, a: seq<byte>)
    ensures HeaderSize(TableHeader(crc, 2, a)) == HeaderSize(TableHeader(crc, 4, a)) == MIN_BLOCK
  {
    hide Fields, Get4, Canon;
    FieldsRead(2);
    FieldsRead(4);
    CanonFacts(crc, Fields(2), crc(a), true);
    CanonFacts(crc, Fields(4), crc(a), true);
  }

  /** Both tables are valid, there is a pair to swap, and a handle loaded from the disk fits it. */
  lemma SoundDisksExist(crc: Checksum, ufs: bool) returns (pf: Platform, d: Image)
    ensures pf.crc == crc && pf.ufs == ufs && pf.names == PTN_SWAP_LIST
    ensures Sound(pf, d) && SwapsAny(pf, d) && Fits(pf, d, Load(pf, d))
    ensures HeaderSize(Header(pf, d, Primary)) == HeaderSize(Header(pf, d, Secondary)) == MIN_BLOCK
    ensures Array(pf, d, Primary) == Array(pf, d, Secondary) == Join(Pair())
  {
    hide Get4, Get8, ArrayAt, ArraySize, Laid, Join, Disk, TableHeader, HeaderState, Slots, SwapsSome, Pair;
    hide Header, Array, Fits;
    pf, d := Platform(BLK, crc, ufs, PTN_SWAP_LIST), Disk(crc);
    var s := Pair();
    var a := Join(s);
    DiskIsLaid(pf, crc);
    TableHeaderReads(crc, 2, a);
    TableHeaderReads(crc, 4, a);
    SlotsJoin(s);
    AblSwapped(ufs);
    WholeEntries(pf, d);
    SameSizes(crc, a);
    LoadedFits(pf, d, a, a);
    assert Load(pf, d).(arr := a, arrBak := a) == Load(pf, d);
  }

  lemma AblSwapped(ufs: bool)
    ensures SwapsSome(ufs, PTN_SWAP_LIST, Pair())
  {
    hide Abl, AblBak, HasPair, Found;
    SwapListIsPlain();
    AblIsFound();
    FoundIffSomePair(ufs, PTN_SWAP_LIST, 42, Pair());
    assert PTN_SWAP_LIST[8] == "abl" && Kept(ufs, PTN_SWAP_LIST[8]);
  }

  /** The only name of the list that the pair carries is listed once, so a pass exchanges it. */
  lemma PairIsSwapped(ufs: bool)
    ensures Swapped(ufs, PTN_SWAP_LIST, Pair()) == SwappedPair()
  {
    SwapListIsPlain();
    AblIsFound();
    AblOnce();
    assert PlainName(PTN_SWAP_LIST[8]) && Kept(ufs, PTN_SWAP_LIST[8]);
    hide Swapped, Pair, SwappedPair, HasPair, First, Second, Times, Kept, PlainName, PlainList;
    ExchangedIfListedOnce(ufs, PTN_SWAP_LIST, "abl");
  }

  lemma ExchangedIfListedOnce(ufs: bool, names: seq<string>, n: string)
    requires PlainList(names) && PlainName(n) && Kept(ufs, n) && Times(n, names, |names|) == 1
    requires HasPair(n, Pair()) && First(n, Pair()) == 0 && Second(n, Pair()) == 1
    ensures Swapped(ufs, names, Pair()) == SwappedPair()
  {
    hide Abl, AblBak, HasPair, First, Second, Times, Kept, PlainName, PlainList, Pass;
    PassExchangesByParity(ufs, names, |names|, n, Pair());
  }

  lemma AblOnce()
    ensures Times("abl", PTN_SWAP_LIST, 42) == 1 && PTN_SWAP_LIST[8] == "abl"
  {
    TimesByIndex("abl", PTN_SWAP_LIST, 42, {8});
  }

  // ---------- a commit that leaves no valid table on the way

  /** The disk after the first write of MAIN, where the secondary header already describes the swapped
      entries, and the disk when MAIN has completed. */
  lemma CutInMain(pf: Platform, d0: Image) returns (d: Image, e: Image)
    requires Sound(pf, d0) && SwapsAny(pf, d0)
    ensures d == Run(pf, d0, [Call(Main, false, 1)]) && e == Run(pf, d0, [Call(Main, false, 3)])
    ensures var v0, a := Initially(pf, d0), ChainArray(pf, d0, BackupBoot);
            && Shows(pf, d0, d, v0.(crc := pf.crc(a)))
            && Shows(pf, d0, e, v0.(crc := pf.crc(a), entries := a, primaryGood := false))
  {
    hide Shows, RunStage, SwapsAny, Laid, ChainArray;
    ShowsInitially(pf, d0);
    StageOnView(pf, d0, d0, Initially(pf, d0), Main, false);
    d := After(pf, d0, Call(Main, false, 1));
    e := After(pf, d0, Call(Main, false, 3));
    assert [Call(Main, false, 1)][..0] == [] && [Call(Main, false, 3)][..0] == [];
  }

  /** For every checksum that tells the two entries from the two exchanged: on a disk cut there, a commit of
      the exchanged entries leaves no valid table after its first write. */
  lemma CommitCanLeaveNoTable(crc: Checksum, ufs: bool) returns (pf: Platform, d0: Image, d: Image, t: Table)
    requires crc(Join(Pair())) != crc(Join(SwappedPair()))
    ensures pf.crc == crc && Sound(pf, d0) && d == Run(pf, d0, [Call(Main, false, 1)])
    ensures Fits(pf, d, t) && Committable(pf, d, Updated(pf.crc, t))
    ensures var c := CommitImages(pf, d, Updated(pf.crc, t));
            Laid(pf, c[0]) && !TableValid(pf, c[0], Primary) && !TableValid(pf, c[0], Secondary)
  {
    hide Get4, Get8, ArrayAt, ArraySize, Laid, Join, TableHeader, HeaderState, Slots, SwapsSome, Pair, Shows;
    hide Fits, Header, Array, ChainArray, Swapped, SwappedPair, CommitImages, SwapsAny, Run;
    pf, d0 := SoundDisksExist(crc, ufs);
    var b := Join(SwappedPair());
    ChainOfPair(pf, d0);
    var e: Image;
    d, e := CutInMain(pf, d0);
    var v := Initially(pf, d0).(crc := crc(b));
    ReadBack(pf, d0, d, v);
    ShownParts(pf, d0, d, v);
    LoadedFits(pf, d, b, b);
    t := Load(pf, d).(arr := b, arrBak := b);
    CommitValidity(pf, d, t);
  }

  /** For the same checksums: when MAIN has completed the secondary is the valid table, and a commit that
      gives it back its old entries leaves no valid table after its third write. */
  lemma CommitAfterMainCanLeaveNoTable(crc: Checksum, ufs: bool)
      returns (pf: Platform, d0: Image, d: Image, t: Table)
    requires crc(Join(Pair())) != crc(Join(SwappedPair()))
    ensures pf.crc == crc && Sound(pf, d0) && d == Run(pf, d0, [Call(Main, false, 3)])
    ensures TableValid(pf, d, Secondary)
    ensures t == Load(pf, d).(arrBak := Join(Pair())) && Fits(pf, d, t) && Committable(pf, d, Updated(pf.crc, t))
    ensures var c := CommitImages(pf, d, Updated(pf.crc, t));
            Laid(pf, c[2]) && !TableValid(pf, c[2], Primary) && !TableValid(pf, c[2], Secondary)
  {
    hide Get4, Get8, ArrayAt, ArraySize, Laid, Join, TableHeader, Slots, SwapsSome, Pair, Shows, HeaderCrc;
    hide Fits, Header, Array, ChainArray, Swapped, SwappedPair, CommitImages, SwapsAny, Run;
    pf, d0 := SoundDisksExist(crc, ufs);
    var a, b := Join(Pair()), Join(SwappedPair());
    ChainOfPair(pf, d0);
    var cut: Image;
    cut, d := CutInMain(pf, d0);
    var v := Initially(pf, d0).(crc := crc(b), entries := b, primaryGood := false);
    ReadBack(pf, d0, d, v);
    ShownParts(pf, d0, d, v);
    LoadedFits(pf, d, Array(pf, d, Primary), a);
    t := Load(pf, d).(arr := Array(pf, d, Primary), arrBak := a);
    assert t == Load(pf, d).(arrBak := a) by { LoadedArray(pf, d); }
    assert !Signed(t.hdr) by { BadlySigned(pf, d); }
    CommitValidity(pf, d, t);
  }

  lemma LoadedArray(pf: Platform, d: Image)
    requires Laid(pf, d)
    ensures Load(pf, d).arr == Array(pf, d, Primary) && Load(pf, d).hdr == Header(pf, d, Primary)
  {
  }

  lemma BadlySigned(pf: Platform, d: Image)
    requires Laid(pf, d) && StateOf(pf, d, Primary) == BadSignature
    ensures |Load(pf, d).hdr| >= MIN_BLOCK && !Signed(Load(pf, d).hdr)
  {
    hide Get4, Get8;
  }

  lemma ChainOfPair(pf: Platform, d0: Image)
    requires Laid(pf, d0) && Array(pf, d0, Primary) == Join(Pair()) && pf.names == PTN_SWAP_LIST
    ensures ChainArray(pf, d0, BackupBoot) == Join(SwappedPair())
  {
    hide Laid, Join, Pair, Swapped, Slots, Array;
    WholeEntries(pf, d0);
    SlotsJoin(Pair());
    PairIsSwapped(pf.ufs);
  }

  /** What a disk in the course of an update keeps of the one it started from. */
  lemma ShownParts(pf: Platform, d0: Image, d: Image, v: View)
    requires Shows(pf, d0, d, v)
    ensures Laid(pf, d) && Array(pf, d, Primary) == Array(pf, d0, Primary) && Array(pf, d, Secondary) == v.entries
    ensures HeaderSize(Header(pf, d, Primary)) == HeaderSize(Header(pf, d0, Primary))
    ensures HeaderSize(Header(pf, d, Secondary)) == HeaderSize(Header(pf, d0, Secondary))
  {
    hide Get4, Get8, ArrayAt, Canon, SameElsewhere, Array;
    var p0, s0 := Header(pf, d0, Primary), Header(pf, d0, Secondary);
    CanonFacts(pf.crc, p0, Get4(p0, PARTITION_CRC_OFFSET), v.primaryGood);
    CanonFacts(pf.crc, s0, v.crc, v.secondaryGood);
  }

  // ---------- checksums that show it

  /** Where the two arrays differ. */
  function NameMark(b: seq<byte>): word { if |b| > 62 then b[62] else 0 }

  lemma NameMarkTellsThemApart()
    ensures NameMark(Join(Pair())) != NameMark(Join(SwappedPair()))
  {
    assert Join(Pair())[62] == Abl()[62] && Join(SwappedPair())[62] == AblBak()[62];
  }

  /** A checksum that looks at the header's own checksum field. */
  function FieldMark(b: seq<byte>): word {
    if |b| > HEADER_CRC_OFFSET then (b[HEADER_CRC_OFFSET] as int + 1) % 256 else 0
  }

  /** With it the header checksum that is loaded after a commit is never the one that was committed. */
  lemma ReloadedCrcCanDiffer(pf: Platform, d: Image, t: Table)
    requires Fits(pf, d, t) && pf.crc == FieldMark && HeaderSize(t.hdr) > HEADER_CRC_OFFSET
    ensures Committable(pf, d, Updated(pf.crc, t))
    ensures var u := Updated(pf.crc, t);
            var r := CommitImages(pf, d, u)[3];
            Laid(pf, r) && Load(pf, r).hdrCrc == 2 && u.hdrCrc == 1
  {
    FieldMarkOfUpdated(t);
    hide Get4, Get8, ArrayAt, ArraySize, Laid, HeaderSize, Updated, CommitImages, Fits, Load, Header, Array;
    ReloadReadsCommitted(pf, d, t);
    CommitSteps(pf, d, Updated(pf.crc, t));
    LoadedCrc(pf, CommitImages(pf, d, Updated(pf.crc, t))[3]);
  }

  lemma LoadedCrc(pf: Platform, d: Image)
    requires Laid(pf, d)
    ensures HeaderSize(Header(pf, d, Primary)) <= pf.blk
    ensures Load(pf, d).hdrCrc == pf.crc(Header(pf, d, Primary)[..HeaderSize(Header(pf, d, Primary))])
  {
  }

  lemma FieldMarkOfUpdated(t: Table)
    requires Editable(t) && HeaderSize(t.hdr) > HEADER_CRC_OFFSET
    ensures var u := Updated(FieldMark, t);
            && HeaderSize(u.hdr) == HeaderSize(t.hdr) && |u.hdr| == |t.hdr|
            && u.hdrCrc == 1 && FieldMark(u.hdr[..HeaderSize(u.hdr)]) == 2
  {
    var h := Put4(t.hdr, PARTITION_CRC_OFFSET, FieldMark(t.arr));
    var n := HeaderSize(t.hdr);
    UpdatedHeaders(FieldMark, t);
    EditsKeepGeometry(FieldMark, t.hdr, true, FieldMark(t.arr));
    UpdatedFields(FieldMark, t);
    EditsStayReadable(t.hdr, true, FieldMark(t.arr));
    KeepsHeaderSize(t.hdr, FieldMark(t.arr));
    SealedByFieldMark(h);
    hide Put4, Get4, Sealed, HeaderSize, Updated;
  }

  lemma SealedByFieldMark(h: seq<byte>)
    requires Readable(h) && HeaderSize(h) > HEADER_CRC_OFFSET
    ensures var s, n := Sealed(FieldMark, h), HeaderSize(h);
            Get4(s, HEADER_CRC_OFFSET) == 1 && FieldMark(s[..n]) == 2
  {
    var z, n := Put4(h, HEADER_CRC_OFFSET, 0), HeaderSize(h);
    assert z[..n][HEADER_CRC_OFFSET] == 0;
    GetPut(h, HEADER_CRC_OFFSET, 1);
    assert Put4(h, HEADER_CRC_OFFSET, 1)[..n][HEADER_CRC_OFFSET] == 1;
  }
}
