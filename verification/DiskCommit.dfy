/** The partition-table handle: loading it from the disk, recomputing its checksums after its entries
    were edited, and writing it back as four block writes. */
module DiskCommit {
  import opened Common
  import opened GptHeader
  import opened GptDisk
  import opened UpdateProgram

  const GPT_DISK_INIT_MAGIC: word := 0xABCD

  /** The contents of struct gpt_disk. */
  datatype Table = Table(hdr: seq<byte>, hdrCrc: word, bak: seq<byte>, bakCrc: word,
                         arr: seq<byte>, arrBak: seq<byte>, arrCrc: word, arrBakCrc: word)

  /** The checksum of a header over a size that the other header dictates. */
  function SealedOver(crc: Checksum, h: seq<byte>, size: nat): (r: seq<byte>)
    requires |h| >= MIN_BLOCK && size <= |h|
    ensures |r| == |h|
  {
    Put4(h, HEADER_CRC_OFFSET, crc(Put4(h, HEADER_CRC_OFFSET, 0)[..size]))
  }

  /** Both header sizes can be read and fit their block. */
  ghost predicate Editable(t: Table) {
    Readable(t.hdr) && Readable(t.bak) && HeaderSize(t.hdr) <= |t.bak|
  }

  predicate Signed(h: seq<byte>)
    requires |h| >= MIN_BLOCK
  {
    h[..9] == GPT_SIGNATURE
  }

  /** The header's checksum over its own size is that over the size taken. */
  ghost predicate SealsAs(crc: Checksum, h: seq<byte>, size: nat)
    requires Readable(h) && size <= |h|
  {
    crc(Put4(h, HEADER_CRC_OFFSET, 0)[..size]) == HeaderCrc(crc, h)
  }

  /** gpt_disk_update_crc; both headers are sealed over the primary's header size. */
  function Updated(crc: Checksum, t: Table): (r: Table)
    requires Readable(t.hdr) && |t.bak| >= MIN_BLOCK && HeaderSize(t.hdr) <= |t.bak|
  {
    var hdr := SealedOver(crc, Put4(t.hdr, PARTITION_CRC_OFFSET, crc(t.arr)), HeaderSize(t.hdr));
    var bak := SealedOver(crc, Put4(t.bak, PARTITION_CRC_OFFSET, crc(t.arrBak)), HeaderSize(t.hdr));
    Table(hdr, Get4(hdr, HEADER_CRC_OFFSET), bak, Get4(bak, HEADER_CRC_OFFSET),
          t.arr, t.arrBak, crc(t.arr), crc(t.arrBak))
  }

  /** The secondary header after an update, but for its seal. */
  function NewBackup(crc: Checksum, t: Table): (h: seq<byte>)
    requires |t.bak| >= MIN_BLOCK
    ensures |h| == |t.bak|
  {
    Put4(t.bak, PARTITION_CRC_OFFSET, crc(t.arrBak))
  }

  /** Sealing it over the primary's header size is as good as over its own, as it is for equal sizes. */
  ghost predicate BackupSeals(crc: Checksum, t: Table)
    requires Editable(t)
  {
    EditsStayReadable(t.bak, true, crc(t.arrBak));
    SealsAs(crc, NewBackup(crc, t), HeaderSize(t.hdr))
  }

  lemma EqualSizesSeal(crc: Checksum, t: Table)
    requires Editable(t) && HeaderSize(t.hdr) == HeaderSize(t.bak)
    ensures BackupSeals(crc, t)
  {
    KeepsHeaderSize(t.bak, crc(t.arrBak));
  }

  /** With equal header sizes an update is the array-checksum edit of each header. */
  lemma UpdatedHeaders(crc: Checksum, t: Table)
    requires Editable(t)
    ensures Updated(crc, t).hdr == WithArrayCrc(crc, t.hdr, crc(t.arr))
    ensures HeaderSize(t.hdr) == HeaderSize(t.bak) ==> Updated(crc, t).bak == WithArrayCrc(crc, t.bak, crc(t.arrBak))
  {
  }

  /** The handle belongs to the disk: same geometry, arrays of the recorded size. */
  ghost predicate Fits(pf: Platform, d: Image, t: Table) {
    && Laid(pf, d) && |t.hdr| == |t.bak| == pf.blk && Editable(t)
    && SameGeometry(t.hdr, Header(pf, d, Primary)) && SameGeometry(t.bak, Header(pf, d, Secondary))
    && |t.arr| == |t.arrBak| == ArraySize(Header(pf, d, Primary))
  }

  /** Each array goes where its header says, and as much of it as the header says. */
  predicate Writable(pf: Platform, d: Image, h: seq<byte>, a: seq<byte>)
    requires |h| >= MIN_BLOCK
  {
    ArraySize(h) <= |a| && ArrayAt(pf, h) + ArraySize(h) <= |d|
  }

  /** The disk after each of the four writes of gpt_disk_commit. */
  function CommitImages(pf: Platform, d: Image, t: Table): (images: seq<Image>)
    requires Laid(pf, d) && |t.hdr| == |t.bak| == pf.blk
    requires Writable(pf, d, t.hdr, t.arr) && Writable(pf, d, t.bak, t.arrBak)
    ensures |images| == 4
  {
    var d1 := Splice(d, HeaderAt(pf, d, Primary), t.hdr);
    var d2 := Splice(d1, ArrayAt(pf, t.hdr), t.arr[..ArraySize(t.hdr)]);
    var d3 := Splice(d2, HeaderAt(pf, d, Secondary), t.bak);
    [d1, d2, d3, Splice(d3, ArrayAt(pf, t.bak), t.arrBak[..ArraySize(t.bak)])]
  }

  lemma FitsFacts(pf: Platform, d: Image, t: Table)
    requires Fits(pf, d, t)
    ensures ArrayAt(pf, t.hdr) == ArrayAt(pf, Header(pf, d, Primary))
    ensures ArrayAt(pf, t.bak) == ArrayAt(pf, Header(pf, d, Secondary))
    ensures ArraySize(t.hdr) == ArraySize(t.bak) == |t.arr| == |t.arrBak|
    ensures Writable(pf, d, t.hdr, t.arr) && Writable(pf, d, t.bak, t.arrBak)
    ensures t.arr[..ArraySize(t.hdr)] == t.arr && t.arrBak[..ArraySize(t.bak)] == t.arrBak
  {
    hide Get4, Get8, ArrayAt, ArraySize;
    GeometryOf(pf, t.hdr, Header(pf, d, Primary));
    GeometryOf(pf, t.bak, Header(pf, d, Secondary));
  }

  /** Each write replaces exactly the region it is meant for. */
  lemma CommitSteps(pf: Platform, d: Image, t: Table)
    requires Fits(pf, d, t)
    ensures Writable(pf, d, t.hdr, t.arr) && Writable(pf, d, t.bak, t.arrBak)
    ensures var c := CommitImages(pf, d, t);
            var arr, bak, arrBak := Array(pf, d, Primary), Header(pf, d, Secondary), Array(pf, d, Secondary);
            && Sees(pf, c[0], t.hdr, arr, bak, arrBak)
            && Sees(pf, c[1], t.hdr, t.arr, bak, arrBak)
            && Sees(pf, c[2], t.hdr, t.arr, t.bak, arrBak)
            && Sees(pf, c[3], t.hdr, t.arr, t.bak, t.arrBak)
  {
    hide Get4, Get8, ArrayAt, ArraySize, Splice, Slice, HeaderSize;
    FitsFacts(pf, d, t);
    var c := CommitImages(pf, d, t);
    HeaderWrite(pf, d, Primary, t.hdr);
    ArrayWrite(pf, c[0], Primary, t.arr);
    HeaderWrite(pf, c[1], Secondary, t.bak);
    ArrayWrite(pf, c[2], Secondary, t.arrBak);
  }

  lemma ResealedState(crc: Checksum, h: seq<byte>, c: word, size: nat)
    requires Readable(h) && size <= |h|
    ensures var p := Put4(h, PARTITION_CRC_OFFSET, c);
            var r := SealedOver(crc, p, size);
            && Readable(p) && Readable(r) && SameGeometry(r, h) && Get4(r, PARTITION_CRC_OFFSET) == c
            && Signed(r) == Signed(h)
            && HeaderState(crc, r)
               == if !SealsAs(crc, p, size) then BadCrc else if Signed(h) then Ok else BadSignature
  {
    EditsStayReadable(h, true, c);
    var p := Put4(h, PARTITION_CRC_OFFSET, c);
    var sum := crc(Put4(p, HEADER_CRC_OFFSET, 0)[..size]);
    GetPut(h, PARTITION_CRC_OFFSET, c);
    SealPutState(crc, p, sum);
    assert p[..9] == h[..9];
  }

  /** A header with a given value in its checksum field: all else is read as before, and the state says
      whether the value is right. */
  lemma SealPutState(crc: Checksum, p: seq<byte>, sum: word)
    requires Readable(p)
    ensures var r := Put4(p, HEADER_CRC_OFFSET, sum);
            && Readable(r) && SameGeometry(r, p) && r[..9] == p[..9]
            && Get4(r, PARTITION_CRC_OFFSET) == Get4(p, PARTITION_CRC_OFFSET)
            && HeaderState(crc, r)
               == if sum != HeaderCrc(crc, p) then BadCrc else if Signed(p) then Ok else BadSignature
  {
    var r := Put4(p, HEADER_CRC_OFFSET, sum);
    PutPut(p, HEADER_CRC_OFFSET, sum, 0);
    GetPut(p, HEADER_CRC_OFFSET, sum);
    assert r[..9] == p[..9];
  }

  /** An updated handle still fits; its array checksums are right, the primary header is valid exactly if it
      is signed, and the secondary if it is signed and its seal is as good as over its own size. */
  lemma UpdatedFits(pf: Platform, d: Image, t: Table)
    requires Fits(pf, d, t)
    ensures var u := Updated(pf.crc, t);
            && Fits(pf, d, u) && Signed(u.hdr) == Signed(t.hdr) && Signed(u.bak) == Signed(t.bak)
            && Get4(u.hdr, PARTITION_CRC_OFFSET) == pf.crc(u.arr)
            && Get4(u.bak, PARTITION_CRC_OFFSET) == pf.crc(u.arrBak)
            && HeaderState(pf.crc, u.hdr) == (if Signed(t.hdr) then Ok else BadSignature)
            && HeaderState(pf.crc, u.bak)
               == if !BackupSeals(pf.crc, t) then BadCrc else if Signed(t.bak) then Ok else BadSignature
  {
    UpdatedParts(pf.crc, t);
    hide Laid, Updated, Get4, Get8, HeaderSize, HeaderState, SealsAs, SealedOver, Put4, Signed;
    ResealedState(pf.crc, t.hdr, pf.crc(t.arr), HeaderSize(t.hdr));
    ResealedState(pf.crc, t.bak, pf.crc(t.arrBak), HeaderSize(t.hdr));
    OwnSizeSeals(pf.crc, t.hdr, pf.crc(t.arr));
  }

  lemma OwnSizeSeals(crc: Checksum, h: seq<byte>, c: word)
    requires Readable(h)
    ensures Readable(Put4(h, PARTITION_CRC_OFFSET, c))
    ensures SealsAs(crc, Put4(h, PARTITION_CRC_OFFSET, c), HeaderSize(h))
  {
    EditsStayReadable(h, true, c);
    KeepsHeaderSize(h, c);
  }

  lemma UpdatedParts(crc: Checksum, t: Table)
    requires Editable(t)
    ensures var u := Updated(crc, t);
            && u.hdr == SealedOver(crc, Put4(t.hdr, PARTITION_CRC_OFFSET, crc(t.arr)), HeaderSize(t.hdr))
            && u.bak == SealedOver(crc, NewBackup(crc, t), HeaderSize(t.hdr))
            && u.arr == t.arr && u.arrBak == t.arrBak
  {
  }

  ghost predicate Committable(pf: Platform, d: Image, t: Table) {
    Fits(pf, d, t) && Writable(pf, d, t.hdr, t.arr) && Writable(pf, d, t.bak, t.arrBak)
  }

  /** Committing an updated handle: which table is valid after each of the four writes. The new primary is
      valid exactly if its header is signed, the new secondary if it is signed and well sealed; a header
      whose entries are not there yet needs the old entries to have the new checksum. */
  lemma CommitValidity(pf: Platform, d: Image, t: Table)
    requires Fits(pf, d, t)
    ensures Committable(pf, d, Updated(pf.crc, t))
    ensures var c := CommitImages(pf, d, Updated(pf.crc, t));
            var p, s := Signed(t.hdr), Signed(t.bak) && BackupSeals(pf.crc, t);
            && (forall k :: 0 <= k < 4 ==> Laid(pf, c[k]))
            && (TableValid(pf, c[0], Primary) <==> p && pf.crc(Array(pf, d, Primary)) == pf.crc(t.arr))
            && (forall k :: 1 <= k < 4 ==> (TableValid(pf, c[k], Primary) <==> p))
            && (forall k :: 0 <= k < 2 ==> (TableValid(pf, c[k], Secondary) <==> TableValid(pf, d, Secondary)))
            && (TableValid(pf, c[2], Secondary) <==> s && pf.crc(Array(pf, d, Secondary)) == pf.crc(t.arrBak))
            && (TableValid(pf, c[3], Secondary) <==> s)
  {
    hide Get4, Get8, ArrayAt, ArraySize, Splice, Slice, HeaderSize, HeaderState, Laid, Updated, Signed;
    hide CommitImages, SameGeometry, BackupSeals;
    UpdatedFits(pf, d, t);
    UpdatedParts(pf.crc, t);
    hide SealedOver, NewBackup;
    FitsFacts(pf, d, t);
    FitsFacts(pf, d, Updated(pf.crc, t));
    CommitSteps(pf, d, Updated(pf.crc, t));
    hide Array, Header;
  }

  ghost predicate SomeTableValid(pf: Platform, d: Image) {
    Laid(pf, d) && (TableValid(pf, d, Primary) || TableValid(pf, d, Secondary))
  }

  /** A table is valid at every write boundary exactly if it is so for the old secondary and the new primary,
      or enough checksums coincide to do without one of them. */
  lemma CommitNeverWithoutIff(pf: Platform, d: Image, t: Table)
    requires Fits(pf, d, t)
    ensures Committable(pf, d, Updated(pf.crc, t))
    ensures var p, s := Signed(t.hdr), Signed(t.bak) && BackupSeals(pf.crc, t);
            (forall image :: image in CommitImages(pf, d, Updated(pf.crc, t)) ==> SomeTableValid(pf, image))
            <==> if p then TableValid(pf, d, Secondary) || pf.crc(Array(pf, d, Primary)) == pf.crc(t.arr)
                 else TableValid(pf, d, Secondary) && s && pf.crc(Array(pf, d, Secondary)) == pf.crc(t.arrBak)
  {
    hide Laid, Updated, Signed, BackupSeals, CommitImages, TableValid, Array, ArrayAt, ArraySize, SameGeometry;
    hide Get4, Get8, HeaderSize, SomeTableValid;
    CommitValidity(pf, d, t);
    FourBoundaries(pf, CommitImages(pf, d, Updated(pf.crc, t)));
  }

  lemma FourBoundaries(pf: Platform, c: seq<Image>)
    requires |c| == 4 && forall k :: 0 <= k < 4 ==> Laid(pf, c[k])
    ensures (forall image :: image in c ==> SomeTableValid(pf, image))
       <==> (TableValid(pf, c[0], Primary) || TableValid(pf, c[0], Secondary))
            && (TableValid(pf, c[1], Primary) || TableValid(pf, c[1], Secondary))
            && (TableValid(pf, c[2], Primary) || TableValid(pf, c[2], Secondary))
            && (TableValid(pf, c[3], Primary) || TableValid(pf, c[3], Secondary))
  {
    hide Laid, TableValid;
    assert c[0] in c && c[1] in c && c[2] in c && c[3] in c;
  }

  /** With both headers signed and of one size: from the second write on a table with the new contents is
      valid, and after the fourth both are; after the first one is exactly when the old secondary was or the
      new entries have the old checksum. */
  lemma CommitCrashSafe(pf: Platform, d: Image, t: Table)
    requires Fits(pf, d, t) && Signed(t.hdr) && Signed(t.bak) && HeaderSize(t.hdr) == HeaderSize(t.bak)
    ensures Committable(pf, d, Updated(pf.crc, t))
    ensures var c := CommitImages(pf, d, Updated(pf.crc, t));
            && (forall k :: 0 <= k < 4 ==> Laid(pf, c[k]))
            && (TableValid(pf, c[0], Primary) || TableValid(pf, c[0], Secondary)
                <==> TableValid(pf, d, Secondary) || pf.crc(Array(pf, d, Primary)) == pf.crc(t.arr))
            && TableValid(pf, c[1], Primary)
            && TableValid(pf, c[2], Primary)
            && TableValid(pf, c[3], Primary) && TableValid(pf, c[3], Secondary)
  {
    EqualSizesSeal(pf.crc, t);
    hide Laid, Updated, Signed, BackupSeals, CommitImages, TableValid, Fits, Array, Writable, HeaderSize;
    CommitValidity(pf, d, t);
  }

  // ---------- loading a handle

  /** gpt_disk_get_disk_info. Its two header checksums are taken without clearing the checksum field. */
  function Load(pf: Platform, d: Image): (t: Table)
    requires Laid(pf, d)
  {
    var hdr, bak := Header(pf, d, Primary), Header(pf, d, Secondary);
    Table(hdr, pf.crc(hdr[..HeaderSize(hdr)]), bak, pf.crc(bak[..HeaderSize(hdr)]),
          Array(pf, d, Primary), Array(pf, d, Secondary),
          Get4(hdr, PARTITION_CRC_OFFSET), Get4(bak, PARTITION_CRC_OFFSET))
  }

  lemma FirstChecksums(pf: Platform, d: Image)
    requires Laid(pf, d)
    ensures pf.blk >= MIN_BLOCK && 3 * pf.blk <= |d| && HeaderSize(Header(pf, d, Primary)) <= pf.blk
  {
  }

  /** A handle loaded from a disk fits it, whatever is done to its entries. */
  lemma LoadedFits(pf: Platform, d: Image, arr: seq<byte>, arrBak: seq<byte>)
    requires Laid(pf, d) && |arr| == |arrBak| == |Array(pf, d, Primary)|
    ensures Fits(pf, d, Load(pf, d).(arr := arr, arrBak := arrBak))
  {
    hide Get4, Get8, ArrayAt, ArraySize, Slice;
  }

  /** What is loaded after a full commit is what was committed: headers, arrays and array checksums. The
      header checksums agree only if the checksum of a header with its field filled in happens to be the
      one stored in that field. */
  lemma ReloadReadsCommitted(pf: Platform, d: Image, t: Table)
    requires Fits(pf, d, t)
    ensures Committable(pf, d, Updated(pf.crc, t))
    ensures var u := Updated(pf.crc, t);
            var r := CommitImages(pf, d, u)[3];
            && Laid(pf, r)
            && Load(pf, r) == u.(hdrCrc := Load(pf, r).hdrCrc, bakCrc := Load(pf, r).bakCrc)
            && (Load(pf, r) == u <==>
                  && pf.crc(u.hdr[..HeaderSize(u.hdr)]) == Get4(u.hdr, HEADER_CRC_OFFSET)
                  && pf.crc(u.bak[..HeaderSize(u.hdr)]) == Get4(u.bak, HEADER_CRC_OFFSET))
  {
    UpdatedFields(pf.crc, t);
    hide Get4, Get8, ArrayAt, ArraySize, Splice, Slice, HeaderSize, HeaderState, Laid, Updated;
    hide CommitImages, SameGeometry;
    UpdatedFits(pf, d, t);
    FitsFacts(pf, d, t);
    FitsFacts(pf, d, Updated(pf.crc, t));
    CommitSteps(pf, d, Updated(pf.crc, t));
    hide Array, Header;
  }

  lemma UpdatedFields(crc: Checksum, t: Table)
    requires Editable(t)
    ensures var u := Updated(crc, t);
            && u.hdrCrc == Get4(u.hdr, HEADER_CRC_OFFSET) && u.bakCrc == Get4(u.bak, HEADER_CRC_OFFSET)
            && u.arrCrc == crc(u.arr) && u.arrBakCrc == crc(u.arrBak)
  {
  }

  // ---------- the handle in memory

  class GptDiskHandle {
    var hdr: array<byte>
    var hdrCrc: word
    var hdrBak: array<byte>
    var hdrBakCrc: word
    var pentryArr: array<byte>
    var pentryArrBak: array<byte>
    var pentryArrCrc: word
    var pentryArrBakCrc: word
    var isInitialized: word

    ghost function Contents(): Table
      reads this, hdr, hdrBak, pentryArr, pentryArrBak
    {
      Table(hdr[..], hdrCrc, hdrBak[..], hdrBakCrc, pentryArr[..], pentryArrBak[..], pentryArrCrc, pentryArrBakCrc)
    }

    ghost predicate Separate()
      reads this
    {
      hdr != hdrBak && {hdr, hdrBak} !! {pentryArr, pentryArrBak}
    }

    constructor Alloc()
      ensures isInitialized == 0
    {
      hdr, hdrBak, pentryArr, pentryArrBak := new byte[0], new byte[0], new byte[0], new byte[0];
      hdrCrc, hdrBakCrc, pentryArrCrc, pentryArrBakCrc, isInitialized := 0, 0, 0, 0, 0;
    }

    method GetDiskInfo(dev: BlockDevice)
      requires Laid(dev.pf, dev.image)
      modifies this
      ensures isInitialized == GPT_DISK_INIT_MAGIC && Separate()
      ensures fresh(hdr) && fresh(hdrBak) && fresh(pentryArr) && fresh(pentryArrBak)
      ensures Contents() == Load(dev.pf, dev.image)
    {
      hide Slice, Get4, Array, Header, Laid;
      var p, pArr := ReadTable(dev, Primary);
      var s, sArr := ReadTable(dev, Secondary);
      FirstChecksums(dev.pf, dev.image);
      var size := HeaderSize(p[..]);
      hdrCrc, hdrBakCrc := dev.pf.crc(p[..][..size]), dev.pf.crc(s[..][..size]);
      hdr, hdrBak, pentryArr, pentryArrBak := p, s, pArr, sArr;
      pentryArrCrc, pentryArrBakCrc := Get4(p[..], PARTITION_CRC_OFFSET), Get4(s[..], PARTITION_CRC_OFFSET);
      isInitialized := GPT_DISK_INIT_MAGIC;
    }

    /** A header and the array that it describes. */
    method ReadTable(dev: BlockDevice, inst: Instance) returns (h: array<byte>, a: array<byte>)
      requires Laid(dev.pf, dev.image)
      ensures fresh(h) && fresh(a) && h != a
      ensures h[..] == Header(dev.pf, dev.image, inst) && a[..] == Array(dev.pf, dev.image, inst)
    {
      hide Get4, Get8;
      h := dev.ReadHeader(inst);
      a := new byte[ArraySize(h[..])];
      dev.Read(ArrayAt(dev.pf, h[..]), a);
    }

    method UpdateCrc(crc: Checksum) returns (r: int)
      requires Separate() && Readable(hdr[..]) && hdrBak.Length >= MIN_BLOCK && HeaderSize(hdr[..]) <= hdrBak.Length
      modifies this, hdr, hdrBak
      ensures hdr == old(hdr) && hdrBak == old(hdrBak)
      ensures pentryArr == old(pentryArr) && pentryArrBak == old(pentryArrBak)
      ensures isInitialized == old(isInitialized)
      ensures r == if isInitialized != GPT_DISK_INIT_MAGIC then -1 else 0
      ensures Contents() == if r == 0 then Updated(crc, old(Contents())) else old(Contents())
    {
      if isInitialized != GPT_DISK_INIT_MAGIC {
        return -1;
      }
      var c, b := crc(pentryArr[..]), crc(pentryArrBak[..]);
      var hc, bc := ResealBoth(crc, hdr, hdrBak, c, b);
      pentryArrCrc, pentryArrBakCrc, hdrCrc, hdrBakCrc := c, b, hc, bc;
      r := 0;
    }

    method Commit(dev: BlockDevice) returns (r: int)
      requires Laid(dev.pf, dev.image) && hdr.Length == hdrBak.Length == dev.pf.blk
      requires Writable(dev.pf, dev.image, hdr[..], pentryArr[..])
      requires Writable(dev.pf, dev.image, hdrBak[..], pentryArrBak[..])
      modifies dev
      ensures isInitialized != GPT_DISK_INIT_MAGIC ==> r == -1 && dev.image == old(dev.image)
      ensures isInitialized == GPT_DISK_INIT_MAGIC ==>
        && dev.Went(old(dev.image), old(dev.writesLeft), CommitImages(dev.pf, old(dev.image), Contents()))
        && r == if old(dev.writesLeft) < 4 then -1 else 0
    {
      hide Get4, Get8, ArrayAt, ArraySize, Splice, RegionsFit;
      if isInitialized != GPT_DISK_INIT_MAGIC {
        return -1;
      }
      assert hdr[..dev.pf.blk] == hdr[..] && hdrBak[..dev.pf.blk] == hdrBak[..];
      var n, m := ArraySize(hdr[..]), ArraySize(hdrBak[..]);
      assert pentryArr[..n] == pentryArr[..][..n] && pentryArrBak[..m] == pentryArrBak[..][..m];
      r := dev.Write(HeaderAt(dev.pf, dev.image, Primary), hdr, dev.pf.blk);
      if r != 0 {
        return;
      }
      r := dev.Write(ArrayAt(dev.pf, hdr[..]), pentryArr, n);
      if r != 0 {
        return;
      }
      r := dev.Write(HeaderAt(dev.pf, dev.image, Secondary), hdrBak, dev.pf.blk);
      if r != 0 {
        return;
      }
      r := dev.Write(ArrayAt(dev.pf, hdrBak[..]), pentryArrBak, m);
    }
  }

  lemma KeepsHeaderSize(h: seq<byte>, c: word)
    requires |h| >= MIN_BLOCK
    ensures HeaderSize(Put4(h, PARTITION_CRC_OFFSET, c)) == HeaderSize(h)
  {
  }

  /** Stores the array checksums, then seals both headers over the primary's header size. */
  method ResealBoth(crc: Checksum, hdr: array<byte>, bak: array<byte>, c: word, b: word) returns (hc: word, bc: word)
    requires hdr != bak && Readable(hdr[..]) && bak.Length >= MIN_BLOCK && HeaderSize(hdr[..]) <= bak.Length
    modifies hdr, bak
    ensures hdr[..] == SealedOver(crc, Put4(old(hdr[..]), PARTITION_CRC_OFFSET, c), HeaderSize(old(hdr[..])))
    ensures bak[..] == SealedOver(crc, Put4(old(bak[..]), PARTITION_CRC_OFFSET, b), HeaderSize(old(hdr[..])))
    ensures hc == Get4(hdr[..], HEADER_CRC_OFFSET) && bc == Get4(bak[..], HEADER_CRC_OFFSET)
  {
    EditsStayReadable(hdr[..], true, c);
    KeepsHeaderSize(hdr[..], c);
    hide Put4, Get4, SealedOver;
    PutWord(hdr, PARTITION_CRC_OFFSET, c);
    PutWord(bak, PARTITION_CRC_OFFSET, b);
    var size := HeaderSize(hdr[..]);
    hc := SealOver(crc, hdr, size);
    bc := SealOver(crc, bak, size);
  }

  /** Clears the checksum field, takes the checksum over the given size, and stores it. */
  method SealOver(crc: Checksum, buf: array<byte>, size: nat) returns (c: word)
    requires buf.Length >= MIN_BLOCK && size <= buf.Length
    modifies buf
    ensures buf[..] == SealedOver(crc, old(buf[..]), size)
    ensures c == Get4(buf[..], HEADER_CRC_OFFSET)
  {
    ghost var h := buf[..];
    PutWord(buf, HEADER_CRC_OFFSET, 0);
    c := crc(buf[..size]);
    assert buf[..size] == buf[..][..size];
    PutPut(h, HEADER_CRC_OFFSET, 0, c);
    GetPut(h, HEADER_CRC_OFFSET, c);
    hide Put4, Get4;
    PutWord(buf, HEADER_CRC_OFFSET, c);
  }
}
