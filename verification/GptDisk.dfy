/** The disk that holds two partition tables: where the headers and entry arrays lie, what makes a
    table valid, and what one stage of the failsafe update writes. */
module GptDisk {
  import opened Common
  import opened GptHeader
  import opened BootChain

  /** Block size, checksum, device family and swap list; fixed while an update runs. */
  datatype Platform = Platform(blk: nat, crc: Checksum, ufs: bool, names: seq<string>)

  datatype Instance = Primary | Secondary

  type Image = seq<byte>

  function Slice(d: Image, at: nat, n: nat): (s: seq<byte>)
    requires at + n <= |d|
    ensures |s| == n
  {
    d[at..at + n]
  }

  predicate Apart(a: nat, n: nat, b: nat, m: nat) {
    a + n <= b || b + m <= a
  }

  lemma SliceOfSplice(d: Image, at: nat, c: seq<byte>, q: nat, m: nat)
    requires at + |c| <= |d| && q + m <= |d|
    ensures Apart(at, |c|, q, m) ==> Slice(Splice(d, at, c), q, m) == Slice(d, q, m)
    ensures Slice(Splice(d, at, c), at, |c|) == c
  {
  }

  lemma OutsideSplice(d: Image, at: nat, c: seq<byte>)
    requires at + |c| <= |d|
    ensures forall k :: 0 <= k < |d| && !(at <= k < at + |c|) ==> Splice(d, at, c)[k] == d[k]
  {
  }

  // ---------- layout

  function HeaderAt(pf: Platform, d: Image, inst: Instance): nat
    requires 3 * pf.blk <= |d|
  {
    if inst.Primary? then pf.blk else |d| - pf.blk
  }

  function Header(pf: Platform, d: Image, inst: Instance): (h: seq<byte>)
    requires 3 * pf.blk <= |d|
    ensures |h| == pf.blk
  {
    Slice(d, HeaderAt(pf, d, inst), pf.blk)
  }

  /** The byte offset and size of a header's entry array, in the program's 64- and 32-bit arithmetic. */
  function ArrayAt(pf: Platform, h: seq<byte>): nat
    requires |h| >= MIN_BLOCK
  {
    Get8(h, PENTRIES_OFFSET) * pf.blk % 0x1_0000_0000_0000_0000
  }

  function ArraySize(h: seq<byte>): nat
    requires |h| >= MIN_BLOCK
  {
    Get4(h, PARTITION_COUNT_OFFSET) * Get4(h, PENTRY_SIZE_OFFSET) % 0x1_0000_0000
  }

  /** Both headers fit their block, agree on the size of the array, and the four regions of the two
      tables lie on the disk without overlapping. */
  ghost predicate Laid(pf: Platform, d: Image) {
    && MIN_BLOCK <= pf.blk && 3 * pf.blk <= |d|
    && var p, s := Header(pf, d, Primary), Header(pf, d, Secondary);
    && HeaderSize(p) <= pf.blk && HeaderSize(s) <= pf.blk
    && Get4(p, PENTRY_SIZE_OFFSET) == PTN_ENTRY_SIZE
    && ArraySize(p) == ArraySize(s)
    && RegionsFit(pf, d, ArrayAt(pf, p), ArrayAt(pf, s), ArraySize(p))
  }

  ghost predicate RegionsFit(pf: Platform, d: Image, pa: nat, sa: nat, n: nat)
    requires 3 * pf.blk <= |d|
  {
    && pa + n <= |d| && sa + n <= |d| && Apart(pa, n, sa, n)
    && Apart(pf.blk, pf.blk, pa, n) && Apart(|d| - pf.blk, pf.blk, pa, n)
    && Apart(pf.blk, pf.blk, sa, n) && Apart(|d| - pf.blk, pf.blk, sa, n)
  }

  function Array(pf: Platform, d: Image, inst: Instance): (a: seq<byte>)
    requires Laid(pf, d)
    ensures |a| == ArraySize(Header(pf, d, Primary))
  {
    Slice(d, ArrayAt(pf, Header(pf, d, inst)), ArraySize(Header(pf, d, Primary)))
  }

  lemma WholeEntries(pf: Platform, d: Image)
    requires Laid(pf, d)
    ensures ArraySize(Header(pf, d, Primary)) % PTN_ENTRY_SIZE == 0
  {
    hide Get4;
    var x := Get4(Header(pf, d, Primary), PARTITION_COUNT_OFFSET) as int;
    Multiples(x, x * 128 / 0x1_0000_0000);
  }

  lemma Multiples(x: int, q: int)
    requires q == x * 128 / 0x1_0000_0000
    ensures x * 128 % 0x1_0000_0000 % 128 == 0
  {
    assert x * 128 % 0x1_0000_0000 == 128 * (x - 0x200_0000 * q);
  }

  /** Signature, header checksum and entry-array checksum all right. */
  ghost predicate TableValid(pf: Platform, d: Image, inst: Instance)
    requires Laid(pf, d)
  {
    var h := Header(pf, d, inst);
    HeaderState(pf.crc, h) == Ok && pf.crc(Array(pf, d, inst)) == Get4(h, PARTITION_CRC_OFFSET)
  }

  lemma GeometryOf(pf: Platform, g: seq<byte>, h: seq<byte>)
    requires |g| >= MIN_BLOCK && |h| >= MIN_BLOCK && SameGeometry(g, h)
    ensures ArrayAt(pf, g) == ArrayAt(pf, h) && ArraySize(g) == ArraySize(h)
  {
  }

  /** Overwriting a header with one of the same geometry disturbs nothing else. */
  lemma HeaderWrite(pf: Platform, d: Image, inst: Instance, h: seq<byte>)
    requires Laid(pf, d) && |h| == pf.blk && SameGeometry(h, Header(pf, d, inst))
    ensures var d' := Splice(d, HeaderAt(pf, d, inst), h);
            && Laid(pf, d')
            && (forall i :: Header(pf, d', i) == if i == inst then h else Header(pf, d, i))
            && (forall i :: Array(pf, d', i) == Array(pf, d, i))
  {
    hide Get4, Get8, Splice, ArrayAt, ArraySize;
    var at := HeaderAt(pf, d, inst);
    var p, s := Header(pf, d, Primary), Header(pf, d, Secondary);
    GeometryOf(pf, h, Header(pf, d, inst));
    hide Slice;
    SliceOfSplice(d, at, h, pf.blk, pf.blk);
    SliceOfSplice(d, at, h, |d| - pf.blk, pf.blk);
    SliceOfSplice(d, at, h, ArrayAt(pf, p), ArraySize(p));
    SliceOfSplice(d, at, h, ArrayAt(pf, s), ArraySize(p));
  }

  /** Overwriting an entry array disturbs nothing else. */
  lemma ArrayWrite(pf: Platform, d: Image, inst: Instance, a: seq<byte>)
    requires Laid(pf, d) && |a| == ArraySize(Header(pf, d, Primary))
    ensures var d' := Splice(d, ArrayAt(pf, Header(pf, d, inst)), a);
            && Laid(pf, d')
            && (forall i :: Header(pf, d', i) == Header(pf, d, i))
            && (forall i :: Array(pf, d', i) == if i == inst then a else Array(pf, d, i))
  {
    hide Get4, Get8, Splice, Slice, ArrayAt, ArraySize;
    var at := ArrayAt(pf, Header(pf, d, inst));
    var p, s := Header(pf, d, Primary), Header(pf, d, Secondary);
    SliceOfSplice(d, at, a, pf.blk, pf.blk);
    SliceOfSplice(d, at, a, |d| - pf.blk, pf.blk);
    SliceOfSplice(d, at, a, ArrayAt(pf, p), ArraySize(p));
    SliceOfSplice(d, at, a, ArrayAt(pf, s), ArraySize(p));
  }

  /** What the program sees of a disk. */
  ghost predicate Sees(pf: Platform, d: Image, hdr: seq<byte>, arr: seq<byte>, bak: seq<byte>, arrBak: seq<byte>) {
    && Laid(pf, d)
    && Header(pf, d, Primary) == hdr && Array(pf, d, Primary) == arr
    && Header(pf, d, Secondary) == bak && Array(pf, d, Secondary) == arrBak
  }
}
