/** The header functions read byte by byte, at the places section 5.3.2 of the UEFI specification gives. */
module HeaderBytes {
  import opened Common
  import opened GptHeader
  import opened GptDisk

  /** The number some bytes stand for, the low byte first. */
  function Number(bs: seq<byte>): nat {
    if bs == [] then 0 else bs[0] + 256 * Number(bs[1..])
  }

  lemma Unfold4(b: seq<byte>)
    requires |b| >= 4
    ensures Number(b) == b[0] + 256 * (b[1] + 256 * (b[2] + 256 * (b[3] + 256 * Number(b[4..]))))
  {
    assert b[1..][1..] == b[2..] && b[2..][1..] == b[3..] && b[3..][1..] == b[4..];
  }

  lemma Number4(h: seq<byte>, p: nat)
    requires p + 4 <= |h|
    ensures Number(h[p..p + 4]) == Get4(h, p)
  {
    Unfold4(h[p..p + 4]);
  }

  lemma Number8(h: seq<byte>, p: nat)
    requires p + 8 <= |h|
    ensures Number(h[p..p + 8]) == Get8(h, p)
  {
    var b := h[p..p + 8];
    Unfold4(b);
    Number4(h, p);
    Unfold4(b[..4]);
    Number4(h, p + 4);
    assert b[4..] == h[p + 4..p + 8];
    assert b[..4] == h[p..p + 4] && Number(b[..4][4..]) == 0;
    hide Get4;
  }

  /** The bytes the header checksum covers: as many as bytes 12 to 15 say, with its own four taken as 0. */
  predicate Covered(h: seq<byte>, v: seq<byte>)
    requires |h| >= 92
  {
    && |v| == Number(h[12..16]) <= |h|
    && forall i :: 0 <= i < |v| ==> v[i] == if 16 <= i < 20 then 0 else h[i]
  }

  /** A header is good if bytes 16 to 19 hold the checksum of what it covers and it begins with "EFI PART" and
      a ninth byte of 0; with a wrong checksum the beginning does not matter. */
  lemma StateMeans(crc: Checksum, h: seq<byte>, v: seq<byte>)
    requires |h| >= 92 && Covered(h, v)
    ensures Readable(h)
    ensures HeaderState(crc, h) == if Number(h[16..20]) != crc(v) then BadCrc
                                   else if h[..9] != ['E' as int, 'F' as int, 'I' as int, ' ' as int,
                                                      'P' as int, 'A' as int, 'R' as int, 'T' as int, 0]
                                   then BadSignature else Ok
  {
    Number4(h, 12);
    Number4(h, 16);
    assert Put4(h, 16, 0)[..HeaderSize(h)] == v;
    hide Get4;
  }

  /** Setting a state writes the signature or a 0 in its first place, and a right checksum; no other byte
      changes. */
  lemma SetStateBytes(crc: Checksum, h: seq<byte>, good: bool, i: nat)
    requires Readable(h) && i < |h|
    ensures var r := WithSignature(crc, h, good);
            && Readable(r) && HeaderState(crc, r) != BadCrc
            && (!(16 <= i < 20) ==>
                  r[i] == if good && i < 9 then [69, 70, 73, 32, 80, 65, 82, 84, 0][i]
                          else if !good && i == 0 then 0 else h[i])
  {
    SetThenGetState(crc, h, good);
    hide HeaderCrc, Get4, HeaderState;
  }

  /** Recording an array checksum writes it to bytes 88 to 91, and a right header checksum; no other byte
      changes. */
  lemma ArrayCrcBytes(crc: Checksum, h: seq<byte>, c: word, i: nat)
    requires Readable(h) && i < |h|
    ensures var r := WithArrayCrc(crc, h, c);
            && Readable(r) && HeaderState(crc, r) != BadCrc && Number(r[88..92]) == c
            && (!(16 <= i < 20) && !(88 <= i < 92) ==> r[i] == h[i])
  {
    EditsStayReadable(h, true, c);
    var p := Put4(h, PARTITION_CRC_OFFSET, c);
    SealedIsNotBadCrc(crc, p);
    GetPut(h, PARTITION_CRC_OFFSET, c);
    Number4(WithArrayCrc(crc, h, c), 88);
    hide HeaderCrc, HeaderState;
  }

  /** The primary header fills the second block of the disk and the secondary the last. Bytes 72 to 79 of a
      header give the first block of its array, and its size is the product of two fields, in 64 and 32 bits;
      both arrays are taken to have the size that the primary gives. */
  lemma TablesLie(pf: Platform, d: Image, inst: Instance)
    requires Laid(pf, d)
    ensures var h := if inst.Primary? then d[pf.blk..2 * pf.blk] else d[|d| - pf.blk..];
            var p := d[pf.blk..2 * pf.blk];
            var at, n := Number(h[72..80]) * pf.blk % 0x1_0000_0000_0000_0000,
                         Number(p[80..84]) * Number(p[84..88]) % 0x1_0000_0000;
            && Header(pf, d, inst) == h && at + n <= |d| && Array(pf, d, inst) == d[at..at + n]
            && Number(p[84..88]) == 128
  {
    var p := Header(pf, d, Primary);
    Number8(Header(pf, d, inst), 72);
    Number4(p, 80);
    Number4(p, 84);
    hide Get4, Get8;
  }
}
