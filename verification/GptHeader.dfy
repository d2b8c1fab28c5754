/** Bytes of a GPT header: the little-endian fields, the checksum field that lies inside the bytes
    it covers, and the two header states that the update protocol writes (UEFI section 5.3.2). */
module GptHeader {
  import opened Common

  type word = x: int | 0 <= x < 0x1_0000_0000

  /** CRC-32 belongs to zlib; every result below holds for any function of the covered bytes. */
  type Checksum = seq<byte> -> word

  const HEADER_SIZE_OFFSET := 12
  const HEADER_CRC_OFFSET := 16
  const PENTRIES_OFFSET := 72
  const PARTITION_COUNT_OFFSET := 80
  const PENTRY_SIZE_OFFSET := 84
  const PARTITION_CRC_OFFSET := 88
  const MIN_BLOCK := 92

  /** The signature literal is compared and copied with its terminating NUL, so nine bytes. */
  const GPT_SIGNATURE: seq<byte> := [0x45, 0x46, 0x49, 0x20, 0x50, 0x41, 0x52, 0x54, 0]

  datatype GptState = Ok | BadSignature | BadCrc

  /** b with the bytes at position `at` overwritten by c. */
  function Splice(b: seq<byte>, at: nat, c: seq<byte>): (r: seq<byte>)
    requires at + |c| <= |b|
    ensures |r| == |b|
  {
    b[..at] + c + b[at + |c|..]
  }

  // ---------- little-endian fields

  function Get4(b: seq<byte>, p: nat): (w: word)
    requires p + 4 <= |b|
  {
    b[p] as int + 256 * (b[p + 1] as int + 256 * (b[p + 2] as int + 256 * b[p + 3] as int))
  }

  function Get8(b: seq<byte>, p: nat): nat
    requires p + 8 <= |b|
  {
    Get4(b, p) + 0x1_0000_0000 * Get4(b, p + 4)
  }

  function Put4(b: seq<byte>, p: nat, w: word): (r: seq<byte>)
    requires p + 4 <= |b|
    ensures |r| == |b|
    ensures forall i :: 0 <= i < |b| && !(p <= i < p + 4) ==> r[i] == b[i]
  {
    b[p := w % 256][p + 1 := w / 256 % 256][p + 2 := w / 256 / 256 % 256][p + 3 := w / 256 / 256 / 256]
  }

  lemma GetPut(b: seq<byte>, p: nat, w: word)
    requires p + 4 <= |b|
    ensures Get4(Put4(b, p, w), p) == w
  {
    var r := Put4(b, p, w);
    assert r[p + 3] == w / 256 / 256 / 256 && r[p + 2] == w / 256 / 256 % 256;
  }

  lemma PutGet(b: seq<byte>, p: nat)
    requires p + 4 <= |b|
    ensures Put4(b, p, Get4(b, p)) == b
  {
    var c := b[p + 2] as int + 256 * b[p + 3] as int;
    LowDigit(b[p], b[p + 1] as int + 256 * c);
    LowDigit(b[p + 1], c);
    LowDigit(b[p + 2], b[p + 3]);
  }

  lemma LowDigit(a: byte, x: int)
    ensures (a as int + 256 * x) % 256 == a && (a as int + 256 * x) / 256 == x
  {
  }

  lemma PutPut(b: seq<byte>, p: nat, v: word, w: word)
    requires p + 4 <= |b|
    ensures Put4(Put4(b, p, v), p, w) == Put4(b, p, w)
  {
  }

  // ---------- the checksum of a header and its state

  ghost predicate Readable(h: seq<byte>) {
    |h| >= MIN_BLOCK && HeaderSize(h) <= |h|
  }

  function HeaderSize(h: seq<byte>): word
    requires |h| >= MIN_BLOCK
  {
    Get4(h, HEADER_SIZE_OFFSET)
  }

  /** The header checksum is taken with its own field cleared. */
  function HeaderCrc(crc: Checksum, h: seq<byte>): word
    requires Readable(h)
  {
    crc(Put4(h, HEADER_CRC_OFFSET, 0)[..HeaderSize(h)])
  }

  function Sealed(crc: Checksum, h: seq<byte>): (r: seq<byte>)
    requires Readable(h)
    ensures |r| == |h|
  {
    Put4(h, HEADER_CRC_OFFSET, HeaderCrc(crc, h))
  }

  function HeaderState(crc: Checksum, h: seq<byte>): GptState
    requires Readable(h)
  {
    if HeaderCrc(crc, h) != Get4(h, HEADER_CRC_OFFSET) then BadCrc
    else if h[..9] != GPT_SIGNATURE then BadSignature
    else Ok
  }

  /** The signature edit of gpt_set_state: restore all nine bytes, or clear just the first. */
  function Marked(h: seq<byte>, good: bool): (r: seq<byte>)
    requires |h| >= MIN_BLOCK
    ensures |r| == |h|
    ensures forall i :: 9 <= i < |h| ==> r[i] == h[i]
  {
    if good then GPT_SIGNATURE + h[9..] else h[0 := 0]
  }

  function WithSignature(crc: Checksum, h: seq<byte>, good: bool): (r: seq<byte>)
    requires Readable(h)
    ensures |r| == |h|
  {
    Sealed(crc, Marked(h, good))
  }

  /** What the entry-array update does to a header: new array checksum, then reseal. */
  function WithArrayCrc(crc: Checksum, h: seq<byte>, c: word): (r: seq<byte>)
    requires Readable(h)
    ensures |r| == |h|
  {
    Sealed(crc, Put4(h, PARTITION_CRC_OFFSET, c))
  }

  ghost predicate SameGeometry(g: seq<byte>, h: seq<byte>)
    requires |g| >= MIN_BLOCK && |h| >= MIN_BLOCK
  {
    && HeaderSize(g) == HeaderSize(h)
    && Get8(g, PENTRIES_OFFSET) == Get8(h, PENTRIES_OFFSET)
    && Get4(g, PARTITION_COUNT_OFFSET) == Get4(h, PARTITION_COUNT_OFFSET)
    && Get4(g, PENTRY_SIZE_OFFSET) == Get4(h, PENTRY_SIZE_OFFSET)
  }

  /** No header edit of the update touches a field that says where the table lies. */
  lemma EditsKeepGeometry(crc: Checksum, h: seq<byte>, good: bool, c: word)
    requires Readable(h)
    ensures SameGeometry(WithSignature(crc, h, good), h) && SameGeometry(WithArrayCrc(crc, h, c), h)
  {
  }

  lemma EditsStayReadable(h: seq<byte>, good: bool, c: word)
    requires Readable(h)
    ensures Readable(Marked(h, good)) && Readable(Put4(h, PARTITION_CRC_OFFSET, c))
  {
  }

  // ---------- laws of the header edits

  /** Two headers that differ only in the checksum field are sealed to the same bytes. */
  lemma SealIgnoresOldCrc(crc: Checksum, h: seq<byte>, g: seq<byte>)
    requires Readable(h) && |g| == |h|
    requires forall i :: 0 <= i < |h| && !(16 <= i < 20) ==> g[i] == h[i]
    ensures Readable(g) && Sealed(crc, g) == Sealed(crc, h)
  {
    assert Put4(g, HEADER_CRC_OFFSET, 0) == Put4(h, HEADER_CRC_OFFSET, 0);
    assert forall w: word :: Put4(g, HEADER_CRC_OFFSET, w) == Put4(h, HEADER_CRC_OFFSET, w);
  }

  /** Sealing makes the header checksum right whatever the other bytes are. */
  lemma SealedIsNotBadCrc(crc: Checksum, h: seq<byte>)
    requires Readable(h)
    ensures Readable(Sealed(crc, h))
    ensures HeaderState(crc, Sealed(crc, h)) == if h[..9] == GPT_SIGNATURE then Ok else BadSignature
  {
    var s := Sealed(crc, h);
    PutPut(h, HEADER_CRC_OFFSET, HeaderCrc(crc, h), 0);
    GetPut(h, HEADER_CRC_OFFSET, HeaderCrc(crc, h));
    assert s[..9] == h[..9];
  }

  /** A header whose checksum is right is a fixed point of sealing. */
  lemma SealingAGoodHeader(crc: Checksum, h: seq<byte>)
    requires Readable(h)
    ensures HeaderState(crc, h) != BadCrc <==> Sealed(crc, h) == h
  {
    PutGet(h, HEADER_CRC_OFFSET);
    GetPut(h, HEADER_CRC_OFFSET, HeaderCrc(crc, h));
  }

  /** gpt_set_state followed by gpt_get_state reads the state that was set. */
  lemma SetThenGetState(crc: Checksum, h: seq<byte>, good: bool)
    requires Readable(h)
    ensures Readable(WithSignature(crc, h, good))
    ensures HeaderState(crc, WithSignature(crc, h, good)) == if good then Ok else BadSignature
  {
    var m := Marked(h, good);
    assert m[..9] == GPT_SIGNATURE <==> good by {
      if !good { assert m[..9][0] == 0; }
    }
    SealedIsNotBadCrc(crc, m);
  }

  /** Corrupting the signature and repairing it restores the header byte for byte exactly when the
      header was valid to begin with. */
  lemma RepairUndoesCorruptionIffValid(crc: Checksum, h: seq<byte>)
    requires Readable(h)
    ensures Readable(WithSignature(crc, h, false))
    ensures WithSignature(crc, WithSignature(crc, h, false), true) == h <==> HeaderState(crc, h) == Ok
  {
    var bad := WithSignature(crc, h, false);
    SetThenGetState(crc, bad, true);
    if HeaderState(crc, h) == Ok {
      SealIgnoresOldCrc(crc, h, Marked(bad, true));
      SealingAGoodHeader(crc, h);
    }
  }

  // ---------- canonical headers: the only headers an update ever writes

  /** h with array checksum c, a good or a cleared signature, and a fresh seal. */
  function Canon(crc: Checksum, h: seq<byte>, c: word, good: bool): (r: seq<byte>)
    requires Readable(h)
    ensures |r| == |h|
  {
    Sealed(crc, Marked(Put4(h, PARTITION_CRC_OFFSET, c), good))
  }

  /** Everything but the signature and the two checksums is kept, and the state is as marked. */
  lemma CanonFacts(crc: Checksum, h: seq<byte>, c: word, good: bool)
    requires Readable(h)
    ensures var r := Canon(crc, h, c, good);
            && Readable(r)
            && HeaderState(crc, r) == (if good then Ok else BadSignature)
            && Get4(r, PARTITION_CRC_OFFSET) == c
            && SameGeometry(r, h)
  {
    var p := Put4(h, PARTITION_CRC_OFFSET, c);
    SetThenGetState(crc, p, good);
    GetPut(h, PARTITION_CRC_OFFSET, c);
  }

  lemma CanonOfValid(crc: Checksum, h: seq<byte>)
    requires Readable(h) && HeaderState(crc, h) == Ok
    ensures Canon(crc, h, Get4(h, PARTITION_CRC_OFFSET), true) == h
  {
    PutGet(h, PARTITION_CRC_OFFSET);
    assert Marked(h, true) == h;
    SealingAGoodHeader(crc, h);
  }

  /** Setting a state on a canonical header changes only its mark. */
  lemma CanonMarked(crc: Checksum, h: seq<byte>, c: word, good: bool, good': bool)
    requires Readable(h) && h[..9] == GPT_SIGNATURE
    ensures Readable(Canon(crc, h, c, good))
    ensures WithSignature(crc, Canon(crc, h, c, good), good') == Canon(crc, h, c, good')
  {
    CanonFacts(crc, h, c, good);
    var p := Put4(h, PARTITION_CRC_OFFSET, c);
    SealIgnoresOldCrc(crc, Marked(p, good'), Marked(Canon(crc, h, c, good), good'));
  }

  /** Rewriting the array checksum of a canonical header changes only that checksum. */
  lemma CanonArrayCrc(crc: Checksum, h: seq<byte>, c: word, c': word, good: bool)
    requires Readable(h)
    ensures Readable(Canon(crc, h, c, good))
    ensures WithArrayCrc(crc, Canon(crc, h, c, good), c') == Canon(crc, h, c', good)
  {
    CanonFacts(crc, h, c, good);
    var q := Marked(Put4(h, PARTITION_CRC_OFFSET, c'), good);
    var g := Put4(Canon(crc, h, c, good), PARTITION_CRC_OFFSET, c');
    assert forall i :: 88 <= i < 92 ==> g[i] == q[i];
    SealIgnoresOldCrc(crc, q, g);
  }

  // ---------- the header edits in place, as the program makes them on its block buffer

  method PutWord(buf: array<byte>, p: nat, w: word)
    requires p + 4 <= buf.Length
    modifies buf
    ensures buf[..] == Put4(old(buf[..]), p, w)
  {
    buf[p] := w % 256;
    buf[p + 1] := w / 256 % 256;
    buf[p + 2] := w / 256 / 256 % 256;
    buf[p + 3] := w / 256 / 256 / 256;
  }

  method SealHeader(crc: Checksum, buf: array<byte>)
    requires Readable(buf[..])
    modifies buf
    ensures buf[..] == Sealed(crc, old(buf[..]))
  {
    var size := Get4(buf[..], HEADER_SIZE_OFFSET);
    PutWord(buf, HEADER_CRC_OFFSET, 0);
    var c := crc(buf[..size]);
    assert buf[..size] == buf[..][..size];
    PutWord(buf, HEADER_CRC_OFFSET, c);
    PutPut(old(buf[..]), HEADER_CRC_OFFSET, 0, c);
  }

  method MarkHeader(buf: array<byte>, good: bool)
    requires buf.Length >= MIN_BLOCK
    modifies buf
    ensures buf[..] == Marked(old(buf[..]), good)
  {
    if good {
      for i := 0 to 9
        invariant forall k :: 0 <= k < i ==> buf[k] == GPT_SIGNATURE[k]
        invariant forall k :: i <= k < buf.Length ==> buf[k] == old(buf[k])
      {
        buf[i] := GPT_SIGNATURE[i];
      }
    } else {
      buf[0] := 0;
    }
  }

  /** The edit of gpt_set_state on the block buffer. */
  method SetSignature(crc: Checksum, buf: array<byte>, good: bool)
    requires Readable(buf[..])
    modifies buf
    ensures buf[..] == WithSignature(crc, old(buf[..]), good)
  {
    EditsStayReadable(buf[..], good, 0);
    hide Marked, Sealed, Get4;
    MarkHeader(buf, good);
    SealHeader(crc, buf);
  }

  /** The edit of gpt2_set_boot_chain on the block buffer. */
  method SetArrayChecksum(crc: Checksum, buf: array<byte>, c: word)
    requires Readable(buf[..])
    modifies buf
    ensures buf[..] == WithArrayCrc(crc, old(buf[..]), c)
  {
    EditsStayReadable(buf[..], true, c);
    hide Put4, Sealed, Get4;
    PutWord(buf, PARTITION_CRC_OFFSET, c);
    SealHeader(crc, buf);
  }
}
