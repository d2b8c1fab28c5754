/** Decoding an address of packed decimal digits, the semi-octet form of section 9.1.2.3 of 3GPP TS 23.040. */
module Address {
  import opened Common

  type digit = d: int | 0 <= d < 10

  const ADDR_PREFIX: byte := 0x91

  function Low(b: byte): (half: int)
    ensures 0 <= half < 16
  {
    b % 16
  }

  function High(b: byte): (half: int)
    ensures 0 <= half < 16
  {
    b / 16
  }

  function Char(d: digit): char {
    '0' + d as char
  }

  function Octet(high: int, low: int): (b: byte)
    requires 0 <= high < 16 && 0 <= low < 16
    ensures High(b) == high && Low(b) == low
  {
    high * 16 + low
  }

  /** Two digits to the octet, the first in the low half; an odd last digit is joined by the filler. */
  function Pack(digits: seq<digit>, filler: int): seq<byte>
    requires 10 <= filler < 16
  {
    if digits == [] then []
    else if |digits| == 1 then [Octet(filler, digits[0])]
    else [Octet(digits[1], digits[0])] + Pack(digits[2..], filler)
  }

  /** The digits among the halves of the octets, in order. */
  function Unpack(data: seq<byte>): seq<char> {
    if data == [] then []
    else Halves(data[0]) + Unpack(data[1..])
  }

  function Halves(b: byte): seq<char> {
    Half(Low(b)) + Half(High(b))
  }

  function Half(half: int): seq<char>
  {
    if 0 <= half <= 9 then [Char(half)] else []
  }

  function Text(digits: seq<digit>): seq<char> {
    seq(|digits|, i requires 0 <= i < |digits| => Char(digits[i]))
  }

  /** The beginning of a sequence, of no more than n elements. */
  function Truncated<T>(s: seq<T>, n: nat): (r: seq<T>)
    ensures |r| <= |s| && r == s[..|r|] && |r| <= n && (|r| < n ==> r == s)
  {
    if |s| <= n then s else s[..n]
  }

  lemma FirstOctet(data: seq<byte>)
    requires data != []
    ensures Unpack(data) == Halves(data[0]) + Unpack(data[1..])
  {
  }

  lemma {:induction false} UnpackSnoc(data: seq<byte>, b: byte)
    ensures Unpack(data + [b]) == Unpack(data) + Halves(b)
  {
    if data == [] {
      assert data + [b] == [b];
      FirstOctet([b]);
      assert Unpack([]) == [];
    } else {
      hide Halves, Unpack;
      UnpackSnoc(data[1..], b);
      assert (data + [b])[0] == data[0] && (data + [b])[1..] == data[1..] + [b];
      FirstOctet(data);
      FirstOctet(data + [b]);
      Regrouped(Halves(data[0]), Unpack(data[1..]), Halves(b));
    }
  }

  /** Unpacking undoes packing, with any filler. */
  lemma {:induction false} UnpackPacked(digits: seq<digit>, filler: int)
    requires 10 <= filler < 16
    ensures Unpack(Pack(digits, filler)) == Text(digits)
  {
    if |digits| == 1 {
      assert Unpack(Pack(digits, filler)) == Halves(Octet(filler, digits[0])) + Unpack([]);
    } else if |digits| > 1 {
      UnpackPacked(digits[2..], filler);
      assert Pack(digits, filler)[1..] == Pack(digits[2..], filler);
      assert Text(digits) == [Char(digits[0]), Char(digits[1])] + Text(digits[2..]);
    }
  }

  /** The text an address decodes to, for a buffer of the given size. */
  function Decoded(data: seq<byte>, stringSize: nat): seq<char>
    requires data != [] && stringSize >= 1
  {
    if data[0] == ADDR_PREFIX then Truncated(Unpack(data[1..]), stringSize - 1) else []
  }

  /** Decoding what was packed gives the digits back, cut to what the buffer holds, after the prefix of
      international numbers and nothing after any other. */
  lemma DecodedPacked(prefix: byte, digits: seq<digit>, filler: int, stringSize: nat)
    requires 10 <= filler < 16 && stringSize >= 1
    ensures Decoded([prefix] + Pack(digits, filler), stringSize)
         == if prefix == 0x91 then Truncated(Text(digits), stringSize - 1) else []
  {
    UnpackPacked(digits, filler);
    assert ([prefix] + Pack(digits, filler))[1..] == Pack(digits, filler);
  }

  // ---------- octets that nobody packed

  /** Half octet k, low halves first. */
  function HalfAt(data: seq<byte>, k: nat): (half: int)
    requires k < 2 * |data|
    ensures 0 <= half < 16
  {
    if k % 2 == 0 then data[k / 2] % 16 else data[k / 2] / 16
  }

  /** How many of the first k half octets are digits. */
  function DigitsBefore(data: seq<byte>, k: nat): nat
    requires k <= 2 * |data|
  {
    if k == 0 then 0 else DigitsBefore(data, k - 1) + if HalfAt(data, k - 1) <= 9 then 1 else 0
  }

  /** Half octet k is unpacked as the digit it is, after those before it. */
  predicate InItsPlace(data: seq<byte>, k: nat)
    requires k < 2 * |data| && 0 <= HalfAt(data, k) <= 9
  {
    var n := DigitsBefore(data, k);
    n < |Unpack(data)| && Unpack(data)[n] == '0' + HalfAt(data, k) as char
  }

  lemma {:induction false} DigitsBeforePrefix(data: seq<byte>, b: byte, k: nat)
    requires k <= 2 * |data|
    ensures DigitsBefore(data + [b], k) == DigitsBefore(data, k)
    ensures k < 2 * |data| ==> HalfAt(data + [b], k) == HalfAt(data, k)
  {
    if k > 0 { DigitsBeforePrefix(data, b, k - 1); }
  }

  ghost predicate AllInPlace(data: seq<byte>) {
    forall k :: 0 <= k < 2 * |data| && HalfAt(data, k) <= 9 ==> InItsPlace(data, k)
  }

  /** Whatever the octets hold, every half that is a digit is unpacked, in its place, and nothing else is. */
  lemma {:induction false} UnpackedAt(data: seq<byte>)
    ensures |Unpack(data)| == DigitsBefore(data, 2 * |data|)
    ensures AllInPlace(data)
  {
    if data != [] {
      hide DigitsBefore, HalfAt, Unpack, AllInPlace;
      var front, b := data[..|data| - 1], data[|data| - 1];
      UnpackedAt(front);
      assert data == front + [b];
      LastOctet(front, b);
      AllStay(front, b);
    }
  }

  lemma AllStay(data: seq<byte>, b: byte)
    requires AllInPlace(data)
    requires var n, all := 2 * |data|, data + [b];
             && (HalfAt(all, n) <= 9 ==> InItsPlace(all, n))
             && (HalfAt(all, n + 1) <= 9 ==> InItsPlace(all, n + 1))
    ensures AllInPlace(data + [b])
  {
    var n, all := 2 * |data|, data + [b];
    hide HalfAt, InItsPlace;
    forall k | 0 <= k < 2 * |all| && HalfAt(all, k) <= 9 ensures InItsPlace(all, k) {
      if k < n { PlaceStays(data, b, k); } else { assert k == n || k == n + 1; }
    }
  }

  lemma PlaceStays(data: seq<byte>, b: byte, k: nat)
    requires k < 2 * |data|
    ensures HalfAt(data + [b], k) == HalfAt(data, k)
    ensures HalfAt(data, k) <= 9 && InItsPlace(data, k) ==> InItsPlace(data + [b], k)
  {
    hide Unpack;
    DigitsBeforePrefix(data, b, k);
    UnpackSnoc(data, b);
  }

  lemma LastOctet(data: seq<byte>, b: byte)
    requires |Unpack(data)| == DigitsBefore(data, 2 * |data|)
    ensures var n, all := 2 * |data|, data + [b];
            && |Unpack(all)| == DigitsBefore(all, n + 2)
            && (HalfAt(all, n) <= 9 ==> InItsPlace(all, n))
            && (HalfAt(all, n + 1) <= 9 ==> InItsPlace(all, n + 1))
  {
    var n, all := 2 * |data|, data + [b];
    DigitsBeforePrefix(data, b, n);
    UnpackSnoc(data, b);
    assert HalfAt(all, n) == b % 16 && HalfAt(all, n + 1) == b / 16;
    LastTwo(all, n);
    hide Unpack, DigitsBefore, HalfAt;
  }

  lemma LastTwo(data: seq<byte>, n: nat)
    requires n + 2 == 2 * |data|
    ensures var one := DigitsBefore(data, n) + if HalfAt(data, n) <= 9 then 1 else 0;
            && DigitsBefore(data, n + 1) == one
            && DigitsBefore(data, n + 2) == one + if HalfAt(data, n + 1) <= 9 then 1 else 0
  {
  }

  /** The buffer gets the decoded text and a terminator, and is otherwise left alone; the length given
      back is that of the text. */
  method DecodeAddress(addr: array?<char>, stringSize: int, data: array?<byte>, dataSize: int) returns (length: int)
    requires addr != null && data != null ==> 1 <= stringSize <= addr.Length && 1 <= dataSize <= data.Length
    modifies if addr != null then {addr} else {}
    ensures addr == null || data == null ==> length == 0 && (addr != null ==> addr[..] == old(addr[..]))
    ensures addr != null && data != null ==>
              var text := Decoded(data[..dataSize], stringSize);
              && length == |text| < addr.Length
              && addr[..] == text + ['\0'] + old(addr[..])[length + 1..]
  {
    if data == null || addr == null {
      return 0;
    }
    if data[0] != ADDR_PREFIX {
      addr[0] := '\0';
      return 0;
    }
    hide Truncated, Unpack;
    length := DecodeDigits(addr, stringSize, data[..dataSize]);
    addr[length] := '\0';
  }

  method DecodeDigits(addr: array<char>, stringSize: int, data: seq<byte>) returns (length: int)
    requires 1 <= stringSize <= addr.Length && data != []
    modifies addr
    ensures 0 <= length < stringSize && addr[..length] == Truncated(Unpack(data[1..]), stringSize - 1)
    ensures addr[length..] == old(addr[..])[length..]
  {
    hide Truncated, Half, Unpack, Low, High;
    length := 0;
    NothingYet(stringSize - 1);
    assert data[1..1] == [] && addr[..0] == [];
    for i := 1 to |data|
      invariant 0 <= length < stringSize
      invariant addr[..length] == Truncated(Unpack(data[1..i]), stringSize - 1)
      invariant addr[length..] == old(addr[..])[length..]
    {
      OneMore(data, i);
      ghost var text := Unpack(data[1..i]);
      length := PutHalf(addr, length, stringSize, Low(data[i]), text);
      length := PutHalf(addr, length, stringSize, High(data[i]), text + Half(Low(data[i])));
      assert addr[length..] == old(addr[..])[length..];
    }
    assert data[1..|data|] == data[1..];
  }

  lemma NothingYet(n: nat)
    ensures Truncated(Unpack([]), n) == []
  {
  }

  lemma OneMore(data: seq<byte>, i: nat)
    requires 1 <= i < |data|
    ensures Unpack(data[1..i + 1]) == Unpack(data[1..i]) + Half(Low(data[i])) + Half(High(data[i]))
  {
    UnpackSnoc(data[1..i], data[i]);
    assert data[1..i + 1] == data[1..i] + [data[i]];
  }

  /** One half of an octet is put down if it is a digit and there is room. */
  method PutHalf(addr: array<char>, length: nat, stringSize: nat, half: int, ghost text: seq<char>)
      returns (length': nat)
    requires length < stringSize <= addr.Length && half >= 0
    requires addr[..length] == Truncated(text, stringSize - 1)
    modifies addr
    ensures length <= length' < stringSize && addr[..length'] == Truncated(text + Half(half), stringSize - 1)
    ensures addr[length'..] == old(addr[..])[length'..]
  {
    length' := length;
    if half <= 9 && length < stringSize - 1 {
      addr[length] := Char(half);
      length' := length + 1;
      assert addr[..length'] == old(addr[..length]) + [Char(half)];
    }
  }
}
