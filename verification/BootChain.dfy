/** The boot-chain swap: within a partition entry array (UEFI section 5.3.3), the first two entries
    that carry a listed name, plain or with the "bak" suffix, trade places. */
module BootChain {
  import opened Common
  import opened GptHeader

  const PTN_ENTRY_SIZE := 128
  const PARTITION_NAME_OFFSET := 56
  const MAX_GPT_NAME_SIZE := 72

  type Entry = e: seq<byte> | |e| == PTN_ENTRY_SIZE witness seq(PTN_ENTRY_SIZE, _ => 0)

  // ---------- names

  /** The name buffer: every second byte of the UTF-16 name, then zeros to its full length. */
  function Name8(e: Entry): (n: seq<byte>)
    ensures |n| == MAX_GPT_NAME_SIZE
  {
    seq(MAX_GPT_NAME_SIZE, i requires 0 <= i < MAX_GPT_NAME_SIZE =>
      if i < MAX_GPT_NAME_SIZE / 2 then e[PARTITION_NAME_OFFSET + 2 * i] else 0)
  }

  predicate StartsWith(buf: seq<byte>, name: string) {
    |name| <= |buf| && forall i :: 0 <= i < |name| ==> buf[i] as int == name[i] as int
  }

  /** strncmp over the whole name, then either the end of the buffer's string or exactly "bak". */
  predicate NameMatches(name: string, n8: seq<byte>)
    requires |n8| == MAX_GPT_NAME_SIZE
  {
    && |name| <= MAX_GPT_NAME_SIZE / 2
    && StartsWith(n8, name)
    && (n8[|name|] == 0 || (StartsWith(n8[|name|..], "bak") && n8[|name| + 3] == 0))
  }

  predicate Matches(name: string, e: Entry) {
    NameMatches(name, Name8(e))
  }

  predicate NoNul(name: string) {
    forall i :: 0 <= i < |name| ==> name[i] != '\0'
  }

  predicate EndsInBak(name: string) {
    |name| >= 3 && name[|name| - 3] == 'b' && name[|name| - 2] == 'a' && name[|name| - 1] == 'k'
  }

  /** A C string that is not the backup name of another partition. */
  predicate PlainName(name: string) {
    NoNul(name) && !EndsInBak(name)
  }

  /** The partition name an entry carries: the characters before the buffer's first NUL. */
  function PartitionName(e: Entry): string { CString(Name8(e)) }

  function CString(b: seq<byte>): (c: string)
    ensures |c| <= |b| && (|c| < |b| ==> b[|c|] == 0)
    ensures forall i :: 0 <= i < |c| ==> c[i] as int == b[i] as int != 0
  {
    if b == [] || b[0] == 0 then "" else [b[0] as char] + CString(b[1..])
  }

  /** The name is in the entry's bytes, every second one from byte 56 on, and ends within its 36 characters. */
  predicate CarriesName(e: Entry, name: string) {
    && |name| <= 36 && (forall i :: 0 <= i < |name| ==> name[i] != '\0' && e[56 + 2 * i] == name[i] as int)
    && (|name| < 36 ==> e[56 + 2 * |name|] == 0)
  }

  lemma PartitionNameReads(e: Entry, name: string)
    ensures PartitionName(e) == name <==> CarriesName(e, name)
  {
    var n8, c := Name8(e), PartitionName(e);
    assert n8[36] == 0;
    assert |c| <= 36;
    if CarriesName(e, name) {
      assert forall i :: 0 <= i < |name| ==> n8[i] == name[i] as int != 0;
      assert n8[|name|] == 0;
      assert |c| == |name|;
    }
  }

  /** The two comparisons of the seek accept exactly the name itself and the name with "bak". */
  lemma MatchesMeans(name: string, e: Entry)
    requires NoNul(name)
    ensures Matches(name, e) <==> PartitionName(e) == name || PartitionName(e) == name + "bak"
  {
    var n8, c := Name8(e), PartitionName(e);
    assert n8[MAX_GPT_NAME_SIZE / 2] == 0;
    if Matches(name, e) {
      assert |c| >= |name|;
      assert c[..|name|] == name;
      if n8[|name|] != 0 {
        assert forall k :: 0 <= k < 3 ==> n8[|name|..][k] == n8[|name| + k];
        assert c[|name|..] == "bak";
        assert c == c[..|name|] + c[|name|..];
      } else {
        assert c == name;
      }
    }
    if c == name + "bak" {
      assert StartsWith(n8, name) && StartsWith(n8[|name|..], "bak");
    }
  }

  lemma PlainNamesAreIndependent(m: string, n: string, e: Entry)
    requires PlainName(m) && PlainName(n) && m != n
    ensures !(Matches(m, e) && Matches(n, e))
  {
    MatchesMeans(m, e);
    MatchesMeans(n, e);
    assert (m + "bak")[..|m|] == m && (n + "bak")[..|n|] == n;
  }

  // ---------- seeking and swapping on the array of entries

  /** The first slot at or after `from` that carries the name; the number of slots if none does. */
  function Seek(name: string, s: seq<Entry>, from: nat): (k: nat)
    requires from <= |s|
    ensures from <= k <= |s|
    ensures forall i :: from <= i < k ==> !Matches(name, s[i])
    ensures k < |s| ==> Matches(name, s[k])
    decreases |s| - from
  {
    if from == |s| || Matches(name, s[from]) then from else Seek(name, s, from + 1)
  }

  function First(name: string, s: seq<Entry>): nat { Seek(name, s, 0) }

  function Second(name: string, s: seq<Entry>): nat
    requires First(name, s) < |s|
  {
    Seek(name, s, First(name, s) + 1)
  }

  predicate HasPair(name: string, s: seq<Entry>) {
    First(name, s) < |s| && Second(name, s) < |s|
  }

  function SwapOne(name: string, s: seq<Entry>): (r: seq<Entry>)
    ensures |r| == |s|
  {
    if HasPair(name, s) then
      s[First(name, s) := s[Second(name, s)]][Second(name, s) := s[First(name, s)]]
    else s
  }

  /** On UFS devices the three boot-LUN families are left to the LUN switch, by prefix. */
  predicate Kept(ufs: bool, name: string) {
    !(ufs && ("xbl" <= name || "multiimgoem" <= name || "multiimgqti" <= name))
  }

  /** The array after the first k listed names have been processed in order. */
  function Pass(ufs: bool, names: seq<string>, k: nat, s: seq<Entry>): (r: seq<Entry>)
    requires k <= |names|
    ensures |r| == |s|
  {
    if k == 0 then s
    else if Kept(ufs, names[k - 1]) then SwapOne(names[k - 1], Pass(ufs, names, k - 1, s))
    else Pass(ufs, names, k - 1, s)
  }

  /** Whether that processing exchanged any pair. */
  predicate Found(ufs: bool, names: seq<string>, k: nat, s: seq<Entry>)
    requires k <= |names|
  {
    k > 0 &&
    (Found(ufs, names, k - 1, s) || (Kept(ufs, names[k - 1]) && HasPair(names[k - 1], Pass(ufs, names, k - 1, s))))
  }

  function Swapped(ufs: bool, names: seq<string>, s: seq<Entry>): (r: seq<Entry>)
    ensures |r| == |s|
  {
    Pass(ufs, names, |names|, s)
  }

  predicate SwapsSome(ufs: bool, names: seq<string>, s: seq<Entry>) {
    Found(ufs, names, |names|, s)
  }

  /** How often a name occurs among the first k listed names. */
  function Times(n: string, names: seq<string>, k: nat): nat
    requires k <= |names|
  {
    if k == 0 then 0 else Times(n, names, k - 1) + if names[k - 1] == n then 1 else 0
  }

  // ---------- what a pass does

  ghost predicate PlainList(names: seq<string>) {
    forall i :: 0 <= i < |names| ==> PlainName(names[i])
  }

  ghost predicate SameMatches(n: string, s: seq<Entry>, t: seq<Entry>) {
    |s| == |t| && forall k :: 0 <= k < |s| ==> (Matches(n, s[k]) <==> Matches(n, t[k]))
  }

  lemma SamePair(n: string, s: seq<Entry>, t: seq<Entry>)
    requires SameMatches(n, s, t)
    ensures First(n, s) == First(n, t)
    ensures First(n, s) < |s| ==> Second(n, s) == Second(n, t)
  {
  }

  /** Swapping one name's pair moves no entry of another name, and keeps every name's slots. */
  lemma SwapOneKeepsNames(l: string, n: string, s: seq<Entry>)
    requires PlainName(l) && PlainName(n)
    ensures SameMatches(n, s, SwapOne(l, s))
    ensures l != n ==> forall k :: 0 <= k < |s| && Matches(n, s[k]) ==> SwapOne(l, s)[k] == s[k]
  {
    if HasPair(l, s) && l != n {
      PlainNamesAreIndependent(l, n, s[First(l, s)]);
      PlainNamesAreIndependent(l, n, s[Second(l, s)]);
    }
  }

  lemma {:induction false} PassKeepsNames(ufs: bool, names: seq<string>, k: nat, n: string, s: seq<Entry>)
    requires PlainList(names) && PlainName(n) && k <= |names|
    ensures SameMatches(n, s, Pass(ufs, names, k, s))
  {
    hide Matches, Kept;
    if k > 0 {
      PassKeepsNames(ufs, names, k - 1, n, s);
      SwapOneKeepsNames(names[k - 1], n, Pass(ufs, names, k - 1, s));
    }
  }

  /** r holds n's pair of s exchanged, or in place. */
  ghost predicate PairIn(n: string, s: seq<Entry>, r: seq<Entry>, exchanged: bool)
    requires HasPair(n, s) && |r| == |s|
  {
    var i, j := First(n, s), Second(n, s);
    if exchanged then r[i] == s[j] && r[j] == s[i] else r[i] == s[i] && r[j] == s[j]
  }

  lemma SwapOneFlipsPair(l: string, n: string, s: seq<Entry>, t: seq<Entry>, exchanged: bool)
    requires PlainName(l) && PlainName(n) && HasPair(n, s) && SameMatches(n, s, t)
    requires PairIn(n, s, t, exchanged)
    ensures PairIn(n, s, SwapOne(l, t), if l == n then !exchanged else exchanged)
  {
    SamePair(n, s, t);
    if l != n {
      SwapOneKeepsNames(l, n, t);
      assert Matches(n, t[First(n, t)]) && Matches(n, t[Second(n, t)]);
    }
  }

  /** A name's pair ends up exchanged exactly when the name is not skipped and is listed an odd
      number of times. */
  lemma {:induction false} PassExchangesByParity(ufs: bool, names: seq<string>, k: nat, n: string, s: seq<Entry>)
    requires PlainList(names) && PlainName(n) && HasPair(n, s) && k <= |names|
    ensures PairIn(n, s, Pass(ufs, names, k, s), Kept(ufs, n) && Times(n, names, k) % 2 == 1)
  {
    hide Matches, Kept;
    if k > 0 {
      var t, odd := Pass(ufs, names, k - 1, s), Kept(ufs, n) && Times(n, names, k - 1) % 2 == 1;
      PassExchangesByParity(ufs, names, k - 1, n, s);
      PassKeepsNames(ufs, names, k - 1, n, s);
      SwapOneFlipsPair(names[k - 1], n, s, t, odd);
    }
  }

  /** An entry outside every listed, unskipped name's pair stays where it is. */
  lemma {:induction false} PassLeavesTheRest(ufs: bool, names: seq<string>, k: nat, s: seq<Entry>, at: nat)
    requires PlainList(names) && k <= |names| && at < |s|
    requires forall n :: n in names && Kept(ufs, n) && HasPair(n, s) ==> at != First(n, s) && at != Second(n, s)
    ensures Pass(ufs, names, k, s)[at] == s[at]
  {
    hide Matches, Kept;
    if k > 0 {
      PassLeavesTheRest(ufs, names, k - 1, s, at);
      PassKeepsNames(ufs, names, k - 1, names[k - 1], s);
      SamePair(names[k - 1], s, Pass(ufs, names, k - 1, s));
    }
  }

  lemma {:induction false} PassIsPermutation(ufs: bool, names: seq<string>, k: nat, s: seq<Entry>)
    requires k <= |names|
    ensures multiset(Pass(ufs, names, k, s)) == multiset(s)
  {
    hide Matches, Kept;
    if k > 0 {
      PassIsPermutation(ufs, names, k - 1, s);
    }
  }

  /** A pass reports a pair exactly when some listed, unskipped name has two slots in the original
      array; otherwise it changes nothing. */
  lemma {:induction false} FoundIffSomePair(ufs: bool, names: seq<string>, k: nat, s: seq<Entry>)
    requires PlainList(names) && k <= |names|
    ensures Found(ufs, names, k, s) <==> exists i :: 0 <= i < k && Kept(ufs, names[i]) && HasPair(names[i], s)
    ensures !Found(ufs, names, k, s) ==> Pass(ufs, names, k, s) == s
  {
    hide Matches, Kept;
    if k > 0 {
      FoundIffSomePair(ufs, names, k - 1, s);
      PassKeepsNames(ufs, names, k - 1, names[k - 1], s);
      SamePair(names[k - 1], s, Pass(ufs, names, k - 1, s));
    }
  }

  /** A second pass restores the array, and reports the same. */
  lemma SwappedTwiceRestores(ufs: bool, names: seq<string>, s: seq<Entry>)
    requires PlainList(names)
    ensures Swapped(ufs, names, Swapped(ufs, names, s)) == s
    ensures SwapsSome(ufs, names, Swapped(ufs, names, s)) == SwapsSome(ufs, names, s)
  {
    var r := Swapped(ufs, names, s);
    forall n | n in names
      ensures HasPair(n, r) == HasPair(n, s)
      ensures First(n, r) == First(n, s)
      ensures HasPair(n, s) ==> Second(n, r) == Second(n, s)
    {
      PassKeepsNames(ufs, names, |names|, n, s);
      SamePair(n, s, r);
    }
    forall at | 0 <= at < |s|
      ensures Swapped(ufs, names, r)[at] == s[at]
    {
      SwappedTwiceAt(ufs, names, s, at);
    }
    FoundIffSomePair(ufs, names, |names|, s);
    FoundIffSomePair(ufs, names, |names|, r);
  }

  lemma SwappedTwiceAt(ufs: bool, names: seq<string>, s: seq<Entry>, at: nat)
    requires PlainList(names) && at < |s|
    requires forall n :: n in names ==>
      var r := Swapped(ufs, names, s);
      HasPair(n, r) == HasPair(n, s) && First(n, r) == First(n, s) && (HasPair(n, s) ==> Second(n, r) == Second(n, s))
    ensures Swapped(ufs, names, Swapped(ufs, names, s))[at] == s[at]
  {
    hide Matches;
    var r, k := Swapped(ufs, names, s), |names|;
    if n :| n in names && Kept(ufs, n) && HasPair(n, s) && (at == First(n, s) || at == Second(n, s)) {
      PassExchangesByParity(ufs, names, k, n, s);
      PassExchangesByParity(ufs, names, k, n, r);
    } else {
      PassLeavesTheRest(ufs, names, k, s, at);
      PassLeavesTheRest(ufs, names, k, r, at);
    }
  }

  // ---------- the entry array as bytes

  function Slots(b: seq<byte>): (s: seq<Entry>)
    requires |b| % PTN_ENTRY_SIZE == 0
    ensures |s| == |b| / PTN_ENTRY_SIZE
  {
    seq(|b| / PTN_ENTRY_SIZE, k requires 0 <= k < |b| / PTN_ENTRY_SIZE =>
      b[PTN_ENTRY_SIZE * k..PTN_ENTRY_SIZE * k + PTN_ENTRY_SIZE])
  }

  function Join(s: seq<Entry>): (b: seq<byte>)
    ensures |b| == PTN_ENTRY_SIZE * |s|
  {
    seq(PTN_ENTRY_SIZE * |s|, i requires 0 <= i < PTN_ENTRY_SIZE * |s| => s[i / PTN_ENTRY_SIZE][i % PTN_ENTRY_SIZE])
  }

  lemma JoinSlots(b: seq<byte>)
    requires |b| % PTN_ENTRY_SIZE == 0
    ensures Join(Slots(b)) == b
  {
  }

  lemma SlotsJoin(s: seq<Entry>)
    ensures Slots(Join(s)) == s
  {
    forall k | 0 <= k < |s|
      ensures Slots(Join(s))[k] == s[k]
    {
      forall i | 0 <= i < PTN_ENTRY_SIZE
        ensures Slots(Join(s))[k][i] == s[k][i]
      {
        assert (PTN_ENTRY_SIZE * k + i) / PTN_ENTRY_SIZE == k;
      }
    }
  }

  /** Overwriting one entry's bytes overwrites that slot. */
  lemma SetSlot(b: seq<byte>, k: nat, e: Entry)
    requires |b| % PTN_ENTRY_SIZE == 0 && k < |b| / PTN_ENTRY_SIZE
    ensures Slots(Splice(b, PTN_ENTRY_SIZE * k, e)) == Slots(b)[k := e]
  {
    var r := Splice(b, PTN_ENTRY_SIZE * k, e);
    forall i | 0 <= i < |b| / PTN_ENTRY_SIZE
      ensures Slots(r)[i] == Slots(b)[k := e][i]
    {
      var o := PTN_ENTRY_SIZE * i;
      assert r[o..o + PTN_ENTRY_SIZE] == if i == k then e else b[o..o + PTN_ENTRY_SIZE];
    }
  }

  /** The bytes of the array after the swap. */
  function SwappedBytes(ufs: bool, names: seq<string>, b: seq<byte>): (r: seq<byte>)
    requires |b| % PTN_ENTRY_SIZE == 0
    ensures |r| == |b|
  {
    Join(Swapped(ufs, names, Slots(b)))
  }

  /** On the bytes too, swapping twice is the identity. */
  lemma SwappedBytesTwice(ufs: bool, names: seq<string>, b: seq<byte>)
    requires |b| % PTN_ENTRY_SIZE == 0 && PlainList(names)
    ensures SwappedBytes(ufs, names, SwappedBytes(ufs, names, b)) == b
  {
    SlotsJoin(Swapped(ufs, names, Slots(b)));
    SwappedTwiceRestores(ufs, names, Slots(b));
    JoinSlots(b);
  }

  // ---------- the program's loops, over the array in memory

  method MemCpy(dst: array<byte>, d: nat, src: array<byte>, s: nat, n: nat)
    requires d + n <= dst.Length && s + n <= src.Length
    requires dst == src ==> d + n <= s || s + n <= d
    modifies dst
    ensures dst[..] == Splice(old(dst[..]), d, old(src[..])[s..s + n])
  {
    ghost var was, from := dst[..], src[..];
    for i := 0 to n
      invariant forall k :: d <= k < d + i ==> dst[k] == from[s + (k - d)]
      invariant forall k :: 0 <= k < dst.Length && !(d <= k < d + i) ==> dst[k] == was[k]
      invariant dst != src ==> src[..] == from
    {
      assert src[s + i] == from[s + i] by {
        if dst != src { assert src[..][s + i] == from[s + i]; }
      }
      dst[d + i] := src[s + i];
    }
  }

  /** Copies the name bytes of the entry at p into the name buffer and terminates them. */
  method ReadName(a: array<byte>, p: nat, name8: array<byte>)
    requires p + PTN_ENTRY_SIZE <= a.Length && name8.Length == MAX_GPT_NAME_SIZE && a != name8
    requires forall j :: MAX_GPT_NAME_SIZE / 2 <= j < MAX_GPT_NAME_SIZE ==> name8[j] == 0
    modifies name8
    ensures name8[..] == Name8(a[p..p + PTN_ENTRY_SIZE])
  {
    for i := 0 to MAX_GPT_NAME_SIZE / 2
      invariant forall j :: 0 <= j < i ==> name8[j] == a[p + PARTITION_NAME_OFFSET + 2 * j]
      invariant forall j :: MAX_GPT_NAME_SIZE / 2 <= j < MAX_GPT_NAME_SIZE ==> name8[j] == 0
    {
      name8[i] := a[p + PARTITION_NAME_OFFSET + 2 * i];
    }
    name8[MAX_GPT_NAME_SIZE / 2] := 0;
  }

  /** Byte offset of the first matching entry at or after `start`; -1 stands for NULL. */
  method GptPentrySeek(name: string, a: array<byte>, start: nat) returns (pos: int)
    requires a.Length % PTN_ENTRY_SIZE == 0 && start % PTN_ENTRY_SIZE == 0 && start <= a.Length
    ensures var s := Slots(a[..]);
            var k := Seek(name, s, start / PTN_ENTRY_SIZE);
            pos == if k < |s| then PTN_ENTRY_SIZE * k else -1
  {
    hide NameMatches, Name8;
    var name8 := new byte[MAX_GPT_NAME_SIZE](_ => 0);
    var p := start + PARTITION_NAME_OFFSET;
    ghost var s, from := Slots(a[..]), start / PTN_ENTRY_SIZE;
    ghost var k := from;
    while p < a.Length
      invariant p == PTN_ENTRY_SIZE * k + PARTITION_NAME_OFFSET && from <= k <= |s|
      invariant Seek(name, s, k) == Seek(name, s, from)
      invariant forall j :: MAX_GPT_NAME_SIZE / 2 <= j < MAX_GPT_NAME_SIZE ==> name8[j] == 0
    {
      ReadName(a, p - PARTITION_NAME_OFFSET, name8);
      assert a[..][PTN_ENTRY_SIZE * k..PTN_ENTRY_SIZE * k + PTN_ENTRY_SIZE]
          == a[p - PARTITION_NAME_OFFSET..p - PARTITION_NAME_OFFSET + PTN_ENTRY_SIZE];
      if NameMatches(name, name8[..]) {
        return p - PARTITION_NAME_OFFSET;
      }
      NameTail(s[k], name8[..]);
      p, k := p + PTN_ENTRY_SIZE, k + 1;
    }
    pos := -1;
  }

  lemma NameTail(e: Entry, n8: seq<byte>)
    requires n8 == Name8(e)
    ensures forall j :: MAX_GPT_NAME_SIZE / 2 <= j < MAX_GPT_NAME_SIZE ==> n8[j] == 0
  {
  }

  /** Exchanges two entries through a scratch entry, as three copies. */
  method SwapEntries(a: array<byte>, p: nat, q: nat, ghost i: nat, ghost j: nat)
    requires a.Length % PTN_ENTRY_SIZE == 0 && i < j < a.Length / PTN_ENTRY_SIZE
    requires p == PTN_ENTRY_SIZE * i && q == PTN_ENTRY_SIZE * j
    modifies a
    ensures var s := Slots(old(a[..])); Slots(a[..]) == s[i := s[j]][j := s[i]]
  {
    var scratch := new byte[PTN_ENTRY_SIZE];
    ghost var b := a[..];
    ghost var s := Slots(b);
    MemCpy(scratch, 0, a, p, PTN_ENTRY_SIZE);
    assert scratch[..][0..PTN_ENTRY_SIZE] == s[i];
    hide Splice;
    MemCpy(a, p, a, q, PTN_ENTRY_SIZE);
    SetSlot(b, i, s[j]);
    SetSlot(a[..], j, s[i]);
    MemCpy(a, q, scratch, 0, PTN_ENTRY_SIZE);
  }

  /** gpt_boot_chain_swap: 0 when some pair was exchanged, 1 when none was found. */
  method GptBootChainSwap(ufs: bool, names: seq<string>, a: array<byte>) returns (notFound: int)
    requires a.Length % PTN_ENTRY_SIZE == 0
    modifies a
    ensures a[..] == SwappedBytes(ufs, names, old(a[..]))
    ensures notFound == if SwapsSome(ufs, names, Slots(old(a[..]))) then 0 else 1
  {
    hide Matches, Kept;
    ghost var s := Slots(a[..]);
    notFound := 1;
    for i := 0 to |names|
      invariant Slots(a[..]) == Pass(ufs, names, i, s)
      invariant notFound == if Found(ufs, names, i, s) then 0 else 1
    {
      if Kept(ufs, names[i]) {
        var swapped := SwapPairOf(names[i], a);
        if swapped {
          notFound := 0;
        }
      }
    }
    JoinSlots(a[..]);
  }

  /** One round of the swap loop: seek the name, seek it again behind, exchange. */
  method SwapPairOf(name: string, a: array<byte>) returns (swapped: bool)
    requires a.Length % PTN_ENTRY_SIZE == 0
    modifies a
    ensures Slots(a[..]) == SwapOne(name, Slots(old(a[..])))
    ensures swapped == HasPair(name, Slots(old(a[..])))
  {
    hide Matches;
    ghost var s := Slots(a[..]);
    var p := GptPentrySeek(name, a, 0);
    if p < 0 {
      return false;
    }
    var q := GptPentrySeek(name, a, p + PTN_ENTRY_SIZE);
    if q < 0 {
      return false;
    }
    SwapEntries(a, p, q, First(name, s), Second(name, s));
    swapped := true;
  }
}
