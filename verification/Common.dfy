/** What several modules need of bytes and sequences. */
module Common {
  type byte = x: int | 0 <= x < 256

  /** Where the first element stands that ends a walk along s; |s| if the walk goes to the end. */
  function Until<T>(s: seq<T>, ends: T -> bool): (n: nat)
    ensures n <= |s| && (n < |s| ==> ends(s[n]))
    ensures forall i :: 0 <= i < n ==> !ends(s[i])
  {
    if s == [] || ends(s[0]) then 0 else 1 + Until(s[1..], ends)
  }

  /** A prefix without repeats makes a set as large as it is long. */
  lemma {:induction false} PrefixSize<T>(s: seq<T>, n: nat)
    requires n <= |s| && forall i, j :: 0 <= i < j < n ==> s[i] != s[j]
    ensures |set i | 0 <= i < n :: s[i]| == n
  {
    if n > 0 {
      PrefixSize(s, n - 1);
      assert (set i | 0 <= i < n :: s[i]) == (set i | 0 <= i < n - 1 :: s[i]) + {s[n - 1]};
    }
  }

  lemma Regrouped<T>(a: seq<T>, b: seq<T>, c: seq<T>)
    ensures a + (b + c) == a + b + c
  {
  }
}
