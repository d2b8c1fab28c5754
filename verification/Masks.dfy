/** Masks of 64 bits: joined, cleared and compared bit by bit. */
module Masks {
  function Both(a: bv64, b: bv64): bv64 {
    a & b
  }

  function With(a: bv64, b: bv64): bv64 {
    a | b
  }

  function Without(a: bv64, b: bv64): bv64 {
    a & !b
  }

  /** Every bit of a is in b. */
  predicate Within(a: bv64, b: bv64) {
    Without(a, b) == 0
  }

  /** Some bit of a is in b. */
  predicate Meets(a: bv64, b: bv64) {
    Both(a, b) != 0
  }

  lemma StaysInUnion(x: bv64, m: bv64, y: bv64)
    requires Within(x, m)
    ensures Within(x, With(y, m))
  {
  }

  lemma StaysAfterClearing(x: bv64, m: bv64, y: bv64)
    requires Within(x, m)
    ensures Within(x, Without(m, y)) <==> !Meets(x, y)
  {
    hide Both, Without;
    if Meets(x, y) { ClearedIsGone(x, m, y); } else { UnmetStays(x, m, y); }
  }

  lemma UnmetStays(x: bv64, m: bv64, y: bv64)
    requires Without(x, m) == 0 && Both(x, y) == 0
    ensures Without(x, Without(m, y)) == 0
  {
  }

  lemma ClearedIsGone(x: bv64, m: bv64, y: bv64)
    requires Both(x, y) != 0
    ensures Without(x, Without(m, y)) != 0
  {
  }

  lemma WithinNothing(x: bv64)
    ensures Within(x, 0) <==> x == 0
  {
  }

  lemma MeetsWith(a: bv64, b: bv64, m: bv64)
    ensures Meets(With(a, b), m) <==> Meets(a, m) || Meets(b, m)
  {
    hide Both, With;
    if !Meets(With(a, b), m) { MissesBoth(a, b, m); }
    if !Meets(a, m) && !Meets(b, m) { MissesUnion(a, b, m); }
  }

  lemma MissesBoth(a: bv64, b: bv64, m: bv64)
    requires Both(With(a, b), m) == 0
    ensures Both(a, m) == 0 && Both(b, m) == 0
  {
  }

  lemma MissesUnion(a: bv64, b: bv64, m: bv64)
    requires Both(a, m) == 0 && Both(b, m) == 0
    ensures Both(With(a, b), m) == 0
  {
  }

  lemma MeetsWithout(a: bv64, b: bv64, m: bv64)
    ensures Meets(Without(a, b), m) <==> Meets(a, Without(m, b))
  {
    hide Both, Without;
    Regroups(a, b, m);
  }

  lemma Regroups(a: bv64, b: bv64, m: bv64)
    ensures Both(Without(a, b), m) == Both(a, Without(m, b))
  {
  }
}
