/** Maps from a key to a non-empty set of values, with the operations the observer uses. The container
    itself is not part of this model; its operations are taken as its users describe them. */
module SetMap {
  type SetMap<K, V> = map<K, set<V>>

  predicate Has<K, V>(m: SetMap<K, V>, k: K, v: V) {
    k in m && v in m[k]
  }

  function ValSet<K, V>(m: SetMap<K, V>, k: K): set<V> {
    if k in m then m[k] else {}
  }

  ghost predicate NoEmpty<K, V>(m: SetMap<K, V>) {
    forall k :: k in m ==> m[k] != {}
  }

  /** add: every key gets the values; the keys that were not there before are reported. */
  function Add<K, V>(m: SetMap<K, V>, keys: set<K>, vals: set<V>): SetMap<K, V> {
    map k | k in m.Keys + keys :: if k in keys then ValSet(m, k) + vals else m[k]
  }

  function NewKeys<K, V>(m: SetMap<K, V>, keys: set<K>): set<K> {
    keys - m.Keys
  }

  /** trimOrRemove: the keys lose the values, and a key left with none is removed and reported; the
      values that were lost are reported too. */
  function Trim<K, V>(m: SetMap<K, V>, keys: set<K>, vals: set<V>): SetMap<K, V> {
    map k | k in m && !(k in keys && m[k] <= vals) :: if k in keys then m[k] - vals else m[k]
  }

  function GoneKeys<K, V>(m: SetMap<K, V>, keys: set<K>, vals: set<V>): set<K> {
    set k | k in keys && k in m && m[k] <= vals
  }

  function GoneVals<K, V>(m: SetMap<K, V>, k: K, vals: set<V>): set<V> {
    ValSet(m, k) * vals
  }

  // ---------- what the operations do to the relation a map stands for

  lemma HasAdd<K, V>(m: SetMap<K, V>, keys: set<K>, vals: set<V>, k: K, v: V)
    ensures Has(Add(m, keys, vals), k, v) == (Has(m, k, v) || (k in keys && v in vals))
  {
  }

  lemma HasTrim<K, V>(m: SetMap<K, V>, keys: set<K>, vals: set<V>, k: K, v: V)
    ensures Has(Trim(m, keys, vals), k, v) == (Has(m, k, v) && !(k in keys && v in vals))
  {
  }

  lemma AddFacts<K, V>(m: SetMap<K, V>, keys: set<K>, vals: set<V>)
    requires NoEmpty(m) && vals != {}
    ensures NoEmpty(Add(m, keys, vals)) && Add(m, keys, vals).Keys == m.Keys + NewKeys(m, keys)
  {
  }

  lemma TrimFacts<K, V>(m: SetMap<K, V>, keys: set<K>, vals: set<V>)
    requires NoEmpty(m)
    ensures NoEmpty(Trim(m, keys, vals)) && Trim(m, keys, vals).Keys == m.Keys - GoneKeys(m, keys, vals)
  {
    forall k | k in Trim(m, keys, vals) ensures Trim(m, keys, vals)[k] != {} {
      if k in keys {
        assert !(m[k] <= vals);
        assert m[k] - vals != {};
      }
    }
  }
}
