/** Facts about map union and map equality used throughout the model. */
module MapLemmas {
  /** Map union is associative. */
  lemma UnionAssoc<K, V>(a: map<K, V>, b: map<K, V>, c: map<K, V>)
    ensures a + b + c == a + (b + c)
  {
  }

  /** Union with a one-entry map is an update. */
  lemma UnionSingleton<K, V>(m: map<K, V>, k: K, v: V)
    ensures m + map[k := v] == m[k := v]
  {
  }

  /** The empty map is a right unit of union. */
  lemma UnionEmpty<K, V>(m: map<K, V>)
    ensures m + map[] == m
  {
  }

  /** The empty map is a left unit of union. */
  lemma EmptyUnion<K, V>(m: map<K, V>)
    ensures map[] + m == m
  {
  }

  /** An update survives a union with a map that lacks its key. */
  lemma UpdateThenUnion<K, V>(x: map<K, V>, y: map<K, V>, k: K, v: V)
    requires k !in y
    ensures x[k := v] + y == (x + y)[k := v]
  {
  }

  /** A key of a union takes the right-hand value when the right-hand map has it. */
  lemma MergeLookup<K, V>(a: map<K, V>, b: map<K, V>, k: K)
    requires k in a || k in b
    ensures (a + b)[k] == if k in b then b[k] else a[k]
  {
  }

  /** Defaults whose keys are all present change nothing. */
  lemma DefaultsAbsorbed<K, V>(m: map<K, V>, defaults: map<K, V>)
    requires defaults.Keys <= m.Keys
    ensures defaults + m == m
  {
  }

  /** Union with the same map twice is union with it once. */
  lemma UnionTwice<K, V>(a: map<K, V>, b: map<K, V>)
    ensures a + b + b == a + b
  {
  }

  /** Maps with the same keys and the same values are equal. */
  lemma MapsEqual<K, V>(a: map<K, V>, b: map<K, V>)
    requires a.Keys == b.Keys && forall k :: k in a ==> a[k] == b[k]
    ensures a == b
  {
  }

  /** Every entry of `built` is `f` applied to its key and the source entry under that key. */
  ghost predicate BuiltFrom<K, W, V>(built: map<K, V>, source: map<K, W>, f: (K, W) -> V)
  {
    forall k :: k in built ==> k in source && built[k] == f(k, source[k])
  }

  /** Building one more entry keeps `BuiltFrom`. */
  lemma BuiltFromStep<K, W, V>(built: map<K, V>, source: map<K, W>, f: (K, W) -> V, k: K, v: V)
    requires BuiltFrom(built, source, f) && k in source && v == f(k, source[k])
    ensures BuiltFrom(built[k := v], source, f)
  {
  }
}
