/** Facts about merging maps. */
module Collections {
  lemma MergeUpdated<K, V>(a: map<K, V>, b: map<K, V>, k: K, v: V)
    ensures a + b[k := v] == (a + b)[k := v]
    ensures a + map[k := v] == a[k := v]
    ensures (a + b) + map[k := v] == (a + b)[k := v]
  {
  }

  lemma MergeMoved<K, V>(a: map<K, V>, b: map<K, V>, k: K, v: V)
    ensures a[k := v] + (b - {k}) == (a + b)[k := v]
  {
  }
}
