/** Facts about finite maps whose values carry their own key. */
module Maps {

  /** Every value in `m` names, through `keyOf`, the key it is stored under. */
  ghost predicate SelfKeyed<K, V>(m: map<K, V>, keyOf: V -> K)
  {
    forall k :: k in m ==> keyOf(m[k]) == k
  }

  /** In a self-keyed map no value is stored under two keys, so there are
      exactly as many distinct values as keys. */
  lemma {:induction false} SelfKeyedValuesCount<K, V>(m: map<K, V>, keyOf: V -> K)
    requires SelfKeyed(m, keyOf)
    ensures |m.Values| == |m.Keys|
    decreases |m|
  {
    if m != map[] {
      var k :| k in m;
      var rest := m - {k};
      assert rest.Keys == m.Keys - {k};
      SelfKeyedValuesCount(rest, keyOf);
      assert m.Values == rest.Values + {m[k]} by {
        forall v | v in m.Values ensures v in rest.Values + {m[k]} {
          var k' :| k' in m && m[k'] == v;
          if k' != k {
            assert rest[k'] == v;
          }
        }
      }
      assert m[k] !in rest.Values;
    }
  }
}
