/** Sums over the entries of a map, whatever order they are visited in. */
module MapSum {
  import opened Counters

  ghost function Sum<K(!new), V(!new)>(m: map<K, V>, weight: (K, V) -> int): int {
    if m.Keys == {} then 0
    else
      var k := Pick(m.Keys);
      weight(k, m[k]) + Sum(m - {k}, weight)
  }

  lemma {:induction false} SumRemove<K(!new), V(!new)>(m: map<K, V>, weight: (K, V) -> int, k: K)
    requires k in m
    ensures Sum(m, weight) == weight(k, m[k]) + Sum(m - {k}, weight)
    decreases m.Keys
  {
    var p := Pick(m.Keys);
    if p != k {
      SumRemove(m - {p}, weight, k);
      SumRemove(m - {k}, weight, p);
      assert m - {p} - {k} == m - {k} - {p};
    }
  }

  /** Setting an entry replaces its weight, or adds it. */
  lemma SumSet<K(!new), V(!new)>(m: map<K, V>, weight: (K, V) -> int, k: K, v: V)
    ensures Sum(m[k := v], weight) + (if k in m then weight(k, m[k]) else 0) == Sum(m, weight) + weight(k, v)
  {
    SumRemove(m[k := v], weight, k);
    if k in m {
      SumRemove(m, weight, k);
      assert m[k := v] - {k} == m - {k};
    } else {
      assert m[k := v] - {k} == m;
    }
  }

  lemma SumEmpty<K(!new), V(!new)>(weight: (K, V) -> int)
    ensures Sum(map[], weight) == 0
  {
  }

  lemma {:induction false} SumNotNegative<K(!new), V(!new)>(m: map<K, V>, weight: (K, V) -> int)
    requires forall k, v :: 0 <= weight(k, v)
    ensures 0 <= Sum(m, weight)
    decreases m.Keys
  {
    if m.Keys != {} {
      SumNotNegative(m - {Pick(m.Keys)}, weight);
    }
  }
}
