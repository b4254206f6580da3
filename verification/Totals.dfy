/** Sums over the entries of a finite map. */
module Totals {

  ghost function Total<K(!new), V>(m: map<K, V>, weight: V -> nat): nat
    decreases |m|
  {
    if m == map[] then 0 else
    var k :| k in m;
    Smaller(m, k);
    weight(m[k]) + Total(m - {k}, weight)
  }

  lemma Smaller<K(!new), V>(m: map<K, V>, k: K)
    requires k in m
    ensures |m - {k}| < |m|
  {
    assert (m - {k}).Keys == m.Keys - {k};
    assert |(m - {k}).Keys| == |m - {k}| && |m.Keys| == |m|;
  }

  /** Any entry can be taken out first. */
  lemma {:induction false} TotalWithout<K(!new), V>(m: map<K, V>, weight: V -> nat, k: K)
    requires k in m
    ensures Total(m, weight) == weight(m[k]) + Total(m - {k}, weight)
    decreases |m|
  {
    var first :| first in m && Total(m, weight) == weight(m[first]) + Total(m - {first}, weight);
    if first != k {
      Smaller(m, first);
      Smaller(m, k);
      TotalWithout(m - {first}, weight, k);
      TotalWithout(m - {k}, weight, first);
      assert m - {first} - {k} == m - {k} - {first};
    }
  }

  lemma TotalSet<K(!new), V>(m: map<K, V>, weight: V -> nat, k: K, v: V)
    ensures Total(m[k := v], weight) == weight(v) + Total(m - {k}, weight)
    ensures k in m ==> Total(m, weight) == weight(m[k]) + Total(m - {k}, weight)
    ensures k !in m ==> m - {k} == m
  {
    TotalWithout(m[k := v], weight, k);
    assert m[k := v] - {k} == m - {k};
    if k in m {
      TotalWithout(m, weight, k);
    } else {
      assert m - {k} == m;
    }
  }
}
