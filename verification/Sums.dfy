/** Sums over finite maps. */
module Sums {

  /** The sum of `w(k, m[k])` over all keys of `m`. */
  ghost function Sum<K(!new), V(!new)>(m: map<K, V>, w: (K, V) -> nat): nat
    decreases |m|
  {
    if m == map[] then 0 else
      var k :| k in m;
      assert |m - {k}| < |m| by { Smaller(m, k); }
      w(k, m[k]) + Sum(m - {k}, w)
  }

  lemma Smaller<K, V>(m: map<K, V>, k: K)
    requires k in m
    ensures |m - {k}| < |m|
  {
    assert (m - {k}).Keys == m.Keys - {k};
    assert |(m - {k}).Keys| == |m - {k}| && |m.Keys| == |m|;
  }

  /** The sum does not depend on the order in which keys are taken. */
  lemma {:induction false} SumSplit<K(!new), V(!new)>(m: map<K, V>, w: (K, V) -> nat, k: K)
    requires k in m
    ensures Sum(m, w) == w(k, m[k]) + Sum(m - {k}, w)
    decreases |m|
  {
    var j :| j in m && Sum(m, w) == w(j, m[j]) + Sum(m - {j}, w);
    if j != k {
      Smaller(m, j);
      Smaller(m, k);
      SumSplit(m - {j}, w, k);
      SumSplit(m - {k}, w, j);
      assert m - {j} - {k} == m - {k} - {j};
    }
  }

  /** Storing `v` at `k` replaces the old contribution of `k` by the new one. */
  lemma SumUpdate<K(!new), V(!new)>(m: map<K, V>, w: (K, V) -> nat, k: K, v: V)
    ensures Sum(m[k := v], w) + (if k in m then w(k, m[k]) else 0) == Sum(m, w) + w(k, v)
  {
    SumSplit(m[k := v], w, k);
    if k in m {
      SumSplit(m, w, k);
      assert m[k := v] - {k} == m - {k};
    } else {
      assert m[k := v] - {k} == m;
    }
  }

  lemma SumAtLeast<K(!new), V(!new)>(m: map<K, V>, w: (K, V) -> nat, k: K)
    requires k in m
    ensures w(k, m[k]) <= Sum(m, w)
  {
    SumSplit(m, w, k);
  }

  lemma {:induction false} SumZero<K(!new), V(!new)>(m: map<K, V>, w: (K, V) -> nat)
    requires forall k <- m :: w(k, m[k]) == 0
    ensures Sum(m, w) == 0
    decreases |m|
  {
    if m != map[] {
      var k :| k in m;
      SumSplit(m, w, k);
      Smaller(m, k);
      SumZero(m - {k}, w);
    }
  }
}
