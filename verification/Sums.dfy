/** Sums of a weight over the values of a finite map. */
module Sums {
  ghost function Sum<K, V>(m: map<K, V>, w: V -> nat): nat
    decreases |m|
  {
    if m == map[] then 0
    else
      var k :| k in m;
      w(m[k]) + Sum(m - {k}, w)
  }

  lemma {:induction false} SumSplit<K, V>(m: map<K, V>, w: V -> nat, k: K)
    requires k in m
    ensures Sum(m, w) == w(m[k]) + Sum(m - {k}, w)
    decreases |m|
  {
    var q :| q in m && Sum(m, w) == w(m[q]) + Sum(m - {q}, w);
    if q != k {
      SumSplit(m - {q}, w, k);
      SumSplit(m - {k}, w, q);
      assert m - {q} - {k} == m - {k} - {q};
    }
  }

  lemma SumSet<K, V>(m: map<K, V>, w: V -> nat, k: K, v: V)
    ensures Sum(m[k := v], w) == w(v) + Sum(m - {k}, w)
    ensures k in m ==> Sum(m[k := v], w) == Sum(m, w) - w(m[k]) + w(v)
    ensures k !in m ==> Sum(m[k := v], w) == Sum(m, w) + w(v)
  {
    SumSplit(m[k := v], w, k);
    assert m[k := v] - {k} == m - {k};
    if k in m { SumSplit(m, w, k); } else { assert m - {k} == m; }
  }

  /** The sum of two weights. */
  lemma {:induction false} SumAdd<K, V>(m: map<K, V>, a: V -> nat, b: V -> nat, both: V -> nat)
    requires forall v :: both(v) == a(v) + b(v)
    ensures Sum(m, both) == Sum(m, a) + Sum(m, b)
    decreases |m|
  {
    if m != map[] {
      var k :| k in m;
      SumSplit(m, both, k);
      SumSplit(m, a, k);
      SumSplit(m, b, k);
      SumAdd(m - {k}, a, b, both);
    }
  }
}
