/** Sums over the values of a finite map, used to account for counters shared by many tasks. */
module Totals {
  ghost function Total<V>(m: map<nat, V>, w: V -> nat): nat
    decreases |m|
  {
    if m == map[] then 0
    else
      var k :| k in m;
      w(m[k]) + Total(m - {k}, w)
  }

  lemma {:induction false} TotalSplit<V>(m: map<nat, V>, w: V -> nat, k: nat)
    requires k in m
    ensures Total(m, w) == w(m[k]) + Total(m - {k}, w)
    decreases |m|
  {
    var j :| j in m && Total(m, w) == w(m[j]) + Total(m - {j}, w);
    if j != k {
      TotalSplit(m - {j}, w, k);
      TotalSplit(m - {k}, w, j);
      assert m - {j} - {k} == m - {k} - {j};
    }
  }

  lemma TotalUpdate<V>(m: map<nat, V>, w: V -> nat, k: nat, v: V)
    ensures Total(m[k := v], w) == (if k in m then Total(m, w) - w(m[k]) else Total(m, w)) + w(v)
  {
    var n := m[k := v];
    TotalSplit(n, w, k);
    assert n - {k} == m - {k};
    if k in m {
      TotalSplit(m, w, k);
    } else {
      assert m - {k} == m;
    }
  }

  lemma TotalAtLeast<V>(m: map<nat, V>, w: V -> nat, k: nat)
    requires k in m
    ensures Total(m, w) >= w(m[k])
  {
    TotalSplit(m, w, k);
  }
}
