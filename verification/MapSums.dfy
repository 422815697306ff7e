/** Sums over the entries of a map, whatever order they are visited in. */
module MapSums {

  ghost function Sum<V(!new)>(m: map<string, V>, f: (string, V) -> nat): nat
    decreases |m.Keys|
  {
    if m.Keys == {} then 0
    else
      var k :| k in m;
      assert |(m - {k}).Keys| < |m.Keys| by { Shrinks(m, k); }
      f(k, m[k]) + Sum(m - {k}, f)
  }

  lemma Shrinks<V>(m: map<string, V>, k: string)
    requires k in m
    ensures (m - {k}).Keys == m.Keys - {k} && |(m - {k}).Keys| == |m.Keys| - 1
  {
    assert (m - {k}).Keys == m.Keys - {k};
  }

  lemma Commute<V>(m: map<string, V>, j: string, k: string)
    ensures m - {j} - {k} == m - {k} - {j}
  {
  }

  /** Any entry can be summed first. */
  lemma {:induction false} SumPick<V(!new)>(m: map<string, V>, f: (string, V) -> nat, k: string)
    requires k in m
    ensures Sum(m, f) == f(k, m[k]) + Sum(m - {k}, f)
    decreases |m.Keys|
  {
    Shrinks(m, k);
    forall j | j in m ensures f(j, m[j]) + Sum(m - {j}, f) == f(k, m[k]) + Sum(m - {k}, f) {
      if j != k {
        Shrinks(m, j);
        SumPick(m - {j}, f, k);
        SumPick(m - {k}, f, j);
        Commute(m, j, k);
      }
    }
  }

  lemma SumPut<V(!new)>(m: map<string, V>, f: (string, V) -> nat, k: string, v: V)
    ensures Sum(m[k := v], f) == f(k, v) + Sum(m - {k}, f)
    ensures Sum(m[k := v], f) == Sum(m, f) + f(k, v) - if k in m then f(k, m[k]) else 0
  {
    SumPick(m[k := v], f, k);
    assert m[k := v] - {k} == m - {k};
    if k in m { SumPick(m, f, k); } else { assert m - {k} == m; }
  }

  lemma SumRemove<V(!new)>(m: map<string, V>, f: (string, V) -> nat, k: string)
    requires k in m
    ensures Sum(m - {k}, f) == Sum(m, f) - f(k, m[k])
  {
    SumPick(m, f, k);
  }
}
