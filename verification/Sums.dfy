/** Sums of the amount column of a finite table, independent of the order of its rows. */
module Sums {
  ghost function AnyKey<K>(m: map<K, int>): K
    requires m != map[]
    ensures AnyKey(m) in m
  {
    var k :| k in m;
    k
  }

  ghost function Sum<K>(m: map<K, int>): int
    decreases |m|
  {
    if m == map[] then 0
    else
      var k := AnyKey(m);
      m[k] + Sum(m - {k})
  }

  lemma {:induction false} SumRemove<K>(m: map<K, int>, k: K)
    requires k in m
    ensures Sum(m) == m[k] + Sum(m - {k})
    decreases |m|
  {
    var j := AnyKey(m);
    if j != k {
      SumRemove(m - {j}, k);
      SumRemove(m - {k}, j);
      assert m - {j} - {k} == m - {k} - {j};
    }
  }

  lemma SumInsert<K>(m: map<K, int>, k: K, v: int)
    requires k !in m
    ensures Sum(m[k := v]) == Sum(m) + v
  {
    SumRemove(m[k := v], k);
    assert m[k := v] - {k} == m;
  }

  lemma OneRowLess<K>(m: map<K, int>, part: map<K, int>, k: K)
    requires k in part && part.Keys <= m.Keys && forall j :: j in part ==> part[j] == m[j]
    ensures (part - {k}).Keys <= (m - {k}).Keys && forall j :: j in part - {k} ==> (part - {k})[j] == (m - {k})[j]
    ensures m - {k} - (part - {k}).Keys == m - part.Keys
    ensures |part - {k}| < |part|
  {
    assert (part - {k}).Keys == part.Keys - {k};
  }

  /** Taking some rows out of a table takes exactly their amounts out of its sum. */
  lemma {:induction false} SumSplit<K>(m: map<K, int>, part: map<K, int>)
    requires part.Keys <= m.Keys && forall k :: k in part ==> part[k] == m[k]
    ensures Sum(m) == Sum(part) + Sum(m - part.Keys)
    decreases |part|
  {
    if part == map[] {
      assert m - part.Keys == m;
    } else {
      var k := AnyKey(part);
      SumRemove(m, k);
      OneRowLess(m, part, k);
      SumSplit(m - {k}, part - {k});
    }
  }

  lemma {:induction false} SumNonNegative<K>(m: map<K, int>)
    requires forall k :: k in m ==> 0 <= m[k]
    ensures 0 <= Sum(m)
    decreases |m|
  {
    if m != map[] {
      SumNonNegative(m - {AnyKey(m)});
    }
  }

  /** Adding up the rows one by one, in whatever order they are met, gives the sum. */
  method AddUp<K(==)>(m: map<K, int>) returns (total: int)
    ensures total == Sum(m)
  {
    total := 0;
    var rest := m;
    while rest != map[]
      invariant Sum(m) == total + Sum(rest)
      decreases |rest|
    {
      var k :| k in rest;
      SumRemove(rest, k);
      total := total + rest[k];
      rest := rest - {k};
    }
  }
}
