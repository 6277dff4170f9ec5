// The sum of a quantity over all records of a table.
module Totals {

  ghost function Pick<K, V>(m: map<K, V>): (k: K)
    requires m != map[]
    ensures k in m
  {
    var k :| k in m;
    k
  }

  ghost function Total<K, V>(m: map<K, V>, f: V -> int): int {
    if m == map[] then 0 else f(m[Pick(m)]) + Total(m - {Pick(m)}, f)
  }

  /** Any record can be taken out of the sum first. */
  lemma {:induction false} TotalPick<K, V>(m: map<K, V>, f: V -> int, k: K)
    requires k in m
    ensures Total(m, f) == f(m[k]) + Total(m - {k}, f)
    decreases |m|
  {
    var p := Pick(m);
    if p != k {
      TotalPick(m - {p}, f, k);
      TotalPick(m - {k}, f, p);
      assert m - {p} - {k} == m - {k} - {p};
    }
  }

  lemma TotalUpdate<K, V>(m: map<K, V>, f: V -> int, k: K, v: V)
    ensures Total(m[k := v], f) == Total(m, f) - (if k in m then f(m[k]) else 0) + f(v)
  {
    TotalPick(m[k := v], f, k);
    assert m[k := v] - {k} == m - {k};
    if k in m {
      TotalPick(m, f, k);
    } else {
      assert m - {k} == m;
    }
  }

  lemma {:induction false} TotalCovers<K, V>(m: map<K, V>, f: V -> int)
    requires forall k :: k in m ==> 0 <= f(m[k])
    ensures 0 <= Total(m, f)
    ensures forall k :: k in m ==> f(m[k]) <= Total(m, f)
    decreases |m|
  {
    forall k | k in m
      ensures f(m[k]) <= Total(m, f) && 0 <= Total(m, f)
    {
      TotalPick(m, f, k);
      TotalCovers(m - {k}, f);
    }
  }
}
