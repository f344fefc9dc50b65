/** Sums of a measure over the values of a finite map, used for stored collections whose
    iteration order is not fixed. */
module Sums {

  ghost function MapSum<K, V>(m: map<K, V>, f: V -> int): int {
    if m == map[] then 0
    else
      var k :| k in m;
      f(m[k]) + MapSum(m - {k}, f)
  }

  lemma {:induction false} MapSumRemove<K, V>(m: map<K, V>, f: V -> int, k: K)
    requires k in m
    ensures MapSum(m, f) == f(m[k]) + MapSum(m - {k}, f)
    decreases |m|
  {
    var j :| j in m && MapSum(m, f) == f(m[j]) + MapSum(m - {j}, f);
    if j != k {
      MapSumRemove(m - {j}, f, k);
      MapSumRemove(m - {k}, f, j);
      assert m - {j} - {k} == m - {k} - {j};
    }
  }

  /** What one store does to the sum. */
  lemma MapSumPut<K, V>(m: map<K, V>, f: V -> int, k: K, v: V)
    ensures MapSum(m[k := v], f) == MapSum(m - {k}, f) + f(v)
    ensures MapSum(m[k := v], f) == MapSum(m, f) + f(v) - (if k in m then f(m[k]) else 0)
  {
    MapSumRemove(m[k := v], f, k);
    assert m[k := v] - {k} == m - {k};
    if k in m {
      MapSumRemove(m, f, k);
    } else {
      assert m - {k} == m;
    }
  }

  /** The sum does not depend on values the measure ignores. */
  lemma {:induction false} MapSumAgree<K, V>(m: map<K, V>, n: map<K, V>, f: V -> int)
    requires m.Keys == n.Keys
    requires forall k :: k in m ==> f(m[k]) == f(n[k])
    ensures MapSum(m, f) == MapSum(n, f)
    decreases |m|
  {
    if m != map[] {
      var k :| k in m;
      MapSumRemove(m, f, k);
      MapSumRemove(n, f, k);
      MapSumAgree(m - {k}, n - {k}, f);
    } else {
      assert n == map[];
    }
  }

  lemma {:induction false} MapSumNonNegative<K, V>(m: map<K, V>, f: V -> int)
    requires forall j :: j in m ==> f(m[j]) >= 0
    ensures MapSum(m, f) >= 0
    decreases |m|
  {
    if m != map[] {
      var k :| k in m;
      MapSumRemove(m, f, k);
      MapSumNonNegative(m - {k}, f);
    }
  }

  lemma {:induction false} MapSumZero<K, V>(m: map<K, V>, f: V -> int)
    requires forall j :: j in m ==> f(m[j]) == 0
    ensures MapSum(m, f) == 0
    decreases |m|
  {
    if m != map[] {
      var k :| k in m;
      MapSumRemove(m, f, k);
      MapSumZero(m - {k}, f);
    }
  }

  lemma {:induction false} MapSumNonPositive<K, V>(m: map<K, V>, f: V -> int)
    requires forall j :: j in m ==> f(m[j]) <= 0
    ensures MapSum(m, f) <= 0
    decreases |m|
  {
    if m != map[] {
      var k :| k in m;
      MapSumRemove(m, f, k);
      MapSumNonPositive(m - {k}, f);
    }
  }
}
