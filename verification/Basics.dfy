/** What several components use. */
module Basics {
  datatype Option<+T> = None | Some(value: T)

  lemma UnionSize<T>(a: set<T>, b: set<T>)
    ensures |a + b| <= |a| + |b|
  {
    assert |a + b| == |a| + |b| - |a * b|;
  }

  lemma SubsetSize<T>(a: set<T>, b: set<T>)
    requires a <= b
    ensures |a| <= |b|
  {
    assert b == a + (b - a);
  }

  /** The sum of `value` over a map. */
  ghost function Total<K, V>(m: map<K, V>, value: V -> nat): nat {
    if m == map[] then 0
    else
      var k :| k in m;
      value(m[k]) + Total(m - {k}, value)
  }

  lemma {:induction false} TotalWithout<K, V>(m: map<K, V>, value: V -> nat, k: K)
    requires k in m
    ensures Total(m, value) == value(m[k]) + Total(m - {k}, value)
    decreases |m|
  {
    var picked :| picked in m && Total(m, value) == value(m[picked]) + Total(m - {picked}, value);
    if picked != k {
      TotalWithout(m - {picked}, value, k);
      TotalWithout(m - {k}, value, picked);
      assert m - {picked} - {k} == m - {k} - {picked};
    }
  }

  lemma {:induction false} TotalAtMost<K, V>(m: map<K, V>, n: map<K, V>, value: V -> nat)
    requires forall k | k in n :: k in m && value(n[k]) <= value(m[k])
    ensures Total(n, value) <= Total(m, value)
    decreases |n|
  {
    if n != map[] {
      var k :| k in n;
      TotalWithout(n, value, k);
      TotalWithout(m, value, k);
      TotalAtMost(m - {k}, n - {k}, value);
    }
  }
}
