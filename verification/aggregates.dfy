/** Sums of a weight over the accounts of a kind, and how one account write changes them. */
module Aggregates {
  ghost function Sum<K(!new), V(!new)>(m: map<K, V>, weight: (K, V) -> nat): nat
    decreases |m|
  {
    if m == map[] then 0
    else
      var k :| k in m;
      weight(k, m[k]) + Sum(m - {k}, weight)
  }

  lemma {:induction false} SumSplit<K(!new), V(!new)>(m: map<K, V>, k: K, weight: (K, V) -> nat)
    requires k in m
    ensures Sum(m, weight) == weight(k, m[k]) + Sum(m - {k}, weight)
    decreases |m|
  {
    var j :| j in m && Sum(m, weight) == weight(j, m[j]) + Sum(m - {j}, weight);
    if j != k {
      SumSplit(m - {j}, k, weight);
      SumSplit(m - {k}, j, weight);
      assert m - {j} - {k} == m - {k} - {j};
    }
  }

  /** Writing one account, new or existing. */
  lemma SumWrite<K(!new), V(!new)>(m: map<K, V>, k: K, v: V, weight: (K, V) -> nat)
    ensures Sum(m[k := v], weight) + (if k in m then weight(k, m[k]) else 0) == Sum(m, weight) + weight(k, v)
  {
    SumSplit(m[k := v], k, weight);
    assert m[k := v] - {k} == m - {k};
    if k in m {
      SumSplit(m, k, weight);
    } else {
      assert m - {k} == m;
    }
  }

  /** Disposing of one account. */
  lemma SumDispose<K(!new), V(!new)>(m: map<K, V>, k: K, weight: (K, V) -> nat)
    requires k in m
    ensures Sum(m - {k}, weight) + weight(k, m[k]) == Sum(m, weight)
  {
    SumSplit(m, k, weight);
  }

  /** Pointwise smaller weights have a smaller sum; equal sums of such weights are pointwise equal. */
  lemma {:induction false} SumMonotone<K(!new), V(!new)>(m: map<K, V>, lower: (K, V) -> nat, upper: (K, V) -> nat)
    requires forall k :: k in m ==> lower(k, m[k]) <= upper(k, m[k])
    ensures Sum(m, lower) <= Sum(m, upper)
    ensures Sum(m, lower) == Sum(m, upper) ==> forall k :: k in m ==> lower(k, m[k]) == upper(k, m[k])
    decreases |m|
  {
    if m != map[] {
      var k :| k in m;
      SumSplit(m, k, lower);
      SumSplit(m, k, upper);
      SumMonotone(m - {k}, lower, upper);
      if Sum(m, lower) == Sum(m, upper) {
        forall j | j in m
          ensures lower(j, m[j]) == upper(j, m[j])
        {
          if j != k {
            assert j in m - {k};
          }
        }
      }
    }
  }

  lemma {:induction false} SumCongruent<K(!new), V(!new), W(!new)>(m: map<K, V>, n: map<K, W>, weight: (K, V) -> nat,
      weight': (K, W) -> nat)
    requires m.Keys == n.Keys
    requires forall k :: k in m ==> weight(k, m[k]) == weight'(k, n[k])
    ensures Sum(m, weight) == Sum(n, weight')
    decreases |m|
  {
    if m != map[] {
      var k :| k in m;
      SumSplit(m, k, weight);
      SumSplit(n, k, weight');
      SumCongruent(m - {k}, n - {k}, weight, weight');
    } else {
      assert n == map[];
    }
  }

  lemma {:induction false} SumAdds<K(!new), V(!new)>(m: map<K, V>, first: (K, V) -> nat, second: (K, V) -> nat,
      both: (K, V) -> nat)
    requires forall k :: k in m ==> first(k, m[k]) + second(k, m[k]) <= both(k, m[k])
    ensures Sum(m, first) + Sum(m, second) <= Sum(m, both)
    decreases |m|
  {
    if m != map[] {
      var k :| k in m;
      SumSplit(m, k, first);
      SumSplit(m, k, second);
      SumSplit(m, k, both);
      SumAdds(m - {k}, first, second, both);
    }
  }

  lemma SumZero<K(!new), V(!new)>(m: map<K, V>, weight: (K, V) -> nat)
    requires forall k :: k in m ==> weight(k, m[k]) == 0
    ensures Sum(m, weight) == 0
  {
  }
}
