/** Sums over the amounts of a map. */
module Sums {

  ghost function Sum<K>(m: map<K, int>): int {
    if m == map[] then 0 else var k :| k in m; m[k] + Sum(m - {k})
  }

  lemma SumOfNothing<K>(m: map<K, int>)
    requires m == map[]
    ensures Sum(m) == 0
  {}

  /** Any key can be taken out first. */
  lemma {:induction false} SumTake<K>(m: map<K, int>, k: K)
    requires k in m
    ensures Sum(m) == m[k] + Sum(m - {k})
  {
    var j :| j in m && Sum(m) == m[j] + Sum(m - {j});
    if j != k {
      SumTake(m - {j}, k);
      SumTake(m - {k}, j);
      assert m - {j} - {k} == m - {k} - {j};
    }
  }

  lemma SumOfSingle<K>(m: map<K, int>, k: K)
    requires m.Keys == {k}
    ensures Sum(m) == m[k]
  {
    SumTake(m, k);
    assert m - {k} == map[];
  }

  lemma SumPut<K>(m: map<K, int>, k: K, v: int)
    requires k !in m
    ensures Sum(m[k := v]) == Sum(m) + v
  {
    SumTake(m[k := v], k);
    assert m[k := v] - {k} == m;
  }

  lemma {:induction false} SumUnion<K>(m: map<K, int>, n: map<K, int>)
    requires m.Keys !! n.Keys
    ensures Sum(m + n) == Sum(m) + Sum(n)
  {
    if n == map[] {
      assert m + n == m;
    } else {
      var k :| k in n;
      SumTake(n, k);
      SumTake(m + n, k);
      assert m + n - {k} == m + (n - {k});
      SumUnion(m, n - {k});
    }
  }

  lemma {:induction false} SumNonNegative<K>(m: map<K, int>)
    requires forall j | j in m :: 0 <= m[j]
    ensures 0 <= Sum(m)
  {
    if m != map[] {
      var k :| k in m && Sum(m) == m[k] + Sum(m - {k});
      SumNonNegative(m - {k});
    }
  }

  lemma {:induction false} SumLowerBound<K>(m: map<K, int>, k: K)
    requires k in m && forall j | j in m :: 0 <= m[j]
    ensures m[k] <= Sum(m)
    decreases |m|
  {
    SumTake(m, k);
    SumNonNegative(m - {k});
  }

  /** Sums grow with their amounts, strictly if one amount does. */
  lemma {:induction false} SumMonotone<K>(m: map<K, int>, n: map<K, int>)
    requires m.Keys <= n.Keys && (forall k | k in m :: m[k] <= n[k]) && (forall k | k in n && k !in m :: 0 <= n[k])
    ensures Sum(m) <= Sum(n)
    ensures (exists k | k in m :: m[k] < n[k]) ==> Sum(m) < Sum(n)
    decreases |m|
  {
    if m == map[] {
      SumNonNegative(n);
    } else {
      var k :| k in m && Sum(m) == m[k] + Sum(m - {k});
      SumTake(n, k);
      SumMonotone(m - {k}, n - {k});
      assert forall j | j in m && j != k :: (m - {k})[j] == m[j] && (n - {k})[j] == n[j];
    }
  }

  lemma {:induction false} SumOfZeros<K>(m: map<K, int>)
    requires forall k | k in m :: m[k] == 0
    ensures Sum(m) == 0
  {
    if m != map[] {
      var k :| k in m && Sum(m) == m[k] + Sum(m - {k});
      SumOfZeros(m - {k});
    }
  }

  /** New amounts of zero do not count. */
  lemma SumWithZeros<K>(m: map<K, int>, n: map<K, int>)
    requires m.Keys <= n.Keys && (forall k | k in m :: n[k] == m[k]) && (forall k | k in n && k !in m :: n[k] == 0)
    ensures Sum(n) == Sum(m)
  {
    hide Sum;
    var rest := n - m.Keys;
    assert n == m + rest;
    SumUnion(m, rest);
    SumOfZeros(rest);
  }

  /** If one amount grows by at most one, so does the sum. */
  lemma SumOneMore<K>(m: map<K, int>, n: map<K, int>, k: K)
    requires m.Keys <= n.Keys && (forall j | j in m && j != k :: n[j] == m[j]) && (forall j | j in n && j !in m :: n[j] == 0)
    requires k in m ==> n[k] <= m[k] + 1
    ensures Sum(n) <= Sum(m) + 1
  {
    hide Sum;
    if k in m {
      SumTake(m, k);
      SumTake(n, k);
      SumWithZeros(m - {k}, n - {k});
    } else {
      SumWithZeros(m, n);
    }
  }

  /** Rows whose amounts grow whenever they change: so does the sum. */
  lemma SumOfRows<K, V>(before: map<K, V>, after: map<K, V>, m: map<K, int>, n: map<K, int>)
    requires m.Keys == before.Keys && n.Keys == after.Keys && before.Keys <= after.Keys
    requires forall k | k in before :: m[k] <= n[k] && (before[k] != after[k] ==> m[k] < n[k])
    requires forall k | k in after :: 0 <= n[k]
    ensures Sum(m) <= Sum(n)
    ensures after.Keys <= before.Keys && before != after ==> Sum(m) < Sum(n)
  {
    hide Sum;
    SumMonotone(m, n);
    if after.Keys <= before.Keys && before != after {
      var k :| k in before && before[k] != after[k];
      assert m[k] < n[k];
    }
  }

  lemma {:induction false} SumAddOne<K>(m: map<K, int>, n: map<K, int>)
    requires n.Keys == m.Keys && forall k | k in m :: n[k] == m[k] + 1
    ensures Sum(n) == Sum(m) + |m|
    decreases |m|
  {
    if m == map[] {
      assert n == map[];
    } else {
      var k :| k in m && Sum(m) == m[k] + Sum(m - {k});
      SumTake(n, k);
      SumAddOne(m - {k}, n - {k});
      assert |m| == |m - {k}| + 1;
    }
  }

  lemma SumOfOne<K>(m: map<K, int>, bound: int)
    requires (forall j, k | j in m && k in m :: j == k) && (forall k | k in m :: m[k] <= bound) && 0 <= bound
    ensures Sum(m) <= bound
  {}
}
