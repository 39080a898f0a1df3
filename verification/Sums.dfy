/** Sums over finite maps, and integer division facts. */
module Sums {

  ghost function Sum<K>(m: map<K, int>): int
    decreases |m|
  {
    if m == map[] then 0 else
      var k :| k in m;
      m[k] + Sum(m - {k})
  }

  /** The sum does not depend on the order in which the map is visited. */
  lemma {:induction false} SumRemove<K>(m: map<K, int>, k: K)
    requires k in m
    ensures Sum(m) == m[k] + Sum(m - {k})
    decreases |m|
  {
    var j :| j in m && Sum(m) == m[j] + Sum(m - {j});
    if j != k {
      SumRemove(m - {j}, k);
      SumRemove(m - {k}, j);
      assert m - {j} - {k} == m - {k} - {j};
    }
  }

  lemma SumUpdate<K>(m: map<K, int>, k: K, v: int)
    ensures Sum(m[k := v]) == Sum(m) + v - if k in m then m[k] else 0
  {
    SumRemove(m[k := v], k);
    if k in m {
      SumRemove(m, k);
      assert m[k := v] - {k} == m - {k};
    } else {
      assert m[k := v] - {k} == m;
    }
  }

  /** One value grows by `v`, all others stay; without `k` nothing changes. */
  lemma SumBump<K>(a: map<K, int>, b: map<K, int>, k: K, v: int)
    requires a.Keys == b.Keys && (forall x | x in a && x != k :: b[x] == a[x]) && (k in a ==> b[k] == a[k] + v)
    ensures Sum(b) == Sum(a) + if k in a then v else 0
  {
    if k in a {
      assert b == a[k := a[k] + v];
      SumUpdate(a, k, a[k] + v);
    } else {
      assert b == a;
    }
  }

  lemma {:induction false} SumAtMost<K>(a: map<K, int>, b: map<K, int>)
    requires a.Keys <= b.Keys && (forall k | k in a :: a[k] <= b[k]) && (forall k | k in b && k !in a :: b[k] >= 0)
    ensures Sum(a) <= Sum(b)
    decreases |b|
  {
    if b != map[] {
      var k :| k in b;
      SumRemove(b, k);
      if k in a {
        SumRemove(a, k);
        SumAtMost(a - {k}, b - {k});
      } else {
        SumAtMost(a, b - {k});
      }
    } else {
      assert a == map[];
    }
  }

  /** Values that complement each other to 100 have sums that do. */
  lemma {:induction false} SumComplement<K>(a: map<K, int>, b: map<K, int>)
    requires a.Keys == b.Keys && forall k | k in a :: a[k] == 100 - b[k]
    ensures Sum(a) == 100 * |a| - Sum(b)
    decreases |a|
  {
    if a == map[] {
      assert b == map[];
    } else {
      var k :| k in a;
      SumRemove(a, k);
      SumRemove(b, k);
      SumComplement(a - {k}, b - {k});
      assert |a - {k}| == |a| - 1 by { assert a == (a - {k})[k := a[k]]; }
    }
  }

  // ---- Integer division ----

  lemma Distributes(n: int, x: int, y: int)
    ensures n * (x - y) == n * x - n * y
  {
  }

  lemma {:induction false} Multiple(n: int, x: int)
    requires n > 0
    ensures x >= 1 ==> n * x >= n
    ensures x <= -1 ==> n * x <= -n
  {
  }

  /** `q` is the quotient of `a` by `n` when the remainder is in range. */
  lemma Quotient(a: int, n: int, q: int, e: int)
    requires n > 0 && a == n * q + e && 0 <= e < n
    ensures a / n == q
  {
    var d := a / n;
    Distributes(n, q, d);
    Multiple(n, q - d);
  }

  function CeilDiv(a: int, n: int): int
    requires n > 0
  {
    (a + n - 1) / n
  }

  /** Rounding the missing part down rounds what is left up. */
  lemma CeilOfRest(missing: int, n: int)
    requires n > 0
    ensures CeilDiv(100 * n - missing, n) == 100 - missing / n
  {
    var d, e := missing / n, missing % n;
    Distributes(n, 100, d);
    Quotient(100 * n - missing + n - 1, n, 100 - d, n - 1 - e);
  }

  lemma QuotientGrows(a: int, b: int, n: int)
    requires n > 0 && a <= b
    ensures a / n <= b / n
  {
    Distributes(n, a / n, b / n);
    Multiple(n, a / n - b / n);
  }
}
