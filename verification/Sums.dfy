/** Finite sums over maps: every conservation and solvency law of the pallets is stated with `Sum`. */
module Sums {

  ghost function Pick<K, V>(m: map<K, V>): (k: K)
    requires m != map[]
    ensures k in m
  {
    assert m.Keys != {};
    var k :| k in m; k
  }

  ghost function Sum<K>(m: map<K, int>): int
    decreases |m|
  {
    if m == map[] then 0
    else
      var k := Pick(m);
      m[k] + Sum(m - {k})
  }

  lemma CardInsert<K, V>(m: map<K, V>, k: K, v: V)
    ensures |m[k := v]| == |m| + if k in m then 0 else 1
  {
    assert m[k := v].Keys == m.Keys + {k};
  }

  lemma CardRemove<K, V>(m: map<K, V>, k: K)
    requires k in m
    ensures |m - {k}| == |m| - 1
  {
    assert (m - {k}).Keys == m.Keys - {k};
  }

  /** The summand at any key may be split off, whatever order the sum was built in. */
  lemma {:induction false} SumRemove<K>(m: map<K, int>, k: K)
    requires k in m
    ensures Sum(m) == m[k] + Sum(m - {k})
    decreases |m|
  {
    var k0 := Pick(m);
    if k0 != k {
      SumRemove(m - {k0}, k);
      SumRemove(m - {k}, k0);
      assert m - {k0} - {k} == m - {k} - {k0};
    }
  }

  lemma SumInsert<K>(m: map<K, int>, k: K, v: int)
    requires k !in m
    ensures Sum(m[k := v]) == Sum(m) + v
  {
    SumRemove(m[k := v], k);
    assert m[k := v] - {k} == m;
  }

  lemma SumUpdate<K>(m: map<K, int>, k: K, v: int)
    requires k in m
    ensures Sum(m[k := v]) == Sum(m) - m[k] + v
  {
    SumRemove(m, k);
    SumRemove(m[k := v], k);
    assert m[k := v] - {k} == m - {k};
  }

  /** Pointwise order lifts to sums. */
  lemma {:induction false} SumNonNegative<K>(m: map<K, int>)
    requires forall k :: k in m ==> 0 <= m[k]
    ensures 0 <= Sum(m)
    decreases |m|
  {
    if m != map[] {
      SumNonNegative(m - {Pick(m)});
    }
  }

  /** No summand of a sum of naturals exceeds the sum. */
  lemma SumAtLeast<K>(m: map<K, int>, k: K)
    requires k in m
    requires forall j :: j in m ==> 0 <= m[j]
    ensures m[k] <= Sum(m)
  {
    SumRemove(m, k);
    SumNonNegative(m - {k});
  }

  lemma Distribute(f: int, a: int, b: int)
    ensures f * (a + b) == f * a + f * b
  {
  }

  ghost predicate Scaled(f: int, x: int, y: int) { y == f * x }

  lemma {:induction false} SumScale<K>(m: map<K, int>, f: int, r: map<K, int>)
    requires m.Keys == r.Keys
    requires forall k {:trigger Scaled(f, m[k], r[k])} :: k in m ==> Scaled(f, m[k], r[k])
    ensures Scaled(f, Sum(m), Sum(r))
    decreases |m|
  {
    if m == map[] {
      assert r == map[];
    } else {
      var k := Pick(m);
      SumRemove(r, k);
      ScaleRest(m, f, r, k);
      SumScale(m - {k}, f, r - {k});
      assert Scaled(f, m[k], r[k]);
      Distribute(f, m[k], Sum(m - {k}));
    }
  }

  lemma ScaleRest<K>(m: map<K, int>, f: int, r: map<K, int>, k: K)
    requires m.Keys == r.Keys && k in m
    requires forall k {:trigger Scaled(f, m[k], r[k])} :: k in m ==> Scaled(f, m[k], r[k])
    ensures var m', r' := m - {k}, r - {k};
            forall j {:trigger Scaled(f, m'[j], r'[j])} :: j in m' ==> Scaled(f, m'[j], r'[j])
  {
    hide Scaled;
    var m', r' := m - {k}, r - {k};
    forall j | j in m'
      ensures Scaled(f, m'[j], r'[j])
    {
      assert Scaled(f, m[j], r[j]);
    }
  }

  lemma {:induction false} SumAdd<K>(m: map<K, int>, n: map<K, int>, r: map<K, int>)
    requires m.Keys == n.Keys == r.Keys
    requires forall k :: k in m ==> r[k] == m[k] + n[k]
    ensures Sum(r) == Sum(m) + Sum(n)
    decreases |m|
  {
    if m == map[] {
      assert n == map[] && r == map[];
    } else {
      var k := Pick(m);
      SumRemove(n, k);
      SumRemove(r, k);
      SumAdd(m - {k}, n - {k}, r - {k});
    }
  }
}
