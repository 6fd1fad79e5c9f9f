/** Monotonicity and additivity of products and floored quotients. */
module Rounding {
  import opened Basics

  lemma MulMonotone(a: int, b: int, c: int)
    requires a <= b && 0 <= c
    ensures a * c <= b * c
    ensures c * a <= c * b
  {
  }

  /** The floored quotient times its divisor never exceeds the dividend, and misses it by less than the divisor. */
  lemma FloorBounds(a: int, d: int)
    requires 0 < d
    ensures (a / d) * d <= a < (a / d) * d + d
  {
    assert a == d * (a / d) + a % d;
  }

  lemma DivMonotone(a: int, b: int, d: int)
    requires a <= b && 0 < d
    ensures a / d <= b / d
  {
    FloorBounds(a, d);
    DivAtLeast(b, d, a / d);
  }

  /** An integer quotient bound from a product bound. */
  lemma DivAtLeast(a: int, d: int, q: int)
    requires 0 < d && q * d <= a
    ensures q <= a / d
  {
    if a / d < q {
      MulMonotone(a / d + 1, q, d);
      FloorBounds(a, d);
    }
  }

  lemma DivBelow(a: int, d: int, q: int)
    requires 0 < d && a < q * d
    ensures a / d < q
  {
    if q <= a / d {
      MulMonotone(q, a / d, d);
      FloorBounds(a, d);
    }
  }

  /** Floors of two fixed-point products add up to the floor of their sum, or fall one short of it. */
  lemma FixedMulSplit(f: nat, a: nat, b: nat)
    ensures FixedMul(f, a) + FixedMul(f, b) <= FixedMul(f, a + b) <= FixedMul(f, a) + FixedMul(f, b) + 1
  {
    assert f * (a + b) == f * a + f * b;
  }

  lemma FixedMulMonotone(f: nat, f': nat, n: nat, n': nat)
    requires f <= f' && n <= n'
    ensures FixedMul(f, n) <= FixedMul(f', n')
  {
    MulMonotone(f, f', n);
    MulMonotone(n, n', f');
    DivMonotone(f * n, f' * n', FIXED_ONE);
  }

  lemma FixedMulBelow(f: nat, n: nat)
    requires f <= FIXED_ONE
    ensures FixedMul(f, n) <= n
  {
    FixedMulMonotone(f, FIXED_ONE, n, n);
    assert FixedMul(FIXED_ONE, n) == n;
  }

  lemma MulAtLeast(d: int, e: int)
    requires d > 0 && e >= 1
    ensures d * e >= d
  {
  }

  lemma ModUnique(n: int, d: int, q: int, r: int)
    requires d > 0 && 0 <= r < d && n == d * q + r
    ensures n % d == r && n / d == q
  {
    var q', r' := n / d, n % d;
    assert d * q == d * q' + d * (q - q');
    if q > q' {
      MulAtLeast(d, q - q');
    } else if q < q' {
      MulAtLeast(d, q' - q);
    }
  }
}
