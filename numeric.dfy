// Rounding and clamping as JavaScript performs them on the values of this program.
module Numeric {
  /** `Math.round`: the nearest integer, halves rounded towards +infinity. */
  function Round(x: real): (r: int)
    ensures r as real - 0.5 <= x < r as real + 0.5
  {
    (x + 0.5).Floor
  }

  function Max(a: real, b: real): (r: real)
    ensures r >= a && r >= b && (r == a || r == b)
  {
    if a >= b then a else b
  }

  function Min(a: real, b: real): (r: real)
    ensures r <= a && r <= b && (r == a || r == b)
  {
    if a <= b then a else b
  }

  /** `Math.max(0, Math.min(100, x))`, the clamp every score goes through. */
  function Clamp100(x: real): (r: real)
    ensures 0.0 <= r <= 100.0
    ensures 0.0 <= x <= 100.0 ==> r == x
    ensures x < 0.0 ==> r == 0.0
    ensures x > 100.0 ==> r == 100.0
  {
    Max(0.0, Min(100.0, x))
  }

  /** `Math.round(n / d)` for integers, stated as an integer inequality on the result. */
  function RoundDiv(n: int, d: int): (r: int)
    requires d > 0
    ensures 2 * d * r - d <= 2 * n < 2 * d * r + d
  {
    var q := n as real / d as real;
    var r := Round(q);
    assert q * d as real == n as real;
    MulBounds(r as real - 0.5, q, r as real + 0.5, d as real);
    r
  }

  /** The rounded mean of `count` values summing to `sum`, or 0 when there are none. */
  function MeanOrZero(sum: int, count: nat): int
  {
    if count > 0 then RoundDiv(sum, count) else 0
  }

  lemma MulBounds(lo: real, x: real, hi: real, k: real)
    requires lo <= x < hi && k > 0.0
    ensures lo * k <= x * k < hi * k
  {
  }

  /**
   * An average rounded with Math.round stays between the bounds of the
   * values averaged: if every one of `count` values lies in [lo, hi], so
   * does the rounded mean of their sum.
   */
  lemma {:induction false} RoundedMeanBounds(sum: int, count: int, lo: int, hi: int)
    requires count > 0
    requires count * lo <= sum <= count * hi
    ensures lo <= RoundDiv(sum, count) <= hi
  {
    var r := RoundDiv(sum, count);
    assert 2 * count * r < 2 * count * (hi + 1) by {
      assert 2 * count * hi == 2 * (count * hi);
      assert 2 * count * (hi + 1) == 2 * count * hi + 2 * count;
    }
    assert 2 * count * (lo - 1) < 2 * count * r by {
      assert 2 * count * lo == 2 * (count * lo);
      assert 2 * count * (lo - 1) == 2 * count * lo - 2 * count;
    }
    MulStrict(2 * count, r, hi + 1);
    MulStrict(2 * count, lo - 1, r);
  }

  /** Multiplying by a positive factor keeps a strict order, and only then. */
  lemma MulStrict(k: int, a: int, b: int)
    requires k > 0
    ensures k * a < k * b <==> a < b
  {
    if a < b {
      MulMono(k, a + 1, b);
      assert k * (a + 1) == k * a + k;
    } else {
      MulMono(k, b, a);
    }
  }

  lemma MulMono(k: int, a: int, b: int)
    requires k > 0 && a <= b
    ensures k * a <= k * b
  {
  }

  /** Math.round never reverses the order of two values. */
  lemma RoundMonotone(x: real, y: real)
    requires x <= y
    ensures Round(x) <= Round(y)
  {
  }

  /** Math.round leaves whole numbers alone. */
  lemma RoundWhole(n: int)
    ensures Round(n as real) == n
  {
  }
}
