/** JavaScript number operations used by the scoring code, on integers.

    The source divides and rounds JavaScript numbers; here every such quotient
    is kept as an integer numerator over a positive integer denominator and
    rounded by `RoundDiv`, which is `Math.round(n / d)` taken exactly. */
module Numeric {
  import opened Options

  /** `Math.round(n / d)` for a positive denominator: the integer nearest to
      n / d, with halves rounded up (towards +infinity), as JavaScript does
      for negative operands too (`Math.round(-2.5) == -2`). */
  function RoundDiv(n: int, d: int): (r: int)
    requires d > 0
    ensures 2 * d * r <= 2 * n + d < 2 * d * (r + 1)
  {
    var q := (2 * n + d) / (2 * d);
    assert 2 * n + d == (2 * d) * q + (2 * n + d) % (2 * d);
    q
  }

  /** The postcondition of `RoundDiv` determines its result. */
  lemma RoundDivUnique(n: int, d: int, r: int)
    requires d > 0
    requires 2 * d * r <= 2 * n + d < 2 * d * (r + 1)
    ensures RoundDiv(n, d) == r
  {
    var q := RoundDiv(n, d);
    if q < r {
      assert 2 * d * (q + 1) <= 2 * d * r by { MulMonotone(2 * d, q + 1, r); }
    } else if q > r {
      assert 2 * d * (r + 1) <= 2 * d * q by { MulMonotone(2 * d, r + 1, q); }
    }
  }

  lemma MulMonotone(k: int, a: int, b: int)
    requires k >= 0 && a <= b
    ensures k * a <= k * b
  {
  }

  /** An exact quotient is returned unchanged. */
  lemma RoundDivExact(k: int, d: int)
    requires d > 0
    ensures RoundDiv(k * d, d) == k
  {
    RoundDivUnique(k * d, d, k);
  }

  /** Rounding keeps a quotient at or above `lo` when n / d is. */
  lemma RoundDivAtLeast(n: int, d: int, lo: int)
    requires d > 0
    requires lo * d <= n
    ensures lo <= RoundDiv(n, d)
  {
    var r := RoundDiv(n, d);
    if r < lo {
      MulMonotone(2 * d, r + 1, lo);
    }
  }

  /** Rounding keeps a quotient at or below `hi` when n / d is. */
  lemma RoundDivAtMost(n: int, d: int, hi: int)
    requires d > 0
    requires n <= hi * d
    ensures RoundDiv(n, d) <= hi
  {
    var r := RoundDiv(n, d);
    if r > hi {
      MulMonotone(2 * d, hi + 1, r);
    }
  }

  /** Rounding is monotone in the numerator. */
  lemma RoundDivMonotone(n: int, m: int, d: int)
    requires d > 0 && n <= m
    ensures RoundDiv(n, d) <= RoundDiv(m, d)
  {
    var a, b := RoundDiv(n, d), RoundDiv(m, d);
    if a > b {
      MulMonotone(2 * d, b + 1, a);
    }
  }

  /** `Math.round((a + b) / 2)`: the rounded mean of two integers, which the
      scoring code uses to fold a session value into a running value. */
  function Mean(a: int, b: int): (r: int)
    ensures a <= b ==> a <= r <= b
    ensures b <= a ==> b <= r <= a
  {
    var lo, hi := if a <= b then a else b, if a <= b then b else a;
    RoundDivAtLeast(a + b, 2, lo);
    RoundDivAtMost(a + b, 2, hi);
    RoundDiv(a + b, 2)
  }

  /** JavaScript's `x || d` on a number read from the backend: a missing
      value (null, undefined, NaN) and 0 are falsy and give `d`; every other
      value is kept. */
  function OrDefault(x: Option<int>, d: int): (r: int)
    ensures r == d || (x.Some? && r == x.value && r != 0)
    ensures (x.Some? && x.value != 0) ==> r == x.value
  {
    if x.Some? && x.value != 0 then x.value else d
  }
}
