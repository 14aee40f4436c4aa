/** `Math.round` applied to a quotient of integers. JavaScript's `Math.round`
    rounds to the nearest integer and takes halves upwards, so for `q > 0`
    `Math.round(p / q)` is the floor of `p / q + 1/2`, that is
    `(2 * p + q) div (2 * q)`. Exact rationals stand in for the doubles of the
    source: a quotient that lands exactly on a half in exact arithmetic may
    round the other way in IEEE-754. */
module Numeric {

  /** The integer nearest to `p / q`, halves rounded up. */
  function RoundDiv(p: int, q: int): (r: int)
    requires q > 0
    ensures 2 * q * r <= 2 * p + q < 2 * q * (r + 1)
  {
    var d := 2 * q;
    var n := 2 * p + q;
    assert n == d * (n / d) + n % d;
    n / d
  }

  /** `Math.round(p / q * 100)`: `p` out of `q` as a whole percentage. */
  function RoundedPercent(p: int, q: int): (r: int)
    requires q > 0
    ensures 2 * q * r <= 200 * p + q < 2 * q * (r + 1)
    ensures 0 <= p ==> 0 <= r
    ensures p <= q ==> r <= 100
  {
    var r := RoundDiv(100 * p, q);
    RoundDivMonotone(0, 100 * p, q);
    RoundDivMonotone(100 * p, 100 * q, q);
    RoundDivExact(100, q);
    r
  }

  /** Rounding a larger quotient never gives a smaller integer. */
  lemma RoundDivMonotone(a: int, b: int, q: int)
    requires q > 0
    ensures a <= b ==> RoundDiv(a, q) <= RoundDiv(b, q)
  {
    if a <= b && RoundDiv(a, q) > RoundDiv(b, q) {
      var ra, rb := RoundDiv(a, q), RoundDiv(b, q);
      assert 2 * q * (rb + 1) <= 2 * q * ra by {
        MulMonotone(2 * q, rb + 1, ra);
      }
    }
  }

  /** An exact quotient is its own rounding: `Math.round(k * q / q) == k`. */
  lemma RoundDivExact(k: int, q: int)
    requires q > 0
    ensures RoundDiv(k * q, q) == k
  {
    var r := RoundDiv(k * q, q);
    if r < k {
      MulMonotone(2 * q, r + 1, k);
    } else if r > k {
      MulMonotone(2 * q, k + 1, r);
    }
  }

  lemma MulMonotone(c: int, x: int, y: int)
    requires c > 0 && x <= y
    ensures c * x <= c * y
  {
  }
}
