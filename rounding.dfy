/**
 * The rounding and remainder operators of the two languages the system is
 * written in, on exact reals and unbounded integers.
 *
 * - Python's built-in `round(x)` rounds half to even.
 * - JavaScript's `Math.round(x)` rounds half up (towards +infinity).
 * - Python's float `%` takes the sign of the divisor (floored modulo).
 * - JavaScript's `%` takes the sign of the dividend (truncated remainder).
 */
module Rounding {

  /** Python `round(x)`: the nearest integer, ties to the even neighbour. */
  function RoundHalfEven(x: real): (k: int)
    ensures -0.5 <= k as real - x <= 0.5
    ensures k as real - x == 0.5 || x - k as real == 0.5 ==> k % 2 == 0
  {
    var f := x.Floor;
    var d := x - f as real;
    if d < 0.5 then f
    else if d > 0.5 then f + 1
    else if f % 2 == 0 then f
    else f + 1
  }

  /** JavaScript `Math.round(x)`: the nearest integer, ties towards +infinity. */
  function RoundHalfUp(x: real): (k: int)
    ensures -0.5 < k as real - x <= 0.5
  {
    (x + 0.5).Floor
  }

  /** Python `x % 360` on floats: the result lies in [0, 360) and differs
      from x by a whole number of turns. */
  function Mod360(x: real): (r: real)
    ensures 0.0 <= r < 360.0
    ensures ((x - r) / 360.0).Floor as real == (x - r) / 360.0
  {
    var q := (x / 360.0).Floor;
    assert q as real <= x / 360.0 < q as real + 1.0;
    assert (x - (x - 360.0 * q as real)) / 360.0 == q as real;
    x - 360.0 * q as real
  }

  /** JavaScript `a % 16` on an integer-valued number: the result has the
      sign of `a`, and it is Python's `a % 16`, or that minus 16 when
      negative. */
  function TruncRem16(a: int): (r: int)
    ensures a >= 0 ==> 0 <= r < 16
    ensures a < 0 ==> -16 < r <= 0
    ensures a % 16 == if r < 0 then r + 16 else r
  {
    if a >= 0 then a % 16 else -((-a) % 16)
  }
}
