/** The Java platform arithmetic that the two composers rely on, stated over
    unbounded integers and exact reals. */
module JavaMath {

  /** `Math.round(double)` followed by the `(int)` cast: the integer nearest to
      `x`, a tie going towards positive infinity. */
  function Round(x: real): (r: int)
    ensures x - 0.5 < r as real <= x + 0.5
  {
    (x + 0.5).Floor
  }

  function Abs(n: int): (r: int)
    ensures r >= 0 && (r == n || r == -n)
  {
    if n < 0 then -n else n
  }

  /** Java's `int` division `a / b`, which truncates towards zero: the
      remainder `a - b * q` is smaller than `|b|` in magnitude and has the
      sign of the dividend. */
  function Div(a: int, b: int): (q: int)
    requires b != 0
    ensures a >= 0 ==> 0 <= a - b * q < Abs(b)
    ensures a < 0 ==> -Abs(b) < a - b * q <= 0
  {
    if a >= 0 then a / b else -((-a) / b)
  }

  /** `Math.min` and `Math.max` on reals (no NaN). */
  function Min(a: real, b: real): (r: real)
    ensures r <= a && r <= b && (r == a || r == b)
  {
    if a <= b then a else b
  }

  function Max(a: real, b: real): (r: real)
    ensures r >= a && r >= b && (r == a || r == b)
  {
    if a >= b then a else b
  }
}
