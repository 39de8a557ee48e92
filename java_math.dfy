/**
 * The pieces of Java's numeric semantics that the visualizer relies on and that
 * differ from Dafny's: the `(int)` cast of a double, `Math.floor`, and the
 * integer remainder `%`, which truncates toward zero. The transcendental
 * functions are not given a definition: they are bundled in `Trig` and passed in.
 */
module JavaMath {

  /** `Math.sin`, `Math.cos` and `Math.toRadians`, left uninterpreted. */
  datatype Trig = Trig(sin: real -> real, cos: real -> real, toRadians: real -> real)

  /** The one identity of sine and cosine the model relies on: every (cos, sin) pair lies on the unit circle. */
  ghost predicate UnitCircle(math: Trig)
  {
    forall x :: math.cos(x) * math.cos(x) + math.sin(x) * math.sin(x) == 1.0
  }

  /** `(int) x` for a double: truncation toward zero (saturation at the int range is not modelled). */
  function TruncToInt(x: real): (r: int)
    ensures 0.0 <= x ==> r as real <= x < r as real + 1.0
    ensures x < 0.0 ==> r as real - 1.0 < x <= r as real
  {
    if x >= 0.0 then x.Floor else -((-x).Floor)
  }

  /** `(int) Math.floor(x)`: rounding toward negative infinity. */
  function FloorToInt(x: real): (r: int)
    ensures r as real <= x < r as real + 1.0
  {
    x.Floor
  }

  /** Java's `a / b` on int for a positive divisor: the quotient truncated toward zero. */
  function Quot(a: int, b: int): int
    requires b > 0
  {
    if a >= 0 then a / b else -((-a) / b)
  }

  /**
   * Java's `a % b` on int for a positive divisor: the remainder of truncated
   * division, which takes the sign of the dividend (Dafny's `%` is Euclidean and
   * never negative).
   */
  function Rem(a: int, b: int): (r: int)
    requires b > 0
    ensures a == Quot(a, b) * b + r
    ensures 0 <= a ==> 0 <= r < b
    ensures a < 0 ==> -b < r <= 0
  {
    if a >= 0 then a % b else -((-a) % b)
  }
}
