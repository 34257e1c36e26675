/** Numeric facts the watermark routine borrows from C#'s `float` and `int`. */
module Numeric {

  /** `float.MaxValue`: the largest finite single-precision value, (2 - 2^-23) * 2^127. */
  const FloatMax: real := 340282346638528859811704183484516925440.0

  /** The C# conversion `(int)x` of a float: the fractional part is dropped,
      rounding toward zero (not toward minus infinity as `Floor` does). */
  function Trunc(x: real): (n: int)
    ensures 0.0 <= x ==> 0 <= n && n as real <= x < n as real + 1.0
    ensures x < 0.0 ==> n <= 0 && n as real - 1.0 < x <= n as real
  {
    if x >= 0.0 then x.Floor else -((-x).Floor)
  }
}
