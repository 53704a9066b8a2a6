/**
 * The pieces of JavaScript number arithmetic that the texture generator relies on,
 * stated over unbounded integers.
 */
module JsArith {

  /**
   * JavaScript's `a % b` for a positive divisor: the remainder takes the sign of the
   * dividend (truncating division), unlike Dafny's `%`, which is never negative.
   */
  function JsRemainder(a: int, b: int): (r: int)
    requires b > 0
    ensures a >= 0 ==> 0 <= r < b && r == a % b
    ensures a < 0 ==> -b < r <= 0 && r == -((-a) % b)
  {
    if a >= 0 then a % b else -((-a) % b)
  }

  /** 2 to the power `k`. */
  function Pow2(k: nat): (p: nat)
    ensures p >= 1
  {
    if k == 0 then 1 else 2 * Pow2(k - 1)
  }
}
