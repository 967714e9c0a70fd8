/** Real-number helpers shared by the other modules. */
module RealMath {

  /** `Math.abs` over the reals. */
  function Abs(x: real): (r: real)
    ensures r >= 0.0
    ensures r == x || r == -x
  {
    if x < 0.0 then -x else x
  }
}
