/**
 * The floating-point library functions the angle code calls, kept abstract.
 * `Math.atan2`, `math.acos` and `math.sqrt` are passed to the model as function
 * parameters; the predicates below state the only facts the proofs rely on.
 */
module Trig {

  /** `Math.PI` and `math.pi`. */
  const Pi: real := 3.141592653589793

  /** `Math.atan2(y, x)` lies in [-pi, pi]. */
  ghost predicate IsAtan2(atan2: (real, real) -> real)
  {
    forall y: real, x: real :: -Pi <= atan2(y, x) <= Pi
  }

  /** `math.acos(c)` lies in [0, pi] on its domain [-1, 1]. */
  ghost predicate IsAcos(acos: real -> real)
  {
    forall c: real :: -1.0 <= c <= 1.0 ==> 0.0 <= acos(c) <= Pi
  }

  /**
   * `math.sqrt(s)` of a non-negative `s` is non-negative, and zero exactly
   * when `s` is zero.
   */
  ghost predicate IsSqrt(sqrt: real -> real)
  {
    forall s: real :: 0.0 <= s ==>
      0.0 <= sqrt(s) && (0.0 < s ==> 0.0 < sqrt(s)) && (s == 0.0 ==> sqrt(s) == 0.0)
  }

  function Abs(x: real): real
  {
    if x < 0.0 then -x else x
  }

  function Min(a: real, b: real): real
  {
    if a <= b then a else b
  }

  function Max(a: real, b: real): real
  {
    if a >= b then a else b
  }
}
