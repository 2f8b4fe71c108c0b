/*
  Numeric primitives of the roadway dispersion engine.

  Java doubles are modelled as mathematical reals. The library routines the
  engine calls (cos, sin, atan2, exp, pow, sqrt and the modified Bessel
  function of the hyperbolics package) are not interpreted: a caller supplies
  them through the `Transcendentals` record, and a property that needs one of
  their ranges says so in a `requires` clause.
*/
module Numerics {

  /** java.lang.Math.PI */
  const Pi: real := 3.141592653589793

  /** constants.DISTANCE_TOLERANCE: nearest downwind distance (m) that is evaluated */
  const DistanceTolerance: real := 0.3

  /** constants.HUANG_1, the square root of 2 pi as written in the source */
  const Huang1: real := 2.506628274631

  /** constants.DEGREES_TO_RADIANS */
  const DegreesToRadians: real := 0.01745329251994

  /**
    The transcendental routines used by the engine, left uninterpreted.
    `quotientByZero(x)` stands for the IEEE value of `x / 0.0` (an infinity or
    NaN), which has no counterpart among the reals.
  */
  datatype Transcendentals = Transcendentals(
    cos: real -> real,
    sin: real -> real,
    atan2: (real, real) -> real,
    exp: real -> real,
    pow: (real, real) -> real,
    sqrt: real -> real,
    bessel: (real, real) -> real,
    quotientByZero: real -> real)

  /** The one range fact this model needs: atan2 returns an angle in [-pi, pi]. */
  ghost predicate Atan2InRange(t: Transcendentals)
  {
    forall y: real, x: real :: -Pi <= t.atan2(y, x) <= Pi
  }

  /** Math.abs */
  function Abs(x: real): (r: real)
    ensures r >= 0.0
    ensures r == x || r == -x
  {
    if x < 0.0 then -x else x
  }

  /** Math.floor, as an integer */
  function Floor(x: real): (r: int)
    ensures r as real <= x < r as real + 1.0
  {
    x.Floor
  }

  /** Math.ceil, as an integer */
  function Ceil(x: real): (r: int)
    ensures r as real - 1.0 < x <= r as real
  {
    -((-x).Floor)
  }

  /** Double division `num / den`, with the IEEE result for a zero divisor left abstract. */
  function Quotient(num: real, den: real, byZero: real -> real): real
  {
    if den == 0.0 then byZero(num) else num / den
  }
}
