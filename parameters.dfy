/*
  The data-only records of the engine (dispersion.java and huang.java).
*/
module Parameters {
  import opened Numerics
  import opened Coordinates

  /**
    Dispersion parameters shared by every point: the power-law wind
    coefficient `a` and exponent `p`, the eddy-diffusivity coefficient `b` and
    exponent `n`, the lateral spread sigma = c + d * x^e, and the direction
    the wind comes from (radians, geometric convention).
  */
  datatype Dispersion = Dispersion(a: real, b: real, c: real, d: real, e: real, n: real, p: real, windAngle: real)

  /** The default dispersion record: every parameter 0. */
  const NoDispersion: Dispersion := Dispersion(0.0, 0.0, 0.0, 0.0, 0.0, 0.0, 0.0, 0.0)

  /**
    The evaluation frame of one point source: downwind distance `x`, lateral
    distance `y`, receptor elevation `z` and source elevation `zs`.
  */
  datatype Huang = Huang(x: real, y: real, z: real, zs: real)
  {
    /** The x-y part as a coordinate, for its horizontal angle and length. */
    function Horizontal(): Vec3
    {
      Vec3(x, y, 0.0)
    }
  }

  /** The default frame: every component 0. */
  const NoHuang: Huang := Huang(0.0, 0.0, 0.0, 0.0)
}
