/*
  A point source and its contribution to a receptor (point.java).

  The Huang (1979) plume formula itself is built from exp, pow and a Bessel
  function, which stay uninterpreted; what the model pins down is the frame
  the point is evaluated in, the guard on the downwind distance, the clamp on
  zero elevations and the short-circuit on a negligible prefactor.
*/
module PointSources {
  import opened Numerics
  import opened Coordinates
  import opened Parameters

  /**
    The frame `normalize` builds: the receptor is taken relative to the point
    and turned so that the wind comes from -x. The downwind distance is the
    negated along-wind component and the lateral distance is its absolute value.
  */
  function NormalizedFrame(location: Vec3, receptor: Vec3, d: Dispersion, t: Transcendentals): (h: Huang)
    ensures h.y >= 0.0
    ensures h.z == receptor.z && h.zs == location.z
  {
    var offset := Huang(receptor.x - location.x, receptor.y - location.y, receptor.z, location.z);
    var angle := HorizontalAngle(offset.Horizontal(), t) - d.windAngle;
    var length := HorizontalNorm(offset.Horizontal(), t);
    Huang(-length * t.cos(angle), Abs(length * t.sin(angle)), receptor.z, location.z)
  }

  /** find_sigma: the lateral spread at the downwind distance. */
  function Sigma(h: Huang, d: Dispersion, t: Transcendentals): real
  {
    d.c + d.d * t.pow(h.x, d.e)
  }

  /** An elevation of exactly 0 is lifted to 1 mm; any other value is kept. */
  function LiftedElevation(z: real): (r: real)
    ensures r != 0.0
    ensures z != 0.0 ==> r == z
  {
    if z == 0.0 then 0.001 else z
  }

  /** The lateral factor of the prefactor: a Gaussian in the lateral distance. */
  function Lateral(h: Huang, sigma: real, t: Transcendentals): real
  {
    t.exp(Quotient(-t.pow(h.y, 2.0), 2.0 * t.pow(sigma, 2.0), t.quotientByZero))
  }

  /** The vertical factor of the prefactor. */
  function Vertical(z: real, zs: real, d: Dispersion, t: Transcendentals): real
  {
    t.pow(z * zs, (1.0 - d.n) / 2.0)
  }

  /** The decay factor of the prefactor, in the two elevations. */
  function Decay(h: Huang, z: real, zs: real, d: Dispersion, t: Transcendentals): real
  {
    var alpha := 2.0 + d.p - d.n;
    t.exp(Quotient(-d.a * (t.pow(z, alpha) + t.pow(zs, alpha)), d.b * t.pow(alpha, 2.0) * h.x, t.quotientByZero))
  }

  /** The divisor of the spread factor `q / (HUANG_1 * sigma)`. */
  function SpreadDivisor(h: Huang, d: Dispersion, t: Transcendentals): real
  {
    Huang1 * Sigma(h, d, t)
  }

  /** The downwind divisor `b * alpha * x` of the prefactor. */
  function DownwindDivisor(h: Huang, d: Dispersion): real
  {
    d.b * (2.0 + d.p - d.n) * h.x
  }

  /** The prefactor `temp1` of the Huang formula, with the elevations already lifted. */
  function Prefactor(q: real, h: Huang, z: real, zs: real, d: Dispersion, t: Transcendentals): real
  {
    var spread := Quotient(q, SpreadDivisor(h, d, t), t.quotientByZero);
    Quotient(spread * Lateral(h, Sigma(h, d, t), t) * Vertical(z, zs, d, t), DownwindDivisor(h, d), t.quotientByZero)
      * Decay(h, z, zs, d, t)
  }

  /** The argument `temp2` of the Bessel function. */
  function BesselArgument(h: Huang, z: real, zs: real, d: Dispersion, t: Transcendentals): real
  {
    var alpha := 2.0 + d.p - d.n;
    Quotient(2.0 * d.a * t.pow(z * zs, alpha / 2.0), d.b * t.pow(alpha, 2.0) * h.x, t.quotientByZero)
  }

  /** The order of the Bessel function is minus this value. */
  function BesselOrder(d: Dispersion, t: Transcendentals): real
  {
    Quotient(1.0 - d.n, 2.0 + d.p - d.n, t.quotientByZero)
  }

  /** The last step of the formula: a negligible prefactor short-circuits to 0. */
  function Evaluated(temp1: real, temp2: real, order: real, t: Transcendentals): real
  {
    if Abs(temp1) < 1e-200 then 0.0 else temp1 * t.bessel(temp2, -order)
  }

  /** The concentration `calculate_contribution` stores for a source of strength `q` in frame `h`. */
  function Contribution(q: real, h: Huang, d: Dispersion, t: Transcendentals): real
  {
    if h.x < DistanceTolerance then 0.0
    else
      var z := LiftedElevation(h.z);
      var zs := LiftedElevation(h.zs);
      Evaluated(Prefactor(q, h, z, zs, d, t), BesselArgument(h, z, zs, d, t), BesselOrder(d, t), t)
  }

  /** A receptor closer than the distance tolerance downwind (or upwind) gets nothing. */
  lemma UpwindContributesNothing(q: real, h: Huang, d: Dispersion, t: Transcendentals)
    requires h.x < DistanceTolerance
    ensures Contribution(q, h, d, t) == 0.0
  {
  }

  /**
    A negligible prefactor yields 0 without consulting the Bessel routine:
    the last step gives 0 whatever Bessel routine it is handed.
  */
  lemma NegligiblePrefactorIgnoresBessel(q: real, h: Huang, d: Dispersion, t: Transcendentals)
    requires h.x >= DistanceTolerance
    requires Abs(Prefactor(q, h, LiftedElevation(h.z), LiftedElevation(h.zs), d, t)) < 1e-200
    ensures Contribution(q, h, d, t) == 0.0
    ensures forall bessel: (real, real) -> real ::
              Evaluated(Prefactor(q, h, LiftedElevation(h.z), LiftedElevation(h.zs), d, t),
                        BesselArgument(h, LiftedElevation(h.z), LiftedElevation(h.zs), d, t),
                        BesselOrder(d, t), t.(bessel := bessel)) == 0.0
  {
  }

  /** Scaling the dividend of a double division by a non-zero divisor scales the quotient. */
  lemma QuotientScales(c: real, x: real, den: real, byZero: real -> real)
    requires den != 0.0
    ensures Quotient(c * x, den, byZero) == c * Quotient(x, den, byZero)
  {
    assert (c * x) / den == c * (x / den);
  }

  /** The shape of the prefactor, with its factors left abstract, is linear in its dividend. */
  lemma ShapeScales(c: real, q: real, spreadDen: real, lateral: real, vertical: real, den: real, decay: real,
                    byZero: real -> real)
    requires spreadDen != 0.0 && den != 0.0
    ensures Quotient(Quotient(c * q, spreadDen, byZero) * lateral * vertical, den, byZero) * decay
         == c * (Quotient(Quotient(q, spreadDen, byZero) * lateral * vertical, den, byZero) * decay)
  {
    var spread := Quotient(q, spreadDen, byZero);
    QuotientScales(c, q, spreadDen, byZero);
    assert (c * spread) * lateral * vertical == c * (spread * lateral * vertical);
    QuotientScales(c, spread * lateral * vertical, den, byZero);
  }

  /**
    The prefactor is linear in the strength wherever its two divisors are
    not zero: only the spread factor depends on `q`.
  */
  lemma PrefactorScales(q: real, c: real, h: Huang, z: real, zs: real, d: Dispersion, t: Transcendentals)
    requires SpreadDivisor(h, d, t) != 0.0 && DownwindDivisor(h, d) != 0.0
    ensures Prefactor(c * q, h, z, zs, d, t) == c * Prefactor(q, h, z, zs, d, t)
  {
    hide SpreadDivisor, DownwindDivisor, Lateral, Vertical, Decay;
    ShapeScales(c, q, SpreadDivisor(h, d, t), Lateral(h, Sigma(h, d, t), t), Vertical(z, zs, d, t),
                DownwindDivisor(h, d), Decay(h, z, zs, d, t), t.quotientByZero);
  }

  /** A product of two non-zero reals is not zero. */
  lemma ProductNonZero(x: real, y: real)
    requires x != 0.0 && y != 0.0
    ensures x * y != 0.0
  {
  }

  /** Beyond the distance tolerance the prefactor's divisors vanish only with sigma, b or alpha. */
  lemma DivisorsNonZero(h: Huang, d: Dispersion, t: Transcendentals)
    requires h.x >= DistanceTolerance && Sigma(h, d, t) != 0.0 && d.b != 0.0 && 2.0 + d.p - d.n != 0.0
    ensures SpreadDivisor(h, d, t) != 0.0 && DownwindDivisor(h, d) != 0.0
  {
    ProductNonZero(Huang1, Sigma(h, d, t));
    ProductNonZero(d.b, 2.0 + d.p - d.n);
    ProductNonZero(d.b * (2.0 + d.p - d.n), h.x);
  }

  /**
    Above the distance tolerance, a source `c` times as strong gives `c`
    times the concentration, as long as both prefactors clear the
    negligible-prefactor cutoff; a zero strength gives nothing.
  */
  lemma ContributionScales(q: real, c: real, h: Huang, d: Dispersion, t: Transcendentals)
    requires h.x >= DistanceTolerance && Sigma(h, d, t) != 0.0 && d.b != 0.0 && 2.0 + d.p - d.n != 0.0
    requires Abs(Prefactor(q, h, LiftedElevation(h.z), LiftedElevation(h.zs), d, t)) >= 1e-200
    requires Abs(c * Prefactor(q, h, LiftedElevation(h.z), LiftedElevation(h.zs), d, t)) >= 1e-200
    ensures Contribution(c * q, h, d, t) == c * Contribution(q, h, d, t)
    ensures Contribution(0.0, h, d, t) == 0.0
  {
    hide Prefactor, BesselArgument, BesselOrder;
    var z, zs := LiftedElevation(h.z), LiftedElevation(h.zs);
    var p := Prefactor(q, h, z, zs, d, t);
    var b := t.bessel(BesselArgument(h, z, zs, d, t), -BesselOrder(d, t));
    DivisorsNonZero(h, d, t);
    PrefactorScales(q, c, h, z, zs, d, t);
    PrefactorScales(q, 0.0, h, z, zs, d, t);
    assert 0.0 * q == 0.0;
    assert (c * p) * b == c * (p * b);
  }

  /** The two branches of the last step, as `calculate_contribution` takes them. */
  lemma EvaluatedBranches(temp1: real, temp2: real, order: real, t: Transcendentals)
    ensures Abs(temp1) < 1e-200 ==> Evaluated(temp1, temp2, order, t) == 0.0
    ensures Abs(temp1) >= 1e-200 ==> Evaluated(temp1, temp2, order, t) == temp1 * t.bessel(temp2, -order)
  {
  }

  class Point {
    var location: Vec3
    var sourceStrength: real
    var huang: Huang
    var concentration: real

    /** A point source at the origin with strength 0. */
    constructor ()
      ensures location == Origin && sourceStrength == 0.0
      ensures huang == NoHuang && concentration == 0.0
    {
      location, sourceStrength := Origin, 0.0;
      huang, concentration := NoHuang, 0.0;
    }

    /** A point source at a copy of `at` with the given strength. */
    constructor At(at: Vec3, strength: real)
      ensures location == at && sourceStrength == strength
      ensures huang == NoHuang && concentration == 0.0
    {
      location, sourceStrength := at, strength;
      huang, concentration := NoHuang, 0.0;
    }

    method SetLocation(at: Vec3)
      modifies this
      ensures location == at
      ensures sourceStrength == old(sourceStrength) && huang == old(huang) && concentration == old(concentration)
    {
      location := at;
    }

    method SetSourceStrength(strength: real)
      modifies this
      ensures sourceStrength == strength
      ensures location == old(location) && huang == old(huang) && concentration == old(concentration)
    {
      sourceStrength := strength;
    }

    /** normalize: fills the Huang frame from this point, the receptor and the wind. */
    method Normalize(receptor: Vec3, d: Dispersion, t: Transcendentals)
      modifies this
      ensures huang == NormalizedFrame(location, receptor, d, t)
      ensures location == old(location) && sourceStrength == old(sourceStrength)
      ensures concentration == old(concentration)
    {
      var at := location;
      var offset := Huang(receptor.x - at.x, receptor.y - at.y, receptor.z, at.z);
      var offsetAngle := HorizontalAngle(offset.Horizontal(), t) - d.windAngle;
      var receptorLength := HorizontalNorm(offset.Horizontal(), t);
      huang := offset.(x := -receptorLength * t.cos(offsetAngle), y := Abs(receptorLength * t.sin(offsetAngle)));
    }

    /**
      calculate_contribution: normalises and stores this point's
      concentration at the receptor. Only the frame and the concentration change.
    */
    method CalculateContribution(receptor: Vec3, d: Dispersion, t: Transcendentals)
      modifies this
      ensures location == old(location) && sourceStrength == old(sourceStrength)
      ensures huang == NormalizedFrame(location, receptor, d, t)
      ensures concentration == Contribution(sourceStrength, huang, d, t)
    {
      Normalize(receptor, d, t);
      var h, q := huang, sourceStrength;
      var c := 0.0;
      if h.x >= DistanceTolerance {
        var z := h.z;
        var zs := h.zs;
        var v := BesselOrder(d, t);
        if z == 0.0 {
          z := 0.001;
        }
        if zs == 0.0 {
          zs := 0.001;
        }
        var temp1 := Prefactor(q, h, z, zs, d, t);
        var temp2 := BesselArgument(h, z, zs, d, t);
        if Abs(temp1) >= 1e-200 {
          c := temp1 * t.bessel(temp2, -v);
        }
        EvaluatedBranches(temp1, temp2, v, t);
      }
      concentration := c;
    }
  }
}
