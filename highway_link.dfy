/*
  A roadway link and its point-source representation (link.java and
  highway_link.java, which is the only kind of link; the two are one class
  here).

  The receptor location and the dispersion parameters, static members shared
  by every link in the source, are parameters of the operations that use
  them. A cleared dispersion record (a null reference in the source) is
  `None`. The names the naming utility hands out are supplied by the caller.
*/
module HighwayLinks {
  import opened Numerics
  import opened Outcomes
  import opened Coordinates
  import opened Parameters
  import opened SpacingSpec
  import opened GridSpec
  import opened PointSources
  import opened HighwayPointSpacing

  /** The static discretizer configuration and the library routines a calculation uses. */
  datatype Engine = Engine(scheme: SpacingScheme, t: Transcendentals, wm: WindModel, byZero: real -> real)

  /** What the discretizer takes from a link: the centre-line ends, the width and the line strength. */
  datatype Source = Source(start: Vec3, end: Vec3, width: real, lineStrength: real)

  /** What `clone` copies: the name, the geometry, the line strength, the traffic flow rate and the emission factor. */
  datatype LinkData = LinkData(name: string, source: Source, trafficFlowrate: real, vehicleEF: real)

  /** The wind the discretizer is handed: coefficient a, exponent p and wind angle of the dispersion record. */
  function WindOf(d: Dispersion): WindVector
  {
    WindVector(d.a, d.p, d.windAngle)
  }

  /** The normalised frame of a link as seen from a receptor. */
  function SourceFrame(src: Source, receptor: Vec3, d: Dispersion, env: Engine): Frame
  {
    Normalization(src.start, src.end, receptor, WindOf(d), env.t, env.wm)
  }

  /**
    Every point vector of the discretizer run finishes (the condition under
    which the source terminates); nothing is needed when there is no
    dispersion record, since the run then stops at once.
  */
  predicate Generating(src: Source, receptor: Vec3, disp: Option<Dispersion>, env: Engine)
  {
    disp.Some? ==> Generates(env.scheme, SourceFrame(src, receptor, disp.value, env), src.width, src.lineStrength, env.wm)
  }

  /** create_point_array on values: the points of the link, or why there are none. */
  function LinkPoints(src: Source, receptor: Vec3, disp: Option<Dispersion>, env: Engine): Result<seq<Sample>>
    requires Generating(src, receptor, disp, env)
  {
    if disp.None? then Err(MissingDispersion)
    else Discretized(SourceFrame(src, receptor, disp.value, env), src.width, src.lineStrength, env.scheme, env.t, env.wm, env.byZero)
  }

  /** The concentration one point source contributes at the receptor. */
  function PointConcentration(s: Sample, receptor: Vec3, d: Dispersion, t: Transcendentals): real
  {
    Contribution(s.strength, NormalizedFrame(s.location, receptor, d, t), d, t)
  }

  /** The superposition of the contributions of a run of point sources. */
  function Concentrations(ss: seq<Sample>, receptor: Vec3, d: Dispersion, t: Transcendentals): real
  {
    if ss == [] then 0.0
    else Concentrations(ss[..|ss| - 1], receptor, d, t) + PointConcentration(ss[|ss| - 1], receptor, d, t)
  }

  /** calculate_link_concentration on values: the link's total at the receptor, or why there is none. */
  function LinkConcentration(src: Source, receptor: Vec3, disp: Option<Dispersion>, env: Engine): (r: Result<real>)
    requires Generating(src, receptor, disp, env)
    ensures r.Ok? <==> LinkPoints(src, receptor, disp, env).Ok?
    ensures r.Err? ==> r.fault == LinkPoints(src, receptor, disp, env).fault
  {
    match LinkPoints(src, receptor, disp, env)
    case Err(f) => Err(f)
    case Ok(ss) => Ok(Concentrations(ss, receptor, disp.value, env.t))
  }

  lemma {:induction false} ConcentrationsAppend(a: seq<Sample>, b: seq<Sample>, receptor: Vec3, d: Dispersion, t: Transcendentals)
    ensures Concentrations(a + b, receptor, d, t) == Concentrations(a, receptor, d, t) + Concentrations(b, receptor, d, t)
    decreases |b|
  {
    if b != [] {
      var init := b[..|b| - 1];
      assert (a + b)[..|a + b| - 1] == a + init;
      ConcentrationsAppend(a, init, receptor, d, t);
    } else {
      assert a + b == a;
    }
  }

  /** Points that all lie upwind of the receptor, or closer than 0.3 m downwind, give the link nothing. */
  lemma {:induction false} UpwindPointsContributeNothing(ss: seq<Sample>, receptor: Vec3, d: Dispersion, t: Transcendentals)
    requires forall k :: 0 <= k < |ss| ==> NormalizedFrame(ss[k].location, receptor, d, t).x < DistanceTolerance
    ensures Concentrations(ss, receptor, d, t) == 0.0
  {
    if ss != [] {
      var last := ss[|ss| - 1];
      UpwindPointsContributeNothing(ss[..|ss| - 1], receptor, d, t);
      UpwindContributesNothing(last.strength, NormalizedFrame(last.location, receptor, d, t), d, t);
    }
  }

  /**
    A link yields no concentration exactly when there is no dispersion
    record, when the configuration is too short for the layout, or when no
    region of the link is at least 0.1 m long.
  */
  lemma LinkConcentrationFails(src: Source, receptor: Vec3, disp: Option<Dispersion>, env: Engine)
    requires Generating(src, receptor, disp, env)
    ensures LinkConcentration(src, receptor, disp, env).Err? <==>
              || disp.None?
              || !Indexable(env.scheme)
              || (var f := SourceFrame(src, receptor, disp.value, env);
                  LongRegions(LaidOut(env.scheme, f.start.y, f.end.y)) == [])
  {
    if disp.Some? {
      DiscretizedFails(SourceFrame(src, receptor, disp.value, env), src.width, src.lineStrength,
                       env.scheme, env.t, env.wm, env.byZero);
    }
  }

  /**
    One run of a new discretizer for the link, the receptor and the wind of
    the dispersion record: the point array it hands out, or its failure.
  */
  method RunDiscretizer(src: Source, receptor: Vec3, d: Dispersion, env: Engine) returns (result: Result<array<Point>>)
    requires Generating(src, receptor, Some(d), env)
    ensures var r := LinkPoints(src, receptor, Some(d), env);
            && (result.Ok? <==> r.Ok?)
            && (result.Err? ==> result.fault == r.fault)
            && (result.Ok? ==>
                  && fresh(result.value) && PointsMatch(result.value, r.value)
                  && (forall k :: 0 <= k < result.value.Length ==> fresh(result.value[k])))
  {
    var hps := new Discretizer(src.start, src.end, src.width, src.lineStrength, receptor, d.a, d.p, d.windAngle);
    ghost var f := SourceFrame(src, receptor, d, env);
    assert f == Normalization(hps.linkStart, hps.linkEnd, hps.receptor, hps.wind, env.t, env.wm);
    ghost var r := Discretized(f, src.width, src.lineStrength, env.scheme, env.t, env.wm, env.byZero);
    assert r == LinkPoints(src, receptor, Some(d), env);
    result := hps.ReturnPointArray(env.scheme, env.t, env.wm, env.byZero);
    if result.Ok? {
      NothingRestoredBefore(r.value, f.offset, f.rotation, env.t);
    }
  }

  lemma NothingRestoredBefore(ss: seq<Sample>, offset: Vec3, rotation: real, t: Transcendentals)
    ensures RestoredAll([], offset, rotation, t) + ss == ss
  {
  }

  /** Every point of the array has been evaluated at the receptor. */
  predicate PointsEvaluated(a: array<Point>, ss: seq<Sample>, receptor: Vec3, d: Dispersion, t: Transcendentals)
    reads a, set k | 0 <= k < a.Length :: a[k]
  {
    PointsMatch(a, ss) && forall k :: 0 <= k < a.Length ==> a[k].concentration == PointConcentration(ss[k], receptor, d, t)
  }

  /**
    The point loop of calculate_link_concentration: each point computes its
    contribution at the receptor, and the contributions are added up in
    array order.
  */
  method SumContributions(points: array<Point>, ghost ss: seq<Sample>, receptor: Vec3, d: Dispersion, t: Transcendentals)
      returns (total: real)
    requires PointsMatch(points, ss)
    modifies set k | 0 <= k < points.Length :: points[k]
    ensures total == Concentrations(ss, receptor, d, t)
    ensures PointsEvaluated(points, ss, receptor, d, t)
  {
    ghost var ps := points[..];
    total := 0.0;
    var i := 0;
    while i < points.Length
      invariant 0 <= i <= points.Length && points[..] == ps
      invariant forall k :: 0 <= k < |ps| ==> ps[k].location == ss[k].location && ps[k].sourceStrength == ss[k].strength
      invariant forall k :: 0 <= k < i ==> ps[k].concentration == PointConcentration(ss[k], receptor, d, t)
      invariant total == Concentrations(ss[..i], receptor, d, t)
    {
      var p := points[i];
      p.CalculateContribution(receptor, d, t);
      assert ss[..i + 1][..i] == ss[..i];
      total := total + p.concentration;
      i := i + 1;
    }
    assert ss[..i] == ss;
  }

  /**
    The work of calculate_link_concentration on a link's geometry: a new
    point array for the receptor and the wind, every point evaluated there,
    and the sum of their contributions, or why no array was made.
  */
  method LinkEvaluation(src: Source, receptor: Vec3, disp: Option<Dispersion>, env: Engine)
      returns (outcome: Outcome, points: array?<Point>, total: real)
    requires Generating(src, receptor, disp, env)
    ensures var r := LinkConcentration(src, receptor, disp, env);
            && (outcome.Completed? <==> r.Ok?)
            && (outcome.Halted? ==> outcome.fault == r.fault)
            && (outcome.Completed? ==>
                  && total == r.value && points != null && fresh(points)
                  && PointsEvaluated(points, LinkPoints(src, receptor, disp, env).value, receptor, disp.value, env.t))
  {
    points, total := null, 0.0;
    if disp.None? {
      return Halted(MissingDispersion), points, total;
    }
    var result := RunDiscretizer(src, receptor, disp.value, env);
    if result.Err? {
      return Halted(result.fault), points, total;
    }
    ghost var ss := LinkPoints(src, receptor, disp, env).value;
    points := result.value;
    total := SumContributions(points, ss, receptor, disp.value, env.t);
    outcome := Completed;
  }

  class HighwayLink {
    var name: string
    var startLocation: Vec3
    var endLocation: Vec3
    var width: real
    var linkLength: real
    var linkAngle: real
    var lineStrength: real
    var trafficFlowrate: real
    var vehicleEF: real
    var totalConcentration: real
    var pointArray: array?<Point>

    function Src(): Source
      reads this`startLocation, this`endLocation, this`width, this`lineStrength
    {
      Source(startLocation, endLocation, width, lineStrength)
    }

    function Data(): LinkData
      reads this`name, this`startLocation, this`endLocation, this`width, this`lineStrength
      reads this`trafficFlowrate, this`vehicleEF
    {
      LinkData(name, Src(), trafficFlowrate, vehicleEF)
    }

    /** Length and angle agree with the current end points. */
    predicate Measured(t: Transcendentals)
      reads this`startLocation, this`endLocation, this`linkLength, this`linkAngle
    {
      && linkLength == HorizontalNorm(Minus(endLocation, startLocation), t)
      && linkAngle == HorizontalAngle(Minus(endLocation, startLocation), t)
    }

    /** The default constructor clone starts from: no geometry, no strength, no points. */
    constructor ()
      ensures Data() == LinkData("", Source(Origin, Origin, 0.0, 0.0), 0.0, 0.0)
      ensures linkLength == 0.0 && linkAngle == 0.0
      ensures totalConcentration == 0.0 && pointArray == null
    {
      name := "";
      startLocation, endLocation, width := Origin, Origin, 0.0;
      linkLength, linkAngle := 0.0, 0.0;
      lineStrength, trafficFlowrate, vehicleEF := 0.0, 0.0, 0.0;
      totalConcentration, pointArray := 0.0, null;
    }

    /**
      The constructors given a line strength (with or without a name): copies
      of the end points, the width and the strength; the traffic flow rate and
      the emission factor keep their default 0.
    */
    constructor WithLineStrength(startPoint: Coordinate, endPoint: Coordinate, linkWidth: real, strength: real,
                                 linkName: string, t: Transcendentals)
      ensures Data() == LinkData(linkName, Source(startPoint.Value(), endPoint.Value(), linkWidth, strength), 0.0, 0.0)
      ensures Measured(t) && totalConcentration == 0.0 && pointArray == null
    {
      name := linkName;
      startLocation, endLocation, width := startPoint.Value(), endPoint.Value(), linkWidth;
      lineStrength, trafficFlowrate, vehicleEF := strength, 0.0, 0.0;
      var offset := Minus(endPoint.Value(), startPoint.Value());
      linkLength, linkAngle := HorizontalNorm(offset, t), HorizontalAngle(offset, t);
      totalConcentration, pointArray := 0.0, null;
    }

    /**
      The constructors given an emission factor and a traffic flow rate (with
      or without a name): the line strength is their product.
    */
    constructor WithTraffic(startPoint: Coordinate, endPoint: Coordinate, linkWidth: real, ef: real, flowrate: real,
                            linkName: string, t: Transcendentals)
      ensures Data() == LinkData(linkName, Source(startPoint.Value(), endPoint.Value(), linkWidth, flowrate * ef), flowrate, ef)
      ensures Measured(t) && totalConcentration == 0.0 && pointArray == null
    {
      name := linkName;
      startLocation, endLocation, width := startPoint.Value(), endPoint.Value(), linkWidth;
      vehicleEF, trafficFlowrate := ef, flowrate;
      lineStrength := flowrate * ef;
      var offset := Minus(endPoint.Value(), startPoint.Value());
      linkLength, linkAngle := HorizontalNorm(offset, t), HorizontalAngle(offset, t);
      totalConcentration, pointArray := 0.0, null;
    }

    /** determine_link_geometry: length and angle of the end point taken relative to the start point. */
    method DetermineLinkGeometry(t: Transcendentals)
      modifies this`linkLength, this`linkAngle
      ensures Measured(t)
    {
      var temp := new Coordinate.At(endLocation.x, endLocation.y, endLocation.z);
      var start := new Coordinate.At(startLocation.x, startLocation.y, startLocation.z);
      temp.Subtract(start);
      linkLength := HorizontalNorm(temp.Value(), t);
      linkAngle := HorizontalAngle(temp.Value(), t);
    }

    /**
      clone: a new link with this link's name, geometry, strength, flow rate
      and emission factor, but without its point array or concentration.
    */
    method Clone(t: Transcendentals) returns (c: HighwayLink)
      ensures fresh(c)
      ensures c.Data() == Data() && c.Measured(t)
      ensures c.pointArray == null && c.totalConcentration == 0.0
    {
      c := new HighwayLink();
      c.name := name;
      c.startLocation := startLocation;
      c.endLocation := endLocation;
      c.width := width;
      c.DetermineLinkGeometry(t);
      c.lineStrength := lineStrength;
      c.trafficFlowrate := trafficFlowrate;
      c.vehicleEF := vehicleEF;
    }

    /** The link's naming object takes a new name. */
    method SetName(v: string)
      modifies this`name
      ensures Data() == old(Data()).(name := v)
    {
      name := v;
    }

    method SetStartLocation(v: Coordinate)
      modifies this`startLocation
      ensures Data() == old(Data()).(source := old(Src()).(start := v.Value()))
    {
      startLocation := v.Value();
    }

    method SetEndLocation(v: Coordinate)
      modifies this`endLocation
      ensures Data() == old(Data()).(source := old(Src()).(end := v.Value()))
    {
      endLocation := v.Value();
    }

    method SetWidth(v: real)
      modifies this`width
      ensures Data() == old(Data()).(source := old(Src()).(width := v))
    {
      width := v;
    }

    method SetLineStrength(v: real)
      modifies this`lineStrength
      ensures Data() == old(Data()).(source := old(Src()).(lineStrength := v))
    {
      lineStrength := v;
    }

    method SetTrafficFlowrate(v: real)
      modifies this`trafficFlowrate
      ensures Data() == old(Data()).(trafficFlowrate := v)
    {
      trafficFlowrate := v;
    }

    method SetVehicleEF(v: real)
      modifies this`vehicleEF
      ensures Data() == old(Data()).(vehicleEF := v)
    {
      vehicleEF := v;
    }

    /** setPoint_array keeps the reference it is given, without a copy. */
    method SetPointArray(a: array?<Point>)
      modifies this`pointArray
      ensures pointArray == a
    {
      pointArray := a;
    }

    /** clear_link_concentration: no concentration and an empty point array. */
    method ClearLinkConcentration()
      modifies this`totalConcentration, this`pointArray
      ensures totalConcentration == 0.0
      ensures pointArray != null && fresh(pointArray) && pointArray.Length == 0
    {
      totalConcentration := 0.0;
      pointArray := new Point[0];
    }

    /** clear_points: the point array is dropped and the concentration is kept. */
    method ClearPoints()
      modifies this`pointArray
      ensures pointArray == null
    {
      pointArray := null;
    }

    /**
      create_point_array: a new discretizer for this link, the receptor and
      the wind, whose points are stored; a failing run stores nothing.
    */
    method CreatePointArray(receptor: Vec3, disp: Option<Dispersion>, env: Engine) returns (outcome: Outcome)
      requires Generating(Src(), receptor, disp, env)
      modifies this`pointArray
      ensures var r := LinkPoints(Src(), receptor, disp, env);
              && (outcome.Completed? <==> r.Ok?)
              && (outcome.Halted? ==> outcome.fault == r.fault && pointArray == old(pointArray))
              && (outcome.Completed? ==>
                    && pointArray != null && fresh(pointArray) && PointsMatch(pointArray, r.value)
                    && (forall k :: 0 <= k < pointArray.Length ==> fresh(pointArray[k])))
    {
      if disp.None? {
        return Halted(MissingDispersion);
      }
      var result := RunDiscretizer(Src(), receptor, disp.value, env);
      if result.Err? {
        return Halted(result.fault);
      }
      pointArray := result.value;
      outcome := Completed;
    }

    /**
      calculate_link_concentration: builds the point array, evaluates every
      point at the receptor and sums the contributions into a total that
      starts again from 0, so a repeated call does not accumulate.
    */
    method CalculateLinkConcentration(receptor: Vec3, disp: Option<Dispersion>, env: Engine) returns (outcome: Outcome)
      requires Generating(Src(), receptor, disp, env)
      modifies this`pointArray, this`totalConcentration
      ensures var r := LinkConcentration(Src(), receptor, disp, env);
              && (outcome.Completed? <==> r.Ok?)
              && (outcome.Halted? ==>
                    outcome.fault == r.fault && pointArray == old(pointArray) && totalConcentration == old(totalConcentration))
              && (outcome.Completed? ==>
                    && totalConcentration == r.value
                    && pointArray != null && fresh(pointArray)
                    && PointsEvaluated(pointArray, LinkPoints(Src(), receptor, disp, env).value, receptor, disp.value, env.t))
    {
      var points, total;
      outcome, points, total := LinkEvaluation(Src(), receptor, disp, env);
      if outcome.Completed? {
        pointArray, totalConcentration := points, total;
      }
    }

    /**
      get_point_array_concentrations: one row [x, y, z, concentration] per
      point, in array order; a cleared point array fails.
    */
    method PointArrayConcentrations() returns (r: Result<array2<real>>)
      ensures r.Ok? <==> pointArray != null
      ensures r.Err? ==> r.fault == PointsCleared
      ensures r.Ok? ==>
                && fresh(r.value) && r.value.Length0 == pointArray.Length && r.value.Length1 == 4
                && forall i :: 0 <= i < pointArray.Length ==>
                     && r.value[i, 0] == pointArray[i].location.x
                     && r.value[i, 1] == pointArray[i].location.y
                     && r.value[i, 2] == pointArray[i].location.z
                     && r.value[i, 3] == pointArray[i].concentration
    {
      if pointArray == null {
        return Err(PointsCleared);
      }
      var points := pointArray;
      var rows := new real[points.Length, 4];
      var i := 0;
      while i < points.Length
        invariant 0 <= i <= points.Length
        invariant forall k :: 0 <= k < i ==>
                    && rows[k, 0] == points[k].location.x && rows[k, 1] == points[k].location.y
                    && rows[k, 2] == points[k].location.z && rows[k, 3] == points[k].concentration
      {
        rows[i, 0] := points[i].location.x;
        rows[i, 1] := points[i].location.y;
        rows[i, 2] := points[i].location.z;
        rows[i, 3] := points[i].concentration;
        i := i + 1;
      }
      return Ok(rows);
    }
  }

  /**
    A link stores the value of the coordinate it is given: changing the
    coordinate object afterwards leaves the link where it was.
  */
  method StoredLocationIsACopy(link: HighwayLink, v: Coordinate, x: real, y: real, z: real)
    modifies link, v
    ensures link.startLocation == old(v.Value())
    ensures v.Value() == Vec3(x, y, z)
  {
    link.SetStartLocation(v);
    v.SetAll(x, y, z);
  }
}
