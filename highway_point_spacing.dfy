/*
  The adaptive point-source discretizer (highway_point_spacing.java) as the
  imperative object it is in the source.

  A `Discretizer` is built for one link and one receptor. `ReturnPointArray`
  turns the coordinate system so that the link lies on the y-axis and the
  receptor on the x-axis, lays out the region table, optimises it, generates
  interior and boundary points, turns the points back and hands them out as
  point-source objects. Every step is proved against the value-level
  description in SpacingSpec and GridSpec.

  The static configuration of the source (zones, densities, vertical rows,
  overhangs) is the `SpacingSettings` object; the discretizer reads a
  snapshot of it, a `SpacingScheme`, passed as a parameter.
*/
module HighwayPointSpacing {
  import opened Numerics
  import opened Outcomes
  import opened Coordinates
  import opened PointVectors
  import opened SpacingSpec
  import opened GridSpec
  import opened PointSources

  /** The wind_vector object: power-law coefficient `a`, exponent `p` and direction. */
  datatype WindVector = WindVector(a: real, p: real, angle: real)

  /**
    wind_vector is not part of this model: how it turns and what its x
    component is are supplied by the caller.
  */
  datatype WindModel = WindModel(rotate: (WindVector, real) -> WindVector, xComponent: WindVector -> real)

  /** The rotation angle before the coordinate system has been turned. */
  const RotationUnset: real := -99.9

  /** Rotating by an angle and then by its negation gives back every coordinate. */
  ghost predicate RotationInverse(t: Transcendentals)
  {
    forall v: Vec3, r: real {:trigger Rotated(v, r, t)} :: Rotated(Rotated(v, r, t), -r, t) == v
  }

  /** Turning the wind by an angle and then by its negation gives back the wind. */
  ghost predicate WindRotationInverse(wm: WindModel)
  {
    forall w: WindVector, r: real {:trigger wm.rotate(w, r)} :: wm.rotate(wm.rotate(w, r), -r) == w
  }

  /** The link ends, the receptor and the wind in some frame, with the offset and rotation that lead there. */
  datatype Frame = Frame(start: Vec3, end: Vec3, receptor: Vec3, wind: WindVector, offset: Vec3, rotation: real)

  /**
    rotate_coordinate_system: turn everything so that the link points along
    +y, then subtract the offset (x of the link start, y of the receptor) so
    that the link lies on the y-axis and the receptor on the x-axis.
  */
  function Normalization(start: Vec3, end: Vec3, receptor: Vec3, wind: WindVector, t: Transcendentals, wm: WindModel): (f: Frame)
    ensures f.start.x == 0.0 && f.receptor.y == 0.0
    ensures f.start.z == start.z && f.end.z == end.z && f.receptor.z == receptor.z
    ensures f.offset.z == 0.0
  {
    var rotation := Pi / 2.0 - HorizontalAngle(Minus(end, start), t);
    var s := Rotated(start, rotation, t);
    var e := Rotated(end, rotation, t);
    var r := Rotated(receptor, rotation, t);
    var offset := Vec3(s.x, r.y, 0.0);
    Frame(Minus(s, offset), Minus(e, offset), Minus(r, offset), wm.rotate(wind, rotation), offset, rotation)
  }

  /** re_rotate_coordinate_system for the link ends, the receptor and the wind: translate back, then turn back. */
  function Restoration(f: Frame, t: Transcendentals, wm: WindModel): Frame
  {
    Frame(Rotated(Plus(f.start, f.offset), -f.rotation, t), Rotated(Plus(f.end, f.offset), -f.rotation, t),
          Rotated(Plus(f.receptor, f.offset), -f.rotation, t), wm.rotate(f.wind, -f.rotation), f.offset, f.rotation)
  }

  /** Restoring the normalised frame gives back the original link, receptor and wind. */
  lemma RestorationRoundTrip(start: Vec3, end: Vec3, receptor: Vec3, wind: WindVector, t: Transcendentals, wm: WindModel)
    requires RotationInverse(t) && WindRotationInverse(wm)
    ensures var f := Restoration(Normalization(start, end, receptor, wind, t, wm), t, wm);
            f.start == start && f.end == end && f.receptor == receptor && f.wind == wind
  {
    var n := Normalization(start, end, receptor, wind, t, wm);
    TranslationRoundTrip(Rotated(start, n.rotation, t), n.offset);
    TranslationRoundTrip(Rotated(end, n.rotation, t), n.offset);
    TranslationRoundTrip(Rotated(receptor, n.rotation, t), n.offset);
    assert Rotated(Rotated(start, n.rotation, t), -n.rotation, t) == start;
    assert Rotated(Rotated(end, n.rotation, t), -n.rotation, t) == end;
    assert Rotated(Rotated(receptor, n.rotation, t), -n.rotation, t) == receptor;
    assert wm.rotate(wm.rotate(wind, n.rotation), -n.rotation) == wind;
  }

  // The region table.

  /**
    region_extents is a table of [start, end] rows; each row is an `Extent`
    here, and column 0 and 1 of the source are its `lo` and `hi`.
  */
  function Cell(e: Extent, j: int): real
  {
    if j == 0 then e.lo else e.hi
  }

  function WithCell(e: Extent, j: int, v: real): Extent
  {
    if j == 0 then e.(lo := v) else e.(hi := v)
  }

  /** Three parallel tables read as regions. */
  function Rows(extents: seq<Extent>, fetch: seq<real>, cross: seq<real>): (rs: seq<Region>)
    requires |extents| == |fetch| == |cross|
    ensures |rs| == |fetch|
  {
    seq(|fetch|, i requires 0 <= i < |fetch| => Region(extents[i], fetch[i], cross[i]))
  }

  /** The rows the zone loop of find_end_points has written after `i` zones; the rest are still [0, 0]. */
  ghost function ZonesWritten(zones: seq<real>, n: nat, i: nat, r: nat): Extent
    requires |zones| + 1 <= n && r < 2 * n
  {
    if n <= r < n + i || n - i <= r < n then RawExtent(zones, n, r) else Extent(0.0, 0.0)
  }

  /** find_end_points, lines 468-486: the zones radiating outward, then the two outermost rows. */
  method LayOutZones(table: array<Extent>, zones: seq<real>, n: nat)
    requires |zones| + 1 <= n && table.Length == 2 * n
    requires forall r :: 0 <= r < 2 * n ==> table[r] == Extent(0.0, 0.0)
    modifies table
    ensures forall r :: 0 <= r < 2 * n ==> table[r] == RawExtent(zones, n, r)
  {
    var startPoint := 0.0;
    var endPoint := 0.0;
    var i := 0;
    while i < |zones|
      invariant 0 <= i <= |zones|
      invariant startPoint == PreviousZone(zones, i)
      invariant forall r :: 0 <= r < 2 * n ==> table[r] == ZonesWritten(zones, n, i, r)
    {
      endPoint := zones[i];
      table[n + i] := Extent(startPoint, endPoint);
      table[n - 1 - i] := Extent(-endPoint, -startPoint);
      startPoint := endPoint;
      i := i + 1;
    }
    endPoint := FarEnd;
    table[n + |zones|] := Extent(startPoint, endPoint);
    table[0] := Extent(-endPoint, -startPoint);
  }

  /** find_end_points, lines 491-509: every entry capped at the link end, then raised to the link start. */
  method ClipTable(table: array<Extent>, neg: real, pos: real)
    modifies table
    ensures forall r :: 0 <= r < table.Length ==> table[r] == ClipExtent(old(table[r]), neg, pos)
  {
    var i := 0;
    while i < table.Length
      invariant 0 <= i <= table.Length
      invariant forall r :: 0 <= r < i ==> table[r] == ClipExtent(old(table[r]), neg, pos)
      invariant forall r :: i <= r < table.Length ==> table[r] == old(table[r])
    {
      var j := 0;
      while j < 2
        invariant 0 <= j <= 2
        invariant forall r :: 0 <= r < i ==> table[r] == ClipExtent(old(table[r]), neg, pos)
        invariant forall r :: i < r < table.Length ==> table[r] == old(table[r])
        invariant forall c :: 0 <= c < j ==> Cell(table[i], c) == Clip(Cell(old(table[i]), c), neg, pos)
        invariant forall c :: j <= c < 2 ==> Cell(table[i], c) == Cell(old(table[i]), c)
      {
        if Cell(table[i], j) > pos {
          table[i] := WithCell(table[i], j, pos);
        }
        if Cell(table[i], j) < neg {
          table[i] := WithCell(table[i], j, neg);
        }
        j := j + 1;
      }
      assert Cell(table[i], 0) == table[i].lo && Cell(table[i], 1) == table[i].hi;
      i := i + 1;
    }
  }

  /** find_end_points, lines 512-521: region i's densities on both mirrored rows. */
  method FillSpacings(fetch: array<real>, cross: array<real>, fetchDensity: seq<real>, crossDensity: seq<real>, n: nat)
    requires fetch != cross && fetch.Length == 2 * n && cross.Length == 2 * n
    requires n <= |fetchDensity| && n <= |crossDensity|
    modifies fetch, cross
    ensures fetch[..] == Mirrored(fetchDensity, n) && cross[..] == Mirrored(crossDensity, n)
  {
    var i := 0;
    while i < n
      invariant 0 <= i <= n
      invariant forall r :: n - i <= r < n + i ==> fetch[r] == Mirrored(fetchDensity, n)[r]
      invariant forall r :: n - i <= r < n + i ==> cross[r] == Mirrored(crossDensity, n)[r]
    {
      fetch[n - 1 - i] := fetchDensity[i];
      cross[n - 1 - i] := crossDensity[i];
      fetch[n + i] := fetchDensity[i];
      cross[n + i] := crossDensity[i];
      i := i + 1;
    }
    assert fetch[..] == Mirrored(fetchDensity, n);
    assert cross[..] == Mirrored(crossDensity, n);
  }

  /** The strip settings permute_points reads: link, configuration and the turned wind's x component. */
  function Settings(width: real, lineStrength: real, scheme: SpacingScheme, wind: WindVector, wm: WindModel): StripSettings
  {
    StripSettings(width, lineStrength, scheme.vertical, scheme.overhangUp, scheme.overhangDown, wm.xComponent(wind))
  }

  /** The optimised region table of a link normalised into frame `f`. */
  function LinkRegions(scheme: SpacingScheme, f: Frame): (rs: seq<Region>)
    requires Indexable(scheme)
    ensures |rs| == |LongRegions(LaidOut(scheme, f.start.y, f.end.y))|
  {
    KeptNoMoreThanLong(LaidOut(scheme, f.start.y, f.end.y));
    Optimized(LaidOut(scheme, f.start.y, f.end.y))
  }

  /**
    Every point vector return_point_array fills comes to an end: each
    optimised region has a non-zero fetch spacing and a cross spacing the
    source can lay out (a zero spacing not above the width never advances).
  */
  predicate Generates(scheme: SpacingScheme, f: Frame, width: real, lineStrength: real, wm: WindModel)
  {
    Indexable(scheme) ==> UsableRegions(LinkRegions(scheme, f), Settings(width, lineStrength, scheme, f.wind, wm))
  }

  /**
    return_point_array on values, for a link normalised into frame `f`: the
    interior and boundary points of the optimised regions, moved back to the
    original frame, or the array access that fails first.
  */
  function Discretized(f: Frame, width: real, lineStrength: real, scheme: SpacingScheme,
                       t: Transcendentals, wm: WindModel, byZero: real -> real): (r: Result<seq<Sample>>)
    requires Generates(scheme, f, width, lineStrength, wm)
    ensures r.Err? ==> r.fault == IndexOutOfBounds
  {
    if !Indexable(scheme) || |LinkRegions(scheme, f)| == 0 then Err(IndexOutOfBounds)
    else
      var env := Settings(width, lineStrength, scheme, f.wind, wm);
      Ok(RestoredAll(NormalPoints(LinkRegions(scheme, f), env, byZero), f.offset, f.rotation, t))
  }

  /** Positive densities are enough for every point vector to finish. */
  lemma PositiveSpacingsGenerate(scheme: SpacingScheme, f: Frame, width: real, lineStrength: real, wm: WindModel)
    requires PositiveSpacings(scheme)
    ensures Generates(scheme, f, width, lineStrength, wm)
  {
    if Indexable(scheme) {
      var laid := LaidOut(scheme, f.start.y, f.end.y);
      LaidOutPositive(scheme, f.start.y, f.end.y);
      OptimizedRegionsUsable(laid);
      OptimizedCrossPositive(laid);
    }
  }

  /**
    The discretizer fails exactly when the configuration has too few rows or
    densities, or when no region of the link is at least 0.1 m long (as for
    a link shorter than that), which leaves the boundary pass no first region.
  */
  lemma DiscretizedFails(f: Frame, width: real, lineStrength: real, scheme: SpacingScheme,
                         t: Transcendentals, wm: WindModel, byZero: real -> real)
    requires Generates(scheme, f, width, lineStrength, wm)
    ensures Discretized(f, width, lineStrength, scheme, t, wm, byZero).Err?
        <==> !Indexable(scheme) || LongRegions(LaidOut(scheme, f.start.y, f.end.y)) == []
  {
  }

  /**
    For tiled regions, a non-empty vertical profile and overhangs that do not
    overlap, the points handed out carry the whole line source: the total
    length of the optimised regions times the line strength.
  */
  lemma DiscretizedMass(f: Frame, width: real, lineStrength: real, scheme: SpacingScheme,
                        t: Transcendentals, wm: WindModel, byZero: real -> real, env: StripSettings, rs: seq<Region>)
    requires Indexable(scheme) && env == Settings(width, lineStrength, scheme, f.wind, wm)
    requires rs == LinkRegions(scheme, f) && Conserving(rs, env)
    ensures Discretized(f, width, lineStrength, scheme, t, wm, byZero).Ok?
    ensures Total(Discretized(f, width, lineStrength, scheme, t, wm, byZero).value) == TotalLength(rs) * env.lineStrength
  {
    RestoredMass(rs, env, f.offset, f.rotation, t, byZero);
  }

  class Discretizer {
    var linkStart: Vec3
    var linkEnd: Vec3
    var receptor: Vec3
    var width: real
    var lineStrength: real
    var wind: WindVector
    var regionExtents: array?<Extent>
    var fetchSpacing: array?<real>
    var crossSpacing: array?<real>
    var offset: Vec3
    var rotation: real
    var points: seq<Sample>
    /** The point vector has been handed out and nulled. */
    var released: bool

    /** The geometry the discretizer works in. */
    function Geometry(): Frame
      reads this`linkStart, this`linkEnd, this`receptor, this`wind, this`offset, this`rotation
    {
      Frame(linkStart, linkEnd, receptor, wind, offset, rotation)
    }

    /** The region table exists and its three parts have one row per region. */
    predicate Tabled()
      reads this`regionExtents, this`fetchSpacing, this`crossSpacing
    {
      && regionExtents != null && fetchSpacing != null && crossSpacing != null
      && fetchSpacing != crossSpacing
      && regionExtents.Length == fetchSpacing.Length == crossSpacing.Length
    }

    function Regions(): seq<Region>
      requires Tabled()
      reads this`regionExtents, this`fetchSpacing, this`crossSpacing, regionExtents, fetchSpacing, crossSpacing
    {
      Rows(regionExtents[..], fetchSpacing[..], crossSpacing[..])
    }

    function Env(scheme: SpacingScheme, wm: WindModel): StripSettings
      reads this`width, this`lineStrength, this`wind
    {
      Settings(width, lineStrength, scheme, wind, wm)
    }

    /** Copies of the link ends and the receptor, the wind vector, and no table or points yet. */
    constructor (start: Vec3, end: Vec3, linkWidth: real, strength: real, recep: Vec3,
                 powerLawWindA: real, p: real, windAngle: real)
      ensures linkStart == start && linkEnd == end && receptor == recep
      ensures width == linkWidth && lineStrength == strength
      ensures wind == WindVector(powerLawWindA, p, windAngle)
      ensures regionExtents == null && fetchSpacing == null && crossSpacing == null
      ensures rotation == RotationUnset && points == [] && !released
    {
      linkStart, linkEnd, receptor := start, end, recep;
      width, lineStrength := linkWidth, strength;
      wind := WindVector(powerLawWindA, p, windAngle);
      regionExtents, fetchSpacing, crossSpacing := null, null, null;
      offset, rotation := Origin, RotationUnset;
      points, released := [], false;
    }

    /** rotate_coordinate_system: only the geometry changes. */
    method RotateCoordinateSystem(t: Transcendentals, wm: WindModel)
      modifies this`linkStart, this`linkEnd, this`receptor, this`wind, this`offset, this`rotation
      ensures Geometry() == Normalization(old(linkStart), old(linkEnd), old(receptor), old(wind), t, wm)
    {
      var start, end, recep := linkStart, linkEnd, receptor;
      var angle := Pi / 2.0 - HorizontalAngle(Minus(end, start), t);
      end := Rotated(end, angle, t);
      start := Rotated(start, angle, t);
      recep := Rotated(recep, angle, t);
      var turned := wm.rotate(wind, angle);
      var shift := Vec3(start.x, recep.y, 0.0);
      var f := Frame(Minus(start, shift), Minus(end, shift), Minus(recep, shift), turned, shift, angle);
      assert f == Normalization(linkStart, linkEnd, receptor, wind, t, wm);
      linkEnd, linkStart, receptor := f.end, f.start, f.receptor;
      wind, offset, rotation := f.wind, f.offset, f.rotation;
    }

    /**
      find_end_points: normalise the frame, then build the region table for
      the link from its start to its end along y. A configuration with fewer
      rows than the zone loop writes, or fewer densities than regions, runs
      off an array.
    */
    method FindEndPoints(scheme: SpacingScheme, t: Transcendentals, wm: WindModel) returns (outcome: Outcome)
      modifies this`linkStart, this`linkEnd, this`receptor, this`wind, this`offset, this`rotation
      modifies this`regionExtents, this`fetchSpacing, this`crossSpacing
      ensures Geometry() == Normalization(old(linkStart), old(linkEnd), old(receptor), old(wind), t, wm)
      ensures outcome.Completed? <==> Indexable(scheme)
      ensures outcome.Halted? ==> outcome.fault == IndexOutOfBounds
      ensures outcome.Completed? ==>
                Tabled() && fresh(regionExtents) && fresh(fetchSpacing) && fresh(crossSpacing)
                && Regions() == LaidOut(scheme, linkStart.y, linkEnd.y)
    {
      RotateCoordinateSystem(t, wm);
      if !Indexable(scheme) {
        return Halted(IndexOutOfBounds);
      }
      var n := scheme.numRegions;
      var table := new Extent[2 * n](_ => Extent(0.0, 0.0));
      LayOutZones(table, scheme.zones, n);
      var neg, pos := linkStart.y, linkEnd.y;
      ClipTable(table, neg, pos);
      var cross := new real[2 * n](_ => 0.0);
      var fetch := new real[2 * n](_ => 0.0);
      FillSpacings(fetch, cross, scheme.fetchDensity, scheme.crossDensity, n);
      regionExtents, fetchSpacing, crossSpacing := table, fetch, cross;
      assert Regions() == LaidOut(scheme, neg, pos);
      return Completed;
    }

    /**
      optimize_region_extents_and_fetch_spacing: re-tile every region and
      mark the short ones in place, then copy the unmarked rows, in order,
      into new tables sized by the number of regions at least 0.1 m long.
    */
    method Optimize()
      requires Tabled()
      modifies this`regionExtents, this`fetchSpacing, this`crossSpacing, fetchSpacing
      ensures Tabled() && Regions() == Optimized(old(Regions()))
    {
      ghost var rs := Regions();
      var extents, fetch, cross := regionExtents, fetchSpacing, crossSpacing;
      ghost var before := fetch[..];
      var goodRegions := MarkRegions(extents, fetch, cross[..]);
      MarkedRows(extents[..], before, fetch[..], cross[..]);
      ghost var marked := Rows(extents[..], fetch[..], cross[..]);
      assert marked == Marked(rs);
      KeptNoMoreThanLong(rs);
      var newExtents, newFetch, newCross := CopyKept(extents, fetch, cross, goodRegions);
      ghost var result := Rows(newExtents[..], newFetch[..], newCross[..]);
      OptimizedFrom(rs, marked, result, goodRegions);
      regionExtents, fetchSpacing, crossSpacing := newExtents, newFetch, newCross;
      assert Regions() == result;
    }

    /**
      permute_points: the vertical, cross and fetch profiles of one strip,
      each laid out in a fresh point vector, then one point per (cross,
      fetch, vertical) position, all with the strip's shared strength.
    */
    method Permute(start: real, end: real, fs: real, cs: real, scheme: SpacingScheme, wm: WindModel, byZero: real -> real)
      requires StripDefined(Strip(start, end, fs, cs), Env(scheme, wm))
      modifies this`points
      ensures points == old(points) + LayoutGrid(StripLayout(Strip(start, end, fs, cs), Env(scheme, wm), byZero))
    {
      var verticalProfile := VerticalPoints(scheme.vertical);
      var crossProfile := CrossPoints(cs, Env(scheme, wm));
      var fetchProfile := FetchPoints(start, end, fs);
      var ef := PointStrength(fs, lineStrength, verticalProfile.Length, crossProfile.Length, byZero);
      StripLayoutOf(crossProfile[..], fetchProfile[..], verticalProfile[..], ef, Strip(start, end, fs, cs), Env(scheme, wm), byZero);
      AppendGrid(crossProfile, fetchProfile, verticalProfile, ef);
    }

    /**
      generate_interior_points: one strip per region, from one fetch spacing
      inside its start to one inside its end.
    */
    method GenerateInterior(scheme: SpacingScheme, wm: WindModel, byZero: real -> real)
      requires Tabled() && UsableRegions(Regions(), Env(scheme, wm))
      modifies this`points
      ensures points == old(points) + Grids(InteriorLayouts(Regions(), Env(scheme, wm), byZero))
    {
      ghost var rs := Regions();
      ghost var env := Env(scheme, wm);
      ghost var ls := InteriorLayouts(rs, env, byZero);
      ghost var base := points;
      var i := 0;
      while i < regionExtents.Length
        invariant 0 <= i <= regionExtents.Length
        invariant points == base + Grids(ls[..i])
      {
        var start, end := regionExtents[i].lo + fetchSpacing[i], regionExtents[i].hi - fetchSpacing[i];
        var fs, cs := fetchSpacing[i], crossSpacing[i];
        assert rs[i] == Region(regionExtents[i], fs, cs);
        assert Strip(start, end, fs, cs) == InteriorStrip(rs[i]);
        InteriorLayoutAt(rs, env, byZero, i);
        ghost var before := points;
        Permute(start, end, fs, cs, scheme, wm, byZero);
        GridsSnoc(base, ls, i, before, points);
        i := i + 1;
      }
      assert ls[..i] == ls;
    }

    /**
      generate_boundary_points: one single-position strip per region
      boundary, first and last included. With no regions the first line
      reads past the table.
    */
    method GenerateBoundary(scheme: SpacingScheme, wm: WindModel, byZero: real -> real) returns (outcome: Outcome)
      requires Tabled() && UsableRegions(Regions(), Env(scheme, wm))
      modifies this`points
      ensures outcome.Completed? <==> |Regions()| > 0
      ensures outcome.Halted? ==> outcome.fault == IndexOutOfBounds && points == old(points)
      ensures outcome.Completed? ==> points == old(points) + Grids(BoundaryLayouts(Regions(), Env(scheme, wm), byZero))
    {
      var n := regionExtents.Length;
      if n == 0 {
        return Halted(IndexOutOfBounds);
      }
      ghost var rs := Regions();
      ghost var env := Env(scheme, wm);
      ghost var ls := BoundaryLayouts(rs, env, byZero);
      ghost var base := points;
      var i := 0;
      while i < n + 1
        invariant 0 <= i <= n + 1
        invariant points == base + Grids(ls[..i])
      {
        var location, fSpacing, cSpacing := BoundaryLine(i);
        BoundaryLayoutAt(rs, env, byZero, i);
        ghost var before := points;
        Permute(location, location, fSpacing, cSpacing, scheme, wm, byZero);
        GridsSnoc(base, ls, i, before, points);
        i := i + 1;
      }
      assert ls[..i] == ls;
      return Completed;
    }

    /**
      Boundary line i of generate_boundary_points: the first and the last
      line take half the spacing of their one region, a line in between the
      mean fetch spacing and the smaller cross spacing of its two regions.
    */
    method BoundaryLine(i: int) returns (location: real, fSpacing: real, cSpacing: real)
      requires Tabled() && 0 < regionExtents.Length && 0 <= i <= regionExtents.Length
      ensures Strip(location, location, fSpacing, cSpacing) == BoundaryStrip(Regions(), i)
    {
      var n := regionExtents.Length;
      location, fSpacing, cSpacing := 0.0, 0.0, 0.0;
      if i == 0 {
        location := regionExtents[i].lo;
        fSpacing := fetchSpacing[i] / 2.0;
        cSpacing := crossSpacing[i];
      }
      if i == n {
        location := regionExtents[i - 1].hi;
        fSpacing := fetchSpacing[i - 1] / 2.0;
        cSpacing := crossSpacing[i - 1];
      }
      if i != 0 && i != n {
        location := regionExtents[i].lo;
        fSpacing := (fetchSpacing[i] + fetchSpacing[i - 1]) / 2.0;
        var leftSpacing := crossSpacing[i - 1];
        var rightSpacing := crossSpacing[i];
        if leftSpacing > rightSpacing {
          cSpacing := rightSpacing;
        } else {
          cSpacing := leftSpacing;
        }
      }
    }

    /**
      re_rotate_coordinate_system: the link ends, the receptor and every
      point are translated back by the offset and turned back by the rotation;
      the wind is turned back.
    */
    method ReRotateCoordinateSystem(t: Transcendentals, wm: WindModel)
      modifies this`linkStart, this`linkEnd, this`receptor, this`wind, this`points
      ensures Geometry() == Restoration(old(Geometry()), t, wm)
      ensures points == RestoredAll(old(points), offset, rotation, t)
    {
      ghost var back := Restoration(Geometry(), t, wm);
      var shift, angle := offset, rotation;
      var end := Rotated(Plus(linkEnd, shift), -angle, t);
      var start := Rotated(Plus(linkStart, shift), -angle, t);
      var recep := Rotated(Plus(receptor, shift), -angle, t);
      assert end == back.end && start == back.start && recep == back.receptor;
      linkEnd, linkStart, receptor := end, start, recep;
      wind := wm.rotate(wind, -angle);
      RestorePoints(shift, angle, t);
    }

    /** The point loop of re_rotate_coordinate_system: translate each point back, then turn it back. */
    method RestorePoints(shift: Vec3, angle: real, t: Transcendentals)
      modifies this`points
      ensures points == RestoredAll(old(points), shift, angle, t)
    {
      ghost var ps := points;
      var i := 0;
      while i < |points|
        invariant 0 <= i <= |ps| && |points| == |ps|
        invariant forall k :: 0 <= k < i ==> points[k] == Restored(ps[k], shift, angle, t)
        invariant forall k :: i <= k < |ps| ==> points[k] == ps[k]
      {
        var current := points[i];
        points := points[i := current.(location := Rotated(Plus(current.location, shift), -angle, t))];
        i := i + 1;
      }
    }

    /**
      return_point_array: discretise the link once and hand the points out as
      fresh point-source objects; the point vector is dropped afterwards, so a
      second call fails.
    */
    method ReturnPointArray(scheme: SpacingScheme, t: Transcendentals, wm: WindModel, byZero: real -> real)
      returns (result: Result<array<Point>>)
      requires Generates(scheme, Normalization(linkStart, linkEnd, receptor, wind, t, wm), width, lineStrength, wm)
      modifies this`linkStart, this`linkEnd, this`receptor, this`wind, this`offset, this`rotation
      modifies this`regionExtents, this`fetchSpacing, this`crossSpacing, this`points, this`released
      ensures old(released) ==> result == Err(PointsReleased)
      ensures !old(released) ==>
                var f := Normalization(old(linkStart), old(linkEnd), old(receptor), old(wind), t, wm);
                var d := Discretized(f, width, lineStrength, scheme, t, wm, byZero);
                && (result.Ok? <==> d.Ok?)
                && (result.Err? ==> result.fault == d.fault)
                && (result.Ok? ==>
                      && Geometry() == Restoration(f, t, wm)
                      && released && points == []
                      && fresh(result.value)
                      && (forall k :: 0 <= k < result.value.Length ==> fresh(result.value[k]))
                      && PointsMatch(result.value, RestoredAll(old(points), f.offset, f.rotation, t) + d.value))
    {
      if released {
        return Err(PointsReleased);
      }
      ghost var f := Normalization(linkStart, linkEnd, receptor, wind, t, wm);
      ghost var prior := points;
      var outcome := Generate(scheme, t, wm, byZero, f);
      if outcome.Halted? {
        return Err(outcome.fault);
      }
      ghost var normal := NormalPoints(LinkRegions(scheme, f), Settings(width, lineStrength, scheme, f.wind, wm), byZero);
      var returnArray := Release(t, wm);
      RestoredAllAppend(prior, normal, f.offset, f.rotation, t);
      return Ok(returnArray);
    }

    /**
      The last steps of return_point_array: move everything back to the
      original frame, copy the points into a fresh array and drop the vector.
    */
    method Release(t: Transcendentals, wm: WindModel) returns (returnArray: array<Point>)
      modifies this`linkStart, this`linkEnd, this`receptor, this`wind, this`points, this`released
      ensures Geometry() == Restoration(old(Geometry()), t, wm)
      ensures released && points == []
      ensures fresh(returnArray) && PointsMatch(returnArray, RestoredAll(old(points), offset, rotation, t))
      ensures forall k :: 0 <= k < returnArray.Length ==> fresh(returnArray[k])
    {
      ReRotateCoordinateSystem(t, wm);
      returnArray := MakePoints(points);
      points := [];
      released := true;
    }

    /**
      The first four steps of return_point_array: normalise the link, lay out
      and optimise the region table and append the interior and boundary
      points, all in the normalised frame.
    */
    method Generate(scheme: SpacingScheme, t: Transcendentals, wm: WindModel, byZero: real -> real, ghost f: Frame)
        returns (outcome: Outcome)
      requires f == Normalization(linkStart, linkEnd, receptor, wind, t, wm)
      requires Generates(scheme, f, width, lineStrength, wm)
      modifies this`linkStart, this`linkEnd, this`receptor, this`wind, this`offset, this`rotation
      modifies this`regionExtents, this`fetchSpacing, this`crossSpacing, this`points
      ensures Geometry() == f
      ensures outcome.Completed? <==> Indexable(scheme) && |LinkRegions(scheme, f)| > 0
      ensures outcome.Halted? ==> outcome.fault == IndexOutOfBounds
      ensures outcome.Completed? ==>
                points == old(points) + NormalPoints(LinkRegions(scheme, f), Settings(width, lineStrength, scheme, f.wind, wm), byZero)
    {
      hide NormalPoints, Optimized, LaidOut, UsableRegions, Normalization, Indexable;
      outcome := FindEndPoints(scheme, t, wm);
      if outcome.Halted? {
        return;
      }
      ghost var rs := LinkRegions(scheme, f);
      ghost var env := Settings(width, lineStrength, scheme, f.wind, wm);
      assert Geometry() == f;
      outcome := Fill(scheme, wm, byZero, rs, env);
    }

    /** Optimise the laid-out table, then append the interior and the boundary points. */
    method Fill(scheme: SpacingScheme, wm: WindModel, byZero: real -> real, ghost rs: seq<Region>, ghost env: StripSettings)
        returns (outcome: Outcome)
      requires Tabled() && rs == Optimized(Regions()) && env == Env(scheme, wm) && UsableRegions(rs, env)
      modifies this`regionExtents, this`fetchSpacing, this`crossSpacing, fetchSpacing, this`points
      ensures outcome.Completed? <==> |rs| > 0
      ensures outcome.Halted? ==> outcome.fault == IndexOutOfBounds
      ensures outcome.Completed? ==> points == old(points) + NormalPoints(rs, env, byZero)
    {
      ghost var prior := points;
      Optimize();
      GenerateInterior(scheme, wm, byZero);
      ghost var mid := points;
      outcome := GenerateBoundary(scheme, wm, byZero);
      if outcome.Completed? {
        NormalPointsAppended(prior, mid, points, rs, env, byZero);
      }
    }

    /** The three nested loops of permute_points: cross outermost, vertical innermost. */
    method AppendGrid(crossProfile: array<real>, fetchProfile: array<real>, verticalProfile: array<real>, ef: real)
      modifies this`points
      ensures points == old(points) + Grid(crossProfile[..], fetchProfile[..], verticalProfile[..], ef)
    {
      ghost var V, C, F := verticalProfile[..], crossProfile[..], fetchProfile[..];
      ghost var base := points;
      var i := 0;
      while i < crossProfile.Length
        invariant 0 <= i <= crossProfile.Length
        invariant points == base + Grid(C[..i], F, V, ef)
      {
        ghost var rowBase := points;
        var j := 0;
        while j < fetchProfile.Length
          invariant 0 <= j <= fetchProfile.Length
          invariant points == rowBase + Row(C[i], F[..j], V, ef)
        {
          ghost var columnBase := points;
          var k := 0;
          while k < verticalProfile.Length
            invariant 0 <= k <= verticalProfile.Length
            invariant points == columnBase + Column(C[i], F[j], V[..k], ef)
          {
            ColumnSnoc(C[i], F[j], V, ef, k);
            SamplesAssociate(columnBase, Column(C[i], F[j], V[..k], ef), [Sample(Vec3(C[i], F[j], V[k]), ef)]);
            points := points + [Sample(Vec3(crossProfile[i], fetchProfile[j], verticalProfile[k]), ef)];
            k := k + 1;
          }
          assert V[..k] == V;
          RowSnoc(C[i], F, V, ef, j);
          SamplesAssociate(rowBase, Row(C[i], F[..j], V, ef), Column(C[i], F[j], V, ef));
          j := j + 1;
        }
        assert F[..j] == F;
        GridSnoc(C, F, V, ef, i);
        SamplesAssociate(base, Grid(C[..i], F, V, ef), Row(C[i], F, V, ef));
        i := i + 1;
      }
      assert C[..i] == C;
    }
  }

  /** The profiles and the strength permute_points computes make up the strip's layout. */
  lemma StripLayoutOf(C: seq<real>, F: seq<real>, V: seq<real>, ef: real, s: Strip, env: StripSettings, byZero: real -> real)
    requires StripDefined(s, env)
    requires C == CrossProfile(s.cross, env) && F == FetchProfile(s.start, s.end, s.fetch)
    requires V == VerticalProfile(env.vertical)
    requires ef == PointStrength(s.fetch, env.lineStrength, |V|, |C|, byZero)
    ensures Layout(C, F, V, ef) == StripLayout(s, env, byZero)
  {
  }

  /** The vertical profile of permute_points: every row of non-zero spacing, in order. */
  method VerticalPoints(rows: seq<VerticalSegment>) returns (profile: array<real>)
    ensures fresh(profile) && profile[..] == VerticalProfile(rows)
  {
    var verticalVector := new PointVector();
    var r := 0;
    while r < |rows|
      invariant 0 <= r <= |rows|
      invariant fresh(verticalVector)
      invariant verticalVector.profile == VerticalProfile(rows[..r])
    {
      if rows[r].spacing != 0.0 {
        var _ := verticalVector.AddSpaced(rows[r].start, rows[r].stop, rows[r].spacing);
      }
      assert rows[..r + 1][..r] == rows[..r];
      r := r + 1;
    }
    assert rows[..r] == rows;
    profile := verticalVector.GetPointArray();
  }

  /** The cross profile of permute_points: the centreline, or a run with the upwind overhang on the wind's side. */
  method CrossPoints(cs: real, env: StripSettings) returns (profile: array<real>)
    requires CrossDefined(cs, env)
    ensures fresh(profile) && profile[..] == CrossProfile(cs, env)
  {
    if cs > env.width {
      profile := new real[1];
      profile[0] := 0.0;
    } else {
      var crossVector := new PointVector();
      if env.windX >= 0.0 {
        var _ := crossVector.AddSpaced(-env.width / 2.0 - env.overhangDown, env.width / 2.0 + env.overhangUp, cs);
      } else {
        var _ := crossVector.AddSpaced(-env.width / 2.0 - env.overhangUp, env.width / 2.0 + env.overhangDown, cs);
      }
      profile := crossVector.GetPointArray();
    }
  }

  /** The fetch profile of permute_points: a run between distinct ends, the start alone otherwise. */
  method FetchPoints(start: real, end: real, fs: real) returns (profile: array<real>)
    requires FetchDefined(start, end, fs)
    ensures fresh(profile) && profile[..] == FetchProfile(start, end, fs)
  {
    var fetchVector := new PointVector();
    if Abs(start - end) > BoundaryTolerance {
      var _ := fetchVector.AddSpaced(start, end, fs);
    } else {
      fetchVector.AddValue(start);
    }
    profile := fetchVector.GetPointArray();
  }

  /** Distinct point objects standing for the samples, one by one. */
  predicate PointsMatch(a: array<Point>, ss: seq<Sample>)
    reads a, set k | 0 <= k < a.Length :: a[k]
  {
    && a.Length == |ss|
    && (forall k :: 0 <= k < a.Length ==> a[k].location == ss[k].location && a[k].sourceStrength == ss[k].strength)
    && (forall j, k :: 0 <= j < k < a.Length ==> a[j] != a[k])
  }

  /** The copy loop of return_point_array: one fresh point object per sample, in order. */
  method MakePoints(ss: seq<Sample>) returns (a: array<Point>)
    ensures fresh(a) && PointsMatch(a, ss)
    ensures forall k :: 0 <= k < a.Length ==> fresh(a[k])
  {
    var made: seq<Point> := [];
    var i := 0;
    while i < |ss|
      invariant 0 <= i <= |ss| && |made| == i
      invariant forall k :: 0 <= k < i ==> fresh(made[k])
      invariant forall k :: 0 <= k < i ==> made[k].location == ss[k].location && made[k].sourceStrength == ss[k].strength
      invariant forall j, k :: 0 <= j < k < i ==> made[j] != made[k]
    {
      var p := new Point.At(ss[i].location, ss[i].strength);
      made := made + [p];
      i := i + 1;
    }
    a := new Point[|made|](k requires 0 <= k < |made| => made[k]);
  }

  /**
    The first loop of optimize_region_extents_and_fetch_spacing (lines
    758-789): re-tile each spacing, overwrite it with the drop mark when the
    region is shorter than 0.1 m, and count the regions that are not.
  */
  method MarkRegions(extents: array<Extent>, fetch: array<real>, ghost cross: seq<real>) returns (goodRegions: int)
    requires extents.Length == fetch.Length == |cross|
    modifies fetch
    ensures forall r :: 0 <= r < fetch.Length ==> fetch[r] == MarkedSpacing(extents[r], old(fetch[r]))
    ensures goodRegions == |LongRegions(Rows(extents[..], old(fetch[..]), cross))|
  {
    ghost var original := fetch[..];
    ghost var rs := Rows(extents[..], original, cross);
    var m := fetch.Length;
    goodRegions := 0;
    var i := 0;
    while i < m
      invariant 0 <= i <= m
      invariant goodRegions == |LongRegions(rs[..i])|
      invariant forall r :: 0 <= r < m ==> fetch[r] == if r < i then MarkedSpacing(extents[r], original[r]) else original[r]
    {
      var spacing, long := MarkRegion(extents[i], fetch[i]);
      LongStep(rs, i);
      assert rs[i].extent == extents[i];
      if long {
        goodRegions := goodRegions + 1;
      }
      fetch[i] := spacing;
      i := i + 1;
    }
    assert rs[..m] == rs;
  }

  /** One pass of that loop: the new spacing of a region, and whether the region is kept. */
  method MarkRegion(extent: Extent, originalSpacing: real) returns (spacing: real, long: bool)
    ensures spacing == MarkedSpacing(extent, originalSpacing)
    ensures long <==> extent.Length() >= MinimumRegionLength
  {
    var regionLength := extent.hi - extent.lo;
    spacing := Retiled(regionLength, originalSpacing);
    long := true;
    if regionLength < MinimumRegionLength {
      spacing := DroppedMark;
      long := false;
    }
  }

  /**
    The re-tiling step of that loop: a spacing that does not divide the
    region evenly becomes the region length over the rounded-up ratio, and
    over at least five intervals.
  */
  method Retiled(regionLength: real, originalSpacing: real) returns (spacing: real)
    ensures spacing == RetiledSpacing(regionLength, originalSpacing)
  {
    spacing := originalSpacing;
    if originalSpacing != 0.0 {
      var ratio := regionLength / originalSpacing;
      var remainder := ratio - Floor(ratio) as real;
      if remainder > RemainderTolerance {
        var pointsPerLink := Ceil(ratio);
        if pointsPerLink < MinimumIntervals {
          pointsPerLink := MinimumIntervals;
        }
        spacing := regionLength / pointsPerLink as real;
      }
    }
  }

  /** One more row considered by the count of long regions. */
  lemma LongStep(rs: seq<Region>, i: int)
    requires 0 <= i < |rs|
    ensures |LongRegions(rs[..i + 1])| == |LongRegions(rs[..i])| + if rs[i].extent.Length() >= MinimumRegionLength then 1 else 0
  {
    assert rs[..i + 1][..i] == rs[..i];
  }

  /** Re-marking the spacings of the table marks its regions. */
  lemma MarkedRows(extents: seq<Extent>, fetch: seq<real>, marked: seq<real>, cross: seq<real>)
    requires |extents| == |fetch| == |marked| == |cross|
    requires forall r :: 0 <= r < |fetch| ==> marked[r] == MarkedSpacing(extents[r], fetch[r])
    ensures Rows(extents, marked, cross) == Marked(Rows(extents, fetch, cross))
  {
  }

  lemma OptimizedFrom(rs: seq<Region>, marked: seq<Region>, copy: seq<Region>, goodRegions: int)
    requires marked == Marked(rs) && goodRegions == |LongRegions(rs)|
    requires copy == Kept(marked) + Padding(goodRegions - |Kept(marked)|)
    ensures copy == Optimized(rs)
  {
  }

  /** One more row considered by the filter. */
  lemma KeptStep(ms: seq<Region>, i: int)
    requires 0 <= i < |ms|
    ensures Kept(ms[..i + 1]) == Kept(ms[..i]) + (if ms[i].fetch > KeptThreshold then [ms[i]] else [])
    ensures |Kept(ms[..i + 1])| <= |Kept(ms)|
  {
    assert ms[..i + 1][..i] == ms[..i];
    KeptPrefix(ms, i + 1);
  }

  /** Three tables holding `kept` and then blank rows read as `kept` padded. */
  lemma RowsOf(extents: seq<Extent>, fetch: seq<real>, cross: seq<real>, kept: seq<Region>)
    requires |extents| == |fetch| == |cross| >= |kept|
    requires forall r :: 0 <= r < |fetch| ==>
               Region(extents[r], fetch[r], cross[r]) == if r < |kept| then kept[r] else BlankRegion
    ensures Rows(extents, fetch, cross) == kept + Padding(|fetch| - |kept|)
  {
  }

  /**
    The second loop of optimize_region_extents_and_fetch_spacing (lines
    792-812): the rows whose spacing is above the drop threshold, in order,
    in zero-initialised tables of `goodRegions` rows.
  */
  method CopyKept(extents: array<Extent>, fetch: array<real>, cross: array<real>, goodRegions: int)
    returns (newExtents: array<Extent>, newFetch: array<real>, newCross: array<real>)
    requires extents.Length == fetch.Length == cross.Length
    requires |Kept(Rows(extents[..], fetch[..], cross[..]))| <= goodRegions
    ensures fresh(newExtents) && fresh(newFetch) && fresh(newCross) && newFetch != newCross
    ensures newExtents.Length == newFetch.Length == newCross.Length == goodRegions
    ensures var kept := Kept(Rows(extents[..], fetch[..], cross[..]));
            Rows(newExtents[..], newFetch[..], newCross[..]) == kept + Padding(goodRegions - |kept|)
  {
    ghost var ms := Rows(extents[..], fetch[..], cross[..]);
    var m := fetch.Length;
    newExtents := new Extent[goodRegions](_ => Extent(0.0, 0.0));
    newFetch := new real[goodRegions](_ => 0.0);
    newCross := new real[goodRegions](_ => 0.0);
    ghost var kept: seq<Region> := [];
    var index := 0;
    var i := 0;
    while i < m
      invariant 0 <= i <= m
      invariant kept == Kept(ms[..i]) && index == |kept| <= goodRegions
      invariant forall r :: 0 <= r < goodRegions ==>
                  Region(newExtents[r], newFetch[r], newCross[r]) == if r < index then kept[r] else BlankRegion
    {
      KeptStep(ms, i);
      if fetch[i] > KeptThreshold {
        assert ms[i] == Region(extents[i], fetch[i], cross[i]);
        kept := kept + [ms[i]];
        newExtents[index] := extents[i];
        newFetch[index] := fetch[i];
        newCross[index] := cross[i];
        index := index + 1;
      }
      i := i + 1;
    }
    assert ms[..i] == ms;
    RowsOf(newExtents[..], newFetch[..], newCross[..], kept);
  }
}
