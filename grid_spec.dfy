/*
  Point grids of the adaptive discretizer (permute_points,
  generate_interior_points and generate_boundary_points of
  highway_point_spacing.java), as functions on values, and the conservation of
  line-source mass they were designed for.
*/
module GridSpec {
  import opened Numerics
  import opened Coordinates
  import opened PointVectors
  import opened SpacingSpec

  /** A point source before it becomes an object: its location and strength. */
  datatype Sample = Sample(location: Vec3, strength: real)

  /** Fetch ends closer together than this (m) give a single fetch position. */
  const BoundaryTolerance: real := 0.0001

  /**
    What permute_points reads besides its arguments: the link width and line
    strength, the vertical layout, the overhangs, and the x component of the
    rotated wind, whose sign decides which side of the road is upwind.
  */
  datatype StripSettings = StripSettings(
    width: real,
    lineStrength: real,
    vertical: seq<VerticalSegment>,
    overhangUp: real,
    overhangDown: real,
    windX: real)

  /** The arguments of one permute_points call: fetch ends, fetch spacing, cross spacing. */
  datatype Strip = Strip(start: real, end: real, fetch: real, cross: real)

  /** The vertical positions: every row of non-zero spacing adds its spaced run, in order. */
  function VerticalProfile(rows: seq<VerticalSegment>): seq<real>
  {
    if rows == [] then []
    else
      VerticalProfile(rows[..|rows| - 1]) + RowHeights(rows[|rows| - 1])
  }

  /** The heights one row contributes; a row of zero spacing is skipped. */
  function RowHeights(row: VerticalSegment): seq<real>
  {
    if row.spacing != 0.0 then SpacedRun(row.start, row.stop, row.spacing) else []
  }

  /** The cross profile is defined unless a zero spacing would make the source loop without end. */
  predicate CrossDefined(cs: real, env: StripSettings)
  {
    cs > env.width || cs != 0.0
  }

  /**
    The cross positions: the centreline alone when the spacing exceeds the
    width, otherwise a spaced run over the road and its overhangs, with the
    upwind overhang on the side the wind comes from.
  */
  function CrossProfile(cs: real, env: StripSettings): seq<real>
    requires CrossDefined(cs, env)
  {
    if cs > env.width then [0.0]
    else if env.windX >= 0.0 then
      SpacedRun(-env.width / 2.0 - env.overhangDown, env.width / 2.0 + env.overhangUp, cs)
    else
      SpacedRun(-env.width / 2.0 - env.overhangUp, env.width / 2.0 + env.overhangDown, cs)
  }

  predicate FetchDefined(start: real, end: real, fs: real)
  {
    Abs(start - end) > BoundaryTolerance ==> fs != 0.0
  }

  /** The fetch positions: a spaced run, or the start alone when the ends coincide. */
  function FetchProfile(start: real, end: real, fs: real): seq<real>
    requires FetchDefined(start, end, fs)
  {
    if Abs(start - end) > BoundaryTolerance then SpacedRun(start, end, fs) else [start]
  }

  /** The innermost loop: one sample per vertical position. */
  function Column(c: real, f: real, V: seq<real>, ef: real): (col: seq<Sample>)
    ensures |col| == |V|
  {
    seq(|V|, k requires 0 <= k < |V| => Sample(Vec3(c, f, V[k]), ef))
  }

  /** The middle loop: one column per fetch position. */
  function Row(c: real, F: seq<real>, V: seq<real>, ef: real): seq<Sample>
  {
    if F == [] then [] else Row(c, F[..|F| - 1], V, ef) + Column(c, F[|F| - 1], V, ef)
  }

  /** The outer loop: one row per cross position. */
  function Grid(C: seq<real>, F: seq<real>, V: seq<real>, ef: real): seq<Sample>
  {
    if C == [] then [] else Grid(C[..|C| - 1], F, V, ef) + Row(C[|C| - 1], F, V, ef)
  }

  predicate StripDefined(s: Strip, env: StripSettings)
  {
    CrossDefined(s.cross, env) && FetchDefined(s.start, s.end, s.fetch)
  }

  /**
    The strength of every point of a strip: fetch spacing times line strength,
    shared among the points of one cross section. The divisor is a product of
    integer lengths, so zero divides as in IEEE arithmetic.
  */
  function PointStrength(fs: real, lineStrength: real, verticalCount: int, crossCount: int, byZero: real -> real): real
  {
    Quotient(fs * lineStrength, (verticalCount * crossCount) as real, byZero)
  }

  /**
    What permute_points works out before its loops: the cross, fetch and
    vertical profiles and the strength shared by every point of the strip.
  */
  datatype Layout = Layout(cross: seq<real>, fetch: seq<real>, vertical: seq<real>, strength: real)

  function StripLayout(s: Strip, env: StripSettings, byZero: real -> real): (l: Layout)
    requires StripDefined(s, env)
    ensures l.fetch == FetchProfile(s.start, s.end, s.fetch)
  {
    var C := CrossProfile(s.cross, env);
    var V := VerticalProfile(env.vertical);
    Layout(C, FetchProfile(s.start, s.end, s.fetch), V, PointStrength(s.fetch, env.lineStrength, |V|, |C|, byZero))
  }

  /** The points one permute_points call appends. */
  function LayoutGrid(l: Layout): seq<Sample>
  {
    Grid(l.cross, l.fetch, l.vertical, l.strength)
  }

  predicate StripsDefined(strips: seq<Strip>, env: StripSettings)
  {
    forall i :: 0 <= i < |strips| ==> StripDefined(strips[i], env)
  }

  function Layouts(strips: seq<Strip>, env: StripSettings, byZero: real -> real): (ls: seq<Layout>)
    requires StripsDefined(strips, env)
    ensures |ls| == |strips|
  {
    seq(|strips|, i requires 0 <= i < |strips| => StripLayout(strips[i], env, byZero))
  }

  /** The points of several permute_points calls, in call order. */
  function Grids(ls: seq<Layout>): seq<Sample>
  {
    if ls == [] then [] else Grids(ls[..|ls| - 1]) + LayoutGrid(ls[|ls| - 1])
  }

  /** generate_interior_points: each region without its two end lines. */
  function InteriorStrip(r: Region): Strip
  {
    Strip(r.extent.lo + r.fetch, r.extent.hi - r.fetch, r.fetch, r.cross)
  }

  function InteriorStrips(rs: seq<Region>): (strips: seq<Strip>)
    ensures |strips| == |rs|
  {
    seq(|rs|, i requires 0 <= i < |rs| => InteriorStrip(rs[i]))
  }

  /**
    generate_boundary_points, line i: the two end lines carry half the
    terminal region's fetch spacing; a line between two regions carries the
    average of their fetch spacings and the smaller of their cross spacings.
  */
  function BoundaryStrip(rs: seq<Region>, i: nat): Strip
    requires 0 < |rs| && i <= |rs|
  {
    Strip(BoundaryPosition(rs, i), BoundaryPosition(rs, i), BoundaryFetch(rs, i), BoundaryCross(rs, i))
  }

  /** Line i stands at the start of region i, the last line at the end of the last region. */
  function BoundaryPosition(rs: seq<Region>, i: nat): real
    requires 0 < |rs| && i <= |rs|
  {
    if i == |rs| then rs[i - 1].extent.hi else rs[i].extent.lo
  }

  function BoundaryFetch(rs: seq<Region>, i: nat): real
    requires 0 < |rs| && i <= |rs|
  {
    if i == 0 then rs[0].fetch / 2.0
    else if i == |rs| then rs[i - 1].fetch / 2.0
    else (rs[i].fetch + rs[i - 1].fetch) / 2.0
  }

  function BoundaryCross(rs: seq<Region>, i: nat): real
    requires 0 < |rs| && i <= |rs|
  {
    if i == 0 then rs[0].cross
    else if i == |rs| then rs[i - 1].cross
    else if rs[i - 1].cross > rs[i].cross then rs[i].cross
    else rs[i - 1].cross
  }

  function BoundaryStrips(rs: seq<Region>): (strips: seq<Strip>)
    requires 0 < |rs|
    ensures |strips| == |rs| + 1
  {
    seq(|rs| + 1, i requires 0 <= i <= |rs| => BoundaryStrip(rs, i))
  }

  /** Every region can be turned into points: a non-zero fetch spacing and a defined cross profile. */
  predicate UsableRegions(rs: seq<Region>, env: StripSettings)
  {
    forall i :: 0 <= i < |rs| ==> rs[i].fetch != 0.0 && CrossDefined(rs[i].cross, env)
  }

  /** A boundary line has a single fetch position and the cross spacing of one of its regions. */
  lemma BoundaryStripDefined(rs: seq<Region>, i: nat, env: StripSettings)
    requires 0 < |rs| && i <= |rs| && UsableRegions(rs, env)
    ensures StripDefined(BoundaryStrip(rs, i), env)
  {
    if 0 < i < |rs| {
      assert CrossDefined(rs[i - 1].cross, env) && CrossDefined(rs[i].cross, env);
    }
  }

  /** generate_interior_points: one layout per region. */
  function InteriorLayouts(rs: seq<Region>, env: StripSettings, byZero: real -> real): (ls: seq<Layout>)
    requires UsableRegions(rs, env)
    ensures |ls| == |rs|
  {
    Layouts(InteriorStrips(rs), env, byZero)
  }

  /** generate_boundary_points: one layout per boundary line. */
  function BoundaryLayouts(rs: seq<Region>, env: StripSettings, byZero: real -> real): (ls: seq<Layout>)
    requires 0 < |rs| && UsableRegions(rs, env)
    ensures |ls| == |rs| + 1
  {
    Layouts(BoundaryStrips(rs), env, byZero)
  }

  /** The points generated in the normalised frame: interior strips, then boundary lines. */
  function NormalPoints(rs: seq<Region>, env: StripSettings, byZero: real -> real): seq<Sample>
    requires 0 < |rs| && UsableRegions(rs, env)
  {
    Grids(InteriorLayouts(rs, env, byZero)) + Grids(BoundaryLayouts(rs, env, byZero))
  }

  /** Interior points appended, then boundary points: the normal points appended. */
  lemma NormalPointsAppended(prior: seq<Sample>, mid: seq<Sample>, after: seq<Sample>,
                             rs: seq<Region>, env: StripSettings, byZero: real -> real)
    requires 0 < |rs| && UsableRegions(rs, env)
    requires mid == prior + Grids(InteriorLayouts(rs, env, byZero))
    requires after == mid + Grids(BoundaryLayouts(rs, env, byZero))
    ensures after == prior + NormalPoints(rs, env, byZero)
  {
    var interior, boundary := Grids(InteriorLayouts(rs, env, byZero)), Grids(BoundaryLayouts(rs, env, byZero));
    assert NormalPoints(rs, env, byZero) == interior + boundary;
    SamplesAssociate(prior, interior, boundary);
  }

  /** re_rotate_coordinate_system for one point: translate back, then rotate back. */
  function Restored(s: Sample, offset: Vec3, rotation: real, t: Transcendentals): Sample
  {
    s.(location := Rotated(Plus(s.location, offset), -rotation, t))
  }

  function RestoredAll(ss: seq<Sample>, offset: Vec3, rotation: real, t: Transcendentals): (rs: seq<Sample>)
    ensures |rs| == |ss|
  {
    seq(|ss|, i requires 0 <= i < |ss| => Restored(ss[i], offset, rotation, t))
  }

  /** The source multiplies the two counts as integers before converting. */
  lemma ProductAsReal(a: int, b: int)
    ensures (a * b) as real == a as real * b as real
  {
  }

  /** One more vertical position adds one sample to the column. */
  lemma SamplesAssociate(a: seq<Sample>, b: seq<Sample>, c: seq<Sample>)
    ensures a + b + c == a + (b + c)
  {
  }

  lemma ColumnSnoc(c: real, f: real, V: seq<real>, ef: real, k: int)
    requires 0 <= k < |V|
    ensures Column(c, f, V[..k + 1], ef) == Column(c, f, V[..k], ef) + [Sample(Vec3(c, f, V[k]), ef)]
  {
  }

  /** One more fetch position adds one column to the row. */
  lemma RowSnoc(c: real, F: seq<real>, V: seq<real>, ef: real, j: int)
    requires 0 <= j < |F|
    ensures Row(c, F[..j + 1], V, ef) == Row(c, F[..j], V, ef) + Column(c, F[j], V, ef)
  {
    assert F[..j + 1][..j] == F[..j];
  }

  /** One more cross position adds one row to the grid. */
  lemma GridSnoc(C: seq<real>, F: seq<real>, V: seq<real>, ef: real, i: int)
    requires 0 <= i < |C|
    ensures Grid(C[..i + 1], F, V, ef) == Grid(C[..i], F, V, ef) + Row(C[i], F, V, ef)
  {
    assert C[..i + 1][..i] == C[..i];
  }

  /** Appending the grid of one more layout to the points of the first `i`. */
  lemma GridsSnoc(base: seq<Sample>, ls: seq<Layout>, i: int, before: seq<Sample>, after: seq<Sample>)
    requires 0 <= i < |ls|
    requires before == base + Grids(ls[..i]) && after == before + LayoutGrid(ls[i])
    ensures after == base + Grids(ls[..i + 1])
  {
    assert ls[..i + 1][..i] == ls[..i];
  }

  /** Restoring points one list at a time. */
  lemma RestoredAllAppend(a: seq<Sample>, b: seq<Sample>, offset: Vec3, rotation: real, t: Transcendentals)
    ensures RestoredAll(a + b, offset, rotation, t) == RestoredAll(a, offset, rotation, t) + RestoredAll(b, offset, rotation, t)
  {
  }

  // Sums.

  function Total(ss: seq<Sample>): real
  {
    if ss == [] then 0.0 else Total(ss[..|ss| - 1]) + ss[|ss| - 1].strength
  }

  function Sum(xs: seq<real>): real
  {
    if xs == [] then 0.0 else Sum(xs[..|xs| - 1]) + xs[|xs| - 1]
  }

  function Lengths(rs: seq<Region>): (ls: seq<real>)
    ensures |ls| == |rs|
  {
    seq(|rs|, i requires 0 <= i < |rs| => rs[i].extent.Length())
  }

  function RegionFetches(rs: seq<Region>): (fs: seq<real>)
    ensures |fs| == |rs|
  {
    seq(|rs|, i requires 0 <= i < |rs| => rs[i].fetch)
  }

  /** Each region's length less one fetch spacing. */
  function NetLengths(rs: seq<Region>): (ns: seq<real>)
    ensures |ns| == |rs|
  {
    seq(|rs|, i requires 0 <= i < |rs| => rs[i].extent.Length() - rs[i].fetch)
  }

  /**
    The fetch spacings of the strips. Regions and strips are different
    records with a field of the same name, so each has its own projection.
  */
  function StripFetches(strips: seq<Strip>): (fs: seq<real>)
    ensures |fs| == |strips|
  {
    seq(|strips|, i requires 0 <= i < |strips| => strips[i].fetch)
  }

  /** The line-source length a strip stands for: its fetch spacing once per fetch position. */
  function StripMass(s: Strip): real
    requires FetchDefined(s.start, s.end, s.fetch)
  {
    Scaled(|FetchProfile(s.start, s.end, s.fetch)|, s.fetch)
  }

  /** The strength a layout's points carry together, counted point by point. */
  function Charge(l: Layout): real
  {
    Scaled(|l.cross|, Scaled(|l.fetch|, Scaled(|l.vertical|, l.strength)))
  }

  function Charges(ls: seq<Layout>): (cs: seq<real>)
    ensures |cs| == |ls|
  {
    seq(|ls|, i requires 0 <= i < |ls| => Charge(ls[i]))
  }

  /** The strength several layouts carry together. */
  function TotalCharge(ls: seq<Layout>): real
  {
    Sum(Charges(ls))
  }

  // Arithmetic helpers.

  lemma MulMonotone(a: int, b: int, m: nat)
    requires a <= b
    ensures a * m <= b * m
  {
    assert b * m - a * m == (b - a) * m;
  }

  lemma {:induction false} TotalAppend(a: seq<Sample>, b: seq<Sample>)
    ensures Total(a + b) == Total(a) + Total(b)
    decreases |b|
  {
    if b == [] {
      assert a + b == a;
    } else {
      assert (a + b)[..|a + b| - 1] == a + b[..|b| - 1];
      TotalAppend(a, b[..|b| - 1]);
    }
  }

  lemma {:induction false} SumAppend(a: seq<real>, b: seq<real>)
    ensures Sum(a + b) == Sum(a) + Sum(b)
    decreases |b|
  {
    if b == [] {
      assert a + b == a;
    } else {
      assert (a + b)[..|a + b| - 1] == a + b[..|b| - 1];
      SumAppend(a, b[..|b| - 1]);
    }
  }

  /** Sum of a pointwise difference. */
  lemma {:induction false} SumDifference(xs: seq<real>, ys: seq<real>, ds: seq<real>)
    requires |xs| == |ys| == |ds|
    requires forall i :: 0 <= i < |ds| ==> ds[i] == xs[i] - ys[i]
    ensures Sum(ds) == Sum(xs) - Sum(ys)
    decreases |ds|
  {
    if ds != [] {
      var n := |ds| - 1;
      SumDifference(xs[..n], ys[..n], ds[..n]);
    }
  }

  /** n copies of k added up. */
  function Scaled(n: nat, k: real): real
  {
    if n == 0 then 0.0 else Scaled(n - 1, k) + k
  }

  lemma {:induction false} ScaledIsProduct(n: nat, k: real)
    ensures Scaled(n, k) == n as real * k
  {
    if n > 0 {
      ScaledIsProduct(n - 1, k);
      assert (n - 1) as real * k + k == n as real * k;
    }
  }

  /** Samples of one common strength w add up to their count times w. */
  lemma {:induction false} TotalOfUniform(ss: seq<Sample>, w: real)
    requires forall i :: 0 <= i < |ss| ==> ss[i].strength == w
    ensures Total(ss) == Scaled(|ss|, w)
    decreases |ss|
  {
    if ss != [] {
      TotalOfUniform(ss[..|ss| - 1], w);
    }
  }

  // The shape of a grid.

  /** Index arithmetic of a block layout: row-major positions stay inside their blocks. */
  lemma BlockIndex(i: int, j: int, k: int, nC: int, nF: int, nV: int)
    requires 0 <= i < nC && 0 <= j < nF && 0 <= k < nV
    ensures 0 <= j * nV + k < nF * nV
    ensures 0 <= i * (nF * nV) + (j * nV + k) < nC * (nF * nV)
  {
    MulMonotone(j + 1, nF, nV);
    assert 0 <= j * nV;
    MulMonotone(i + 1, nC, nF * nV);
    assert 0 <= i * (nF * nV);
  }

  lemma MulSucc(a: int, b: int)
    ensures (a + 1) * b == a * b + b
  {
  }

  lemma {:induction false} RowLength(c: real, F: seq<real>, V: seq<real>, ef: real)
    ensures |Row(c, F, V, ef)| == |F| * |V|
    decreases |F|
  {
    if F != [] {
      RowLength(c, F[..|F| - 1], V, ef);
      MulSucc(|F| - 1, |V|);
    }
  }

  lemma {:induction false} RowAt(c: real, F: seq<real>, V: seq<real>, ef: real, j: int, k: int)
    requires 0 <= j < |F| && 0 <= k < |V|
    ensures j * |V| + k < |Row(c, F, V, ef)|
    ensures Row(c, F, V, ef)[j * |V| + k] == Sample(Vec3(c, F[j], V[k]), ef)
    decreases |F|
  {
    var n := |V|;
    var F' := F[..|F| - 1];
    var prefix := Row(c, F', V, ef);
    var column := Column(c, F[|F| - 1], V, ef);
    RowLength(c, F', V, ef);
    RowLength(c, F, V, ef);
    var index := j * n + k;
    BlockIndex(0, j, k, 1, |F|, n);
    assert Row(c, F, V, ef) == prefix + column;
    if j < |F'| {
      RowAt(c, F', V, ef, j, k);
      BlockIndex(0, j, k, 1, |F'|, n);
      assert F'[j] == F[j];
    } else {
      assert j == |F'|;
      assert index == |prefix| + k;
    }
  }

  lemma {:induction false} GridLength(C: seq<real>, F: seq<real>, V: seq<real>, ef: real)
    ensures |Grid(C, F, V, ef)| == |C| * (|F| * |V|)
    decreases |C|
  {
    if C != [] {
      GridLength(C[..|C| - 1], F, V, ef);
      RowLength(C[|C| - 1], F, V, ef);
      MulSucc(|C| - 1, |F| * |V|);
    }
  }

  /**
    permute_points nests cross, then fetch, then vertical: the sample at
    position i |F| |V| + j |V| + k sits at cross C[i], fetch F[j], height V[k].
  */
  lemma {:induction false} GridAt(C: seq<real>, F: seq<real>, V: seq<real>, ef: real, i: int, j: int, k: int)
    requires 0 <= i < |C| && 0 <= j < |F| && 0 <= k < |V|
    ensures i * (|F| * |V|) + (j * |V| + k) < |Grid(C, F, V, ef)|
    ensures Grid(C, F, V, ef)[i * (|F| * |V|) + (j * |V| + k)] == Sample(Vec3(C[i], F[j], V[k]), ef)
    decreases |C|
  {
    var block := |F| * |V|;
    var inner := j * |V| + k;
    var C' := C[..|C| - 1];
    var prefix := Grid(C', F, V, ef);
    var row := Row(C[|C| - 1], F, V, ef);
    GridLength(C', F, V, ef);
    GridLength(C, F, V, ef);
    RowLength(C[|C| - 1], F, V, ef);
    BlockIndex(i, j, k, |C|, |F|, |V|);
    assert Grid(C, F, V, ef) == prefix + row;
    if i < |C'| {
      GridAt(C', F, V, ef, i, j, k);
      BlockIndex(i, j, k, |C'|, |F|, |V|);
      assert C'[i] == C[i];
    } else {
      assert i == |C'|;
      assert i * block + inner == |prefix| + inner;
      RowAt(C[|C| - 1], F, V, ef, j, k);
    }
  }

  lemma {:induction false} RowStrengths(c: real, F: seq<real>, V: seq<real>, ef: real)
    ensures forall n :: 0 <= n < |Row(c, F, V, ef)| ==> Row(c, F, V, ef)[n].strength == ef
    decreases |F|
  {
    if F != [] {
      RowStrengths(c, F[..|F| - 1], V, ef);
    }
  }

  /** Every sample of a grid has the grid's strength. */
  lemma {:induction false} GridStrengths(C: seq<real>, F: seq<real>, V: seq<real>, ef: real)
    ensures forall n :: 0 <= n < |Grid(C, F, V, ef)| ==> Grid(C, F, V, ef)[n].strength == ef
    decreases |C|
  {
    if C != [] {
      GridStrengths(C[..|C| - 1], F, V, ef);
      RowStrengths(C[|C| - 1], F, V, ef);
    }
  }

  // The profiles.

  /** A cross spacing wider than the road gives the centreline alone. */
  lemma WideCrossIsCentreline(cs: real, env: StripSettings)
    requires cs > env.width
    ensures CrossProfile(cs, env) == [0.0]
  {
  }

  /** Fetch ends within the tolerance give the start alone. */
  lemma CoincidentFetchIsStart(start: real, end: real, fs: real)
    requires Abs(start - end) <= BoundaryTolerance
    ensures FetchProfile(start, end, fs) == [start]
  {
  }

  lemma {:induction false} VerticalProfileAppend(a: seq<VerticalSegment>, b: seq<VerticalSegment>)
    ensures VerticalProfile(a + b) == VerticalProfile(a) + VerticalProfile(b)
    decreases |b|
  {
    if b == [] {
      assert a + b == a;
    } else {
      var b', last := b[..|b| - 1], b[|b| - 1];
      assert b == b' + [last];
      assert a + b == (a + b') + [last];
      VerticalProfileSnoc(a + b, a + b', last);
      VerticalProfileSnoc(b, b', last);
      VerticalProfileAppend(a, b');
      HeightsAssociate(VerticalProfile(a), VerticalProfile(b'), RowHeights(last));
    }
  }

  lemma HeightsAssociate(x: seq<real>, y: seq<real>, z: seq<real>)
    ensures x + y + z == x + (y + z)
  {
  }

  lemma VerticalProfileSnoc(rows: seq<VerticalSegment>, init: seq<VerticalSegment>, last: VerticalSegment)
    requires rows == init + [last]
    ensures VerticalProfile(rows) == VerticalProfile(init) + RowHeights(last)
  {
    assert rows[..|rows| - 1] == init;
  }

  /** Rows of zero spacing contribute no heights, wherever they stand. */
  lemma ZeroVerticalRowSkipped(a: seq<VerticalSegment>, row: VerticalSegment, b: seq<VerticalSegment>)
    requires row.spacing == 0.0
    ensures VerticalProfile(a + [row] + b) == VerticalProfile(a + b)
  {
    VerticalProfileAppend(a + [row], b);
    VerticalProfileAppend(a, b);
    assert (a + [row])[..|a + [row]| - 1] == a;
  }

  /** With a positive spacing and non-negative overhangs, the cross profile is never empty. */
  lemma CrossProfileNonEmpty(cs: real, env: StripSettings)
    requires cs > 0.0 && env.overhangUp + env.overhangDown >= 0.0
    ensures |CrossProfile(cs, env)| >= 1
  {
    if cs <= env.width {
      if env.windX >= 0.0 {
        SpacedRunLength(-env.width / 2.0 - env.overhangDown, env.width / 2.0 + env.overhangUp, cs);
      } else {
        SpacedRunLength(-env.width / 2.0 - env.overhangUp, env.width / 2.0 + env.overhangDown, cs);
      }
    }
  }

  /** The interior fetch positions of a region from lo holding k fetch spacings fs. */
  function InteriorRun(lo: real, fs: real, k: int): (run: seq<real>)
    ensures |run| == if k >= 1 then k - 1 else 0
  {
    if k < 1 then [] else seq(k - 1, i requires 0 <= i < k - 1 => lo + (i + 1) as real * fs)
  }

  /** For k = 1 the interior strip runs backwards and yields nothing. */
  lemma InteriorOfSingleInterval(lo: real, hi: real, fs: real)
    requires fs > BoundaryTolerance && hi == lo + fs
    ensures FetchProfile(lo + fs, hi - fs, fs) == []
  {
    var start, end := lo + fs, hi - fs;
    calc {
      (end - start) / fs;
      == (-1.0 * fs) / fs;
      == -1.0;
    }
    assert Intervals(start, end, fs) == -1;
  }

  /** For k = 2 the interior strip is the single midpoint. */
  lemma InteriorOfTwoIntervals(lo: real, hi: real, fs: real)
    requires fs > BoundaryTolerance && hi == lo + 2.0 * fs
    ensures FetchProfile(lo + fs, hi - fs, fs) == [lo + fs]
  {
  }

  /** For k >= 3 the spaced run has no residual and starts one spacing in. */
  lemma InteriorOfManyIntervals(lo: real, hi: real, fs: real, k: int)
    requires fs > BoundaryTolerance && k >= 3 && hi == lo + k as real * fs
    ensures FetchProfile(lo + fs, hi - fs, fs) == InteriorRun(lo, fs, k)
  {
    ManyIntervalsArithmetic(lo, hi, fs, k);
    InteriorRunSteps(lo, fs, k);
  }

  /** The interior of k >= 3 spacings is longer than the tolerance and splits into k - 2 intervals. */
  lemma ManyIntervalsArithmetic(lo: real, hi: real, fs: real, k: int)
    requires fs > BoundaryTolerance && k >= 3 && hi == lo + k as real * fs
    ensures Abs((lo + fs) - (hi - fs)) > BoundaryTolerance
    ensures Intervals(lo + fs, hi - fs, fs) == k - 2
    ensures SpacedStart(lo + fs, hi - fs, fs) == lo + fs
  {
    var start, end := lo + fs, hi - fs;
    var m := (k - 2) as real;
    assert end - start == m * fs;
    assert m * fs >= fs by {
      ScaleMonotone(1.0, m, fs);
    }
    assert (end - start) / fs == m;
  }

  /** The interior run is the run of k - 1 values from lo + fs, fs apart. */
  lemma InteriorRunSteps(lo: real, fs: real, k: int)
    requires k >= 1
    ensures InteriorRun(lo, fs, k) == Steps(lo + fs, fs, k - 1)
  {
    var run := Steps(lo + fs, fs, k - 1);
    var expected := InteriorRun(lo, fs, k);
    StepsAt(lo + fs, fs, k - 1);
    forall i | 0 <= i < k - 1
      ensures run[i] == expected[i]
    {
      assert (i + 1) as real * fs == fs + i as real * fs;
    }
  }

  /**
    A region of length k fs (k >= 1) with fs above the tolerance has k - 1
    interior fetch positions, lo + i fs for i = 1 .. k-1.
  */
  lemma InteriorFetchPositions(lo: real, hi: real, fs: real, k: int)
    requires fs > BoundaryTolerance && k >= 1 && hi == lo + k as real * fs
    ensures FetchProfile(lo + fs, hi - fs, fs) == InteriorRun(lo, fs, k)
  {
    if k == 1 {
      InteriorOfSingleInterval(lo, hi, fs);
    } else if k == 2 {
      InteriorOfTwoIntervals(lo, hi, fs);
      assert InteriorRun(lo, fs, k) == [lo + fs];
    } else {
      InteriorOfManyIntervals(lo, hi, fs, k);
    }
  }

  /** The interior positions lie strictly inside the region. */
  lemma InteriorRunInside(lo: real, hi: real, fs: real, k: int)
    requires fs > 0.0 && k >= 1 && hi == lo + k as real * fs
    ensures forall i :: 0 <= i < |InteriorRun(lo, fs, k)| ==> lo < InteriorRun(lo, fs, k)[i] < hi
  {
    var run := InteriorRun(lo, fs, k);
    forall i | 0 <= i < |run|
      ensures lo < run[i] < hi
    {
      ScaleMonotone(1.0, (i + 1) as real, fs);
      ScaleMonotone((i + 1) as real, (k - 1) as real, fs);
      assert (k - 1) as real * fs == k as real * fs - fs;
    }
  }

  // Strengths and mass.

  lemma {:induction false} RowTotal(c: real, F: seq<real>, V: seq<real>, ef: real)
    ensures Total(Row(c, F, V, ef)) == Scaled(|F|, Scaled(|V|, ef))
    decreases |F|
  {
    if F != [] {
      var F' := F[..|F| - 1];
      var column := Column(c, F[|F| - 1], V, ef);
      RowTotal(c, F', V, ef);
      TotalAppend(Row(c, F', V, ef), column);
      TotalOfUniform(column, ef);
    }
  }

  lemma {:induction false} GridTotal(C: seq<real>, F: seq<real>, V: seq<real>, ef: real)
    ensures Total(Grid(C, F, V, ef)) == Scaled(|C|, Scaled(|F|, Scaled(|V|, ef)))
    decreases |C|
  {
    if C != [] {
      var C' := C[..|C| - 1];
      RowTotal(C[|C| - 1], F, V, ef);
      GridTotal(C', F, V, ef);
      TotalAppend(Grid(C', F, V, ef), Row(C[|C| - 1], F, V, ef));
    }
  }

  /** Moving points back to the original frame keeps every strength, so the total. */
  lemma {:induction false} RestoredTotal(ss: seq<Sample>, offset: Vec3, rotation: real, t: Transcendentals)
    ensures Total(RestoredAll(ss, offset, rotation, t)) == Total(ss)
    decreases |ss|
  {
    if ss != [] {
      var init := ss[..|ss| - 1];
      RestoredTotal(init, offset, rotation, t);
      assert RestoredAll(ss, offset, rotation, t)[..|ss| - 1] == RestoredAll(init, offset, rotation, t);
    }
  }

  /** c (f (v (x / (v c)))) == f x for positive c and v. */
  lemma SharedStrength(c: real, f: real, v: real, x: real)
    requires c > 0.0 && v > 0.0
    ensures c * (f * (v * (x / (v * c)))) == f * x
  {
    var m := v * c;
    assert m > 0.0;
    calc {
      c * (f * (v * (x / m)));
      == f * ((v * c) * (x / m));
      == f * (m * (x / m));
      == f * x;
    }
  }

  /** The strength of a strip's points, for positive counts, without the zero-divisor case. */
  lemma PointStrengthValue(fs: real, lineStrength: real, v: int, c: int, byZero: real -> real)
    requires v > 0 && c > 0
    ensures PointStrength(fs, lineStrength, v, c, byZero) == (fs * lineStrength) / (v as real * c as real)
  {
    ProductAsReal(v, c);
    assert v as real * c as real > 0.0;
  }

  /**
    The points at one fetch position of a strip, |C| |V| of them, carry
    exactly fetch spacing times line strength together.
  */
  lemma FetchPositionTotal(fs: real, lineStrength: real, v: nat, c: nat, byZero: real -> real)
    requires v > 0 && c > 0
    ensures Scaled(c, Scaled(v, PointStrength(fs, lineStrength, v, c, byZero))) == fs * lineStrength
  {
    var ef := PointStrength(fs, lineStrength, v, c, byZero);
    PointStrengthValue(fs, lineStrength, v, c, byZero);
    ScaledIsProduct(v, ef);
    ScaledIsProduct(c, Scaled(v, ef));
    SharedStrength(c as real, 1.0, v as real, fs * lineStrength);
  }

  lemma {:induction false} ScaledCommute(a: nat, b: nat, k: real)
    ensures Scaled(a, Scaled(b, k)) == Scaled(b, Scaled(a, k))
  {
    ScaledIsProduct(b, k);
    ScaledIsProduct(a, Scaled(b, k));
    ScaledIsProduct(a, k);
    ScaledIsProduct(b, Scaled(a, k));
    assert a as real * (b as real * k) == b as real * (a as real * k);
  }

  lemma ScaledFactor(n: nat, a: real, b: real)
    ensures Scaled(n, a * b) == Scaled(n, a) * b
  {
    ScaledIsProduct(n, a * b);
    ScaledIsProduct(n, a);
    var m := n as real;
    assert m * (a * b) == (m * a) * b;
  }

  /** The samples of one layout carry its charge. */
  lemma LayoutTotal(l: Layout)
    ensures Total(LayoutGrid(l)) == Charge(l)
  {
    GridTotal(l.cross, l.fetch, l.vertical, l.strength);
  }

  /** The points of several layouts carry their charges added up. */
  lemma {:induction false} GridsTotal(ls: seq<Layout>)
    ensures Total(Grids(ls)) == TotalCharge(ls)
    decreases |ls|
  {
    if ls != [] {
      var init := ls[..|ls| - 1];
      GridsTotal(init);
      TotalAppend(Grids(init), LayoutGrid(ls[|ls| - 1]));
      LayoutTotal(ls[|ls| - 1]);
      assert Charges(ls)[..|ls| - 1] == Charges(init);
    }
  }

  /** A layout whose strength is shared as permute_points shares it carries fs times ls per fetch position. */
  lemma SharedCharge(l: Layout, fs: real, lineStrength: real, byZero: real -> real)
    requires |l.vertical| > 0 && |l.cross| > 0
    requires l.strength == PointStrength(fs, lineStrength, |l.vertical|, |l.cross|, byZero)
    ensures Charge(l) == Scaled(|l.fetch|, fs) * lineStrength
  {
    FetchPositionTotal(fs, lineStrength, |l.vertical|, |l.cross|, byZero);
    ScaledCommute(|l.cross|, |l.fetch|, Scaled(|l.vertical|, l.strength));
    ScaledFactor(|l.fetch|, fs, lineStrength);
  }

  /**
    The points of one strip carry fetch spacing times line strength per
    fetch position: its mass times the line strength.
  */
  lemma StripCharge(s: Strip, env: StripSettings, byZero: real -> real)
    requires StripDefined(s, env)
    requires |VerticalProfile(env.vertical)| > 0 && |CrossProfile(s.cross, env)| > 0
    ensures Charge(StripLayout(s, env, byZero)) == StripMass(s) * env.lineStrength
  {
    var l := StripLayout(s, env, byZero);
    assert l.strength == PointStrength(s.fetch, env.lineStrength, |l.vertical|, |l.cross|, byZero);
    SharedCharge(l, s.fetch, env.lineStrength, byZero);
  }

  /** A region holds a whole number k >= 1 of fetch spacings, each above the tolerance. */
  predicate Tiled(r: Region)
  {
    r.fetch > BoundaryTolerance
    && Floor(r.extent.Length() / r.fetch) >= 1
    && r.extent.Length() == Floor(r.extent.Length() / r.fetch) as real * r.fetch
  }

  /** The interior strip of a tiled region stands for its length less one fetch spacing. */
  lemma InteriorMass(r: Region)
    requires Tiled(r)
    ensures StripMass(InteriorStrip(r)) == r.extent.Length() - r.fetch
  {
    var k := Floor(r.extent.Length() / r.fetch);
    var lo, hi := r.extent.lo, r.extent.hi;
    assert hi == lo + k as real * r.fetch;
    InteriorFetchPositions(lo, hi, r.fetch, k);
    ScaledIsProduct(k - 1, r.fetch);
    assert (k - 1) as real * r.fetch == k as real * r.fetch - r.fetch;
  }

  /** The boundary fetch spacings add up to the regions' fetch spacings. */
  lemma {:induction false} BoundaryFetchSum(rs: seq<Region>)
    requires 0 < |rs|
    ensures Sum(StripFetches(BoundaryStrips(rs))) == Sum(RegionFetches(rs))
    decreases |rs|
  {
    var n := |rs|;
    var b := StripFetches(BoundaryStrips(rs));
    if n == 1 {
      assert b == [rs[0].fetch / 2.0, rs[0].fetch / 2.0];
      assert b[..1] == [rs[0].fetch / 2.0];
      assert b[..1][..0] == [];
      assert RegionFetches(rs)[..0] == [];
    } else {
      var rs' := rs[..n - 1];
      var b' := StripFetches(BoundaryStrips(rs'));
      BoundaryFetchSum(rs');
      assert b'[..n - 1] == b[..n - 1];
      assert b[..n + 1][..n] == b[..n];
      assert b == b[..n + 1];
      assert b[..n] == b[..n - 1] + [b[n - 1]];
      assert b'[..n] == b';
      assert b' == b'[..n - 1] + [b'[n - 1]];
      SumAppend(b[..n - 1], [b[n - 1]]);
      SumAppend(b'[..n - 1], [b'[n - 1]]);
      assert b[n - 1] == (rs[n - 1].fetch + rs[n - 2].fetch) / 2.0;
      assert b[n] == rs[n - 1].fetch / 2.0;
      assert b'[n - 1] == rs[n - 2].fetch / 2.0;
      assert RegionFetches(rs)[..n - 1] == RegionFetches(rs');
    }
  }

  /** A strip whose ends coincide holds one fetch position: its points carry its fetch spacing. */
  lemma LineCharge(s: Strip, f: real, env: StripSettings, byZero: real -> real)
    requires s.start == s.end && StripDefined(s, env) && s.cross > 0.0 && f == s.fetch
    requires |VerticalProfile(env.vertical)| > 0 && env.overhangUp + env.overhangDown >= 0.0
    ensures Charge(StripLayout(s, env, byZero)) == f * env.lineStrength
  {
    CrossProfileNonEmpty(s.cross, env);
    StripCharge(s, env, byZero);
    CoincidentFetchIsStart(s.start, s.end, s.fetch);
    assert StripMass(s) == Scaled(1, s.fetch) == f;
  }

  lemma ChargeAt(ls: seq<Layout>, i: int, l: Layout, v: real)
    requires 0 <= i < |ls| && ls[i] == l && Charge(l) == v
    ensures Charges(ls)[i] == v
  {
  }

  lemma InteriorChargeAt(rs: seq<Region>, env: StripSettings, byZero: real -> real, i: int)
    requires 0 <= i < |rs| && UsableRegions(rs, env) && rs[i].cross > 0.0
    requires StripMass(InteriorStrip(rs[i])) == rs[i].extent.Length() - rs[i].fetch
    requires |VerticalProfile(env.vertical)| > 0 && env.overhangUp + env.overhangDown >= 0.0
    ensures Charges(InteriorLayouts(rs, env, byZero))[i] == (rs[i].extent.Length() - rs[i].fetch) * env.lineStrength
  {
    InteriorLayoutAt(rs, env, byZero, i);
    CrossProfileNonEmpty(rs[i].cross, env);
    StripCharge(InteriorStrip(rs[i]), env, byZero);
    Rescaled(StripMass(InteriorStrip(rs[i])), rs[i].extent.Length() - rs[i].fetch, env.lineStrength);
    ChargeAt(InteriorLayouts(rs, env, byZero), i, StripLayout(InteriorStrip(rs[i]), env, byZero),
             (rs[i].extent.Length() - rs[i].fetch) * env.lineStrength);
  }

  lemma BoundaryLayoutAt(rs: seq<Region>, env: StripSettings, byZero: real -> real, i: int)
    requires 0 <= i <= |rs| && 0 < |rs| && UsableRegions(rs, env)
    ensures StripDefined(BoundaryStrip(rs, i), env)
    ensures BoundaryLayouts(rs, env, byZero)[i] == StripLayout(BoundaryStrip(rs, i), env, byZero)
  {
    BoundaryStripDefined(rs, i, env);
  }

  lemma InteriorLayoutAt(rs: seq<Region>, env: StripSettings, byZero: real -> real, i: int)
    requires 0 <= i < |rs| && UsableRegions(rs, env)
    ensures StripDefined(InteriorStrip(rs[i]), env)
    ensures InteriorLayouts(rs, env, byZero)[i] == StripLayout(InteriorStrip(rs[i]), env, byZero)
  {
    assert InteriorStrips(rs)[i] == InteriorStrip(rs[i]);
  }

  /** Every region is tiled by its fetch spacing and has a positive cross spacing. */
  predicate TiledRegions(rs: seq<Region>)
  {
    forall i :: 0 <= i < |rs| ==> Tiled(rs[i]) && rs[i].cross > 0.0
  }

  /** The vertical profile is not empty and the overhangs do not overlap. */
  predicate Spread(env: StripSettings)
  {
    |VerticalProfile(env.vertical)| > 0 && env.overhangUp + env.overhangDown >= 0.0
  }

  /**
    What mass conservation needs: some region, every region usable and
    tiled, and a non-empty vertical profile.
  */
  predicate Conserving(rs: seq<Region>, env: StripSettings)
  {
    0 < |rs| && UsableRegions(rs, env) && TiledRegions(rs) && Spread(env)
  }

  lemma InteriorNetCharge(rs: seq<Region>, env: StripSettings, byZero: real -> real, i: int)
    requires Conserving(rs, env) && 0 <= i < |rs|
    ensures Charges(InteriorLayouts(rs, env, byZero))[i] == NetLengths(rs)[i] * env.lineStrength
  {
    InteriorMass(rs[i]);
    InteriorChargeAt(rs, env, byZero, i);
    Rescaled(rs[i].extent.Length() - rs[i].fetch, NetLengths(rs)[i], env.lineStrength);
  }

  /** Layout i carries k times term i. */
  predicate Proportional(ls: seq<Layout>, xs: seq<real>, k: real)
  {
    |ls| == |xs| && forall i :: 0 <= i < |xs| ==> Charges(ls)[i] == xs[i] * k
  }

  /** Charges proportional to the terms of a sequence add up to its sum, scaled. */
  lemma ProportionalTotal(ls: seq<Layout>, xs: seq<real>, k: real)
    requires Proportional(ls, xs, k)
    ensures TotalCharge(ls) == Sum(xs) * k
  {
    SumProportional(xs, Charges(ls), k);
  }

  lemma InteriorProportional(rs: seq<Region>, env: StripSettings, byZero: real -> real)
    requires Conserving(rs, env)
    ensures Proportional(InteriorLayouts(rs, env, byZero), NetLengths(rs), env.lineStrength)
  {
    forall i | 0 <= i < |rs|
      ensures Charges(InteriorLayouts(rs, env, byZero))[i] == NetLengths(rs)[i] * env.lineStrength
    {
      InteriorNetCharge(rs, env, byZero, i);
    }
  }

  lemma InteriorTotal(rs: seq<Region>, env: StripSettings, byZero: real -> real, interior: seq<Layout>)
    requires UsableRegions(rs, env) && interior == InteriorLayouts(rs, env, byZero)
    requires Proportional(interior, NetLengths(rs), env.lineStrength)
    ensures TotalCharge(interior) == Sum(NetLengths(rs)) * env.lineStrength
  {
    ProportionalTotal(interior, NetLengths(rs), env.lineStrength);
  }

  /** The interior strips of all regions carry the line strength times their net lengths. */
  lemma InteriorCharges(rs: seq<Region>, env: StripSettings, byZero: real -> real, interior: seq<Layout>)
    requires Conserving(rs, env) && interior == InteriorLayouts(rs, env, byZero)
    ensures TotalCharge(interior) == Sum(NetLengths(rs)) * env.lineStrength
  {
    InteriorProportional(rs, env, byZero);
    InteriorTotal(rs, env, byZero, interior);
  }

  lemma BoundaryChargeAt(rs: seq<Region>, env: StripSettings, byZero: real -> real, i: nat)
    requires 0 < |rs| && i <= |rs| && UsableRegions(rs, env) && BoundaryStrip(rs, i).cross > 0.0
    requires |VerticalProfile(env.vertical)| > 0 && env.overhangUp + env.overhangDown >= 0.0
    ensures Charges(BoundaryLayouts(rs, env, byZero))[i] == StripFetches(BoundaryStrips(rs))[i] * env.lineStrength
  {
    BoundaryLayoutAt(rs, env, byZero, i);
    BoundaryFetchAt(rs, i);
    LineCharge(BoundaryStrip(rs, i), BoundaryStrip(rs, i).fetch, env, byZero);
    Rescaled(BoundaryStrip(rs, i).fetch, StripFetches(BoundaryStrips(rs))[i], env.lineStrength);
    ChargeAt(BoundaryLayouts(rs, env, byZero), i, StripLayout(BoundaryStrip(rs, i), env, byZero),
             StripFetches(BoundaryStrips(rs))[i] * env.lineStrength);
  }

  lemma BoundaryFetchAt(rs: seq<Region>, i: nat)
    requires 0 < |rs| && i <= |rs|
    ensures StripFetches(BoundaryStrips(rs))[i] == BoundaryStrip(rs, i).fetch
    ensures BoundaryStrip(rs, i).start == BoundaryStrip(rs, i).end
  {
    assert BoundaryStrips(rs)[i] == BoundaryStrip(rs, i);
  }

  /** A boundary line takes the cross spacing of one of its regions. */
  lemma BoundaryCrossPositive(rs: seq<Region>, i: nat)
    requires 0 < |rs| && i <= |rs| && TiledRegions(rs)
    ensures BoundaryStrip(rs, i).cross > 0.0
  {
    if 0 < i < |rs| {
      assert rs[i - 1].cross > 0.0 && rs[i].cross > 0.0;
    } else if i == 0 {
      assert rs[0].cross > 0.0;
    } else {
      assert rs[i - 1].cross > 0.0;
    }
  }

  /** Boundary line i carries the line strength times its fetch spacing. */
  lemma BoundaryNetCharge(rs: seq<Region>, env: StripSettings, byZero: real -> real, i: nat)
    requires Conserving(rs, env) && i <= |rs|
    ensures Charges(BoundaryLayouts(rs, env, byZero))[i] == StripFetches(BoundaryStrips(rs))[i] * env.lineStrength
  {
    BoundaryCrossPositive(rs, i);
    BoundaryChargeAt(rs, env, byZero, i);
  }

  lemma BoundaryProportional(rs: seq<Region>, env: StripSettings, byZero: real -> real, boundary: seq<Layout>)
    requires Conserving(rs, env) && boundary == BoundaryLayouts(rs, env, byZero)
    ensures 0 < |rs| && Proportional(boundary, StripFetches(BoundaryStrips(rs)), env.lineStrength)
  {
    forall i | 0 <= i <= |rs|
      ensures Charges(boundary)[i] == StripFetches(BoundaryStrips(rs))[i] * env.lineStrength
    {
      BoundaryNetCharge(rs, env, byZero, i);
    }
  }

  lemma BoundaryTotal(boundary: seq<Layout>, fetches: seq<real>, regionFetches: seq<real>, k: real)
    requires Proportional(boundary, fetches, k) && Sum(fetches) == Sum(regionFetches)
    ensures TotalCharge(boundary) == Sum(regionFetches) * k
  {
    ProportionalTotal(boundary, fetches, k);
    Rescaled(Sum(fetches), Sum(regionFetches), k);
  }

  lemma BoundaryScaled(rs: seq<Region>, boundary: seq<Layout>, k: real)
    requires 0 < |rs| && Proportional(boundary, StripFetches(BoundaryStrips(rs)), k)
    ensures TotalCharge(boundary) == Sum(RegionFetches(rs)) * k
  {
    BoundaryFetchSum(rs);
    BoundaryTotal(boundary, StripFetches(BoundaryStrips(rs)), RegionFetches(rs), k);
  }

  /** The boundary lines carry the line strength times the regions' fetch spacings. */
  lemma BoundaryCharges(rs: seq<Region>, env: StripSettings, byZero: real -> real, boundary: seq<Layout>)
    requires Conserving(rs, env) && boundary == BoundaryLayouts(rs, env, byZero)
    ensures TotalCharge(boundary) == Sum(RegionFetches(rs)) * env.lineStrength
  {
    BoundaryProportional(rs, env, byZero, boundary);
    BoundaryScaled(rs, boundary, env.lineStrength);
  }

  /** Scaling every term scales the sum. */
  lemma {:induction false} SumProportional(xs: seq<real>, ys: seq<real>, k: real)
    requires |xs| == |ys|
    requires forall i :: 0 <= i < |ys| ==> ys[i] == xs[i] * k
    ensures Sum(ys) == Sum(xs) * k
    decreases |ys|
  {
    if ys != [] {
      var n := |ys| - 1;
      SumProportional(xs[..n], ys[..n], k);
      assert (Sum(xs[..n]) + xs[n]) * k == Sum(xs[..n]) * k + xs[n] * k;
    }
  }

  function TotalLength(rs: seq<Region>): real
  {
    Sum(Lengths(rs))
  }

  lemma Substitute(a: real, b: real, c: real, d: real, k: real)
    requires a == b && c == d
    ensures a * k + c * k == b * k + d * k
  {
  }

  lemma Rescaled(a: real, b: real, k: real)
    requires a == b
    ensures a * k == b * k
  {
  }

  lemma Recombine(a: real, b: real, k: real)
    ensures (a - b) * k + b * k == a * k
  {
  }

  /**
    Interior charges of the net lengths and boundary charges of the fetch
    spacings add up to the total length, scaled.
  */
  lemma ChargeSums(rs: seq<Region>, interior: seq<Layout>, boundary: seq<Layout>, k: real)
    requires TotalCharge(interior) == Sum(NetLengths(rs)) * k && TotalCharge(boundary) == Sum(RegionFetches(rs)) * k
    ensures TotalCharge(interior) + TotalCharge(boundary) == TotalLength(rs) * k
  {
    SumDifference(Lengths(rs), RegionFetches(rs), NetLengths(rs));
    Substitute(Sum(NetLengths(rs)), TotalLength(rs) - Sum(RegionFetches(rs)),
               Sum(RegionFetches(rs)), Sum(RegionFetches(rs)), k);
    Recombine(TotalLength(rs), Sum(RegionFetches(rs)), k);
  }

  /**
    The interior strips carry the line strength times the regions' net
    lengths, the boundary lines the line strength times their fetch spacings.
  */
  lemma RegionCharges(rs: seq<Region>, env: StripSettings, byZero: real -> real, interior: seq<Layout>, boundary: seq<Layout>)
    requires Conserving(rs, env)
    requires interior == InteriorLayouts(rs, env, byZero) && boundary == BoundaryLayouts(rs, env, byZero)
    ensures TotalCharge(interior) == Sum(NetLengths(rs)) * env.lineStrength
    ensures TotalCharge(boundary) == Sum(RegionFetches(rs)) * env.lineStrength
  {
    InteriorCharges(rs, env, byZero, interior);
    BoundaryCharges(rs, env, byZero, boundary);
  }

  /** Points whose layouts carry the region charges carry the line strength times the total length. */
  lemma ChargedPoints(rs: seq<Region>, env: StripSettings, byZero: real -> real, interior: seq<Layout>, boundary: seq<Layout>)
    requires 0 < |rs| && UsableRegions(rs, env)
    requires interior == InteriorLayouts(rs, env, byZero) && boundary == BoundaryLayouts(rs, env, byZero)
    requires TotalCharge(interior) == Sum(NetLengths(rs)) * env.lineStrength
    requires TotalCharge(boundary) == Sum(RegionFetches(rs)) * env.lineStrength
    ensures Total(NormalPoints(rs, env, byZero)) == TotalLength(rs) * env.lineStrength
  {
    TotalAppend(Grids(interior), Grids(boundary));
    GridsTotal(interior);
    GridsTotal(boundary);
    ChargeSums(rs, interior, boundary, env.lineStrength);
  }

  /**
    Mass conservation: when every region is tiled by its fetch spacing, the
    interior and boundary points of all regions together carry the line
    strength times the total length of the regions.
  */
  lemma MassConserved(rs: seq<Region>, env: StripSettings, byZero: real -> real)
    requires Conserving(rs, env)
    ensures Total(NormalPoints(rs, env, byZero)) == TotalLength(rs) * env.lineStrength
  {
    var interior := InteriorLayouts(rs, env, byZero);
    var boundary := BoundaryLayouts(rs, env, byZero);
    RegionCharges(rs, env, byZero, interior, boundary);
    ChargedPoints(rs, env, byZero, interior, boundary);
  }

  /** The same holds for the points moved back to the original frame. */
  lemma RestoredMass(rs: seq<Region>, env: StripSettings, offset: Vec3, rotation: real, t: Transcendentals, byZero: real -> real)
    requires Conserving(rs, env)
    ensures Total(RestoredAll(NormalPoints(rs, env, byZero), offset, rotation, t)) == TotalLength(rs) * env.lineStrength
  {
    MassConserved(rs, env, byZero);
    RestoredTotal(NormalPoints(rs, env, byZero), offset, rotation, t);
  }
}
