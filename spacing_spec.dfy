/*
  Region layout of the adaptive point-source discretizer
  (highway_point_spacing.java), as functions on values.

  In the normalised frame the link lies on the y-axis and the receptor on the
  x-axis, so the receptor sits at y = 0. Regions of increasing length radiate
  from y = 0 in both directions; each carries a fetch spacing (along the link)
  and a cross spacing (across it). The regions are clipped to the link, the
  ones shorter than 0.1 m are dropped and the rest are re-tiled.
*/
module SpacingSpec {
  import opened Numerics

  /** One row [start, stop, spacing] of the vertical point layout. */
  datatype VerticalSegment = VerticalSegment(start: real, stop: real, spacing: real)

  /**
    The discretization settings (the static configuration of
    highway_point_spacing): the number of regions on each side of the
    receptor, the zone boundaries, the fetch and cross spacing per region, the
    vertical layout, and how far points extend beyond each edge of the road.
  */
  datatype SpacingScheme = SpacingScheme(
    numRegions: nat,
    zones: seq<real>,
    fetchDensity: seq<real>,
    crossDensity: seq<real>,
    vertical: seq<VerticalSegment>,
    overhangUp: real,
    overhangDown: real)

  /** set_default_spacing */
  const DefaultScheme: SpacingScheme :=
    SpacingScheme(4, [5.0, 20.0, 100.0], [0.5, 1.0, 5.0, 100.0], [0.5, 1.0, 3.0, 5.0],
                  [VerticalSegment(0.0, 2.5, 0.5)], 3.0, 3.0)

  /** The end of the outermost region before clipping. */
  const FarEnd: real := 1e12

  /** Regions shorter than this (m) are dropped. */
  const MinimumRegionLength: real := 0.1

  /** The spacing that marks a dropped region, and the threshold that tests for it. */
  const DroppedMark: real := -99.9
  const KeptThreshold: real := -99.0

  /** A region is re-tiled when length / spacing has a fractional part above this. */
  const RemainderTolerance: real := 0.01

  /** A re-tiled region holds at least this many intervals. */
  const MinimumIntervals: int := 5

  /**
    find_end_points indexes rows up to numRegions + |zones| of a table of
    2 numRegions rows, and the first numRegions fetch and cross spacings;
    anything less raises an index error in the source.
  */
  predicate Indexable(s: SpacingScheme)
  {
    |s.zones| + 1 <= s.numRegions && s.numRegions <= |s.fetchDensity| && s.numRegions <= |s.crossDensity|
  }

  /** Every fetch and cross spacing is positive. */
  predicate PositiveSpacings(s: SpacingScheme)
  {
    && (forall i :: 0 <= i < |s.fetchDensity| ==> s.fetchDensity[i] > 0.0)
    && (forall i :: 0 <= i < |s.crossDensity| ==> s.crossDensity[i] > 0.0)
  }

  /** The configuration validate_zones would accept: one more region than zones, one spacing per region. */
  predicate Consistent(s: SpacingScheme)
  {
    s.numRegions == |s.zones| + 1 && s.numRegions == |s.fetchDensity| && s.numRegions == |s.crossDensity|
  }

  /** The start and end of a region along the link. */
  datatype Extent = Extent(lo: real, hi: real)
  {
    function Length(): real
    {
      hi - lo
    }
  }

  /** A region with its fetch and cross spacing. */
  datatype Region = Region(extent: Extent, fetch: real, cross: real)

  /** The zone boundary below zone i; the first zone starts at the receptor. */
  function PreviousZone(zones: seq<real>, i: nat): real
    requires i <= |zones|
  {
    if i == 0 then 0.0 else zones[i - 1]
  }

  /**
    Row r of the region table before clipping. Rows numRegions + i and
    numRegions - 1 - i hold zone i on the positive and the negative side; the
    rows just beyond the zones reach out to +/- FarEnd; rows that no zone
    reaches keep the initial [0, 0].
  */
  function RawExtent(zones: seq<real>, n: nat, r: nat): Extent
    requires |zones| + 1 <= n && r < 2 * n
  {
    var k := |zones|;
    if n <= r < n + k then Extent(PreviousZone(zones, r - n), zones[r - n])
    else if r == n + k then Extent(PreviousZone(zones, k), FarEnd)
    else if n - k <= r < n then Extent(-zones[n - 1 - r], -PreviousZone(zones, n - 1 - r))
    else if r == 0 then Extent(-FarEnd, -PreviousZone(zones, k))
    else Extent(0.0, 0.0)
  }

  /** A value moved into [neg, pos]: first capped at pos, then raised to neg. */
  function Clip(v: real, neg: real, pos: real): real
  {
    var capped := if v > pos then pos else v;
    if capped < neg then neg else capped
  }

  function ClipExtent(e: Extent, neg: real, pos: real): Extent
  {
    Extent(Clip(e.lo, neg, pos), Clip(e.hi, neg, pos))
  }

  /** Per-region densities laid out on both sides: rows n - 1 - i and n + i get density i. */
  function Mirrored(density: seq<real>, n: nat): (r: seq<real>)
    requires n <= |density|
    ensures |r| == 2 * n
  {
    seq(2 * n, i requires 0 <= i < 2 * n => if i < n then density[n - 1 - i] else density[i - n])
  }

  /** The region table after find_end_points, for a link from y = neg to y = pos. */
  function LaidOut(s: SpacingScheme, neg: real, pos: real): (rs: seq<Region>)
    requires Indexable(s)
    ensures |rs| == 2 * s.numRegions
  {
    var fetch := Mirrored(s.fetchDensity, s.numRegions);
    var cross := Mirrored(s.crossDensity, s.numRegions);
    seq(2 * s.numRegions, r requires 0 <= r < 2 * s.numRegions =>
      Region(ClipExtent(RawExtent(s.zones, s.numRegions, r), neg, pos), fetch[r], cross[r]))
  }

  function Max(a: int, b: int): int
  {
    if a < b then b else a
  }

  /**
    The spacing after optimisation: when length / spacing is more than 1% off a
    whole number, the smallest whole number of intervals (at least 5) that does
    not widen the spacing; otherwise the spacing as given. A zero spacing gives
    an infinite or NaN ratio in the source, whose remainder is NaN and fails the
    test, so it is left as it is.
  */
  function RetiledSpacing(len: real, fs: real): real
  {
    if fs == 0.0 then fs
    else
      var ratio := len / fs;
      var remainder := ratio - Floor(ratio) as real;
      if remainder > RemainderTolerance then len / Max(Ceil(ratio), MinimumIntervals) as real else fs
  }

  /** The first optimisation pass: re-tile, then mark regions shorter than 0.1 m as dropped. */
  function MarkedSpacing(e: Extent, fs: real): real
  {
    var tiled := RetiledSpacing(e.Length(), fs);
    if e.Length() < MinimumRegionLength then DroppedMark else tiled
  }

  function Marked(rs: seq<Region>): (ms: seq<Region>)
    ensures |ms| == |rs|
  {
    seq(|rs|, i requires 0 <= i < |rs| => rs[i].(fetch := MarkedSpacing(rs[i].extent, rs[i].fetch)))
  }

  /** The second optimisation pass: keep, in order, the regions not marked as dropped. */
  function Kept(rs: seq<Region>): seq<Region>
  {
    if rs == [] then []
    else Kept(rs[..|rs| - 1]) + (if rs[|rs| - 1].fetch > KeptThreshold then [rs[|rs| - 1]] else [])
  }

  /** A row of the zero-initialised tables that the second pass left unwritten. */
  const BlankRegion: Region := Region(Extent(0.0, 0.0), 0.0, 0.0)

  function Padding(m: int): (p: seq<Region>)
    ensures |p| == if m <= 0 then 0 else m
  {
    if m <= 0 then [] else seq(m, _ => BlankRegion)
  }

  /**
    optimize_region_extents_and_fetch_spacing: the new tables are sized by the
    number of regions at least 0.1 m long and filled with the regions that kept
    a spacing above the drop threshold; any rows left over stay blank.
  */
  function Optimized(rs: seq<Region>): seq<Region>
  {
    var kept := Kept(Marked(rs));
    kept + Padding(|LongRegions(rs)| - |kept|)
  }

  // An independent description of the optimisation result.

  /** The regions at least 0.1 m long, in order. */
  function LongRegions(rs: seq<Region>): (long: seq<Region>)
    ensures forall x :: x in long ==> x in rs && x.extent.Length() >= MinimumRegionLength
  {
    if rs == [] then []
    else LongRegions(rs[..|rs| - 1])
         + (if rs[|rs| - 1].extent.Length() >= MinimumRegionLength then [rs[|rs| - 1]] else [])
  }

  predicate PositiveFetch(rs: seq<Region>)
  {
    forall x :: x in rs ==> x.fetch > 0.0
  }

  /** Every region with its fetch spacing re-tiled; extents and cross spacings untouched. */
  function Retiled(rs: seq<Region>): (ts: seq<Region>)
    requires PositiveFetch(rs)
    ensures |ts| == |rs|
  {
    seq(|rs|, i requires 0 <= i < |rs| => rs[i].(fetch := RetiledSpacing(rs[i].extent.Length(), rs[i].fetch)))
  }

  // Properties of the layout.

  /**
    With one more region than zones, the table is mirror-symmetric about the
    receptor: row 2n-1-r is row r reflected.
  */
  lemma RawExtentsMirrored(zones: seq<real>, n: nat, r: nat)
    requires n == |zones| + 1 && r < 2 * n
    ensures RawExtent(zones, n, 2 * n - 1 - r) == Extent(-RawExtent(zones, n, r).hi, -RawExtent(zones, n, r).lo)
  {
  }

  /** Row n + i spans [previous zone, zone i] and row n - 1 - i its reflection. */
  lemma RawExtentZones(zones: seq<real>, n: nat, i: nat)
    requires |zones| + 1 <= n && i < |zones|
    ensures RawExtent(zones, n, n + i) == Extent(PreviousZone(zones, i), zones[i])
    ensures RawExtent(zones, n, n - 1 - i) == Extent(-zones[i], -PreviousZone(zones, i))
  {
  }

  /** The outermost rows reach to -1e12 and +1e12. */
  lemma RawExtentOutermost(zones: seq<real>, n: nat)
    requires |zones| + 1 <= n
    ensures RawExtent(zones, n, 0).lo == -FarEnd
    ensures RawExtent(zones, n, n + |zones|).hi == FarEnd
  {
  }

  /** Both mirrored rows get the density of their zone. */
  lemma MirroredDensity(density: seq<real>, n: nat, i: nat)
    requires n <= |density| && i < n
    ensures Mirrored(density, n)[n - 1 - i] == density[i]
    ensures Mirrored(density, n)[n + i] == density[i]
  {
  }

  /** For a link from neg up to pos, clipping lands in [neg, pos] and keeps values already there. */
  lemma ClipWithin(v: real, neg: real, pos: real)
    requires neg <= pos
    ensures neg <= Clip(v, neg, pos) <= pos
    ensures neg <= v <= pos ==> Clip(v, neg, pos) == v
  {
  }

  /** A region wholly outside the link collapses to zero length at the nearer link end. */
  lemma ClipCollapsesOutside(e: Extent, neg: real, pos: real)
    requires neg <= pos && e.lo <= e.hi
    requires e.hi <= neg || pos <= e.lo
    ensures ClipExtent(e, neg, pos).Length() == 0.0
  {
  }

  /** Clipping keeps a region's endpoints in order. */
  lemma ClipOrdered(e: Extent, neg: real, pos: real)
    requires neg <= pos && e.lo <= e.hi
    ensures ClipExtent(e, neg, pos).lo <= ClipExtent(e, neg, pos).hi
  {
  }

  /** Every endpoint of the laid-out table lies on the link. */
  lemma LaidOutOnLink(s: SpacingScheme, neg: real, pos: real)
    requires Indexable(s) && neg <= pos
    ensures forall r :: 0 <= r < |LaidOut(s, neg, pos)| ==>
              neg <= LaidOut(s, neg, pos)[r].extent.lo <= pos && neg <= LaidOut(s, neg, pos)[r].extent.hi <= pos
  {
    forall r | 0 <= r < |LaidOut(s, neg, pos)|
      ensures neg <= LaidOut(s, neg, pos)[r].extent.lo <= pos && neg <= LaidOut(s, neg, pos)[r].extent.hi <= pos
    {
      var e := RawExtent(s.zones, s.numRegions, r);
      ClipWithin(e.lo, neg, pos);
      ClipWithin(e.hi, neg, pos);
    }
  }

  // Properties of the filter.

  lemma {:induction false} KeptAppend(a: seq<Region>, b: seq<Region>)
    ensures Kept(a + b) == Kept(a) + Kept(b)
    decreases |b|
  {
    if b == [] {
      assert a + b == a;
    } else {
      var b' := b[..|b| - 1];
      assert (a + b)[..|a + b| - 1] == a + b';
      KeptAppend(a, b');
    }
  }

  /** A region survives exactly when it is in the input and not marked as dropped. */
  lemma {:induction false} KeptMembers(rs: seq<Region>, x: Region)
    ensures x in Kept(rs) <==> x in rs && x.fetch > KeptThreshold
  {
    if rs != [] {
      var init := rs[..|rs| - 1];
      KeptMembers(init, x);
      assert rs == init + [rs[|rs| - 1]];
    }
  }

  lemma {:induction false} LongRegionsAppend(a: seq<Region>, b: seq<Region>)
    ensures LongRegions(a + b) == LongRegions(a) + LongRegions(b)
    decreases |b|
  {
    if b == [] {
      assert a + b == a;
    } else {
      var b' := b[..|b| - 1];
      assert (a + b)[..|a + b| - 1] == a + b';
      LongRegionsAppend(a, b');
    }
  }

  /** Marking drops every short region, so no more regions are kept than are long enough. */
  lemma {:induction false} KeptNoMoreThanLong(rs: seq<Region>)
    ensures |Kept(Marked(rs))| <= |LongRegions(rs)|
    decreases |rs|
  {
    if rs != [] {
      var init := rs[..|rs| - 1];
      KeptNoMoreThanLong(init);
      assert Marked(rs)[..|rs| - 1] == Marked(init);
    }
  }

  /** Keeping from a prefix keeps no more than keeping from the whole. */
  lemma KeptPrefix(rs: seq<Region>, i: int)
    requires 0 <= i <= |rs|
    ensures |Kept(rs[..i])| <= |Kept(rs)|
  {
    KeptAppend(rs[..i], rs[i..]);
    assert rs[..i] + rs[i..] == rs;
  }

  /** A positive spacing stays positive after re-tiling a region of positive length. */
  lemma RetiledPositive(len: real, fs: real)
    requires len > 0.0 && fs > 0.0
    ensures RetiledSpacing(len, fs) > 0.0
  {
    var ratio := len / fs;
    assert ratio > 0.0;
    if ratio - Floor(ratio) as real > RemainderTolerance {
      assert Max(Ceil(ratio), MinimumIntervals) >= MinimumIntervals;
    }
  }

  /**
    With positive spacings, optimisation keeps exactly the regions at least
    0.1 m long, in their order, with extents and cross spacings unchanged and
    fetch spacings re-tiled.
  */
  lemma {:induction false} KeptMarkedIsRetiledLongRegions(rs: seq<Region>)
    requires PositiveFetch(rs)
    ensures Kept(Marked(rs)) == Retiled(LongRegions(rs))
    decreases |rs|
  {
    if rs != [] {
      var init := rs[..|rs| - 1];
      var last := rs[|rs| - 1];
      KeptMarkedIsRetiledLongRegions(init);
      assert Marked(rs)[..|rs| - 1] == Marked(init);
      var m := Marked(rs)[|rs| - 1];
      assert m == last.(fetch := MarkedSpacing(last.extent, last.fetch));
      if last.extent.Length() >= MinimumRegionLength {
        RetiledPositive(last.extent.Length(), last.fetch);
        assert m.fetch > KeptThreshold;
        assert Retiled(LongRegions(init) + [last]) == Retiled(LongRegions(init)) + [m];
      } else {
        assert m.fetch == DroppedMark;
      }
    }
  }

  lemma OptimizedIsRetiledLongRegions(rs: seq<Region>)
    requires PositiveFetch(rs)
    ensures Optimized(rs) == Retiled(LongRegions(rs))
  {
    KeptMarkedIsRetiledLongRegions(rs);
    assert Padding(0) == [];
  }

  /** Every region left by optimisation is at least 0.1 m long and has a positive spacing. */
  lemma OptimizedRegionsUsable(rs: seq<Region>)
    requires PositiveFetch(rs)
    ensures forall i :: 0 <= i < |Optimized(rs)| ==>
              Optimized(rs)[i].extent.Length() >= MinimumRegionLength && Optimized(rs)[i].fetch > 0.0
  {
    OptimizedIsRetiledLongRegions(rs);
    var long := LongRegions(rs);
    forall i | 0 <= i < |Optimized(rs)|
      ensures Optimized(rs)[i].extent.Length() >= MinimumRegionLength && Optimized(rs)[i].fetch > 0.0
    {
      assert long[i] in long;
      RetiledPositive(long[i].extent.Length(), long[i].fetch);
    }
  }

  /** Positive densities give every laid-out region positive fetch and cross spacings. */
  lemma LaidOutPositive(s: SpacingScheme, neg: real, pos: real)
    requires Indexable(s) && PositiveSpacings(s)
    ensures forall x :: x in LaidOut(s, neg, pos) ==> x.fetch > 0.0 && x.cross > 0.0
  {
    var rs := LaidOut(s, neg, pos);
    var n := s.numRegions;
    forall x | x in rs
      ensures x.fetch > 0.0 && x.cross > 0.0
    {
      var r :| 0 <= r < |rs| && rs[r] == x;
      var i := if r < n then n - 1 - r else r - n;
      assert Mirrored(s.fetchDensity, n)[r] == s.fetchDensity[i];
      assert Mirrored(s.crossDensity, n)[r] == s.crossDensity[i];
    }
  }

  /** Optimisation keeps the cross spacing of every region it keeps. */
  lemma OptimizedCrossPositive(rs: seq<Region>)
    requires PositiveFetch(rs) && forall x :: x in rs ==> x.cross > 0.0
    ensures forall i :: 0 <= i < |Optimized(rs)| ==> Optimized(rs)[i].cross > 0.0
  {
    OptimizedIsRetiledLongRegions(rs);
    var long := LongRegions(rs);
    forall i | 0 <= i < |Optimized(rs)|
      ensures Optimized(rs)[i].cross > 0.0
    {
      assert long[i] in long;
    }
  }

  // Properties of the re-tiling.

  /** a <= b ==> a * s <= b * s for s > 0, in the form the proofs below need. */
  lemma ScaleMonotone(a: real, b: real, s: real)
    requires s > 0.0 && a <= b
    ensures a * s <= b * s
  {
    calc {
      b * s - a * s;
      == (b - a) * s;
      >= 0.0 * s;
    }
  }

  /**
    When it changes the spacing, re-tiling never widens it and the region
    holds a whole number (at least 5) of the new intervals.
  */
  lemma RetiledTiles(len: real, fs: real)
    requires len > 0.0 && fs > 0.0
    requires len / fs - Floor(len / fs) as real > RemainderTolerance
    ensures 0.0 < RetiledSpacing(len, fs) <= fs
    ensures len == Max(Ceil(len / fs), MinimumIntervals) as real * RetiledSpacing(len, fs)
    ensures Max(Ceil(len / fs), MinimumIntervals) >= MinimumIntervals
  {
    var ratio := len / fs;
    var k := Max(Ceil(ratio), MinimumIntervals);
    var kr := k as real;
    var spacing := len / kr;
    assert RetiledSpacing(len, fs) == spacing;
    assert kr >= ratio;
    assert kr > 0.0;
    assert spacing * kr == len;
    ScaleMonotone(ratio, kr, fs);
    calc {
      len;
      == (len / fs) * fs;
      == ratio * fs;
      <= kr * fs;
    }
    calc {
      spacing;
      == len / kr;
      <= (kr * fs) / kr;
      == fs;
    }
  }

  /** Otherwise re-tiling leaves the configured spacing as it is. */
  lemma RetiledUnchanged(len: real, fs: real)
    requires fs != 0.0
    requires len / fs - Floor(len / fs) as real <= RemainderTolerance
    ensures RetiledSpacing(len, fs) == fs
  {
  }
}
