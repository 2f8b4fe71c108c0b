/*
  The one-dimensional sample generator (point_vector.java).

  A `PointVector` holds a growable profile of point positions. The three
  `add_points` overloads of the source append a centred run with a given
  spacing, a linear run with a given number of points, or a single value; the
  profile is then copied into a fresh array.

  The source reports suspicious arguments through an external error handler
  that lets the user continue, and then carries on with the same arithmetic.
  The model returns those reports as warnings and, like the code, carries on.
*/
module PointVectors {
  import opened Numerics

  /** point_vector.LINEAR, the only function type the count overload knows. */
  const Linear: int := 0

  /** The conditions that the source reports to its error handler. */
  datatype ProfileWarning =
    | LowerAboveUpper
    | SpacingExceedsRange
    | NonPositiveCount
    | SingleLinearPoint
    | UnknownFunctionType(kind: int)

  /** Whole intervals of length `s` that fit between `l` and `u`. */
  function Intervals(l: real, u: real, s: real): int
    requires s != 0.0
  {
    Floor((u - l) / s)
  }

  /** First value of a centred run: half the uncovered residual above `l`. */
  function SpacedStart(l: real, u: real, s: real): real
    requires s != 0.0
  {
    ((u - l) - Intervals(l, u, s) as real * s) / 2.0 + l
  }

  /** `n` values from `start` on, `step` apart; none for a count below 1. */
  function Steps(start: real, step: real, n: int): (r: seq<real>)
    ensures |r| == if n <= 0 then 0 else n
  {
    if n <= 0 then [] else Steps(start, step, n - 1) + [start + (n - 1) as real * step]
  }

  /** Value i of a run is `start` plus i steps. */
  lemma {:induction false} StepsAt(start: real, step: real, n: int)
    ensures forall i :: 0 <= i < |Steps(start, step, n)| ==> Steps(start, step, n)[i] == start + i as real * step
    decreases n
  {
    if n > 0 {
      StepsAt(start, step, n - 1);
    }
  }

  /**
    The values the spacing overload appends: intervals + 1 values, `s` apart.
    A zero spacing over an empty or reversed range gives a NaN or negative
    infinite count, and the loop appends nothing; over a proper range it
    would never end, so that case is excluded.
  */
  function SpacedRun(l: real, u: real, s: real): seq<real>
    requires s != 0.0 || u <= l
  {
    if s == 0.0 then [] else Steps(SpacedStart(l, u, s), s, Intervals(l, u, s) + 1)
  }

  /**
    The values the count overload appends: for the linear type, `n` values
    from `l` on in steps of (u - l) / (n - 1); nothing for another type. For
    n == 1 the step is a division by zero, which the one appended value
    multiplies by 0.
  */
  function LinearRun(l: real, u: real, n: int, kind: int, byZero: real -> real): seq<real>
  {
    if kind != Linear then []
    else Steps(l, Quotient(u - l, (n - 1) as real, byZero), n)
  }

  /** The reports of the spacing overload: a reversed range, and a spacing wider than the range. */
  function SpacedWarnings(l: real, u: real, s: real): (w: seq<ProfileWarning>)
    ensures LowerAboveUpper in w <==> l > u
    ensures SpacingExceedsRange in w <==> s > u - l
    ensures forall x :: x in w ==> x == LowerAboveUpper || x == SpacingExceedsRange
  {
    (if l > u then [LowerAboveUpper] else []) + (if s > u - l then [SpacingExceedsRange] else [])
  }

  /** The reports of the count overload, in the order the source checks them. */
  function LinearWarnings(l: real, u: real, n: int, kind: int): (w: seq<ProfileWarning>)
    ensures LowerAboveUpper in w <==> l > u
    ensures NonPositiveCount in w <==> n < 1
    ensures SingleLinearPoint in w <==> n == 1
    ensures UnknownFunctionType(kind) in w <==> kind != Linear
    ensures forall x :: x in w ==>
              x == LowerAboveUpper || x == NonPositiveCount || x == SingleLinearPoint || x == UnknownFunctionType(kind)
  {
    (if l > u then [LowerAboveUpper] else [])
    + (if n < 1 then [NonPositiveCount] else [])
    + (if n == 1 then [SingleLinearPoint] else [])
    + (if kind != Linear then [UnknownFunctionType(kind)] else [])
  }

  class PointVector {
    var profile: seq<real>
    var pointArray: array?<real>

    /** An empty profile and no array yet. */
    constructor ()
      ensures profile == [] && pointArray == null
    {
      profile := [];
      pointArray := null;
    }

    /**
      Appends the run from `lower` to `upper` with the given spacing, centred
      on the middle of the range. A zero spacing over a proper range makes the
      source loop without end, so it is excluded.
    */
    method AddSpaced(lower: real, upper: real, spacing: real) returns (warnings: seq<ProfileWarning>)
      requires spacing != 0.0 || upper <= lower
      modifies this
      ensures profile == old(profile) + SpacedRun(lower, upper, spacing)
      ensures pointArray == old(pointArray)
      ensures warnings == SpacedWarnings(lower, upper, spacing)
    {
      warnings := [];
      if lower > upper {
        warnings := warnings + [LowerAboveUpper];
      }
      if spacing > upper - lower {
        warnings := warnings + [SpacingExceedsRange];
      }
      if spacing != 0.0 {
        var intervals := Floor((upper - lower) / spacing);
        var count := intervals + 1;
        var residual := (upper - lower) - intervals as real * spacing;
        var start := residual / 2.0 + lower;
        assert start == SpacedStart(lower, upper, spacing) && count == Intervals(lower, upper, spacing) + 1;
        AppendSteps(start, spacing, count);
      }
    }

    /**
      Appends `count` values from `lower` to `upper` in equal steps. A count
      below 1 appends nothing, a count of exactly 1 appends one value, and an
      unknown function type appends nothing.
    */
    method AddLinear(lower: real, upper: real, count: int, kind: int, byZero: real -> real)
      returns (warnings: seq<ProfileWarning>)
      modifies this
      ensures profile == old(profile) + LinearRun(lower, upper, count, kind, byZero)
      ensures pointArray == old(pointArray)
      ensures warnings == LinearWarnings(lower, upper, count, kind)
    {
      warnings := [];
      if lower > upper {
        warnings := warnings + [LowerAboveUpper];
      }
      if count < 1 {
        warnings := warnings + [NonPositiveCount];
      }
      if count == 1 {
        warnings := warnings + [SingleLinearPoint];
      }
      if kind == Linear {
        var spacing := Quotient(upper - lower, (count - 1) as real, byZero);
        AppendSteps(lower, spacing, count);
      } else {
        warnings := warnings + [UnknownFunctionType(kind)];
      }
    }

    /** The loop both run overloads share: `count` values from `start` on, `step` apart. */
    method AppendSteps(start: real, step: real, count: int)
      modifies this
      ensures profile == old(profile) + Steps(start, step, count)
      ensures pointArray == old(pointArray)
    {
      var i := 0;
      while i < count
        invariant 0 <= i <= if count <= 0 then 0 else count
        invariant profile == old(profile) + Steps(start, step, i)
        invariant pointArray == old(pointArray)
      {
        assert Steps(start, step, i + 1) == Steps(start, step, i) + [start + i as real * step];
        profile := profile + [start + i as real * step];
        i := i + 1;
      }
      assert Steps(start, step, i) == Steps(start, step, count);
    }

    /** Appends exactly one value. */
    method AddValue(value: real)
      modifies this
      ensures profile == old(profile) + [value]
      ensures pointArray == old(pointArray)
    {
      profile := profile + [value];
    }

    /** Copies the profile, in insertion order, into a fresh array and keeps a reference to it. */
    method GetPointArray() returns (a: array<real>)
      modifies this
      ensures fresh(a)
      ensures a[..] == profile
      ensures pointArray == a
      ensures profile == old(profile)
    {
      a := new real[|profile|];
      var i := 0;
      while i < |profile|
        invariant 0 <= i <= |profile|
        invariant a.Length == |profile|
        invariant profile == old(profile)
        invariant a[..i] == profile[..i]
      {
        a[i] := profile[i];
        i := i + 1;
      }
      pointArray := a;
    }
  }

  // Properties of the runs.

  /** k <= range / s < k + 1 gives k * s <= range < k * s + s for a positive `s`. */
  lemma ScaledBounds(range: real, s: real, k: real)
    requires s > 0.0
    requires k <= range / s < k + 1.0
    ensures k * s <= range < k * s + s
  {
    var q := range / s;
    calc {
      range - k * s;
      == q * s - k * s;
      == (q - k) * s;
      < 1.0 * s;
    }
    calc {
      range - k * s;
      == (q - k) * s;
      >= 0.0 * s;
    }
  }

  /** The whole intervals of a range, times the spacing, never exceed the range and miss it by less than one spacing. */
  lemma ScaledFloor(range: real, s: real)
    requires s > 0.0
    ensures Intervals(0.0, range, s) as real * s <= range
    ensures range < Intervals(0.0, range, s) as real * s + s
  {
    assert (range - 0.0) / s == range / s;
    ScaledBounds(range, s, Intervals(0.0, range, s) as real);
  }

  lemma SpacedRunLength(l: real, u: real, s: real)
    requires s > 0.0 && l <= u
    ensures |SpacedRun(l, u, s)| == Intervals(l, u, s) + 1
    ensures |SpacedRun(l, u, s)| >= 1
  {
    assert (u - l) / s >= 0.0;
  }

  /** The run starts half the residual above `l`, and consecutive values are `s` apart. */
  lemma SpacedRunSteps(l: real, u: real, s: real)
    requires s != 0.0
    ensures forall i :: 0 <= i < |SpacedRun(l, u, s)| ==>
              SpacedRun(l, u, s)[i] == SpacedStart(l, u, s) + i as real * s
    ensures forall i :: 0 < i < |SpacedRun(l, u, s)| ==>
              SpacedRun(l, u, s)[i] - SpacedRun(l, u, s)[i - 1] == s
  {
    var r := SpacedRun(l, u, s);
    StepsAt(SpacedStart(l, u, s), s, Intervals(l, u, s) + 1);
    forall i | 0 < i < |r|
      ensures r[i] - r[i - 1] == s
    {
      var st := SpacedStart(l, u, s);
      assert r[i] == st + i as real * s && r[i - 1] == st + (i - 1) as real * s;
      StepApart(st, i, s);
    }
  }

  /** Two positions of an arithmetic run one index apart lie one step apart. */
  lemma StepApart(start: real, i: int, s: real)
    ensures (start + i as real * s) - (start + (i - 1) as real * s) == s
  {
    assert (i - 1) as real * s == i as real * s - s;
  }

  /** The run is centred: the gap below the first value equals the gap above the last. */
  lemma SpacedRunCentred(l: real, u: real, s: real)
    requires s > 0.0 && l <= u
    ensures |SpacedRun(l, u, s)| >= 1
    ensures SpacedRun(l, u, s)[0] - l == u - SpacedRun(l, u, s)[|SpacedRun(l, u, s)| - 1]
  {
    SpacedRunLength(l, u, s);
    var r := SpacedRun(l, u, s);
    var k := Intervals(l, u, s);
    StepsAt(SpacedStart(l, u, s), s, k + 1);
    assert r[|r| - 1] == SpacedStart(l, u, s) + k as real * s;
  }

  /** Every value of the run lies within [l, u]. */
  lemma SpacedRunWithin(l: real, u: real, s: real)
    requires s > 0.0 && l <= u
    ensures forall i :: 0 <= i < |SpacedRun(l, u, s)| ==> l <= SpacedRun(l, u, s)[i] <= u
  {
    var k := Intervals(l, u, s);
    assert Intervals(0.0, u - l, s) == k;
    ScaledFloor(u - l, s);
    var residual := (u - l) - k as real * s;
    assert 0.0 <= residual < s;
    var start := SpacedStart(l, u, s);
    assert start == residual / 2.0 + l;
    assert start + k as real * s == u - residual / 2.0;
    StepsWithin(start, s, k + 1, l, u);
  }

  /** A run from `lo` on whose last value stays at most `hi` lies within [lo, hi]. */
  lemma StepsWithin(start: real, step: real, n: int, lo: real, hi: real)
    requires step >= 0.0 && lo <= start && start + (n - 1) as real * step <= hi
    ensures forall i :: 0 <= i < |Steps(start, step, n)| ==> lo <= Steps(start, step, n)[i] <= hi
  {
    StepsAt(start, step, n);
    forall i | 0 <= i < |Steps(start, step, n)|
      ensures lo <= Steps(start, step, n)[i] <= hi
    {
      StepBelow(i, n - 1, step);
    }
  }

  lemma StepBelow(i: int, m: int, step: real)
    requires 0 <= i <= m && step >= 0.0
    ensures 0.0 <= i as real * step <= m as real * step
  {
    assert m as real * step - i as real * step == (m - i) as real * step;
  }

  /** A run whose lower bound is above its upper bound is empty, although it is reported. */
  lemma SpacedRunReversedIsEmpty(l: real, u: real, s: real)
    requires s >= 0.0 && l > u
    ensures SpacedRun(l, u, s) == []
  {
    if s > 0.0 {
      assert (u - l) / s < 0.0;
    }
  }

  /**
    A reversed range with a negative spacing is reported, yet the code goes
    on: (u - l) / s is positive, and the whole intervals plus one are appended.
  */
  lemma SpacedRunReversedNegative(l: real, u: real, s: real)
    requires s < 0.0 && l > u
    ensures |SpacedRun(l, u, s)| == Intervals(l, u, s) + 1 >= 1
  {
    assert (u - l) / s > 0.0;
  }

  /**
    A spacing wider than the range is reported, and the code then appends the
    single midpoint of the range.
  */
  lemma SpacedRunTooWideIsMidpoint(l: real, u: real, s: real)
    requires l <= u < l + s
    ensures SpacedRun(l, u, s) == [(l + u) / 2.0]
  {
    assert 0.0 <= (u - l) / s < 1.0;
  }

  lemma SpacedRunExample()
    ensures SpacedRun(1.0, 10.0, 3.0) == [1.0, 4.0, 7.0, 10.0]
  {
    assert (10.0 - 1.0) / 3.0 == 3.0;
    assert Intervals(1.0, 10.0, 3.0) == 3;
    StepsAt(1.0, 3.0, 4);
  }

  /** A linear run of n >= 2 values starts at `l`, ends at `u` and has equal steps. */
  lemma LinearRunEnds(l: real, u: real, n: int, byZero: real -> real)
    requires n >= 2
    ensures |LinearRun(l, u, n, Linear, byZero)| == n
    ensures LinearRun(l, u, n, Linear, byZero)[0] == l
    ensures LinearRun(l, u, n, Linear, byZero)[n - 1] == u
    ensures forall i :: 0 < i < n ==>
              LinearRun(l, u, n, Linear, byZero)[i] - LinearRun(l, u, n, Linear, byZero)[i - 1] == (u - l) / (n - 1) as real
  {
    var r := LinearRun(l, u, n, Linear, byZero);
    var step := (u - l) / (n - 1) as real;
    StepsAt(l, step, n);
    assert r[n - 1] == l + (n - 1) as real * step;
    forall i | 0 < i < n
      ensures r[i] - r[i - 1] == step
    {
      assert i as real * step - (i - 1) as real * step == step;
    }
  }

  /** The count overload's self test: (0, 10, 5, LINEAR) gives 0, 2.5, 5, 7.5, 10. */
  lemma LinearRunExample(byZero: real -> real)
    ensures LinearRun(0.0, 10.0, 5, Linear, byZero) == [0.0, 2.5, 5.0, 7.5, 10.0]
  {
    StepsAt(0.0, 2.5, 5);
  }

  /** Only the linear function type with a positive count appends anything. */
  lemma LinearRunEmptyCases(l: real, u: real, n: int, kind: int, byZero: real -> real)
    ensures LinearRun(l, u, n, kind, byZero) == [] <==> kind != Linear || n < 1
  {
  }

  /**
    A linear run of one point is reported, and the code still appends the one
    value `l + 0 * ((u - l) / 0)`, whatever the division by zero yields.
  */
  lemma LinearRunSingle(l: real, u: real, byZero: real -> real)
    ensures LinearRun(l, u, 1, Linear, byZero) == [l + 0.0 * byZero(u - l)]
    ensures LinearRun(l, u, 1, Linear, byZero) == [l]
  {
  }
}
