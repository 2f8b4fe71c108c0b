/*
  The static configuration of the point-source discretizer
  (highway_point_spacing.java): how many regions lie on each side of the
  receptor, where the zones end, the fetch and cross spacing per region, the
  vertical layout and the overhangs beside the road.

  In the source these are static arrays that the setters replace with fresh
  copies of their arguments. Here they are the fields of one settings object;
  `Scheme()` is the value a discretizer run reads.
*/
module SpacingConfiguration {
  import opened SpacingSpec

  /** setZones on values: one more region than zones. */
  function ZonesSet(s: SpacingScheme, zones: seq<real>): SpacingScheme
  {
    s.(numRegions := |zones| + 1, zones := zones)
  }

  /** setFetch_density on values: one region per fetch spacing. */
  function FetchSet(s: SpacingScheme, fetch: seq<real>): SpacingScheme
  {
    s.(numRegions := |fetch|, fetchDensity := fetch)
  }

  /** setCross_density on values: one region per cross spacing. */
  function CrossSet(s: SpacingScheme, cross: seq<real>): SpacingScheme
  {
    s.(numRegions := |cross|, crossDensity := cross)
  }

  /**
    Each of the three setters overwrites the region count, so the last one
    called decides it; with matching lengths every order of the three calls
    leaves a configuration that validate_zones would accept.
  */
  lemma SettersInAnyOrder(s: SpacingScheme, zones: seq<real>, fetch: seq<real>, cross: seq<real>)
    requires |fetch| == |zones| + 1 && |cross| == |zones| + 1
    ensures Consistent(CrossSet(FetchSet(ZonesSet(s, zones), fetch), cross))
    ensures Consistent(CrossSet(ZonesSet(FetchSet(s, fetch), zones), cross))
    ensures Consistent(FetchSet(CrossSet(ZonesSet(s, zones), cross), fetch))
    ensures Consistent(FetchSet(ZonesSet(CrossSet(s, cross), zones), fetch))
    ensures Consistent(ZonesSet(FetchSet(CrossSet(s, cross), fetch), zones))
    ensures Consistent(ZonesSet(CrossSet(FetchSet(s, fetch), cross), zones))
  {
  }

  /** A configuration validate_zones would accept never sends the discretizer out of its tables. */
  lemma ConsistentIsIndexable(s: SpacingScheme)
    requires Consistent(s)
    ensures Indexable(s)
  {
  }

  /**
    Setting fewer fetch spacings than there are regions, without also
    setting fewer zones, leaves a configuration whose layout runs past the
    end of the tables: the discretizer stops with an index error.
  */
  lemma ShortFetchNotIndexable(s: SpacingScheme, fetch: seq<real>)
    requires Consistent(s) && |fetch| < |s.fetchDensity|
    ensures !Indexable(FetchSet(s, fetch))
  {
  }

  /** The default layout is accepted and has positive spacings, so every run of it finishes. */
  lemma DefaultSchemeSound()
    ensures Consistent(DefaultScheme) && PositiveSpacings(DefaultScheme)
  {
  }

  class SpacingSettings {
    var numRegions: nat
    var zones: array<real>
    var fetchDensity: array<real>
    var crossDensity: array<real>
    var vertical: array<VerticalSegment>
    var overhangUp: real
    var overhangDown: real

    /** The settings a discretizer run reads. */
    function Scheme(): SpacingScheme
      reads this, zones, fetchDensity, crossDensity, vertical
    {
      SpacingScheme(numRegions, zones[..], fetchDensity[..], crossDensity[..], vertical[..], overhangUp, overhangDown)
    }

    /** The static initializer: the default spacing. */
    constructor ()
      ensures Scheme() == DefaultScheme
    {
      numRegions := 4;
      zones := new real[] [5.0, 20.0, 100.0];
      fetchDensity := new real[] [0.5, 1.0, 5.0, 100.0];
      crossDensity := new real[] [0.5, 1.0, 3.0, 5.0];
      vertical := new VerticalSegment[] [VerticalSegment(0.0, 2.5, 0.5)];
      overhangUp, overhangDown := 3.0, 3.0;
    }

    /** set_default_spacing: four regions, fresh default tables and 3 m overhangs. */
    method SetDefaultSpacing()
      modifies this
      ensures Scheme() == DefaultScheme
      ensures fresh(zones) && fresh(fetchDensity) && fresh(crossDensity) && fresh(vertical)
    {
      var z, f, c, v := DefaultTables();
      numRegions := z.Length + 1;
      zones, fetchDensity, crossDensity, vertical := z, f, c, v;
      SetOverhangUp(3.0);
      SetOverhangDown(3.0);
    }

    method SetOverhangUp(singleSideOverhang: real)
      modifies this`overhangUp
      ensures Scheme() == old(Scheme()).(overhangUp := singleSideOverhang)
    {
      overhangUp := singleSideOverhang;
    }

    method SetOverhangDown(singleSideOverhang: real)
      modifies this`overhangDown
      ensures Scheme() == old(Scheme()).(overhangDown := singleSideOverhang)
    {
      overhangDown := singleSideOverhang;
    }

    /** setZones: a fresh copy of the zone ends, and one more region than zones. */
    method SetZones(newZones: array<real>)
      modifies this`numRegions, this`zones
      ensures Scheme() == ZonesSet(old(Scheme()), newZones[..])
      ensures fresh(zones)
    {
      numRegions := newZones.Length + 1;
      zones := CopyOf(newZones);
    }

    /** setFetch_density: a fresh copy of the spacings, and one region per spacing. */
    method SetFetchDensity(newFetchDensity: array<real>)
      modifies this`numRegions, this`fetchDensity
      ensures Scheme() == FetchSet(old(Scheme()), newFetchDensity[..])
      ensures fresh(fetchDensity)
    {
      numRegions := newFetchDensity.Length;
      fetchDensity := CopyOf(newFetchDensity);
    }

    /** setCross_density: a fresh copy of the spacings, and one region per spacing. */
    method SetCrossDensity(newCrossDensity: array<real>)
      modifies this`numRegions, this`crossDensity
      ensures Scheme() == CrossSet(old(Scheme()), newCrossDensity[..])
      ensures fresh(crossDensity)
    {
      numRegions := newCrossDensity.Length;
      crossDensity := CopyOf(newCrossDensity);
    }

    /** setVertical_density: a fresh copy of the [start, stop, spacing] rows; the region count is kept. */
    method SetVerticalDensity(newVertical: array<VerticalSegment>)
      modifies this`vertical
      ensures Scheme() == old(Scheme()).(vertical := newVertical[..])
      ensures fresh(vertical)
    {
      var copy := new VerticalSegment[newVertical.Length](_ => VerticalSegment(0.0, 0.0, 0.0));
      var i := 0;
      while i < newVertical.Length
        invariant 0 <= i <= newVertical.Length
        invariant copy[..i] == newVertical[..i]
      {
        copy[i] := newVertical[i];
        i := i + 1;
      }
      vertical := copy;
    }
  }

  /** New arrays holding the default zone ends, spacings and vertical rows. */
  method DefaultTables() returns (z: array<real>, f: array<real>, c: array<real>, v: array<VerticalSegment>)
    ensures fresh(z) && fresh(f) && fresh(c) && fresh(v)
    ensures z[..] == DefaultScheme.zones && f[..] == DefaultScheme.fetchDensity
    ensures c[..] == DefaultScheme.crossDensity && v[..] == DefaultScheme.vertical
  {
    z := new real[] [5.0, 20.0, 100.0];
    f := new real[] [0.5, 1.0, 5.0, 100.0];
    c := new real[] [0.5, 1.0, 3.0, 5.0];
    v := new VerticalSegment[] [VerticalSegment(0.0, 2.5, 0.5)];
  }

  /** The element-by-element copy the setters make into a newly sized array. */
  method CopyOf(source: array<real>) returns (copy: array<real>)
    ensures fresh(copy) && copy[..] == source[..]
  {
    copy := new real[source.Length];
    var i := 0;
    while i < source.Length
      invariant 0 <= i <= source.Length
      invariant copy[..i] == source[..i]
    {
      copy[i] := source[i];
      i := i + 1;
    }
  }
}
