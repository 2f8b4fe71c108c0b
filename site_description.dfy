/*
  A sampling site (site_description.java): the receptors, the links, the
  dispersion record shared by every calculation, the site conditions and
  the pollutant, and the concentration matrix a simulation leaves behind.

  The matrix has one row per receptor; column 0 is the receptor's total
  and column j + 1 its concentration from link j, in g/m^3. The static
  dispersion record of the source is the `dispersion` field handed to each
  calculation. The external helpers (the meteorological angle conversion,
  the wind profile's `a`, and the g/m^3-to-ppm conversion) are parameters.
*/
module SiteDescriptions {
  import opened Numerics
  import opened Outcomes
  import opened Coordinates
  import opened Parameters
  import opened GridSpec
  import opened HighwayLinks
  import opened Receptors
  import opened PollutantTypes

  const DefaultTemperature: real := 300.0
  const DefaultPressure: real := 1.0
  const PpmToPpt: real := 1000000.0
  const GramsToMicrograms: real := 1000000.0

  // The dispersion constants of the calibration against the GM data set.
  const CalibratedP: real := 0.25
  const CalibratedN: real := 0.81
  const CalibratedB: real := 0.28
  const CalibratedC: real := 3.0
  const CalibratedD: real := 0.32
  const CalibratedE: real := 0.78

  /** The record setDispersion(speed, direction, height) builds from the wind's a and geometric angle. */
  function CalibratedDispersion(a: real, windAngle: real): Dispersion
  {
    Dispersion(a, CalibratedB, CalibratedC, CalibratedD, CalibratedE, CalibratedN, CalibratedP, windAngle)
  }

  /**
    The factor get_conc_matrix applies for a unit code: 1 for g/m^3, the
    ppm factor of the site conditions for PPMV, that times 1e6 for PPTV,
    1e6 for ug/m^3; any other code keeps g/m^3.
  */
  function UnitFactor(units: int, ppm: real): real
  {
    if units == 1 then 1.0
    else if units == 2 then ppm
    else if units == 3 then ppm * PpmToPpt
    else if units == 4 then GramsToMicrograms
    else 1.0
  }

  /** PPTV is PPMV scaled as ug/m^3 is g/m^3 scaled; an unknown code is g/m^3. */
  lemma UnitFactorRelations(units: int, ppm: real)
    ensures UnitFactor(3, ppm) == UnitFactor(2, ppm) * UnitFactor(4, ppm)
    ensures units !in {2, 3, 4} ==> UnitFactor(units, ppm) == UnitFactor(1, ppm) == 1.0
    ensures ppm > 0.0 ==> UnitFactor(units, ppm) > 0.0
  {
  }

  /** What the sweep takes from a receptor: the sources of the links it already owns, and its location. */
  datatype ReceptorInput = ReceptorInput(owned: seq<Source>, location: Vec3)

  /** Every link the receptor owns, and every site link, finishes its discretizer run at the receptor. */
  predicate Ready(input: ReceptorInput, siteSrcs: seq<Source>, disp: Option<Dispersion>, env: Engine)
  {
    AllGenerating(input.owned, input.location, disp, env) && AllGenerating(siteSrcs, input.location, disp, env)
  }

  /** Every receptor of the sweep is ready. */
  predicate SweepReady(inputs: seq<ReceptorInput>, siteSrcs: seq<Source>, disp: Option<Dispersion>, env: Engine)
  {
    forall i :: 0 <= i < |inputs| ==> Ready(inputs[i], siteSrcs, disp, env)
  }

  /** A ready receptor's own links followed by the site links all finish their runs. */
  lemma ReadyLinks(input: ReceptorInput, siteSrcs: seq<Source>, disp: Option<Dispersion>, env: Engine)
    requires Ready(input, siteSrcs, disp, env)
    ensures AllGenerating(input.owned + siteSrcs, input.location, disp, env)
  {
    var all := input.owned + siteSrcs;
    forall k | 0 <= k < |all|
      ensures Generating(all[k], input.location, disp, env)
    {
      if k >= |input.owned| {
        assert all[k] == siteSrcs[k - |input.owned|];
      }
    }
  }

  /** One receptor of the sweep: copies of the site links after the ones it owns, then calculate_concentration. */
  function ReceptorTotals(input: ReceptorInput, siteSrcs: seq<Source>, disp: Option<Dispersion>, env: Engine): Result<seq<real>>
    requires Ready(input, siteSrcs, disp, env)
  {
    ReadyLinks(input, siteSrcs, disp, env);
    Totals(LinkResults(input.owned + siteSrcs, input.location, disp, env))
  }

  /** A ready receptor's totals are those of its own links followed by the site links. */
  lemma ReceptorTotalsOf(input: ReceptorInput, siteSrcs: seq<Source>, disp: Option<Dispersion>, env: Engine)
    requires Ready(input, siteSrcs, disp, env)
    ensures AllGenerating(input.owned + siteSrcs, input.location, disp, env)
    ensures ReceptorTotals(input, siteSrcs, disp, env) == Totals(LinkResults(input.owned + siteSrcs, input.location, disp, env))
  {
    ReadyLinks(input, siteSrcs, disp, env);
  }

  /** Each receptor's link totals, in receptor order. */
  function AllTotals(inputs: seq<ReceptorInput>, siteSrcs: seq<Source>, disp: Option<Dispersion>, env: Engine): seq<Result<seq<real>>>
    requires SweepReady(inputs, siteSrcs, disp, env)
  {
    seq(|inputs|, i requires 0 <= i < |inputs| => ReceptorTotals(inputs[i], siteSrcs, disp, env))
  }

  /** Entry i of the sweep's totals is receptor i's totals. */
  lemma AllTotalsAt(inputs: seq<ReceptorInput>, siteSrcs: seq<Source>, disp: Option<Dispersion>, env: Engine,
                    ts: seq<Result<seq<real>>>)
    requires SweepReady(inputs, siteSrcs, disp, env) && ts == AllTotals(inputs, siteSrcs, disp, env)
    ensures |ts| == |inputs|
            && forall i {:trigger ts[i]} :: 0 <= i < |ts| ==>
                 Ready(inputs[i], siteSrcs, disp, env) && ts[i] == ReceptorTotals(inputs[i], siteSrcs, disp, env)
  {
  }

  /**
    The receptor loop of run_simulation, given each receptor's totals: all
    of them in order, or the first failure. It succeeds exactly when every
    receptor's totals exist, and then entry i is receptor i's totals.
  */
  function Sweep(ts: seq<Result<seq<real>>>): (r: Result<seq<seq<real>>>)
    ensures r.Ok? <==> forall i :: 0 <= i < |ts| ==> ts[i].Ok?
    ensures r.Ok? ==> |r.value| == |ts| && forall i :: 0 <= i < |ts| ==> ts[i] == Ok(r.value[i])
  {
    if ts == [] then Ok([])
    else
      var n := |ts| - 1;
      assert forall i :: 0 <= i < n ==> ts[..n][i] == ts[i];
      match Sweep(ts[..n])
      case Err(f) => Err(f)
      case Ok(vs) =>
        match ts[n]
        case Err(f) => Err(f)
        case Ok(v) => Ok(vs + [v])
  }

  /** The sweep fails with the fault of the first receptor whose totals do not exist. */
  lemma {:induction false} SweepFault(ts: seq<Result<seq<real>>>, i: int)
    requires 0 <= i < |ts| && ts[i].Err? && forall j :: 0 <= j < i ==> ts[j].Ok?
    ensures Sweep(ts) == Err(ts[i].fault)
  {
    var n := |ts| - 1;
    if i < n {
      SweepFault(ts[..n], i);
    } else {
      assert forall j :: 0 <= j < n ==> ts[..n][j] == ts[j];
    }
  }

  /** One more receptor's totals extend the sweep. */
  lemma SweepStep(ts: seq<Result<seq<real>>>, i: int, vs: seq<seq<real>>, v: seq<real>)
    requires 0 <= i < |ts| && Sweep(ts[..i]) == Ok(vs) && ts[i] == Ok(v)
    ensures Sweep(ts[..i + 1]) == Ok(vs + [v])
  {
    assert ts[..i + 1][..i] == ts[..i];
  }

  /** A receptor whose totals fail, after receptors whose totals exist, ends the sweep with its fault. */
  lemma SweepStopped(ts: seq<Result<seq<real>>>, i: int, vs: seq<seq<real>>)
    requires 0 <= i < |ts| && Sweep(ts[..i]) == Ok(vs) && ts[i].Err?
    ensures Sweep(ts) == Err(ts[i].fault)
  {
    assert forall j :: 0 <= j < i ==> ts[..i][j] == ts[j];
    SweepFault(ts, i);
  }

  /** In a completed sweep, receptor i has one total per owned link and one per site link. */
  lemma SweepLengths(inputs: seq<ReceptorInput>, siteSrcs: seq<Source>, disp: Option<Dispersion>, env: Engine)
    requires SweepReady(inputs, siteSrcs, disp, env) && Sweep(AllTotals(inputs, siteSrcs, disp, env)).Ok?
    ensures var vs := Sweep(AllTotals(inputs, siteSrcs, disp, env)).value;
            forall i :: 0 <= i < |inputs| ==> |vs[i]| == |inputs[i].owned| + |siteSrcs|
  {
    var ts := AllTotals(inputs, siteSrcs, disp, env);
    forall i | 0 <= i < |inputs|
      ensures |Sweep(ts).value[i]| == |inputs[i].owned| + |siteSrcs|
    {
      assert ts[i] == ReceptorTotals(inputs[i], siteSrcs, disp, env);
    }
  }

  /** A matrix row as create_conc_matrix fills it: the total, then one column per link, 0 where there is no slot. */
  function MatrixRow(total: real, conc: seq<real>, width: nat): seq<real>
    requires |conc| <= width
  {
    [total] + conc + Zeros(width - |conc|)
  }

  /** A row whose slots fill the width has no zero padding. */
  lemma MatrixRowFull(total: real, conc: seq<real>, width: nat)
    requires |conc| == width
    ensures MatrixRow(total, conc, width) == [total] + conc
  {
    assert conc + Zeros(0) == conc;
  }

  /**
    run_simulation on values: the matrix rows [total, link 1, ..., link N]
    of every receptor, the first failure of the sweep, or the index error
    create_conc_matrix hits when a receptor owned links before the run and
    so has more slots than the matrix has columns.
  */
  function Simulation(inputs: seq<ReceptorInput>, siteSrcs: seq<Source>, disp: Option<Dispersion>, env: Engine): Result<seq<seq<real>>>
    requires SweepReady(inputs, siteSrcs, disp, env)
  {
    match Sweep(AllTotals(inputs, siteSrcs, disp, env))
    case Err(f) => Err(f)
    case Ok(vs) =>
      if exists i :: 0 <= i < |inputs| && inputs[i].owned != [] then Err(IndexOutOfBounds)
      else Ok(seq(|vs|, i requires 0 <= i < |vs| => [Sum(vs[i])] + vs[i]))
  }

  /** The three ways a simulation ends: the sweep's fault, the index error, or the rows of the sweep's totals. */
  lemma SimulationCases(inputs: seq<ReceptorInput>, siteSrcs: seq<Source>, disp: Option<Dispersion>, env: Engine)
    requires SweepReady(inputs, siteSrcs, disp, env)
    ensures var sw, sim := Sweep(AllTotals(inputs, siteSrcs, disp, env)), Simulation(inputs, siteSrcs, disp, env);
            && (sw.Err? ==> sim == Err(sw.fault))
            && (sw.Ok? && (exists i :: 0 <= i < |inputs| && inputs[i].owned != []) ==> sim == Err(IndexOutOfBounds))
            && (sw.Ok? && (forall i :: 0 <= i < |inputs| ==> inputs[i].owned == []) ==>
                  && sim.Ok? && |sim.value| == |sw.value|
                  && forall i :: 0 <= i < |sw.value| ==> sim.value[i] == [Sum(sw.value[i])] + sw.value[i])
  {
  }

  /**
    A site simulated a second time: every receptor then owns the copies of
    the site links it took the first time, after whatever it owned before,
    so the second simulation fails, with the index error once its sweep
    completes.
  */
  lemma RerunFails(inputs: seq<ReceptorInput>, siteSrcs: seq<Source>, disp: Option<Dispersion>, env: Engine)
    requires SweepReady(inputs, siteSrcs, disp, env) && |inputs| > 0 && siteSrcs != []
    requires forall i :: 0 <= i < |inputs| ==>
               |siteSrcs| <= |inputs[i].owned| && inputs[i].owned[|inputs[i].owned| - |siteSrcs|..] == siteSrcs
    ensures Simulation(inputs, siteSrcs, disp, env).Err?
    ensures Sweep(AllTotals(inputs, siteSrcs, disp, env)).Ok? ==> Simulation(inputs, siteSrcs, disp, env) == Err(IndexOutOfBounds)
  {
    assert inputs[0].owned != [];
    SimulationCases(inputs, siteSrcs, disp, env);
  }

  /**
    After a completed sweep, the matrix create_conc_matrix builds from the
    sweep's totals is the simulation's: it fits exactly when no receptor
    has more totals than there are site links, and its rows are then the
    simulation's rows; otherwise the simulation ends in the index error.
  */
  lemma {:induction false} TabulatedSweep(inputs: seq<ReceptorInput>, siteSrcs: seq<Source>, disp: Option<Dispersion>, env: Engine,
                                          vs: seq<seq<real>>)
    requires SweepReady(inputs, siteSrcs, disp, env) && Sweep(AllTotals(inputs, siteSrcs, disp, env)) == Ok(vs)
    ensures |vs| == |inputs| && forall j :: 0 <= j < |vs| ==> |vs[j]| == |inputs[j].owned| + |siteSrcs|
    ensures var sim := Simulation(inputs, siteSrcs, disp, env);
            && ((forall j :: 0 <= j < |vs| ==> |vs[j]| <= |siteSrcs|) <==> sim.Ok?)
            && (sim.Err? ==> sim.fault == IndexOutOfBounds)
            && (sim.Ok? ==> |sim.value| == |vs| && forall j :: 0 <= j < |vs| ==> sim.value[j] == MatrixRow(Sum(vs[j]), vs[j], |siteSrcs|))
  {
    hide *;
    AllTotalsAt(inputs, siteSrcs, disp, env, AllTotals(inputs, siteSrcs, disp, env));
    SweepLengths(inputs, siteSrcs, disp, env);
    SimulationCases(inputs, siteSrcs, disp, env);
    var sim := Simulation(inputs, siteSrcs, disp, env);
    if forall j :: 0 <= j < |vs| ==> |vs[j]| <= |siteSrcs| {
      assert forall j :: 0 <= j < |inputs| ==> inputs[j].owned == [] by {
        forall j | 0 <= j < |inputs| ensures inputs[j].owned == [] {
          assert |vs[j]| <= |siteSrcs|;
        }
      }
      forall j | 0 <= j < |vs|
        ensures sim.value[j] == MatrixRow(Sum(vs[j]), vs[j], |siteSrcs|)
      {
        MatrixRowFull(Sum(vs[j]), vs[j], |siteSrcs|);
      }
    } else {
      var j :| 0 <= j < |vs| && |vs[j]| > |siteSrcs|;
      assert inputs[j].owned != [];
    }
  }

  /**
    A receptor that owns no links before the run has totals exactly when
    every site link's result there is usable, and then slot k holds link
    k's concentration.
  */
  lemma SiteTotals(input: ReceptorInput, siteSrcs: seq<Source>, disp: Option<Dispersion>, env: Engine)
    requires Ready(input, siteSrcs, disp, env) && input.owned == []
    ensures ReceptorTotals(input, siteSrcs, disp, env).Ok? <==>
              forall k :: 0 <= k < |siteSrcs| ==> Usable(LinkConcentration(siteSrcs[k], input.location, disp, env))
    ensures ReceptorTotals(input, siteSrcs, disp, env).Ok? ==>
              var v := ReceptorTotals(input, siteSrcs, disp, env).value;
              && |v| == |siteSrcs|
              && forall k :: 0 <= k < |siteSrcs| ==> LinkConcentration(siteSrcs[k], input.location, disp, env) == Ok(v[k]) && v[k] >= 0.0
  {
    assert input.owned + siteSrcs == siteSrcs;
    var cs := LinkResults(siteSrcs, input.location, disp, env);
    assert ReceptorTotals(input, siteSrcs, disp, env) == Totals(cs);
    TotalsSucceed(cs);
    forall k | 0 <= k < |siteSrcs|
      ensures cs[k] == LinkConcentration(siteSrcs[k], input.location, disp, env)
    {
    }
    assert (forall k :: 0 <= k < |cs| ==> Usable(cs[k])) <==>
           (forall k :: 0 <= k < |siteSrcs| ==> Usable(LinkConcentration(siteSrcs[k], input.location, disp, env)));
  }

  /**
    A simulation completes exactly when no receptor owned links before the
    run and every link's result at every receptor is a concentration that
    is not negative.
  */
  lemma SimulationSucceeds(inputs: seq<ReceptorInput>, siteSrcs: seq<Source>, disp: Option<Dispersion>, env: Engine)
    requires SweepReady(inputs, siteSrcs, disp, env)
    ensures Simulation(inputs, siteSrcs, disp, env).Ok? <==>
              && (forall i :: 0 <= i < |inputs| ==> inputs[i].owned == [])
              && (forall i, k :: 0 <= i < |inputs| && 0 <= k < |siteSrcs| ==>
                    Usable(LinkConcentration(siteSrcs[k], inputs[i].location, disp, env)))
  {
    var ts := AllTotals(inputs, siteSrcs, disp, env);
    var sim := Simulation(inputs, siteSrcs, disp, env);
    if forall i :: 0 <= i < |inputs| ==> inputs[i].owned == [] {
      forall i | 0 <= i < |inputs|
        ensures ts[i].Ok? <==> ReceptorUsable(inputs[i], siteSrcs, disp, env)
      {
        SiteTotals(inputs[i], siteSrcs, disp, env);
      }
      assert Sweep(ts).Ok? <==> forall i :: 0 <= i < |ts| ==> ts[i].Ok?;
      assert sim.Ok? <==> Sweep(ts).Ok?;
    } else {
      assert sim.Err?;
    }
  }

  /** Every site link's result at the receptor is a concentration that is not negative. */
  predicate ReceptorUsable(input: ReceptorInput, siteSrcs: seq<Source>, disp: Option<Dispersion>, env: Engine)
    requires AllGenerating(siteSrcs, input.location, disp, env)
  {
    forall k :: 0 <= k < |siteSrcs| ==> Usable(LinkConcentration(siteSrcs[k], input.location, disp, env))
  }

  /**
    In a completed simulation, column k + 1 of row i is link k's
    concentration at receptor i, no entry is negative, and column 0 is the
    sum of the link columns.
  */
  lemma SimulationEntries(inputs: seq<ReceptorInput>, siteSrcs: seq<Source>, disp: Option<Dispersion>, env: Engine)
    requires SweepReady(inputs, siteSrcs, disp, env) && Simulation(inputs, siteSrcs, disp, env).Ok?
    ensures var m := Simulation(inputs, siteSrcs, disp, env).value;
            && |m| == |inputs|
            && forall i :: 0 <= i < |inputs| ==>
                 && |m[i]| == |siteSrcs| + 1 && m[i][0] == Sum(m[i][1..])
                 && forall k :: 0 <= k < |siteSrcs| ==>
                      LinkConcentration(siteSrcs[k], inputs[i].location, disp, env) == Ok(m[i][k + 1]) && m[i][k + 1] >= 0.0
  {
    var vs := Sweep(AllTotals(inputs, siteSrcs, disp, env)).value;
    var m := Simulation(inputs, siteSrcs, disp, env).value;
    forall i | 0 <= i < |inputs|
      ensures |m[i]| == |siteSrcs| + 1 && m[i][0] == Sum(m[i][1..])
      ensures forall k :: 0 <= k < |siteSrcs| ==>
                LinkConcentration(siteSrcs[k], inputs[i].location, disp, env) == Ok(m[i][k + 1]) && m[i][k + 1] >= 0.0
    {
      SiteTotals(inputs[i], siteSrcs, disp, env);
      assert m[i] == [Sum(vs[i])] + vs[i];
      assert m[i][1..] == vs[i];
    }
  }

  /** Every link owned by one of the receptors. */
  function OwnedLinks(rs: seq<Receptor>): set<HighwayLink>
    reads set i | 0 <= i < |rs| :: rs[i]
  {
    set i, k | 0 <= i < |rs| && 0 <= k < |rs[i].links| :: rs[i].links[k]
  }

  /** Every link of every receptor is one of the owned links. */
  lemma OwnedLinksHold(rs: seq<Receptor>)
    ensures forall j, k :: 0 <= j < |rs| && 0 <= k < |rs[j].links| ==> rs[j].links[k] in OwnedLinks(rs)
  {
  }

  /** The sweep input of each receptor, in order. */
  function InputsOf(rs: seq<Receptor>): (inputs: seq<ReceptorInput>)
    reads set i | 0 <= i < |rs| :: rs[i]
    reads OwnedLinks(rs)
    ensures |inputs| == |rs|
    ensures forall i :: 0 <= i < |rs| ==> inputs[i] == ReceptorInput(SourcesOf(rs[i].links), rs[i].location)
  {
    if rs == [] then []
    else
      var n := |rs| - 1;
      assert OwnedLinks(rs[..n]) <= OwnedLinks(rs) by {
        forall l | l in OwnedLinks(rs[..n]) ensures l in OwnedLinks(rs) {
          var i, k :| 0 <= i < n && 0 <= k < |rs[..n][i].links| && rs[..n][i].links[k] == l;
          assert rs[i].links[k] == l;
        }
      }
      InputsOf(rs[..n]) + [ReceptorInput(SourcesOf(rs[n].links), rs[n].location)]
  }

  /** A receptor as its (name, coordinate) constructor leaves it. */
  predicate NewReceptor(r: Receptor, name: string, location: Vec3)
    reads r, r.concentration
  {
    && r.name == name && r.location == location && r.links == [] && r.linkNames == []
    && r.concentration[..] == [0.0] && r.totalConcentration == 0.0
  }

  /**
    Where add_receptors(coordinates, names) stops: the first row with fewer
    than three coordinates or without a name, or the number of rows.
  */
  function ReceptorsAdded(coords: seq<seq<real>>, names: seq<string>): (k: nat)
    ensures k <= |coords| && k <= |names|
    ensures forall j :: 0 <= j < k ==> |coords[j]| >= 3
    ensures k < |coords| ==> |coords[k]| < 3 || k >= |names|
  {
    RowsFrom(coords, names, 0)
  }

  function RowsFrom(coords: seq<seq<real>>, names: seq<string>, i: nat): (k: nat)
    requires i <= |coords|
    requires i <= |names| && forall j :: 0 <= j < i ==> |coords[j]| >= 3
    ensures i <= k <= |coords| && k <= |names|
    ensures forall j :: 0 <= j < k ==> |coords[j]| >= 3
    ensures k < |coords| ==> |coords[k]| < 3 || k >= |names|
    decreases |coords| - i
  {
    if i == |coords| || |coords[i]| < 3 || i >= |names| then i
    else RowsFrom(coords, names, i + 1)
  }

  /** Links whose sources are, one by one, the given sources. */
  lemma SourcesPointwise(ls: seq<HighwayLink>, srcs: seq<Source>)
    requires |ls| == |srcs| && forall k :: 0 <= k < |ls| ==> ls[k].Src() == srcs[k]
    ensures SourcesOf(ls) == srcs
  {
  }

  /** Links that carry the sources `owned` and then the sources `copied`, one by one. */
  lemma CopiesSources(ls: seq<HighwayLink>, owned: seq<Source>, copied: seq<Source>)
    requires |ls| == |owned| + |copied|
    requires forall k :: 0 <= k < |owned| ==> ls[k].Src() == owned[k]
    requires forall k :: 0 <= k < |copied| ==> ls[|owned| + k].Src() == copied[k]
    ensures SourcesOf(ls) == owned + copied
  {
    var n, all := |owned|, owned + copied;
    forall k | 0 <= k < |ls|
      ensures ls[k].Src() == all[k]
    {
      if k >= n {
        assert ls[n + (k - n)].Src() == copied[k - n];
      }
    }
    SourcesPointwise(ls, all);
  }

  /**
    The first half of one pass of the run_simulation loop: receptor r takes
    copies of the site links after the links it owns, and its slots are
    reset to one zero per link.
  */
  method GiveCopies(r: Receptor, siteLinks: seq<HighwayLink>, t: Transcendentals, ghost owned: seq<Source>,
                    ghost siteSrcs: seq<Source>)
    requires r.Valid() && |r.links| == |owned| && |siteLinks| == |siteSrcs|
    requires forall k :: 0 <= k < |owned| ==> r.links[k].Src() == owned[k]
    requires forall k :: 0 <= k < |siteSrcs| ==> siteLinks[k].Src() == siteSrcs[k]
    modifies r`links, r`linkNames, r`totalConcentration, r`concentration
    ensures r.Valid() && r.location == old(r.location)
    ensures |old(r.links)| == |owned| && |r.links| == |owned| + |siteLinks| && r.links[..|owned|] == old(r.links)
    ensures forall j :: |old(r.links)| <= j < |r.links| ==> fresh(r.links[j])
    ensures CopiedNames(old(r.linkNames), r.linkNames, siteLinks)
    ensures r.totalConcentration == 0.0 && fresh(r.concentration) && r.concentration[..] == Zeros(|r.links|)
    ensures forall k :: 0 <= k < |owned| ==> r.links[k].Src() == owned[k]
    ensures forall k :: 0 <= k < |siteSrcs| ==> r.links[|owned| + k].Src() == siteSrcs[k]
  {
    r.AddLinkCopies(siteLinks, t);
  }

  /**
    The first half of one pass of the run_simulation loop, as the rest of
    the pass sees it: r's links carry the sources it owned and then the site
    links' sources, every link it holds now is one it held before or a new
    copy, and every slot is zero.
  */
  method PrepareReceptor(r: Receptor, siteLinks: seq<HighwayLink>, t: Transcendentals, ghost owned: seq<Source>,
                         ghost siteSrcs: seq<Source>)
    requires r.Valid() && SourcesOf(r.links) == owned && SourcesOf(siteLinks) == siteSrcs
    modifies r`links, r`linkNames, r`totalConcentration, r`concentration
    ensures r.Valid() && r.location == old(r.location) && SourcesOf(r.links) == owned + siteSrcs
    ensures |owned| <= |r.links| && r.links[..|owned|] == old(r.links)
    ensures CopiedNames(old(r.linkNames), r.linkNames, siteLinks)
    ensures forall k :: 0 <= k < |r.links| ==> r.links[k] in old(set j | 0 <= j < |r.links| :: r.links[j]) || fresh(r.links[k])
    ensures r.totalConcentration == 0.0 && fresh(r.concentration) && r.concentration[..] == Zeros(|r.links|)
  {
    ghost var before := set j | 0 <= j < |r.links| :: r.links[j];
    GiveCopies(r, siteLinks, t, owned, siteSrcs);
    CopiesSources(r.links, owned, siteSrcs);
    forall k | 0 <= k < |r.links|
      ensures r.links[k] in before || fresh(r.links[k])
    {
      if k < |owned| {
        assert r.links[k] == old(r.links)[k];
      }
    }
  }

  /**
    One pass of the run_simulation loop: SimulateReceptor gives receptor r
    copies of the site links and calculates its concentrations.
  */
  method SimulateReceptor(r: Receptor, siteLinks: seq<HighwayLink>, disp: Option<Dispersion>, env: Engine,
                          ghost input: ReceptorInput, ghost siteSrcs: seq<Source>, ghost t: Result<seq<real>>)
    returns (outcome: Outcome)
    requires r.Valid() && r.location == input.location && Ready(input, siteSrcs, disp, env)
    requires t == ReceptorTotals(input, siteSrcs, disp, env)
    requires SourcesOf(r.links) == input.owned && SourcesOf(siteLinks) == siteSrcs
    modifies r`links, r`linkNames, r`totalConcentration, r`concentration
    modifies (set k | 0 <= k < |r.links| :: r.links[k])`pointArray
    modifies (set k | 0 <= k < |r.links| :: r.links[k])`totalConcentration
    ensures outcome.Completed? <==> t.Ok?
    ensures outcome.Halted? ==> outcome.fault == t.fault
    ensures outcome.Completed? ==>
              && fresh(r.concentration) && r.concentration[..] == t.value
              && Simulated(r, old(r.links), old(r.linkNames), input.owned, siteLinks, siteSrcs, t.value)
    ensures r.Valid() && r.location == old(r.location)
  {
    hide *;
    ReceptorTotalsOf(input, siteSrcs, disp, env);
    ghost var links0, names0 := r.links, r.linkNames;
    PrepareReceptor(r, siteLinks, env.t, input.owned, siteSrcs);
    outcome := CalculateFresh(r, disp, env, input.owned + siteSrcs, input.location);
    SourcesPointwise(r.links, input.owned + siteSrcs);
    PreparedFrom(links0, names0, r.links, r.linkNames, input.owned, siteLinks, siteSrcs);
    if outcome.Completed? {
      SimulatedFrom(r, links0, names0, input.owned, siteLinks, siteSrcs, t.value);
    }
  }

  /**
    Receptor r after its pass of run_simulation completed: it holds the
    links it owned followed by copies of the site links, its slots hold the
    totals `v` and its total is their sum.
  */
  predicate Simulated(r: Receptor, linksBefore: seq<HighwayLink>, namesBefore: seq<string>,
                      owned: seq<Source>, siteLinks: seq<HighwayLink>, siteSrcs: seq<Source>, v: seq<real>)
    reads r, r.concentration
    ensures Simulated(r, linksBefore, namesBefore, owned, siteLinks, siteSrcs, v) ==>
              r.Valid() && r.concentration[..] == v && r.totalConcentration == Sum(v)
    reads (set k | 0 <= k < |r.links| :: r.links[k])`startLocation, (set k | 0 <= k < |r.links| :: r.links[k])`endLocation
    reads (set k | 0 <= k < |r.links| :: r.links[k])`width, (set k | 0 <= k < |r.links| :: r.links[k])`lineStrength
    reads (set k | 0 <= k < |siteLinks| :: siteLinks[k])`name
  {
    && r.Valid() && r.concentration[..] == v && r.totalConcentration == Sum(v)
    && Prepared(linksBefore, namesBefore, r.links, r.linkNames, owned, siteLinks, siteSrcs)
  }

  /** The parts of Simulated, put together. */
  lemma SimulatedFrom(r: Receptor, linksBefore: seq<HighwayLink>, namesBefore: seq<string>,
                      owned: seq<Source>, siteLinks: seq<HighwayLink>, siteSrcs: seq<Source>, v: seq<real>)
    requires r.Valid() && r.concentration[..] == v && r.totalConcentration == Sum(v)
    requires Prepared(linksBefore, namesBefore, r.links, r.linkNames, owned, siteLinks, siteSrcs)
    ensures Simulated(r, linksBefore, namesBefore, owned, siteLinks, siteSrcs, v)
  {
  }

  /**
    The names of the copies: the receptor's earlier names, then the name of
    each site link in order.
  */
  predicate CopiedNames(before: seq<string>, after: seq<string>, siteLinks: seq<HighwayLink>)
    reads (set k | 0 <= k < |siteLinks| :: siteLinks[k])`name
  {
    && |after| == |before| + |siteLinks| && after[..|before|] == before
    && forall k :: 0 <= k < |siteLinks| ==> after[|before| + k] == siteLinks[k].name
  }

  /** The parts of Prepared, put together. */
  lemma PreparedFrom(linksBefore: seq<HighwayLink>, namesBefore: seq<string>, linksAfter: seq<HighwayLink>,
                     namesAfter: seq<string>, owned: seq<Source>, siteLinks: seq<HighwayLink>, siteSrcs: seq<Source>)
    requires SourcesOf(linksAfter) == owned + siteSrcs
    requires |owned| <= |linksAfter| && linksAfter[..|owned|] == linksBefore
    requires CopiedNames(namesBefore, namesAfter, siteLinks)
    ensures Prepared(linksBefore, namesBefore, linksAfter, namesAfter, owned, siteLinks, siteSrcs)
  {
  }

  /**
    What one pass of run_simulation leaves in a receptor's link list: the
    links it owned, then copies carrying the site links' sources, with
    their names recorded after the earlier names.
  */
  predicate Prepared(linksBefore: seq<HighwayLink>, namesBefore: seq<string>, linksAfter: seq<HighwayLink>,
                     namesAfter: seq<string>, owned: seq<Source>, siteLinks: seq<HighwayLink>, siteSrcs: seq<Source>)
    reads (set k | 0 <= k < |linksAfter| :: linksAfter[k])`startLocation, (set k | 0 <= k < |linksAfter| :: linksAfter[k])`endLocation
    reads (set k | 0 <= k < |linksAfter| :: linksAfter[k])`width, (set k | 0 <= k < |linksAfter| :: linksAfter[k])`lineStrength
    reads (set k | 0 <= k < |siteLinks| :: siteLinks[k])`name
  {
    && SourcesOf(linksAfter) == owned + siteSrcs
    && |owned| <= |linksAfter| && linksAfter[..|owned|] == linksBefore
    && CopiedNames(namesBefore, namesAfter, siteLinks)
  }

  /**
    The receptor loop of run_simulation: every receptor in turn takes
    copies of the site links and calculates its concentrations, until one
    of them fails. The receptors are told apart, and `owned` holds every
    link they own before the loop.
  */
  method SweepReceptors(rs: seq<Receptor>, siteLinks: seq<HighwayLink>, disp: Option<Dispersion>, env: Engine,
                        ghost inputs: seq<ReceptorInput>, ghost siteSrcs: seq<Source>, ghost ts: seq<Result<seq<real>>>,
                        ghost owned: set<HighwayLink>)
    returns (outcome: Outcome, ghost vs: seq<seq<real>>)
    requires NoRepeats(rs) && |inputs| == |rs|
    requires SweepReady(inputs, siteSrcs, disp, env) && ts == AllTotals(inputs, siteSrcs, disp, env)
    requires SourcesOf(siteLinks) == siteSrcs
    requires forall j :: 0 <= j < |rs| ==>
               rs[j].Valid() && rs[j].location == inputs[j].location && SourcesOf(rs[j].links) == inputs[j].owned
    requires forall j, k :: 0 <= j < |rs| && 0 <= k < |rs[j].links| ==> rs[j].links[k] in owned
    modifies (set j | 0 <= j < |rs| :: rs[j])`links, (set j | 0 <= j < |rs| :: rs[j])`linkNames
    modifies (set j | 0 <= j < |rs| :: rs[j])`totalConcentration, (set j | 0 <= j < |rs| :: rs[j])`concentration
    modifies owned`pointArray, owned`totalConcentration
    ensures outcome.Halted? ==> Sweep(ts) == Err(outcome.fault)
    ensures outcome.Completed? ==>
              && Sweep(ts) == Ok(vs) && |vs| == |rs|
              && forall j :: 0 <= j < |rs| ==>
                   Simulated(rs[j], old(rs[j].links), old(rs[j].linkNames), inputs[j].owned, siteLinks, siteSrcs, vs[j])
    ensures forall j :: 0 <= j < |rs| ==> rs[j].Valid() && rs[j].location == old(rs[j].location)
  {
    hide *;
    AllTotalsAt(inputs, siteSrcs, disp, env, ts);
    ghost var links0 := seq(|rs|, j requires 0 <= j < |rs| reads rs => rs[j].links);
    ghost var names0 := seq(|rs|, j requires 0 <= j < |rs| reads rs => rs[j].linkNames);
    forall j | 0 <= j < |rs|
      ensures Pending(rs[j], links0[j], names0[j], inputs[j])
    {
      PendingFrom(rs[j], inputs[j]);
    }
    outcome, vs := Completed, [];
    var i := 0;
    while i < |rs|
      invariant 0 <= i <= |rs| && |vs| == i && Sweep(ts[..i]) == Ok(vs) && outcome.Completed?
      invariant forall j, k :: 0 <= j < |rs| && 0 <= k < |links0[j]| ==> links0[j][k] in owned
      invariant forall j :: i <= j < |rs| ==> Pending(rs[j], links0[j], names0[j], inputs[j])
      invariant forall j :: 0 <= j < i ==>
                  Simulated(rs[j], links0[j], names0[j], inputs[j].owned, siteLinks, siteSrcs, vs[j])
    {
      var v;
      outcome, v := SweepPass(rs, i, siteLinks, disp, env, inputs, siteSrcs, ts[i], owned, links0, names0, vs);
      if outcome.Halted? {
        SweepStopped(ts, i, vs);
        return;
      }
      SweepStep(ts, i, vs, v);
      vs := vs + [v];
      i := i + 1;
    }
    assert ts[..i] == ts;
  }

  /**
    One pass of the receptor loop of run_simulation: receptor i takes its
    copies and calculates, and the receptors before it and after it keep
    what they hold.
  */
  method SweepPass(rs: seq<Receptor>, i: int, siteLinks: seq<HighwayLink>, disp: Option<Dispersion>, env: Engine,
                   ghost inputs: seq<ReceptorInput>, ghost siteSrcs: seq<Source>, ghost t: Result<seq<real>>,
                   ghost owned: set<HighwayLink>, ghost links0: seq<seq<HighwayLink>>, ghost names0: seq<seq<string>>,
                   ghost vs: seq<seq<real>>)
    returns (outcome: Outcome, v: seq<real>)
    requires NoRepeats(rs) && |inputs| == |rs| && |links0| == |rs| && |names0| == |rs| && 0 <= i < |rs| && |vs| == i
    requires Ready(inputs[i], siteSrcs, disp, env) && t == ReceptorTotals(inputs[i], siteSrcs, disp, env)
    requires SourcesOf(siteLinks) == siteSrcs
    requires forall k :: 0 <= k < |links0[i]| ==> links0[i][k] in owned
    requires forall j :: i <= j < |rs| ==> Pending(rs[j], links0[j], names0[j], inputs[j])
    requires forall j :: 0 <= j < i ==>
               Simulated(rs[j], links0[j], names0[j], inputs[j].owned, siteLinks, siteSrcs, vs[j])
    modifies {rs[i]}`links, {rs[i]}`linkNames, {rs[i]}`totalConcentration, {rs[i]}`concentration
    modifies owned`pointArray, owned`totalConcentration
    ensures outcome.Completed? <==> t.Ok?
    ensures outcome.Halted? ==> outcome.fault == t.fault
    ensures outcome.Completed? ==>
              && v == t.value
              && (forall j :: i < j < |rs| ==> Pending(rs[j], links0[j], names0[j], inputs[j]))
              && forall j :: 0 <= j <= i ==>
                   Simulated(rs[j], links0[j], names0[j], inputs[j].owned, siteLinks, siteSrcs, (vs + [v])[j])
    ensures forall j :: 0 <= j < |rs| ==> rs[j].Valid()
  {
    hide *;
    var r := rs[i];
    NoRepeatsAt(rs, i);
    outcome := SimulateReceptor(r, siteLinks, disp, env, inputs[i], siteSrcs, t);
    v := if outcome.Completed? then r.concentration[..] else [];
  }

  /** Receptor r before its pass of run_simulation: as it was, ready for the pass. */
  predicate Pending(r: Receptor, linksBefore: seq<HighwayLink>, namesBefore: seq<string>, input: ReceptorInput)
    reads r
    reads (set k | 0 <= k < |r.links| :: r.links[k])`startLocation, (set k | 0 <= k < |r.links| :: r.links[k])`endLocation
    reads (set k | 0 <= k < |r.links| :: r.links[k])`width, (set k | 0 <= k < |r.links| :: r.links[k])`lineStrength
    ensures Pending(r, linksBefore, namesBefore, input) ==>
              && r.links == linksBefore && r.linkNames == namesBefore
              && r.Valid() && r.location == input.location && SourcesOf(r.links) == input.owned
  {
    && r.links == linksBefore && r.linkNames == namesBefore
    && r.Valid() && r.location == input.location && SourcesOf(r.links) == input.owned
  }

  lemma PendingFrom(r: Receptor, input: ReceptorInput)
    requires r.Valid() && r.location == input.location && SourcesOf(r.links) == input.owned
    ensures Pending(r, r.links, r.linkNames, input)
  {
  }

  /**
    The second half of one pass of the run_simulation loop: calculate_concentration
    on a receptor whose slots are all zero, which leaves its totals in the slots.
  */
  method CalculateFresh(r: Receptor, disp: Option<Dispersion>, env: Engine, ghost srcs: seq<Source>, ghost loc: Vec3)
    returns (outcome: Outcome)
    requires r.Valid() && SourcesOf(r.links) == srcs && r.location == loc && AllGenerating(srcs, loc, disp, env)
    requires r.totalConcentration == 0.0 && r.concentration[..] == Zeros(|r.links|)
    modifies r`totalConcentration, r.concentration
    modifies (set k | 0 <= k < |r.links| :: r.links[k])`pointArray
    modifies (set k | 0 <= k < |r.links| :: r.links[k])`totalConcentration
    ensures var t := Totals(LinkResults(srcs, loc, disp, env));
            && (outcome.Completed? <==> t.Ok?)
            && (outcome.Halted? ==> outcome.fault == t.fault)
            && (outcome.Completed? ==> r.concentration[..] == t.value && r.totalConcentration == Sum(t.value))
    ensures forall k :: 0 <= k < |r.links| ==> r.links[k].Src() == srcs[k]
  {
    ghost var cs := LinkResults(srcs, loc, disp, env);
    outcome := r.CalculateConcentration(disp, env);
    if outcome.Completed? {
      FilledFromZero(r.concentration[..], Totals(cs).value);
    }
  }

  /** The first n entries of row i of m. */
  function RowFrom(m: array2<real>, i: nat, n: nat): (row: seq<real>)
    requires i < m.Length0 && n <= m.Length1
    reads m
    ensures |row| == n
    ensures forall j :: 0 <= j < n ==> row[j] == m[i, j]
  {
    if n == 0 then [] else RowFrom(m, i, n - 1) + [m[i, n - 1]]
  }

  /** Row i of m holds the total, then the slots, then zeros. */
  ghost predicate RowHolds(m: array2<real>, i: nat, total: real, conc: seq<real>)
    requires i < m.Length0
    reads m
  {
    && |conc| < m.Length1 && m[i, 0] == total
    && (forall l :: 0 <= l < |conc| ==> m[i, l + 1] == conc[l])
    && (forall l :: |conc| < l < m.Length1 ==> m[i, l] == 0.0)
  }

  /** A row that holds the total, the slots and zeros reads as the matrix row create_conc_matrix means. */
  lemma RowHoldsMatrixRow(m: array2<real>, i: nat, total: real, conc: seq<real>)
    requires i < m.Length0 && RowHolds(m, i, total, conc)
    ensures RowFrom(m, i, m.Length1) == MatrixRow(total, conc, m.Length1 - 1)
  {
    var row := MatrixRow(total, conc, m.Length1 - 1);
    var got := RowFrom(m, i, m.Length1);
    forall l | 0 <= l < m.Length1
      ensures got[l] == row[l]
    {
      if l == 0 {
      } else if l <= |conc| {
        assert row[l] == conc[l - 1];
      } else {
        assert row[l] == Zeros(m.Length1 - 1 - |conc|)[l - 1 - |conc|];
      }
    }
  }

  /**
    One receptor's pass of create_conc_matrix on the zero row i: slot j
    into column j + 1, then the total into column 0. A slot with no column
    of its own is the index error.
  */
  method FillRow(m: array2<real>, i: nat, conc: array<real>, total: real) returns (outcome: Outcome)
    requires i < m.Length0 && 0 < m.Length1
    requires forall j :: 0 <= j < m.Length1 ==> m[i, j] == 0.0
    modifies m
    ensures outcome.Completed? <==> conc.Length < m.Length1
    ensures outcome.Halted? ==> outcome.fault == IndexOutOfBounds
    ensures forall k, j :: 0 <= k < m.Length0 && k != i && 0 <= j < m.Length1 ==> m[k, j] == old(m[k, j])
    ensures outcome.Completed? ==> RowHolds(m, i, total, conc[..])
  {
    var j := 0;
    while j < conc.Length
      invariant 0 <= j <= conc.Length && j < m.Length1
      invariant forall k, l :: 0 <= k < m.Length0 && k != i && 0 <= l < m.Length1 ==> m[k, l] == old(m[k, l])
      invariant forall l :: 0 <= l < j ==> m[i, l + 1] == conc[l]
      invariant m[i, 0] == 0.0 && forall l :: j < l < m.Length1 ==> m[i, l] == 0.0
    {
      if j + 1 >= m.Length1 {
        return Halted(IndexOutOfBounds);
      }
      m[i, j + 1] := conc[j];
      j := j + 1;
    }
    m[i, 0] := total;
    outcome := Completed;
  }

  class Site {
    var receptors: seq<Receptor>
    var links: seq<HighwayLink>
    var dispersion: Option<Dispersion>
    var concMatrix: array2?<real>
    var temperature: real
    var pressure: real
    var pollutant: PollutantType

    /** The receptors are distinct objects, and each keeps its own invariant. */
    predicate Valid()
      reads this`receptors, set i | 0 <= i < |receptors| :: receptors[i]
    {
      Distinct() && forall i :: 0 <= i < |receptors| ==> receptors[i].Valid()
    }

    /** No receptor is listed twice. */
    predicate Distinct()
      reads this`receptors
    {
      NoRepeats(receptors)
    }

    /** A valid site's receptors are told apart and each is valid. */
    lemma ValidReceptors()
      requires Valid()
      ensures NoRepeats(receptors) && forall i :: 0 <= i < |receptors| ==> receptors[i].Valid()
    {
    }

    /** Distinct receptors that are each valid make a valid site. */
    lemma ValidOf()
      requires NoRepeats(receptors) && forall i :: 0 <= i < |receptors| ==> receptors[i].Valid()
      ensures Valid()
    {
    }

    /** The sweep input of receptor i is its owned links' sources and its location. */
    lemma InputsAt()
      ensures |Inputs()| == |receptors|
      ensures forall i :: 0 <= i < |receptors| ==>
                Inputs()[i] == ReceptorInput(SourcesOf(receptors[i].links), receptors[i].location)
    {
    }

    function Inputs(): seq<ReceptorInput>
      reads this`receptors, set i | 0 <= i < |receptors| :: receptors[i]
      reads OwnedLinks(receptors)
    {
      InputsOf(receptors)
    }

    /** Matrix row i. */
    function RowOf(i: nat): (row: seq<real>)
      requires concMatrix != null && i < concMatrix.Length0
      reads this`concMatrix, concMatrix
      ensures |row| == concMatrix.Length1
      ensures forall j :: 0 <= j < concMatrix.Length1 ==> row[j] == concMatrix[i, j]
    {
      RowFrom(concMatrix, i, concMatrix.Length1)
    }

    /**
      The constructor: no receptors or links, the all-zero dispersion
      record, 300 K, 1 atm and SF6 as the pollutant.
    */
    constructor ()
      ensures receptors == [] && links == [] && dispersion == Some(NoDispersion) && concMatrix == null
      ensures temperature == DefaultTemperature && pressure == DefaultPressure
      ensures fresh(pollutant) && pollutant.Record() == Known(SF6).value
    {
      receptors, links := [], [];
      dispersion := Some(NoDispersion);
      concMatrix := null;
      temperature, pressure := DefaultTemperature, DefaultPressure;
      var sf6 := PollutantType.Select(SF6);
      pollutant := sf6.value;
    }

    method ClearLinks()
      modifies this`links
      ensures links == []
    {
      links := [];
    }

    method ClearReceptors()
      modifies this`receptors
      ensures receptors == []
    {
      receptors := [];
    }

    /** clear_all: no links, no receptors, no matrix and no dispersion record. */
    method ClearAll()
      modifies this`links, this`receptors, this`concMatrix, this`dispersion
      ensures links == [] && receptors == [] && concMatrix == null && dispersion.None?
    {
      links := [];
      receptors := [];
      concMatrix := null;
      dispersion := None;
    }

    method AddLink(l: HighwayLink)
      modifies this`links
      ensures links == old(links) + [l]
    {
      links := links + [l];
    }

    method AddReceptor(r: Receptor)
      modifies this`receptors
      ensures receptors == old(receptors) + [r]
      ensures old(Valid()) && r.Valid() && r !in old(receptors) ==> Valid()
    {
      receptors := receptors + [r];
    }

    /** setDispersion(record): the record every later calculation uses. */
    method SetDispersion(d: Option<Dispersion>)
      modifies this`dispersion
      ensures dispersion == d
    {
      dispersion := d;
    }

    /**
      setDispersion(speed, direction, reference height): the calibrated
      constants, the meteorological direction turned into a geometric angle
      in radians, and the wind profile's a for that speed at that height.
    */
    method SetDispersionFromWind(windSpeed: real, windDirection: real, referenceElevation: real,
                                 metToGeometric: real -> real, windProfileA: (real, real, real, real) -> real)
      modifies this`dispersion
      ensures var angle := metToGeometric(windDirection) * DegreesToRadians;
              dispersion == Some(CalibratedDispersion(windProfileA(windSpeed, referenceElevation, CalibratedP, angle), angle))
      ensures dispersion.value.p == 0.25 && dispersion.value.n == 0.81 && dispersion.value.b == 0.28
      ensures dispersion.value.c == 3.0 && dispersion.value.d == 0.32 && dispersion.value.e == 0.78
    {
      var angle := metToGeometric(windDirection) * DegreesToRadians;
      var a := windProfileA(windSpeed, referenceElevation, CalibratedP, angle);
      dispersion := Some(CalibratedDispersion(a, angle));
    }

    method SetTemperature(v: real)
      modifies this`temperature
      ensures temperature == v
    {
      temperature := v;
    }

    method SetPressure(v: real)
      modifies this`pressure
      ensures pressure == v
    {
      pressure := v;
    }

    method SetPollutant(p: PollutantType)
      modifies this`pollutant
      ensures pollutant == p
    {
      pollutant := p;
    }

    /**
      add_receptors(coordinates, names): one new receptor per row, in row
      order, at (x, y, z) of the row and named by the name at the same
      index. A short row, or a row past the last name, is an index error
      that stops the loop; the receptors added before it stay.
    */
    method AddReceptors(coords: seq<seq<real>>, names: seq<string>) returns (outcome: Outcome)
      modifies this`receptors
      ensures var k := ReceptorsAdded(coords, names);
              && |receptors| == |old(receptors)| + k && receptors[..|old(receptors)|] == old(receptors)
              && (outcome.Completed? <==> k == |coords|)
              && (outcome.Halted? ==> outcome.fault == if |coords[k]| < 3 then IndexOutOfBounds else ReceptorNamesExhausted)
      ensures forall j :: |old(receptors)| <= j < |receptors| ==> fresh(receptors[j]) && receptors[j].Valid()
      ensures forall j :: 0 <= j < ReceptorsAdded(coords, names) ==>
                NewReceptor(receptors[|old(receptors)| + j], names[j], Vec3(coords[j][0], coords[j][1], coords[j][2]))
      ensures old(Valid()) ==> Valid()
    {
      ghost var n := |receptors|;
      var i := 0;
      while i < |coords|
        invariant 0 <= i <= |coords| && i <= ReceptorsAdded(coords, names)
        invariant |receptors| == n + i && receptors[..n] == old(receptors)
        invariant forall j :: n <= j < |receptors| ==> fresh(receptors[j]) && receptors[j].Valid()
        invariant forall j :: 0 <= j < i ==>
                    NewReceptor(receptors[n + j], names[j], Vec3(coords[j][0], coords[j][1], coords[j][2]))
        invariant old(Valid()) ==> Valid()
      {
        if |coords[i]| < 3 {
          return Halted(IndexOutOfBounds);
        }
        var coord := new Coordinate.At(coords[i][0], coords[i][1], coords[i][2]);
        if i >= |names| {
          return Halted(ReceptorNamesExhausted);
        }
        ghost var before := receptors;
        AppendNewReceptor(names[i], coord);
        assert receptors[..n] == before[..n];
        i := i + 1;
      }
      outcome := Completed;
    }

    /** One pass of the add_receptors loop: a new receptor named name at the coordinate, appended. */
    method AppendNewReceptor(name: string, coord: Coordinate)
      modifies this`receptors
      ensures |receptors| == |old(receptors)| + 1 && receptors[..|old(receptors)|] == old(receptors)
      ensures fresh(receptors[|old(receptors)|]) && receptors[|old(receptors)|].Valid()
      ensures NewReceptor(receptors[|old(receptors)|], name, coord.Value())
      ensures old(Valid()) ==> Valid()
    {
      var r := new Receptor(name, coord);
      receptors := receptors + [r];
    }

    /**
      run_simulation: every receptor, in order, takes copies of the site
      links and calculates its concentrations; then the matrix is built.
      Whatever the outcome, the site stays valid; once every receptor has
      its totals, each receptor holds the links it owned followed by copies
      of the site links, its slots hold its totals and its total their sum.
    */
    method RunSimulation(env: Engine) returns (outcome: Outcome)
      requires Valid() && SweepReady(Inputs(), SourcesOf(links), dispersion, env)
      modifies this`concMatrix
      modifies (set i | 0 <= i < |receptors| :: receptors[i])`links
      modifies (set i | 0 <= i < |receptors| :: receptors[i])`linkNames
      modifies (set i | 0 <= i < |receptors| :: receptors[i])`totalConcentration
      modifies (set i | 0 <= i < |receptors| :: receptors[i])`concentration
      modifies OwnedLinks(receptors)`pointArray, OwnedLinks(receptors)`totalConcentration
      ensures var r := Simulation(old(Inputs()), old(SourcesOf(links)), dispersion, env);
              && (outcome.Completed? <==> r.Ok?)
              && (outcome.Halted? ==> outcome.fault == r.fault)
              && (outcome.Completed? ==>
                    && concMatrix != null && fresh(concMatrix)
                    && concMatrix.Length0 == |receptors| && concMatrix.Length1 == |links| + 1
                    && forall i :: 0 <= i < |receptors| ==> RowOf(i) == r.value[i])
      ensures Valid() && forall i :: 0 <= i < |receptors| ==> receptors[i].location == old(receptors[i].location)
      ensures var sw := Sweep(AllTotals(old(Inputs()), old(SourcesOf(links)), dispersion, env));
              sw.Ok? ==> |sw.value| == |receptors| && forall i :: 0 <= i < |receptors| ==>
                Simulated(receptors[i], old(receptors[i].links), old(receptors[i].linkNames),
                          old(Inputs())[i].owned, links, old(SourcesOf(links)), sw.value[i])
    {
      hide *;
      ghost var inputs := Inputs();
      ghost var siteSrcs := SourcesOf(links);
      ghost var vs;
      InputsAt();
      outcome, vs := SimulateReceptors(env);
      if outcome.Halted? {
        SimulationCases(inputs, siteSrcs, dispersion, env);
        return;
      }
      TabulatedSweep(inputs, siteSrcs, dispersion, env, vs);
      outcome := CreateConcMatrix();
    }

    /** The receptor loop of run_simulation, on the site's own receptors and links. */
    method SimulateReceptors(env: Engine) returns (outcome: Outcome, ghost vs: seq<seq<real>>)
      requires Valid() && SweepReady(Inputs(), SourcesOf(links), dispersion, env)
      modifies (set i | 0 <= i < |receptors| :: receptors[i])`links
      modifies (set i | 0 <= i < |receptors| :: receptors[i])`linkNames
      modifies (set i | 0 <= i < |receptors| :: receptors[i])`totalConcentration
      modifies (set i | 0 <= i < |receptors| :: receptors[i])`concentration
      modifies OwnedLinks(receptors)`pointArray, OwnedLinks(receptors)`totalConcentration
      ensures var sw := Sweep(AllTotals(old(Inputs()), old(SourcesOf(links)), dispersion, env));
              && (outcome.Halted? ==> sw == Err(outcome.fault))
              && (outcome.Completed? ==> sw == Ok(vs) && |vs| == |receptors|)
      ensures outcome.Completed? ==> forall i :: 0 <= i < |receptors| ==>
                Simulated(receptors[i], old(receptors[i].links), old(receptors[i].linkNames),
                          old(Inputs())[i].owned, links, old(SourcesOf(links)), vs[i])
      ensures Valid() && forall i :: 0 <= i < |receptors| ==> receptors[i].location == old(receptors[i].location)
    {
      hide *;
      ghost var inputs := Inputs();
      ghost var siteSrcs := SourcesOf(links);
      ghost var ts := AllTotals(inputs, siteSrcs, dispersion, env);
      ValidReceptors();
      InputsAt();
      OwnedLinksHold(receptors);
      outcome, vs := SweepReceptors(receptors, links, dispersion, env, inputs, siteSrcs, ts, OwnedLinks(receptors));
      ValidOf();
    }

    /**
      create_conc_matrix: a new zero matrix of one row per receptor and one
      column more than there are links; row i holds receptor i's total and
      then its slots. A receptor with more slots than there are links is an
      index error, which leaves the rows before it filled.
    */
    method CreateConcMatrix() returns (outcome: Outcome)
      modifies this`concMatrix
      ensures concMatrix != null && fresh(concMatrix)
      ensures concMatrix.Length0 == |receptors| && concMatrix.Length1 == |links| + 1
      ensures outcome.Completed? <==> forall i :: 0 <= i < |receptors| ==> receptors[i].concentration.Length <= |links|
      ensures outcome.Halted? ==> outcome.fault == IndexOutOfBounds
      ensures outcome.Completed? ==> forall i :: 0 <= i < |receptors| ==>
                RowOf(i) == MatrixRow(receptors[i].totalConcentration, receptors[i].concentration[..], |links|)
    {
      var m := new real[|receptors|, |links| + 1]((_, _) => 0.0);
      concMatrix := m;
      var i := 0;
      while i < |receptors|
        invariant 0 <= i <= |receptors| && concMatrix == m
        invariant forall k :: 0 <= k < i ==> receptors[k].concentration.Length <= |links|
        invariant forall k :: 0 <= k < i ==>
                    RowHolds(m, k, receptors[k].totalConcentration, receptors[k].concentration[..])
        invariant forall k, j :: i <= k < m.Length0 && 0 <= j < m.Length1 ==> m[k, j] == 0.0
      {
        var current := receptors[i];
        outcome := FillRow(m, i, current.concentration, current.totalConcentration);
        if outcome.Halted? {
          return;
        }
        i := i + 1;
      }
      outcome := Completed;
      forall k | 0 <= k < |receptors|
        ensures RowOf(k) == MatrixRow(receptors[k].totalConcentration, receptors[k].concentration[..], |links|)
      {
        RowHoldsMatrixRow(m, k, receptors[k].totalConcentration, receptors[k].concentration[..]);
      }
    }

    /**
      get_conc_matrix: a new matrix of one row per receptor and one column
      more than there are links, each entry the stored entry times the unit
      factor for the site's pressure, temperature and pollutant weight. The
      stored matrix is only read; when there are receptors but no stored
      matrix, or the stored one is smaller, the call fails.
    */
    method GetConcMatrix(units: int, toPpm: (real, real, real, real) -> real) returns (r: Result<array2<real>>)
      ensures |receptors| > 0 && concMatrix == null ==> r == Err(MissingMatrix)
      ensures (|receptors| > 0 && concMatrix != null && (concMatrix.Length0 < |receptors| || concMatrix.Length1 <= |links|))
                ==> r == Err(IndexOutOfBounds)
      ensures r.Ok? <==> |receptors| == 0 || (concMatrix != null && concMatrix.Length0 >= |receptors| && concMatrix.Length1 > |links|)
      ensures r.Ok? ==>
                var factor := UnitFactor(units, toPpm(1.0, pressure, temperature, pollutant.molecularWeight));
                && fresh(r.value) && r.value.Length0 == |receptors| && r.value.Length1 == |links| + 1
                && forall i, j :: 0 <= i < |receptors| && 0 <= j <= |links| ==> r.value[i, j] == concMatrix[i, j] * factor
    {
      var factor := UnitFactor(units, toPpm(1.0, pressure, temperature, pollutant.molecularWeight));
      if |receptors| > 0 && concMatrix == null {
        return Err(MissingMatrix);
      }
      if |receptors| > 0 && (concMatrix.Length0 < |receptors| || concMatrix.Length1 <= |links|) {
        return Err(IndexOutOfBounds);
      }
      var m := new real[|receptors|, |links| + 1];
      var i := 0;
      while i < |receptors|
        invariant 0 <= i <= |receptors|
        invariant forall k, j :: 0 <= k < i && 0 <= j <= |links| ==> m[k, j] == concMatrix[k, j] * factor
      {
        var j := 0;
        while j <= |links|
          invariant 0 <= j <= |links| + 1
          invariant forall k, l :: 0 <= k < i && 0 <= l <= |links| ==> m[k, l] == concMatrix[k, l] * factor
          invariant forall l :: 0 <= l < j ==> m[i, l] == concMatrix[i, l] * factor
        {
          m[i, j] := concMatrix[i, j] * factor;
          j := j + 1;
        }
        i := i + 1;
      }
      r := Ok(m);
    }

  }
}
