/*
  A receptor (receptor.java): a named location that owns renamed copies of
  the links contributing to it and keeps one concentration slot per owned
  link plus a running total.

  The receptor's naming object is its `name`; the names the naming utility
  would hand out by default are supplied by the caller. The error handler's
  fatal stops are `Halted` outcomes.
*/
module Receptors {
  import opened Numerics
  import opened Outcomes
  import opened Coordinates
  import opened Parameters
  import opened GridSpec
  import opened HighwayLinks

  const OwnedMarker: string := "-Owned-"

  /** The name a receptor gives the copy of a link it owns. */
  function OwnedName(receptorName: string, linkName: string): string
  {
    receptorName + OwnedMarker + linkName
  }

  /** The original link name recovered from the name of an owned copy. */
  function OriginalName(receptorName: string, ownedName: string): string
  {
    if |ownedName| < |receptorName| + |OwnedMarker| then ownedName
    else ownedName[|receptorName| + |OwnedMarker|..]
  }

  /** Renaming loses nothing: the original name can be read back from the owned one. */
  lemma OwnedNameRoundTrip(receptorName: string, linkName: string)
    ensures OriginalName(receptorName, OwnedName(receptorName, linkName)) == linkName
  {
    var owned := OwnedName(receptorName, linkName);
    assert owned == (receptorName + OwnedMarker) + linkName;
    assert owned[|receptorName + OwnedMarker|..] == linkName;
  }

  /** Two links of one receptor get the same owned name only if their original names agree. */
  lemma OwnedNamesDistinct(receptorName: string, a: string, b: string)
    requires a != b
    ensures OwnedName(receptorName, a) != OwnedName(receptorName, b)
  {
    OwnedNameRoundTrip(receptorName, a);
    OwnedNameRoundTrip(receptorName, b);
  }

  /** The geometry and strength of a run of links, in order. */
  function SourcesOf(ls: seq<HighwayLink>): (srcs: seq<Source>)
    reads (set k | 0 <= k < |ls| :: ls[k])`startLocation, (set k | 0 <= k < |ls| :: ls[k])`endLocation
    reads (set k | 0 <= k < |ls| :: ls[k])`width, (set k | 0 <= k < |ls| :: ls[k])`lineStrength
    ensures |srcs| == |ls|
    ensures forall k :: 0 <= k < |ls| ==> srcs[k] == ls[k].Src()
  {
    if ls == [] then [] else SourcesOf(ls[..|ls| - 1]) + [ls[|ls| - 1].Src()]
  }

  /** Every link of the run finishes its discretizer run at the receptor. */
  predicate AllGenerating(srcs: seq<Source>, receptor: Vec3, disp: Option<Dispersion>, env: Engine)
  {
    forall k :: 0 <= k < |srcs| ==> Generating(srcs[k], receptor, disp, env)
  }

  /** The result of each link's calculation at the receptor, in index order. */
  function LinkResults(srcs: seq<Source>, receptor: Vec3, disp: Option<Dispersion>, env: Engine): (cs: seq<Result<real>>)
    requires AllGenerating(srcs, receptor, disp, env)
  {
    seq(|srcs|, k requires 0 <= k < |srcs| => LinkConcentration(srcs[k], receptor, disp, env))
  }

  /**
    calculate_concentration on values: the links' totals in index order, or
    the first reason a link fails, where a negative total is the fatal stop
    of add_concentration.
  */
  function Totals(cs: seq<Result<real>>): (r: Result<seq<real>>)
    ensures r.Ok? ==> |r.value| == |cs|
    ensures r.Ok? ==> forall k :: 0 <= k < |cs| ==> cs[k] == Ok(r.value[k]) && r.value[k] >= 0.0
  {
    if cs == [] then Ok([])
    else
      var n := |cs| - 1;
      match Totals(cs[..n])
      case Err(f) => Err(f)
      case Ok(vs) =>
        match cs[n]
        case Err(f) => Err(f)
        case Ok(x) => if x < 0.0 then Err(NegativeConcentration(x)) else Ok(vs + [x])
  }

  /** A link's result is usable when it is a concentration and it is not negative. */
  predicate Usable(c: Result<real>)
  {
    c.Ok? && c.value >= 0.0
  }

  /** Why a link's unusable result stops the run. */
  function StopFault(c: Result<real>): Fault
  {
    if c.Err? then c.fault else NegativeConcentration(c.value)
  }

  /** The totals exist exactly when every link's result is usable. */
  lemma {:induction false} TotalsSucceed(cs: seq<Result<real>>)
    ensures Totals(cs).Ok? <==> forall k :: 0 <= k < |cs| ==> Usable(cs[k])
  {
    if cs != [] {
      var n := |cs| - 1;
      TotalsSucceed(cs[..n]);
      assert forall k :: 0 <= k < n ==> cs[..n][k] == cs[k];
    }
  }

  /** A failed run reports the first unusable link result, and every link before it was usable. */
  lemma {:induction false} TotalsFirstFault(cs: seq<Result<real>>)
    requires Totals(cs).Err?
    ensures exists i :: 0 <= i < |cs| && !Usable(cs[i]) && Totals(cs).fault == StopFault(cs[i])
                        && forall k :: 0 <= k < i ==> Usable(cs[k])
  {
    var n := |cs| - 1;
    if Totals(cs[..n]).Err? {
      TotalsFirstFault(cs[..n]);
      var i :| 0 <= i < n && !Usable(cs[..n][i]) && Totals(cs[..n]).fault == StopFault(cs[..n][i])
               && forall k :: 0 <= k < i ==> Usable(cs[..n][k]);
      assert forall k :: 0 <= k < i ==> cs[..n][k] == cs[k];
      assert cs[..n][i] == cs[i];
    } else {
      TotalsSucceed(cs[..n]);
      assert forall k :: 0 <= k < n ==> cs[..n][k] == cs[k];
      assert !Usable(cs[n]);
    }
  }

  /** The zero-filled concentration array Java allocates. */
  function Zeros(n: nat): (z: seq<real>)
    ensures |z| == n && Sum(z) == 0.0
    ensures forall k :: 0 <= k < n ==> z[k] == 0.0
  {
    if n == 0 then [] else Zeros(n - 1) + [0.0]
  }

  /** Adding x to one slot adds x to the sum of the slots. */
  lemma {:induction false} SumUpdate(s: seq<real>, i: int, x: real)
    requires 0 <= i < |s|
    ensures Sum(s[i := s[i] + x]) == Sum(s) + x
    decreases |s|
  {
    var n := |s| - 1;
    var u := s[i := s[i] + x];
    assert u[..n] == if i < n then s[..n][i := s[i] + x] else s[..n];
    if i < n {
      SumUpdate(s[..n], i, x);
    }
  }

  /** Slots filled from zero with the totals, one after another, hold the totals. */
  lemma {:induction false} SumPrefix(vs: seq<real>, i: int)
    requires 0 <= i < |vs|
    ensures Sum(vs[..i + 1]) == Sum(vs[..i]) + vs[i]
  {
    assert vs[..i + 1][..i] == vs[..i];
  }

  /** No element appears twice: each one differs from every element before it. */
  predicate NoRepeats<T(==)>(ls: seq<T>)
  {
    ls == [] || (NoRepeats(ls[..|ls| - 1]) && forall j :: 0 <= j < |ls| - 1 ==> ls[j] != ls[|ls| - 1])
  }

  /** In a sequence without repeats, the element at index i appears nowhere else. */
  lemma {:induction false} NoRepeatsAt<T>(ls: seq<T>, i: int)
    requires NoRepeats(ls) && 0 <= i < |ls|
    ensures forall j :: 0 <= j < |ls| && j != i ==> ls[j] != ls[i]
  {
    var n := |ls| - 1;
    if i < n {
      NoRepeatsAt(ls[..n], i);
      assert forall j :: 0 <= j < n ==> ls[..n][j] == ls[j];
    }
  }

  class Receptor {
    var name: string
    var location: Vec3
    var links: seq<HighwayLink>
    var linkNames: seq<string>
    var concentration: array<real>
    var totalConcentration: real

    /**
      Owned links are distinct copies, and once links are owned there is one
      concentration slot per link.
    */
    predicate Valid()
      reads this`links, this`concentration
    {
      DistinctLinks() && (|links| == 0 || concentration.Length == |links|)
    }

    /** No link is owned twice. */
    predicate DistinctLinks()
      reads this`links
    {
      NoRepeats(links)
    }

    /** The running total is the sum of the slots. */
    predicate Balanced()
      reads this`totalConcentration, this`concentration, concentration
    {
      totalConcentration == Sum(concentration[..])
    }

    /** The number of owned links, against which link indices are checked. */
    function KnownLinks(): nat
      reads this`links
    {
      |links|
    }

    /**
      The constructors: a copy of the location, no links, and storage for
      one link whose slot is 0.
    */
    constructor (receptorName: string, coord: Coordinate)
      ensures name == receptorName && location == coord.Value()
      ensures links == [] && linkNames == []
      ensures fresh(concentration) && concentration[..] == [0.0] && totalConcentration == 0.0
      ensures Valid() && Balanced()
    {
      name := receptorName;
      location := coord.Value();
      links, linkNames := [], [];
      concentration := new real[] [0.0];
      totalConcentration := 0.0;
    }

    /** setLocation stores a copy of the coordinate's value. */
    method SetLocation(v: Coordinate)
      modifies this`location
      ensures location == v.Value()
    {
      location := v.Value();
    }

    /** clear_links forgets the owned links; the recorded names are kept. */
    method ClearLinks()
      modifies this`links
      ensures links == []
    {
      links := [];
    }

    /**
      add_concentration: a link index outside [0, known links), then a
      negative value, are fatal; otherwise x is added to that link's slot
      and to the total, and nothing else changes.
    */
    method AddConcentration(linkNum: int, x: real) returns (outcome: Outcome)
      modifies this`totalConcentration, concentration
      ensures outcome.Completed? <==> 0 <= linkNum < |links| && 0.0 <= x && linkNum < concentration.Length
      ensures (linkNum < 0 || linkNum >= |links|) ==> outcome == Halted(LinkIndexOutOfRange(linkNum, |links|))
      ensures 0 <= linkNum < |links| && x < 0.0 ==> outcome == Halted(NegativeConcentration(x))
      ensures 0 <= linkNum < |links| && 0.0 <= x && concentration.Length <= linkNum ==> outcome == Halted(IndexOutOfBounds)
      ensures outcome.Halted? ==> concentration[..] == old(concentration[..]) && totalConcentration == old(totalConcentration)
      ensures outcome.Completed? ==>
                && concentration[..] == old(concentration[..])[linkNum := old(concentration[linkNum]) + x]
                && totalConcentration == old(totalConcentration) + x
      ensures old(Balanced()) ==> Balanced()
    {
      if linkNum < 0 || linkNum >= |links| {
        return Halted(LinkIndexOutOfRange(linkNum, |links|));
      }
      if x < 0.0 {
        return Halted(NegativeConcentration(x));
      }
      if linkNum >= concentration.Length {
        return Halted(IndexOutOfBounds);
      }
      SumUpdate(concentration[..], linkNum, x);
      concentration[linkNum] := concentration[linkNum] + x;
      totalConcentration := totalConcentration + x;
      outcome := Completed;
    }

    /** A fresh copy of a link, renamed to show this receptor owns it, with its original name recorded. */
    method AppendOwnedCopy(l: HighwayLink, t: Transcendentals)
      modifies this`links, this`linkNames
      ensures linkNames == old(linkNames) + [l.name]
      ensures |links| == |old(links)| + 1 && links[..|old(links)|] == old(links)
      ensures fresh(links[|links| - 1]) && OwnedCopy(links[|links| - 1], l, name, t)
      ensures old(DistinctLinks()) ==> DistinctLinks()
    {
      linkNames := linkNames + [l.name];
      var c := l.Clone(t);
      links := links + [c];
      c.SetName(OwnedName(name, c.name));
    }

    /** The finally block of addLinkCopy: a zero total and a new zero slot per owned link. */
    method ResetConcentrations()
      requires DistinctLinks()
      modifies this`totalConcentration, this`concentration
      ensures totalConcentration == 0.0
      ensures fresh(concentration) && concentration[..] == Zeros(|links|)
      ensures Valid() && Balanced()
    {
      totalConcentration := 0.0;
      concentration := new real[|links|](_ => 0.0);
      assert concentration[..] == Zeros(|links|);
    }

    /** addLinkCopy(link): one owned copy appended, then the slots reset. */
    method AddLinkCopy(l: HighwayLink, t: Transcendentals)
      requires Valid()
      modifies this`links, this`linkNames, this`totalConcentration, this`concentration
      ensures linkNames == old(linkNames) + [l.name]
      ensures |links| == |old(links)| + 1 && links[..|old(links)|] == old(links)
      ensures fresh(links[|links| - 1]) && OwnedCopy(links[|links| - 1], l, name, t)
      ensures totalConcentration == 0.0 && fresh(concentration) && concentration[..] == Zeros(|links|)
      ensures Valid() && Balanced()
    {
      AppendOwnedCopy(l, t);
      ResetConcentrations();
    }

    /**
      addLinkCopy(Vector): one owned copy per given link, appended in the
      given order after the links already owned, then the slots reset.
    */
    method AddLinkCopies(ls: seq<HighwayLink>, t: Transcendentals)
      requires Valid()
      modifies this`links, this`linkNames, this`totalConcentration, this`concentration
      ensures |linkNames| == |old(linkNames)| + |ls| && linkNames[..|old(linkNames)|] == old(linkNames)
      ensures forall k :: 0 <= k < |ls| ==> linkNames[|old(linkNames)| + k] == ls[k].name
      ensures |links| == |old(links)| + |ls| && links[..|old(links)|] == old(links)
      ensures forall j :: |old(links)| <= j < |links| ==> fresh(links[j])
      ensures forall k :: 0 <= k < |ls| ==> OwnedCopy(links[|old(links)| + k], ls[k], name, t)
      ensures totalConcentration == 0.0 && fresh(concentration) && concentration[..] == Zeros(|links|)
      ensures Valid() && Balanced()
    {
      hide OwnedCopy, NoRepeats, Balanced;
      ghost var n, m := |links|, |linkNames|;
      var i := 0;
      while i < |ls|
        invariant 0 <= i <= |ls|
        invariant |linkNames| == m + i && linkNames[..m] == old(linkNames)
        invariant forall k :: 0 <= k < i ==> linkNames[m + k] == ls[k].name
        invariant |links| == n + i && links[..n] == old(links)
        invariant forall j :: n <= j < |links| ==> fresh(links[j])
        invariant forall k :: 0 <= k < i ==> OwnedCopy(links[n + k], ls[k], name, t)
        invariant DistinctLinks()
      {
        ghost var before := links;
        AppendCopyOf(ls, i, n, m, t);
        assert links[..n] == before[..n];
        i := i + 1;
      }
      ResetConcentrations();
    }

    /** One pass of the addLinkCopy(Vector) loop: the copy of ls[i] follows the copies of ls[..i]. */
    method AppendCopyOf(ls: seq<HighwayLink>, i: nat, ghost n: nat, ghost m: nat, t: Transcendentals)
      requires i < |ls| && |links| == n + i && |linkNames| == m + i && DistinctLinks()
      requires forall k :: 0 <= k < i ==> linkNames[m + k] == ls[k].name
      requires forall k :: 0 <= k < i ==> OwnedCopy(links[n + k], ls[k], name, t)
      modifies this`links, this`linkNames
      ensures |links| == n + i + 1 && links[..n + i] == old(links) && fresh(links[n + i])
      ensures |linkNames| == m + i + 1 && linkNames[..m + i] == old(linkNames)
      ensures forall k :: 0 <= k < i + 1 ==> linkNames[m + k] == ls[k].name
      ensures forall k :: 0 <= k < i + 1 ==> OwnedCopy(links[n + k], ls[k], name, t)
      ensures DistinctLinks()
    {
      AppendOwnedCopy(ls[i], t);
    }

    /** The first |vs| owned links hold the totals vs and have dropped their points. */
    predicate LinksDone(vs: seq<real>)
      reads this`links
      reads (set k | 0 <= k < |links| :: links[k])`pointArray
      reads (set k | 0 <= k < |links| :: links[k])`totalConcentration
    {
      && |vs| <= |links|
      && forall k :: 0 <= k < |vs| ==> links[k].totalConcentration == vs[k] && links[k].pointArray == null
    }

    /**
      The state after the first |vs| owned links have been visited by
      calculate_concentration, relative to the slots c0 and total t0 it
      started from.
    */
    predicate Visited(vs: seq<real>, c0: seq<real>, t0: real)
      reads this`links, this`concentration, concentration, this`totalConcentration
      reads (set k | 0 <= k < |links| :: links[k])`pointArray
      reads (set k | 0 <= k < |links| :: links[k])`totalConcentration
    {
      && Valid() && LinksDone(vs)
      && Filled(concentration[..], c0, vs) && totalConcentration == t0 + Sum(vs)
    }

    /** Before calculate_concentration visits any link, nothing is visited. */
    lemma VisitedStart()
      requires Valid()
      ensures Visited([], concentration[..], totalConcentration)
    {
    }

    /**
      calculate_concentration: each owned link, in index order, computes
      its total at this receptor, which is added to its slot, and then
      drops its point array. The first failure stops the run.
    */
    method CalculateConcentration(disp: Option<Dispersion>, env: Engine) returns (outcome: Outcome)
      requires Valid() && AllGenerating(SourcesOf(links), location, disp, env)
      modifies this`totalConcentration, concentration
      modifies (set k | 0 <= k < |links| :: links[k])`pointArray
      modifies (set k | 0 <= k < |links| :: links[k])`totalConcentration
      ensures var r := Totals(old(LinkResults(SourcesOf(links), location, disp, env)));
              && (outcome.Completed? <==> r.Ok?)
              && (outcome.Halted? ==> outcome.fault == r.fault)
              && (outcome.Completed? ==> |r.value| == |links| && Visited(r.value, old(concentration[..]), old(totalConcentration)))
      ensures forall k :: 0 <= k < |links| ==> links[k].Src() == old(links[k].Src())
    {
      hide LinkConcentration, Generating, AllGenerating, Visited, Valid, LinksDone, Filled, DistinctLinks, NoRepeats;
      VisitedStart();
      ghost var srcs := SourcesOf(links);
      ghost var cs := LinkResults(srcs, location, disp, env);
      ghost var c0 := concentration[..];
      ghost var t0 := totalConcentration;
      ghost var vs: seq<real> := [];
      var index := 0;
      while index < |links|
        invariant 0 <= index <= |links| && |vs| == index
        invariant forall k :: 0 <= k < |links| ==> links[k].Src() == srcs[k]
        invariant Totals(cs[..index]) == Ok(vs)
        invariant Visited(vs, c0, t0)
      {
        var x;
        outcome, x := VisitLink(index, links[index], disp, env, srcs, cs, vs, c0, t0);
        if outcome.Halted? {
          return;
        }
        vs := vs + [x];
        index := index + 1;
      }
      assert cs[..index] == cs;
      outcome := Completed;
    }

    /**
      One pass of the calculate_concentration loop, for the link at `index`:
      its calculation, the addition of its total x to its slot, and the
      point array dropped. A failure here is the failure of the whole run.
    */
    method VisitLink(index: nat, current: HighwayLink, disp: Option<Dispersion>, env: Engine,
                     ghost srcs: seq<Source>, ghost cs: seq<Result<real>>,
                     ghost vs: seq<real>, ghost c0: seq<real>, ghost t0: real)
        returns (outcome: Outcome, x: real)
      requires Visited(vs, c0, t0) && index == |vs| && index < |links| && current == links[index]
      requires AllGenerating(srcs, location, disp, env) && cs == LinkResults(srcs, location, disp, env)
      requires |srcs| == |links| && current.Src() == srcs[index] && Totals(cs[..index]) == Ok(vs)
      modifies this`totalConcentration, concentration
      modifies current`pointArray, current`totalConcentration
      ensures outcome.Halted? ==> Totals(cs).Err? && outcome.fault == Totals(cs).fault
      ensures outcome.Completed? ==> Totals(cs[..index + 1]) == Ok(vs + [x]) && Visited(vs + [x], c0, t0)
      ensures forall k :: 0 <= k < |links| ==> links[k].Src() == old(links[k].Src())
    {
      assert cs[index] == LinkConcentration(srcs[index], location, disp, env);
      outcome, x := UpdateLink(index, current, disp, env, cs[index], vs, c0, t0);
      TotalsAdvance(cs, index, vs, outcome, x);
    }

    /** The link's calculation and, when it yields x, the recording of x. */
    method UpdateLink(index: nat, current: HighwayLink, disp: Option<Dispersion>, env: Engine,
                      ghost expected: Result<real>, ghost vs: seq<real>, ghost c0: seq<real>, ghost t0: real)
        returns (outcome: Outcome, x: real)
      requires Visited(vs, c0, t0) && index == |vs| && index < |links| && current == links[index]
      requires Generating(current.Src(), location, disp, env)
      requires expected == LinkConcentration(current.Src(), location, disp, env)
      modifies this`totalConcentration, concentration
      modifies current`pointArray, current`totalConcentration
      ensures outcome.Completed? <==> Usable(expected)
      ensures outcome.Halted? ==> outcome.fault == StopFault(expected)
      ensures outcome.Completed? ==> expected == Ok(x) && Visited(vs + [x], c0, t0)
      ensures forall k :: 0 <= k < |links| ==> links[k].Src() == old(links[k].Src())
    {
      hide LinkConcentration, Generating, LinkPoints, SourceFrame, Concentrations, NoRepeats;
      NoRepeatsAt(links, index);
      outcome, x := EvaluateLink(current, location, disp, env, expected, links);
      if outcome.Completed? {
        assert LinksDone(vs);
        outcome := RecordLink(index, current, x, vs, c0, t0);
      }
    }

    /**
      The rest of one pass of the calculate_concentration loop, once the
      link at `index` has computed its total x: x goes into the link's slot
      and the running total, and the link drops its point array.
    */
    method RecordLink(index: nat, current: HighwayLink, x: real, ghost vs: seq<real>, ghost c0: seq<real>, ghost t0: real)
        returns (outcome: Outcome)
      requires Visited(vs, c0, t0) && index == |vs| && index < |links| && current == links[index]
      requires current.totalConcentration == x
      modifies this`totalConcentration, concentration, current`pointArray
      ensures outcome.Completed? <==> x >= 0.0
      ensures outcome.Halted? ==> outcome.fault == NegativeConcentration(x)
      ensures outcome.Completed? ==> Visited(vs + [x], c0, t0)
      ensures forall k :: 0 <= k < |links| ==> links[k].Src() == old(links[k].Src())
    {
      NoRepeatsAt(links, index);
      ghost var slots := concentration[..];
      outcome := AddConcentration(index, x);
      if outcome.Halted? {
        return;
      }
      current.ClearPoints();
      FilledStep(slots, c0, vs, x);
      SumPrefix(vs + [x], index);
      assert (vs + [x])[..index] == vs;
    }
  }

  /**
    calculate_link_concentration for one owned link: the outcome, and on
    completion the link's total, as the expected result of the calculation
    says.
  */
  method EvaluateLink(current: HighwayLink, receptor: Vec3, disp: Option<Dispersion>, env: Engine,
                      ghost expected: Result<real>, ghost ls: seq<HighwayLink>) returns (outcome: Outcome, x: real)
    requires Generating(current.Src(), receptor, disp, env)
    requires expected == LinkConcentration(current.Src(), receptor, disp, env)
    modifies current`pointArray, current`totalConcentration
    ensures outcome.Completed? <==> expected.Ok?
    ensures outcome.Halted? ==> outcome.fault == expected.fault
    ensures outcome.Completed? ==> expected == Ok(x) && current.totalConcentration == x
    ensures forall k :: 0 <= k < |ls| ==> ls[k].Src() == old(ls[k].Src())
    ensures forall k :: 0 <= k < |ls| && ls[k] != current ==>
              ls[k].pointArray == old(ls[k].pointArray) && ls[k].totalConcentration == old(ls[k].totalConcentration)
  {
    ghost var src := current.Src();
    outcome := current.CalculateLinkConcentration(receptor, disp, env);
    assert current.Src() == src;
    x := current.totalConcentration;
  }

  /** Slots that hold c0 plus the totals vs at the first |vs| positions and c0 elsewhere. */
  predicate Filled(slots: seq<real>, c0: seq<real>, vs: seq<real>)
  {
    && |slots| == |c0| && |vs| <= |slots|
    && (forall k :: 0 <= k < |vs| ==> slots[k] == c0[k] + vs[k])
    && (forall k :: |vs| <= k < |slots| ==> slots[k] == c0[k])
  }

  lemma FilledStep(slots: seq<real>, c0: seq<real>, vs: seq<real>, x: real)
    requires Filled(slots, c0, vs) && |vs| < |slots|
    ensures Filled(slots[|vs| := slots[|vs|] + x], c0, vs + [x])
  {
  }

  /** Slots filled from zero with a total for every slot hold exactly the totals. */
  lemma FilledFromZero(slots: seq<real>, vs: seq<real>)
    requires Filled(slots, Zeros(|slots|), vs) && |vs| == |slots|
    ensures slots == vs
  {
    assert forall k :: 0 <= k < |vs| ==> slots[k] == 0.0 + vs[k];
  }

  /** A usable result extends the totals by one. */
  lemma TotalsStep(cs: seq<Result<real>>, i: int, vs: seq<real>, x: real)
    requires 0 <= i < |cs| && Totals(cs[..i]) == Ok(vs) && cs[i] == Ok(x) && x >= 0.0
    ensures Totals(cs[..i + 1]) == Ok(vs + [x])
  {
    assert cs[..i + 1][..i] == cs[..i];
  }

  /** One more result either extends the totals by its value or ends them with its fault. */
  lemma TotalsAdvance(cs: seq<Result<real>>, i: int, vs: seq<real>, outcome: Outcome, x: real)
    requires 0 <= i < |cs| && Totals(cs[..i]) == Ok(vs)
    requires outcome.Completed? <==> Usable(cs[i])
    requires outcome.Halted? ==> outcome.fault == StopFault(cs[i])
    requires outcome.Completed? ==> cs[i] == Ok(x)
    ensures outcome.Halted? ==> Totals(cs).Err? && outcome.fault == Totals(cs).fault
    ensures outcome.Completed? ==> Totals(cs[..i + 1]) == Ok(vs + [x])
  {
    if outcome.Halted? {
      TotalsStopped(cs, i, vs);
    } else {
      TotalsStep(cs, i, vs, x);
    }
  }

  /** An unusable result ends the totals with its fault. */
  lemma TotalsStopped(cs: seq<Result<real>>, i: int, vs: seq<real>)
    requires 0 <= i < |cs| && Totals(cs[..i]) == Ok(vs) && !Usable(cs[i])
    ensures Totals(cs).Err? && Totals(cs).fault == StopFault(cs[i])
  {
    assert cs[..i + 1][..i] == cs[..i];
    TotalsKeepFault(cs, i + 1);
  }

  /** Once a prefix of the results fails, the whole run fails the same way. */
  lemma {:induction false} TotalsKeepFault(cs: seq<Result<real>>, j: int)
    requires 0 <= j <= |cs| && Totals(cs[..j]).Err?
    ensures Totals(cs) == Totals(cs[..j])
    decreases |cs| - j
  {
    if j < |cs| {
      var n := |cs| - 1;
      assert cs[..n][..j] == cs[..j];
      TotalsKeepFault(cs[..n], j);
    } else {
      assert cs[..j] == cs;
    }
  }

  /** An owned copy: the original's data under the owned name, fresh geometry and no points or total. */
  predicate OwnedCopy(c: HighwayLink, original: HighwayLink, receptorName: string, t: Transcendentals)
    reads c, original
  {
    && c.Data() == original.Data().(name := OwnedName(receptorName, original.name))
    && c.Measured(t) && c.pointArray == null && c.totalConcentration == 0.0
  }
}
