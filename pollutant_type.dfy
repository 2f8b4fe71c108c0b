/*
  The pollutant of interest (pollutant_type.java): a name, a description
  and the molecular weight the unit conversions need. Three pollutants are
  known by selector; any other selector is the error handler's fatal stop.
*/
module PollutantTypes {
  import opened Outcomes

  /** What a pollutant type stores. */
  datatype PollutantRecord = PollutantRecord(name: string, description: string, molecularWeight: real)

  const CO: int := 0
  const SF6: int := 1
  const F13B1: int := 2

  /** The description the (name, molecular weight) constructor stores. */
  const NoDescription: string := "No description"

  const TracerDescription: string := "Inert gas used as a tracer gas in dispersion experiments"

  /** The record the selector constructor fills in, or the failure for an unknown selector. */
  function Known(selector: int): (r: Result<PollutantRecord>)
    ensures r.Err? <==> selector !in {CO, SF6, F13B1}
    ensures r.Err? ==> r.fault == UnknownPollutant(selector)
  {
    if selector == CO then
      Ok(PollutantRecord("Carbon Monoxide (CO)",
                         "Colorless, oderless gas that results from incomplete combustion such as automobile exhaust",
                         28.01))
    else if selector == SF6 then
      Ok(PollutantRecord("Sulfur Hexafloride (SF6)", TracerDescription, 146.0504))
    else if selector == F13B1 then
      Ok(PollutantRecord("Trifluorobromomethane (F13B1 or CBrF3)", TracerDescription, 148.91))
    else
      Err(UnknownPollutant(selector))
  }

  /** The molecular weights of the three known pollutants. */
  lemma KnownWeights()
    ensures Known(CO).value.molecularWeight == 28.01
    ensures Known(SF6).value.molecularWeight == 146.0504
    ensures Known(F13B1).value.molecularWeight == 148.91
  {
  }

  /** The three known pollutants are told apart by name and by molecular weight. */
  lemma KnownDistinct(a: int, b: int)
    requires Known(a).Ok? && Known(b).Ok? && a != b
    ensures Known(a).value.name != Known(b).value.name
    ensures Known(a).value.molecularWeight != Known(b).value.molecularWeight
  {
    assert Known(CO).value.name[0] == 'C';
    assert Known(SF6).value.name[0] == 'S';
    assert Known(F13B1).value.name[0] == 'T';
  }

  class PollutantType {
    var name: string
    var description: string
    var molecularWeight: real

    function Record(): PollutantRecord
      reads this
    {
      PollutantRecord(name, description, molecularWeight)
    }

    /** The (name, description, molecular weight) constructor. */
    constructor Described(name0: string, description0: string, molecularWeight0: real)
      ensures Record() == PollutantRecord(name0, description0, molecularWeight0)
    {
      name, description, molecularWeight := name0, description0, molecularWeight0;
    }

    /** The (name, molecular weight) constructor: the description is "No description". */
    constructor Named(name0: string, molecularWeight0: real)
      ensures Record() == PollutantRecord(name0, NoDescription, molecularWeight0)
    {
      name, description, molecularWeight := name0, NoDescription, molecularWeight0;
    }

    /**
      The selector constructor: one of the known pollutants, or the fatal
      stop for any other selector.
    */
    static method Select(selector: int) returns (r: Result<PollutantType>)
      ensures r.Ok? <==> Known(selector).Ok?
      ensures r.Err? ==> r.fault == UnknownPollutant(selector)
      ensures r.Ok? ==> fresh(r.value) && r.value.Record() == Known(selector).value
    {
      var known := Known(selector);
      if known.Err? {
        return Err(known.fault);
      }
      var p := new PollutantType.Described(known.value.name, known.value.description, known.value.molecularWeight);
      r := Ok(p);
    }

    method SetName(v: string)
      modifies this`name
      ensures GetName() == v && Record() == old(Record()).(name := v)
    {
      name := v;
    }

    method SetDescription(v: string)
      modifies this`description
      ensures GetDescription() == v && Record() == old(Record()).(description := v)
    {
      description := v;
    }

    method SetMolecularWeight(v: real)
      modifies this`molecularWeight
      ensures GetMolecularWeight() == v && Record() == old(Record()).(molecularWeight := v)
    {
      molecularWeight := v;
    }

    function GetName(): string
      reads this`name
    {
      name
    }

    function GetDescription(): string
      reads this`description
    {
      description
    }

    function GetMolecularWeight(): real
      reads this`molecularWeight
    {
      molecularWeight
    }
  }
}
