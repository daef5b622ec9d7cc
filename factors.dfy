/**
  The emission-factor tables (main/data/emission_factors.py).

  The repository reads them from a YAML file that is not part of this model; the parsed
  document is a parameter here, a map from top-level section name to section. The three
  tables the engines use are the `transport`, `diet` and `energy` sections of it.
*/
module Factors {
  import opened Wrappers

  /** A top-level section of the factor document: a flat table of factors, or a table of tables. */
  datatype Section =
    | Rates(rates: map<string, real>)
    | Modes(modes: map<string, map<string, real>>)

  /** The tables as the engines see them: TRANSPORT_FACTORS, FOOD_FACTORS and ENERGY_FACTORS. */
  datatype FactorTables = FactorTables(
    transport: map<string, map<string, real>>,
    diet: map<string, real>,
    energy: map<string, real>)

  /** A key read with `[...]` (no default) that the table lacks; `path` leads to it from the table's root. */
  datatype LookupError = MissingKey(path: seq<string>)

  /** `rates.get(key, 0)`: the factor, or 0 for a key the table does not know. */
  function RateOrZero(rates: map<string, real>, key: string): (r: real)
    ensures key !in rates ==> r == 0.0
    ensures NonNegativeRates(rates) ==> r >= 0.0
  {
    if key in rates then rates[key] else 0.0
  }

  /** Why loading stopped: a required section is absent, or present with the wrong shape. */
  datatype LoadError = MissingSection(name: string) | MalformedSection(name: string)

  /** The consumption table CAR_FUEL_CONSUMPTION (litres per km, kWh per km for electric). */
  const CarFuelConsumption: map<string, real> :=
    map["petrol" := 0.2, "diesel" := 0.15, "electric" := 0.0]

  /** Every factor of a flat table is non-negative: the assumption the monotonicity results rest on. */
  ghost predicate NonNegativeRates(rates: map<string, real>) {
    forall k :: k in rates ==> rates[k] >= 0.0
  }

  ghost predicate NonNegativeTables(t: FactorTables) {
    && (forall mode :: mode in t.transport ==> NonNegativeRates(t.transport[mode]))
    && NonNegativeRates(t.diet)
    && NonNegativeRates(t.energy)
  }

  function SectionOf(doc: map<string, Section>, name: string): Result<Section, LoadError> {
    if name in doc then Success(doc[name]) else Failure(MissingSection(name))
  }

  /**
    Loading the tables: the sections are read in the order transport, diet, energy, and the
    first one missing stops the load with an error naming it.
  */
  function LoadFactors(doc: map<string, Section>): (r: Result<FactorTables, LoadError>)
    ensures r.Success? <==>
      ("transport" in doc && doc["transport"].Modes?
       && "diet" in doc && doc["diet"].Rates?
       && "energy" in doc && doc["energy"].Rates?)
    ensures r.Success? ==>
      && r.value.transport == doc["transport"].modes
      && r.value.diet == doc["diet"].rates
      && r.value.energy == doc["energy"].rates
    ensures r.Failure? && "transport" !in doc ==> r.error == MissingSection("transport")
    ensures r.Failure? && "transport" in doc && "diet" !in doc ==> r.error == MissingSection("diet")
  {
    match SectionOf(doc, "transport")
    case Failure(e) => Failure(e)
    case Success(transport) =>
      match SectionOf(doc, "diet")
      case Failure(e) => Failure(e)
      case Success(diet) =>
        match SectionOf(doc, "energy")
        case Failure(e) => Failure(e)
        case Success(energy) =>
          if !transport.Modes? then Failure(MalformedSection("transport"))
          else if !diet.Rates? then Failure(MalformedSection("diet"))
          else if !energy.Rates? then Failure(MalformedSection("energy"))
          else Success(FactorTables(transport.modes, diet.rates, energy.rates))
  }

  /** A document lacking any of the three sections never yields tables: there is no all-zero default. */
  lemma MissingSectionIsFatal(doc: map<string, Section>, name: string)
    requires name in {"transport", "diet", "energy"}
    requires name !in doc
    ensures LoadFactors(doc).Failure?
  {
  }

  /** The consumption table has exactly three fuels, all non-negative, electric at zero. */
  lemma CarFuelConsumptionShape()
    ensures CarFuelConsumption.Keys == {"petrol", "diesel", "electric"}
    ensures NonNegativeRates(CarFuelConsumption)
    ensures CarFuelConsumption["electric"] == 0.0
  {
  }
}
