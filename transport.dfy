/**
  The transport engine (main/core/transport.py): a weighted sum of the car, bus and train
  distances and of the three flight counts, with factors read from TRANSPORT_FACTORS.
*/
module Transport {
  import opened Wrappers
  import opened Factors

  /** The nine arguments of `transport_emissions`; flight counts are integers. */
  datatype TransportInput = TransportInput(
    kmCar: real, carFuelType: string,
    kmBus: real, busFuelType: string,
    kmTrain: real, trainType: string,
    shortFlights: int, mediumFlights: int, longFlights: int)

  /** Every quantity is zero; the fuel and train types are kept. */
  function Zeroed(x: TransportInput): (z: TransportInput)
    ensures z.carFuelType == x.carFuelType && z.busFuelType == x.busFuelType && z.trainType == x.trainType
  {
    x.(kmCar := 0.0, kmBus := 0.0, kmTrain := 0.0, shortFlights := 0, mediumFlights := 0, longFlights := 0)
  }

  ghost predicate NonNegativeInput(x: TransportInput) {
    x.kmCar >= 0.0 && x.kmBus >= 0.0 && x.kmTrain >= 0.0
    && x.shortFlights >= 0 && x.mediumFlights >= 0 && x.longFlights >= 0
  }

  /** `x` is at most `y` in every quantity, with the same fuel and train types. */
  ghost predicate AtMost(x: TransportInput, y: TransportInput) {
    && x.carFuelType == y.carFuelType && x.busFuelType == y.busFuelType && x.trainType == y.trainType
    && x.kmCar <= y.kmCar && x.kmBus <= y.kmBus && x.kmTrain <= y.kmTrain
    && x.shortFlights <= y.shortFlights && x.mediumFlights <= y.mediumFlights
    && x.longFlights <= y.longFlights
  }

  /** The keys the engine reads without a default: the four modes and the three flight bands. */
  predicate HasRequiredKeys(t: map<string, map<string, real>>) {
    && "car" in t && "bus" in t && "train" in t && "flight" in t
    && "short" in t["flight"] && "medium" in t["flight"] && "long" in t["flight"]
  }

  /** The error of a table that lacks a required key: the first one read, in source order. */
  function FirstMissingKey(t: map<string, map<string, real>>): LookupError
    requires !HasRequiredKeys(t)
  {
    if "car" !in t then MissingKey(["car"])
    else if "bus" !in t then MissingKey(["bus"])
    else if "train" !in t then MissingKey(["train"])
    else if "flight" !in t then MissingKey(["flight"])
    else if "short" !in t["flight"] then MissingKey(["flight", "short"])
    else if "medium" !in t["flight"] then MissingKey(["flight", "medium"])
    else MissingKey(["flight", "long"])
  }

  /** The flight term: a flat per-trip factor for each distance band. */
  function FlightTerm(t: map<string, map<string, real>>, x: TransportInput): real
    requires HasRequiredKeys(t)
  {
    t["flight"]["short"] * x.shortFlights as real
    + t["flight"]["medium"] * x.mediumFlights as real
    + t["flight"]["long"] * x.longFlights as real
  }

  /** The total of a call on tables that hold every required key. */
  function Total(t: map<string, map<string, real>>, x: TransportInput): real
    requires HasRequiredKeys(t)
  {
    x.kmCar * RateOrZero(t["car"], x.carFuelType)
    + x.kmBus * RateOrZero(t["bus"], x.busFuelType)
    + x.kmTrain * RateOrZero(t["train"], x.trainType)
    + FlightTerm(t, x)
  }

  /**
    `transport_emissions`. The car, bus and train factors fall back to 0 for an unknown type;
    the mode tables and the three flight bands are indexed directly, so a table lacking one of
    them raises, naming the first of car, bus, train, flight, short, medium, long it misses.
  */
  function TransportEmissions(t: map<string, map<string, real>>, x: TransportInput): (r: Result<real, LookupError>)
    ensures r.Success? <==> HasRequiredKeys(t)
    ensures "car" !in t ==> r == Failure(MissingKey(["car"]))
    ensures r.Success? ==> r.value == Total(t, x)
    ensures "car" in t && "bus" in t && "train" in t && "flight" in t && "short" !in t["flight"] ==>
      r == Failure(MissingKey(["flight", "short"]))
  {
    if HasRequiredKeys(t) then Success(Total(t, x)) else Failure(FirstMissingKey(t))
  }

  /** Inputs that keep only one mode of `x` (the other quantities zero). */
  function CarOnly(x: TransportInput): TransportInput { Zeroed(x).(kmCar := x.kmCar) }
  function BusOnly(x: TransportInput): TransportInput { Zeroed(x).(kmBus := x.kmBus) }
  function TrainOnly(x: TransportInput): TransportInput { Zeroed(x).(kmTrain := x.kmTrain) }
  function FlightsOnly(x: TransportInput): TransportInput {
    Zeroed(x).(shortFlights := x.shortFlights, mediumFlights := x.mediumFlights, longFlights := x.longFlights)
  }

  /** All-zero quantities give a total of exactly 0, whatever the types. */
  lemma ZeroInputGivesZero(t: map<string, map<string, real>>, x: TransportInput)
    requires HasRequiredKeys(t)
    ensures Total(t, Zeroed(x)) == 0.0
  {
  }

  /** Each single mode costs its quantity times its factor, with no consumption multiplier on the car. */
  lemma SingleModeTotals(t: map<string, map<string, real>>, x: TransportInput)
    requires HasRequiredKeys(t)
    ensures Total(t, CarOnly(x)) == x.kmCar * RateOrZero(t["car"], x.carFuelType)
    ensures Total(t, BusOnly(x)) == x.kmBus * RateOrZero(t["bus"], x.busFuelType)
    ensures Total(t, TrainOnly(x)) == x.kmTrain * RateOrZero(t["train"], x.trainType)
    ensures Total(t, FlightsOnly(x)) ==
      t["flight"]["short"] * x.shortFlights as real
      + t["flight"]["medium"] * x.mediumFlights as real
      + t["flight"]["long"] * x.longFlights as real
  {
  }

  /** No cross terms: the total is the sum of the four single-mode totals. */
  lemma TotalIsSumOfModes(t: map<string, map<string, real>>, x: TransportInput)
    requires HasRequiredKeys(t)
    ensures Total(t, x) == Total(t, CarOnly(x)) + Total(t, BusOnly(x)) + Total(t, TrainOnly(x)) + Total(t, FlightsOnly(x))
  {
  }

  /** An unknown car fuel, bus fuel or train type makes that distance irrelevant to the total. */
  lemma UnknownTypeContributesNothing(t: map<string, map<string, real>>, x: TransportInput, km: real)
    requires HasRequiredKeys(t)
    ensures x.carFuelType !in t["car"] ==> Total(t, x.(kmCar := km)) == Total(t, x)
    ensures x.busFuelType !in t["bus"] ==> Total(t, x.(kmBus := km)) == Total(t, x)
    ensures x.trainType !in t["train"] ==> Total(t, x.(kmTrain := km)) == Total(t, x)
  {
  }

  /** The car term grows with the car distance, for the same fuel and a non-negative table. */
  lemma CarTermMono(t: map<string, map<string, real>>, x: TransportInput, y: TransportInput)
    requires HasRequiredKeys(t) && NonNegativeRates(t["car"]) && AtMost(x, y)
    ensures x.kmCar * RateOrZero(t["car"], x.carFuelType) <= y.kmCar * RateOrZero(t["car"], y.carFuelType)
  {
    var f := RateOrZero(t["car"], x.carFuelType);
    assert y.kmCar * f - x.kmCar * f == (y.kmCar - x.kmCar) * f;
  }

  /** The bus term grows with the bus distance, for the same fuel and a non-negative table. */
  lemma BusTermMono(t: map<string, map<string, real>>, x: TransportInput, y: TransportInput)
    requires HasRequiredKeys(t) && NonNegativeRates(t["bus"]) && AtMost(x, y)
    ensures x.kmBus * RateOrZero(t["bus"], x.busFuelType) <= y.kmBus * RateOrZero(t["bus"], y.busFuelType)
  {
    var f := RateOrZero(t["bus"], x.busFuelType);
    assert y.kmBus * f - x.kmBus * f == (y.kmBus - x.kmBus) * f;
  }

  /** The train term grows with the train distance, for the same type and a non-negative table. */
  lemma TrainTermMono(t: map<string, map<string, real>>, x: TransportInput, y: TransportInput)
    requires HasRequiredKeys(t) && NonNegativeRates(t["train"]) && AtMost(x, y)
    ensures x.kmTrain * RateOrZero(t["train"], x.trainType) <= y.kmTrain * RateOrZero(t["train"], y.trainType)
  {
    var f := RateOrZero(t["train"], x.trainType);
    assert y.kmTrain * f - x.kmTrain * f == (y.kmTrain - x.kmTrain) * f;
  }

  /** A flight count times a non-negative factor grows with the count. */
  lemma PerFlightTermMono(factor: real, xCount: int, yCount: int)
    requires factor >= 0.0 && xCount <= yCount
    ensures factor * xCount as real <= factor * yCount as real
  {
    assert factor * yCount as real - factor * xCount as real == factor * (yCount - xCount) as real;
  }

  /** The flight term grows with each flight count, for non-negative flight factors. */
  lemma FlightTermMono(t: map<string, map<string, real>>, x: TransportInput, y: TransportInput)
    requires HasRequiredKeys(t) && NonNegativeRates(t["flight"]) && AtMost(x, y)
    ensures FlightTerm(t, x) <= FlightTerm(t, y)
  {
    PerFlightTermMono(t["flight"]["short"], x.shortFlights, y.shortFlights);
    PerFlightTermMono(t["flight"]["medium"], x.mediumFlights, y.mediumFlights);
    PerFlightTermMono(t["flight"]["long"], x.longFlights, y.longFlights);
  }

  /** With non-negative factors, no quantity can lower the total when it grows. */
  lemma TotalMonotone(t: map<string, map<string, real>>, x: TransportInput, y: TransportInput)
    requires HasRequiredKeys(t)
    requires forall m :: m in t ==> NonNegativeRates(t[m])
    requires AtMost(x, y)
    ensures Total(t, x) <= Total(t, y)
  {
    CarTermMono(t, x, y);
    BusTermMono(t, x, y);
    TrainTermMono(t, x, y);
    FlightTermMono(t, x, y);
  }

  /** With non-negative factors and quantities the total is non-negative. */
  lemma TotalNonNegative(t: map<string, map<string, real>>, x: TransportInput)
    requires HasRequiredKeys(t)
    requires forall m :: m in t ==> NonNegativeRates(t[m])
    requires NonNegativeInput(x)
    ensures Total(t, x) >= 0.0
  {
    ZeroInputGivesZero(t, x);
    TotalMonotone(t, Zeroed(x), x);
  }

  /**
    The car term uses the per-km factor alone: a petrol-free electric car with a positive factor
    still emits, although its entry in CarFuelConsumption is 0.
  */
  lemma CarTermIgnoresConsumption(t: map<string, map<string, real>>, x: TransportInput)
    requires HasRequiredKeys(t)
    requires x.carFuelType == "electric" && "electric" in t["car"] && t["car"]["electric"] > 0.0
    requires x.kmCar > 0.0
    ensures Total(t, CarOnly(x)) > x.kmCar * t["car"]["electric"] * CarFuelConsumption["electric"]
  {
    SingleModeTotals(t, x);
    assert x.kmCar * t["car"]["electric"] > 0.0;
  }
}
