/**
  The `/calculate` endpoint (main/api/api.py): the three engines run on the fields of one
  request and their results are returned with their sum.
*/
module Api {
  import opened Wrappers
  import opened Factors
  import Transport
  import Food
  import Energy

  datatype EmissionRequest = EmissionRequest(
    kmCar: real, carFuelType: string,
    kmBus: real, busFuelType: string,
    kmTrain: real, trainType: string,
    shortFlights: int, mediumFlights: int, longFlights: int,
    dietType: string,
    kwhElectricity: real, kwhOil: real, kwhGas: real, kwhWood: real)

  datatype EmissionResponse = EmissionResponse(transport: real, food: real, energy: real, total: real)

  /** The transport arguments: every request field passed on by name. */
  function TransportArgs(req: EmissionRequest): Transport.TransportInput {
    Transport.TransportInput(
      req.kmCar, req.carFuelType, req.kmBus, req.busFuelType, req.kmTrain, req.trainType,
      req.shortFlights, req.mediumFlights, req.longFlights)
  }

  /** The energy keyword arguments, in call order: electricity, oil, gas, wood. */
  function EnergyArgs(req: EmissionRequest): seq<Energy.Source> {
    [Energy.Source("electricity", req.kwhElectricity), Energy.Source("oil", req.kwhOil),
     Energy.Source("gas", req.kwhGas), Energy.Source("wood", req.kwhWood)]
  }

  /**
    `calculate_emissions`: transport, then food, then energy; a key error from the transport or
    food engine ends the request with that error.
  */
  function CalculateEmissions(t: FactorTables, req: EmissionRequest): (r: Result<EmissionResponse, LookupError>)
    ensures r.Success? <==> Transport.HasRequiredKeys(t.transport) && "average" in t.diet
    ensures r.Success? ==> r.value.total == r.value.transport + r.value.food + r.value.energy
    ensures r.Success? ==>
      && Transport.TransportEmissions(t.transport, TransportArgs(req)) == Success(r.value.transport)
      && Food.FoodEmissions(t.diet, req.dietType) == Success(r.value.food)
      && r.value.energy == Energy.EnergySum(t.energy, EnergyArgs(req))
    ensures !Transport.HasRequiredKeys(t.transport) ==>
      r == Failure(Transport.TransportEmissions(t.transport, TransportArgs(req)).error)
  {
    match Transport.TransportEmissions(t.transport, TransportArgs(req))
    case Failure(e) => Failure(e)
    case Success(transport) =>
      match Food.FoodEmissions(t.diet, req.dietType)
      case Failure(e) => Failure(e)
      case Success(food) =>
        var energy := Energy.EnergySum(t.energy, EnergyArgs(req));
        Success(EmissionResponse(transport, food, energy, transport + food + energy))
  }

  /** The energy figure is the four kWh values weighted by their table entries (0 for a missing one). */
  lemma EnergyByName(t: FactorTables, req: EmissionRequest)
    ensures Energy.EnergySum(t.energy, EnergyArgs(req)) ==
      req.kwhElectricity * RateOrZero(t.energy, "electricity") + req.kwhOil * RateOrZero(t.energy, "oil")
      + req.kwhGas * RateOrZero(t.energy, "gas") + req.kwhWood * RateOrZero(t.energy, "wood")
  {
    var s := EnergyArgs(req);
    var f := t.energy;
    assert s[..1][..0] == [] && s[..2][..1] == s[..1] && s[..3][..2] == s[..2] && s[..4][..3] == s[..3] && s[..4] == s;
    assert Energy.EnergySum(f, s[..1]) == Energy.Term(f, s[0]);
    assert Energy.EnergySum(f, s[..2]) == Energy.Term(f, s[0]) + Energy.Term(f, s[1]);
    assert Energy.EnergySum(f, s[..3]) == Energy.Term(f, s[0]) + Energy.Term(f, s[1]) + Energy.Term(f, s[2]);
  }

  /** With non-negative tables and quantities every figure of the response is non-negative. */
  lemma ResponseNonNegative(t: FactorTables, req: EmissionRequest)
    requires NonNegativeTables(t)
    requires Transport.NonNegativeInput(TransportArgs(req))
    requires req.kwhElectricity >= 0.0 && req.kwhOil >= 0.0 && req.kwhGas >= 0.0 && req.kwhWood >= 0.0
    requires CalculateEmissions(t, req).Success?
    ensures var resp := CalculateEmissions(t, req).value;
      resp.transport >= 0.0 && resp.food >= 0.0 && resp.energy >= 0.0 && resp.total >= 0.0
  {
    Transport.TotalNonNegative(t.transport, TransportArgs(req));
    Food.FoodNonNegative(t.diet, req.dietType);
    Energy.SumNonNegative(t.energy, EnergyArgs(req));
  }
}
