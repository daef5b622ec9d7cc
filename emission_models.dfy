/**
  The request records and their field validation (main/models/emission_models.py): field
  bounds, the car-fuel and diet validators that normalise to lower case, and the annual
  projection of a report.
*/
module EmissionModels {
  import opened Wrappers
  import opened Text
  import Transport
  import Timeframe

  const AllowedCarFuels: seq<string> := ["petrol", "diesel", "electric"]
  const AllowedDiets: seq<string> := ["high_meat", "average", "vegetarian", "vegan"]

  /** A failed field of a record, by field name; every failing field is reported. */
  datatype FieldError = FieldError(field: string)

  /** `validate_car_fuel`: accepts a fuel whose lower case is allowed and stores the lower case. */
  function ValidateCarFuel(v: string): (r: Result<string, FieldError>)
    ensures r.Success? <==> Lower(v) in AllowedCarFuels
    ensures r.Success? ==> r.value == Lower(v)
  {
    if Lower(v) !in AllowedCarFuels then Failure(FieldError("car_fuel_type")) else Success(Lower(v))
  }

  /** `validate_diet`: accepts a diet whose lower case is allowed and stores the lower case. */
  function ValidateDiet(v: string): (r: Result<string, FieldError>)
    ensures r.Success? <==> Lower(v) in AllowedDiets
    ensures r.Success? ==> r.value == Lower(v)
  {
    if Lower(v) !in AllowedDiets then Failure(FieldError("diet_type")) else Success(Lower(v))
  }

  /** A normalised value validates again to itself. */
  lemma {:induction false} NormalisationIsStable(v: string)
    ensures ValidateCarFuel(v).Success? ==> ValidateCarFuel(ValidateCarFuel(v).value) == ValidateCarFuel(v)
    ensures ValidateDiet(v).Success? ==> ValidateDiet(ValidateDiet(v).value) == ValidateDiet(v)
  {
    LowerIsIdempotent(v);
  }

  /** A field error when `value >= 0` does not hold (pydantic's `ge=0`). */
  function NonNegativeField(value: real, field: string): seq<FieldError> {
    if value >= 0.0 then [] else [FieldError(field)]
  }

  function FuelField(v: string): seq<FieldError> {
    match ValidateCarFuel(v)
    case Success(_) => []
    case Failure(e) => [e]
  }

  /** The errors of a TransportData, in field order; bus fuel and train type are not checked. */
  function TransportErrors(raw: Transport.TransportInput): seq<FieldError> {
    NonNegativeField(raw.kmCar, "km_car")
    + FuelField(raw.carFuelType)
    + NonNegativeField(raw.kmBus, "km_bus")
    + NonNegativeField(raw.kmTrain, "km_train")
    + NonNegativeField(raw.shortFlights as real, "short_flights")
    + NonNegativeField(raw.mediumFlights as real, "medium_flights")
    + NonNegativeField(raw.longFlights as real, "long_flights")
  }

  /** Building a TransportData: all fields checked, the car fuel stored in lower case. */
  function ValidateTransportData(raw: Transport.TransportInput): (r: Result<Transport.TransportInput, seq<FieldError>>)
    ensures r.Success? <==>
      && raw.kmCar >= 0.0 && raw.kmBus >= 0.0 && raw.kmTrain >= 0.0
      && raw.shortFlights >= 0 && raw.mediumFlights >= 0 && raw.longFlights >= 0
      && Lower(raw.carFuelType) in AllowedCarFuels
    ensures r.Success? ==> r.value == raw.(carFuelType := Lower(raw.carFuelType))
    ensures r.Success? ==> Transport.NonNegativeInput(r.value)
    ensures r.Failure? ==> |r.error| > 0
  {
    var errors := TransportErrors(raw);
    if errors == [] then Success(raw.(carFuelType := Lower(raw.carFuelType))) else Failure(errors)
  }

  /** The bus fuel and the train type are accepted as they are, whatever they hold. */
  lemma BusAndTrainTypesUnchecked(raw: Transport.TransportInput, bus: string, train: string)
    ensures ValidateTransportData(raw.(busFuelType := bus, trainType := train)).Success?
        == ValidateTransportData(raw).Success?
    ensures ValidateTransportData(raw.(busFuelType := bus)).Success? ==>
        ValidateTransportData(raw.(busFuelType := bus)).value.busFuelType == bus
  {
  }

  /** The four energy quantities of an EnergyData. */
  datatype EnergyData = EnergyData(kwhElectricity: real, kwhOil: real, kwhGas: real, kwhWood: real)

  function FieldOrZero(v: Option<real>): real {
    match v
    case None => 0.0
    case Some(x) => x
  }

  function OptionalNonNegative(v: Option<real>, field: string): seq<FieldError> {
    NonNegativeField(FieldOrZero(v), field)
  }

  /** Building an EnergyData: an absent field defaults to 0, and every field must be >= 0. */
  function ValidateEnergyData(electricity: Option<real>, oil: Option<real>, gas: Option<real>, wood: Option<real>)
    : (r: Result<EnergyData, seq<FieldError>>)
    ensures r.Success? <==>
      FieldOrZero(electricity) >= 0.0 && FieldOrZero(oil) >= 0.0 && FieldOrZero(gas) >= 0.0 && FieldOrZero(wood) >= 0.0
    ensures r.Success? ==>
      r.value == EnergyData(FieldOrZero(electricity), FieldOrZero(oil), FieldOrZero(gas), FieldOrZero(wood))
  {
    var errors := OptionalNonNegative(electricity, "kwh_electricity") + OptionalNonNegative(oil, "kwh_oil")
      + OptionalNonNegative(gas, "kwh_gas") + OptionalNonNegative(wood, "kwh_wood");
    if errors == [] then
      Success(EnergyData(FieldOrZero(electricity), FieldOrZero(oil), FieldOrZero(gas), FieldOrZero(wood)))
    else Failure(errors)
  }

  /** An EnergyData built from no fields at all is all zeros. */
  lemma EnergyDataDefaults()
    ensures ValidateEnergyData(None, None, None, None) == Success(EnergyData(0.0, 0.0, 0.0, 0.0))
  {
  }

  /** The figures of an EmissionReport (the calculation date is left out). */
  datatype EmissionReport = EmissionReport(
    transportEmissions: real, energyEmissions: real, foodEmissions: real, totalEmissions: real)

  /** `annual_projection`: twelve months of the monthly total. */
  function AnnualProjection(report: EmissionReport): (r: real)
    ensures Timeframe.AnnualToMonthly(r) == report.totalEmissions
    ensures report.totalEmissions >= 0.0 ==> r >= report.totalEmissions
  {
    report.totalEmissions * 12.0
  }
}
