/**
  Input validators (main/utils/validators.py). Each validator returns True or raises a
  ValueError; here the raise is the `Failure` of a Result.
*/
module Validators {
  import opened Wrappers

  /** The ValueError a validator raises: a negative value, or one above the plausible maximum. */
  datatype ValueError =
    | NotPositive(field: string, value: real)
    | UnusuallyHigh(field: string, value: real)

  type Validation = Result<bool, ValueError>

  /** The default plausibility ceilings. */
  const DefaultMaxKm: real := 10000.0
  const DefaultMaxKwh: real := 5000.0
  const DefaultMaxFlights: real := 10.0
  const DefaultMaxServings: real := 30.0

  /** `validate_positive_number`: zero is accepted, only a negative value raises. */
  function ValidatePositiveNumber(value: real, fieldName: string): (r: Validation)
    ensures r.Success? <==> value >= 0.0
    ensures r.Success? ==> r.value
    ensures r.Failure? ==> r.error == NotPositive(fieldName, value)
  {
    if value < 0.0 then Failure(NotPositive(fieldName, value)) else Success(true)
  }

  /** The shared shape of the four range validators: the sign check, then the ceiling. */
  function ValidateRange(value: real, maxReasonable: real, fieldName: string): (r: Validation)
    ensures r.Success? <==> 0.0 <= value <= maxReasonable
    ensures r.Success? ==> r.value
    ensures value < 0.0 ==> r == Failure(NotPositive(fieldName, value))
    ensures 0.0 <= value && maxReasonable < value ==> r == Failure(UnusuallyHigh(fieldName, value))
  {
    match ValidatePositiveNumber(value, fieldName)
    case Failure(e) => Failure(e)
    case Success(_) =>
      if value > maxReasonable then Failure(UnusuallyHigh(fieldName, value)) else Success(true)
  }

  /** `validate_km_input`: raises iff km < 0 or km > maxReasonable; km == maxReasonable passes. */
  function ValidateKmInput(km: real, maxReasonable: real := DefaultMaxKm): (r: Validation)
    ensures r.Success? <==> 0.0 <= km <= maxReasonable
    ensures km < 0.0 ==> r.error == NotPositive("Distance", km)
  {
    ValidateRange(km, maxReasonable, "Distance")
  }

  function ValidateEnergyInput(kwh: real, maxReasonable: real := DefaultMaxKwh): (r: Validation)
    ensures r.Success? <==> 0.0 <= kwh <= maxReasonable
    ensures kwh < 0.0 ==> r.error == NotPositive("Energy consumption", kwh)
  {
    ValidateRange(kwh, maxReasonable, "Energy consumption")
  }

  function ValidateFlightsInput(flights: real, maxReasonable: real := DefaultMaxFlights): (r: Validation)
    ensures r.Success? <==> 0.0 <= flights <= maxReasonable
    ensures flights < 0.0 ==> r.error == NotPositive("Number of flights", flights)
  {
    ValidateRange(flights, maxReasonable, "Number of flights")
  }

  function ValidateFoodServing(servings: real, maxReasonable: real := DefaultMaxServings): (r: Validation)
    ensures r.Success? <==> 0.0 <= servings <= maxReasonable
    ensures servings < 0.0 ==> r.error == NotPositive("Food servings", servings)
  {
    ValidateRange(servings, maxReasonable, "Food servings")
  }

  /** With its default ceiling each validator accepts exactly the closed range from 0 to it. */
  lemma DefaultCeilings(x: real)
    ensures ValidateKmInput(x).Success? <==> 0.0 <= x <= 10000.0
    ensures ValidateEnergyInput(x).Success? <==> 0.0 <= x <= 5000.0
    ensures ValidateFlightsInput(x).Success? <==> 0.0 <= x <= 10.0
    ensures ValidateFoodServing(x).Success? <==> 0.0 <= x <= 30.0
  {
  }

  /** What `validate_and_show_warning` returns, and the warning it shows, if any. */
  datatype Checked = Checked(valid: bool, shownWarning: Option<ValueError>)

  /**
    `validate_and_show_warning`: runs the validator and turns its ValueError into False; the
    warning goes to the container only when one is supplied.
  */
  function ValidateAndShowWarning(value: real, validator: real -> Validation, hasContainer: bool): (r: Checked)
    ensures r.valid <==> validator(value).Success?
    ensures r.shownWarning.Some? <==> hasContainer && !r.valid
    ensures r.shownWarning.Some? ==> r.shownWarning.value == validator(value).error
  {
    match validator(value)
    case Success(_) => Checked(true, None)
    case Failure(e) => Checked(false, if hasContainer then Some(e) else None)
  }
}
