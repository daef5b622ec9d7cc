/**
  Timeframe standards (main/utils/timeframe_standards.py): every figure is monthly; these
  are the conversions to and from days, weeks and years, the consistency check of a set of
  figures, and the unit and help texts shown beside them.
*/
module Timeframe {
  import opened Wrappers

  const DaysPerMonth: real := 30.44
  const WeeksPerMonth: real := 4.33
  const MonthsPerYear: int := 12

  /** Above this a monthly figure is flagged as unusually high (but still consistent). */
  const HighMonthlyValue: real := 10000.0

  function DailyToMonthly(daily: real): (r: real)
    ensures daily >= 0.0 ==> r >= daily
  {
    daily * DaysPerMonth
  }

  function WeeklyToMonthly(weekly: real): (r: real)
    ensures weekly >= 0.0 ==> r >= weekly
  {
    weekly * WeeksPerMonth
  }

  function MonthlyToAnnual(monthly: real): real {
    monthly * MonthsPerYear as real
  }

  function AnnualToMonthly(annual: real): real {
    annual / MonthsPerYear as real
  }

  /** Over the reals the annual and monthly conversions undo each other, in both orders. */
  lemma AnnualMonthlyRoundTrip(x: real)
    ensures AnnualToMonthly(MonthlyToAnnual(x)) == x
    ensures MonthlyToAnnual(AnnualToMonthly(x)) == x
  {
  }

  /** A value of the figures dictionary: a number, a boolean (a Python `int`), or anything else. */
  datatype DataValue = Number(x: real) | Boolean(b: bool) | Other(text: string)

  /** The numeric reading of a value, for values `isinstance(value, (int, float))` accepts. */
  function NumericValue(v: DataValue): (r: Option<real>)
    ensures v.Other? <==> r.None?
    ensures v.Number? ==> r == Some(v.x)
  {
    match v
    case Number(x) => Some(x)
    case Boolean(b) => Some(if b then 1.0 else 0.0)
    case Other(_) => None
  }

  datatype Warning = NegativeValue(key: string, value: real) | UnusuallyHigh(key: string, value: real)

  datatype ConsistencyReport = ConsistencyReport(
    isConsistent: bool,
    standardized: map<string, DataValue>,
    warnings: seq<Warning>)

  predicate IsNegative(v: DataValue) {
    NumericValue(v).Some? && NumericValue(v).value < 0.0
  }

  /** The warning one entry draws: negative first, otherwise unusually high, else none. */
  function WarningFor(key: string, v: DataValue): (r: Option<Warning>)
    ensures r.Some? <==> NumericValue(v).Some? && (NumericValue(v).value < 0.0 || NumericValue(v).value > HighMonthlyValue)
    ensures r.Some? ==> r.value.key == key
    ensures r.Some? && r.value.NegativeValue? <==> IsNegative(v)
  {
    match NumericValue(v)
    case None => None
    case Some(x) =>
      if x < 0.0 then Some(NegativeValue(key, x))
      else if x > HighMonthlyValue then Some(UnusuallyHigh(key, x))
      else None
  }

  /** The warning of one entry as a list of zero or one element. */
  function Drawn(key: string, v: DataValue): seq<Warning> {
    match WarningFor(key, v)
    case None => []
    case Some(w) => [w]
  }

  function WarningsOf(data: seq<(string, DataValue)>): seq<Warning>
    decreases |data|
  {
    if data == [] then []
    else
      WarningsOf(data[..|data| - 1]) + Drawn(data[|data| - 1].0, data[|data| - 1].1)
  }

  /** Dictionary keys are distinct. */
  ghost predicate DistinctKeys(data: seq<(string, DataValue)>) {
    forall i, j :: 0 <= i < j < |data| ==> data[i].0 != data[j].0
  }

  /**
    `validate_timeframe_consistency`: one pass over the entries that copies each into the
    standardized table unchanged, warns about negative and unusually high numbers, and marks
    the figures inconsistent at the first negative one.
  */
  method ValidateTimeframeConsistency(data: seq<(string, DataValue)>) returns (r: ConsistencyReport)
    requires DistinctKeys(data)
    ensures r.standardized.Keys == set i | 0 <= i < |data| :: data[i].0
    ensures forall i :: 0 <= i < |data| ==> r.standardized[data[i].0] == data[i].1
    ensures r.isConsistent <==> forall i :: 0 <= i < |data| ==> !IsNegative(data[i].1)
    ensures r.warnings == WarningsOf(data)
  {
    var isConsistent := true;
    var standardized: map<string, DataValue> := map[];
    var warnings: seq<Warning> := [];
    for i := 0 to |data|
      invariant TableOf(data, i, standardized)
      invariant isConsistent <==> forall k :: 0 <= k < i ==> !IsNegative(data[k].1)
      invariant warnings == WarningsOf(data[..i])
    {
      var key, value := data[i].0, data[i].1;
      assert data[..i + 1][..i] == data[..i];
      assert WarningsOf(data[..i + 1]) == WarningsOf(data[..i]) + Drawn(key, value);
      TableStep(data, i, standardized);
      match NumericValue(value)
      case Some(x) =>
        if x < 0.0 {
          warnings := warnings + [NegativeValue(key, x)];
          isConsistent := false;
        } else if x > HighMonthlyValue {
          warnings := warnings + [UnusuallyHigh(key, x)];
        }
        standardized := standardized[key := value];
      case None =>
        standardized := standardized[key := value];
    }
    assert data[..|data|] == data;
    r := ConsistencyReport(isConsistent, standardized, warnings);
  }

  /** `table` holds exactly the first `n` entries of `data`, each under its own key. */
  ghost predicate TableOf(data: seq<(string, DataValue)>, n: nat, table: map<string, DataValue>)
    requires n <= |data|
  {
    && table.Keys == (set k | 0 <= k < n :: data[k].0)
    && forall k :: 0 <= k < n ==> table[data[k].0] == data[k].1
  }

  /** Copying entry `i` into a table of the first `i` entries gives the table of the first `i + 1`. */
  lemma TableStep(data: seq<(string, DataValue)>, i: nat, table: map<string, DataValue>)
    requires DistinctKeys(data) && i < |data| && TableOf(data, i, table)
    ensures TableOf(data, i + 1, table[data[i].0 := data[i].1])
  {
  }

  /** The entry draws the warning `w`. */
  predicate Draws(entry: (string, DataValue), w: Warning) {
    WarningFor(entry.0, entry.1) == Some(w)
  }

  /** The warnings are exactly those the individual entries draw. */
  lemma {:induction false} WarningsMatchEntries(data: seq<(string, DataValue)>, w: Warning)
    ensures w in WarningsOf(data) <==> exists i :: 0 <= i < |data| && Draws(data[i], w)
    decreases |data|
  {
    if data != [] {
      var n := |data| - 1;
      var prefix := data[..n];
      WarningsMatchEntries(prefix, w);
      assert WarningsOf(data) == WarningsOf(prefix) + Drawn(data[n].0, data[n].1);
      assert w in Drawn(data[n].0, data[n].1) <==> Draws(data[n], w);
      assert forall i :: 0 <= i < n ==> prefix[i] == data[i];
      if exists i :: 0 <= i < |data| && Draws(data[i], w) {
        var i :| 0 <= i < |data| && Draws(data[i], w);
        assert i < n ==> Draws(prefix[i], w);
      }
    }
  }

  /** Entries that are not numbers never draw a warning. */
  lemma NonNumericDrawsNoWarning(data: seq<(string, DataValue)>, i: nat)
    requires i < |data| && data[i].1.Other?
    requires DistinctKeys(data)
    ensures forall w :: w in WarningsOf(data) ==> w.key != data[i].0
  {
    forall w | w in WarningsOf(data)
      ensures w.key != data[i].0
    {
      WarningsMatchEntries(data, w);
      var j :| 0 <= j < |data| && Draws(data[j], w);
    }
  }

  /** The unit suffix of `format_emission_display`; the number itself is formatted by the caller. */
  function DisplayUnit(timeframe: string): (u: string)
    ensures u == "kg CO\U{2082}/month" <==> timeframe == "monthly"
    ensures u == "kg CO\U{2082}/year" <==> timeframe == "annual"
    ensures u == "kg CO\U{2082}/day" <==> timeframe == "daily"
    ensures timeframe !in {"monthly", "annual", "daily"} <==> u == "kg CO\U{2082}"
  {
    if timeframe == "monthly" then "kg CO\U{2082}/month"
    else if timeframe == "annual" then "kg CO\U{2082}/year"
    else if timeframe == "daily" then "kg CO\U{2082}/day"
    else "kg CO\U{2082}"
  }

  /**
    `format_emission_display`: the formatted number, a space, and the unit for the timeframe,
    which is monthly when the caller gives none.
  */
  function FormatEmissionDisplay(formattedValue: string, timeframe: string := "monthly"): (r: string)
    ensures |r| == |formattedValue| + 1 + |DisplayUnit(timeframe)|
    ensures r[..|formattedValue|] == formattedValue
    ensures r[|formattedValue|] == ' '
    ensures r[|formattedValue| + 1..] == DisplayUnit(timeframe)
  {
    formattedValue + " " + DisplayUnit(timeframe)
  }

  /** Without a timeframe the display is per month. */
  lemma DefaultDisplayIsMonthly(formattedValue: string)
    ensures FormatEmissionDisplay(formattedValue)[|formattedValue| + 1..] == "kg CO\U{2082}/month"
  {
  }

  const GenericHelpText: string := "Enter monthly values for this category."
  const TransportHelpText: string := "Enter your typical monthly transportation usage. For flights, use average monthly flights (e.g., 2 flights per year = 0.17 flights per month)"
  const EnergyHelpText: string := "Enter your monthly energy consumption from utility bills. Check your last monthly bill for kWh usage."
  const FoodHelpText: string := "Select your typical diet type. The calculator uses standard monthly emission factors for each diet category."

  /** `get_timeframe_help_text`: the section's own text, the generic text for any other section. */
  function GetTimeframeHelpText(section: string): (r: string)
    ensures section != "transport" && section != "energy" && section != "food" <==> r == GenericHelpText
    ensures section == "transport" ==> r == TransportHelpText
    ensures section == "energy" ==> r == EnergyHelpText
    ensures section == "food" ==> r == FoodHelpText
  {
    if section == "transport" then TransportHelpText
    else if section == "energy" then EnergyHelpText
    else if section == "food" then FoodHelpText
    else GenericHelpText
  }
}
