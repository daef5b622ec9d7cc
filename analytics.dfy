/**
  The results page (results/enhanced_analytics.py): the monthly total of the three
  categories, their percentage shares, a rating band, improvement suggestions, and
  projections against the Paris-agreement monthly target.
*/
module Analytics {
  import opened Wrappers
  import Timeframe

  /** Monthly benchmarks in kg CO2. */
  const GlobalAverage: real := 833.0
  const ParisTarget: real := 167.0

  /** The share above which a category draws a suggestion. */
  const DominantShare: real := 0.4

  function TotalEmissions(transport: real, energy: real, food: real): (total: real)
    ensures transport >= 0.0 && energy >= 0.0 && food >= 0.0 ==>
      total >= transport && total >= energy && total >= food
  {
    transport + energy + food
  }

  /** A share in percent of a positive total, multiplied back, gives the category again. */
  lemma ShareTimesTotal(x: real, total: real)
    requires total > 0.0
    ensures (x / total * 100.0) * total == x * 100.0
  {
    assert (x / total) * total == x;
  }

  /** Percentages of three parts of a positive total add up to 100. */
  lemma SharesSumToHundred(a: real, b: real, c: real, total: real)
    requires total > 0.0 && total == a + b + c
    ensures a / total * 100.0 + b / total * 100.0 + c / total * 100.0 == 100.0
  {
    assert a / total + b / total + c / total == (a + b + c) / total;
    assert total / total == 1.0;
  }

  /** For a positive total, `x` exceeds the fraction `f` of it exactly when its percentage exceeds 100f. */
  lemma ShareAbove(x: real, total: real, f: real)
    requires total > 0.0
    ensures x > total * f <==> x / total * 100.0 > f * 100.0
  {
    assert (x / total) * total == x;
    if x > total * f {
      assert x / total > f;
    }
    if x / total > f {
      assert (x / total) * total > f * total;
    }
  }

  datatype Shares = Shares(transport: real, energy: real, food: real)

  /** The percentage of each category, computed only when the total is positive. */
  function Percentages(transport: real, energy: real, food: real): (r: Option<Shares>)
    ensures r.Some? <==> TotalEmissions(transport, energy, food) > 0.0
    ensures r.Some? ==> r.value.transport + r.value.energy + r.value.food == 100.0
    ensures r.Some? ==>
      var total := TotalEmissions(transport, energy, food);
      && r.value.transport * total == transport * 100.0
      && r.value.energy * total == energy * 100.0
      && r.value.food * total == food * 100.0
  {
    var total := TotalEmissions(transport, energy, food);
    if total > 0.0 then
      var shares := Shares(transport / total * 100.0, energy / total * 100.0, food / total * 100.0);
      ShareTimesTotal(transport, total);
      ShareTimesTotal(energy, total);
      ShareTimesTotal(food, total);
      SharesSumToHundred(transport, energy, food, total);
      Some(shares)
    else None
  }

  datatype Rating = Excellent | Good | Average | High

  /** The rating bands: up to 167, up to 400, up to 667, above. */
  function CarbonRating(total: real): (r: Rating)
    ensures r == Excellent <==> total <= 167.0
    ensures r == Good <==> 167.0 < total <= 400.0
    ensures r == Average <==> 400.0 < total <= 667.0
    ensures r == High <==> 667.0 < total
  {
    if total <= 167.0 then Excellent
    else if total <= 400.0 then Good
    else if total <= 667.0 then Average
    else High
  }

  function RatingRank(r: Rating): nat {
    match r
    case Excellent => 0
    case Good => 1
    case Average => 2
    case High => 3
  }

  /** A larger total never gets a better rating. */
  lemma RatingMonotone(a: real, b: real)
    requires a <= b
    ensures RatingRank(CarbonRating(a)) <= RatingRank(CarbonRating(b))
  {
  }

  /** The annual projection: twelve months. */
  function AnnualProjection(total: real): (r: real)
    ensures Timeframe.AnnualToMonthly(r) == total
  {
    total * 12.0
  }

  /** The daily average over a 30-day month. */
  function DailyAverage(total: real): (r: real)
    ensures r * 30.0 == total
  {
    total / 30.0
  }

  datatype Suggestion =
    | TransportDominant | EnergyDominant | FoodDominant
    | ShortTrips | Insulation | MeatlessMondays

  /** Zero or one suggestion. */
  function If(cond: bool, s: Suggestion): seq<Suggestion> {
    if cond then [s] else []
  }

  /**
    The suggestions in order: one per category above 40% of the total, then one per category
    above its own absolute threshold (150, 100 and 120 kg).
  */
  function SuggestionsFor(transport: real, energy: real, food: real): seq<Suggestion> {
    var total := TotalEmissions(transport, energy, food);
    If(transport > total * DominantShare, TransportDominant)
    + If(energy > total * DominantShare, EnergyDominant)
    + If(food > total * DominantShare, FoodDominant)
    + If(transport > 150.0, ShortTrips)
    + If(energy > 100.0, Insulation)
    + If(food > 120.0, MeatlessMondays)
  }

  /** Appends `s` when `cond` holds. */
  method AppendIf(suggestions: seq<Suggestion>, cond: bool, s: Suggestion) returns (r: seq<Suggestion>)
    ensures r == suggestions + If(cond, s)
  {
    r := suggestions;
    if cond {
      r := r + [s];
    }
  }

  /** The suggestions list of the page, built by conditional appends. */
  method ImprovementSuggestions(transport: real, energy: real, food: real) returns (suggestions: seq<Suggestion>)
    ensures suggestions == SuggestionsFor(transport, energy, food)
  {
    var total := TotalEmissions(transport, energy, food);
    suggestions := [];
    suggestions := AppendIf(suggestions, transport > total * DominantShare, TransportDominant);
    assert suggestions == If(transport > total * DominantShare, TransportDominant);
    suggestions := AppendIf(suggestions, energy > total * DominantShare, EnergyDominant);
    suggestions := AppendIf(suggestions, food > total * DominantShare, FoodDominant);
    suggestions := AppendIf(suggestions, transport > 150.0, ShortTrips);
    suggestions := AppendIf(suggestions, energy > 100.0, Insulation);
    suggestions := AppendIf(suggestions, food > 120.0, MeatlessMondays);
  }

  /** Each suggestion appears exactly when its trigger holds, and there are at most six. */
  lemma SuggestionTriggers(transport: real, energy: real, food: real)
    ensures var s := SuggestionsFor(transport, energy, food);
      var total := TotalEmissions(transport, energy, food);
      && (TransportDominant in s <==> transport > total * DominantShare)
      && (EnergyDominant in s <==> energy > total * DominantShare)
      && (FoodDominant in s <==> food > total * DominantShare)
      && (ShortTrips in s <==> transport > 150.0)
      && (Insulation in s <==> energy > 100.0)
      && (MeatlessMondays in s <==> food > 120.0)
      && |s| <= 6
  {
    InSuggestions(transport, energy, food, TransportDominant);
    InSuggestions(transport, energy, food, EnergyDominant);
    InSuggestions(transport, energy, food, FoodDominant);
    InSuggestions(transport, energy, food, ShortTrips);
    InSuggestions(transport, energy, food, Insulation);
    InSuggestions(transport, energy, food, MeatlessMondays);
  }

  /** The trigger of each suggestion. */
  predicate Triggered(x: Suggestion, transport: real, energy: real, food: real) {
    var total := TotalEmissions(transport, energy, food);
    match x
    case TransportDominant => transport > total * DominantShare
    case EnergyDominant => energy > total * DominantShare
    case FoodDominant => food > total * DominantShare
    case ShortTrips => transport > 150.0
    case Insulation => energy > 100.0
    case MeatlessMondays => food > 120.0
  }

  /** A suggestion is in the list exactly when its trigger holds. */
  lemma InSuggestions(transport: real, energy: real, food: real, x: Suggestion)
    ensures x in SuggestionsFor(transport, energy, food) <==> Triggered(x, transport, energy, food)
  {
    var total := TotalEmissions(transport, energy, food);
    InIf(transport > total * DominantShare, TransportDominant, x);
    InIf(energy > total * DominantShare, EnergyDominant, x);
    InIf(food > total * DominantShare, FoodDominant, x);
    InIf(transport > 150.0, ShortTrips, x);
    InIf(energy > 100.0, Insulation, x);
    InIf(food > 120.0, MeatlessMondays, x);
  }

  /** `x` is in the zero-or-one list exactly when the condition holds and `x` is its suggestion. */
  lemma InIf(cond: bool, s: Suggestion, x: Suggestion)
    ensures x in If(cond, s) <==> cond && x == s
  {
  }

  /** With a positive total, a category's suggestion fires exactly when its share exceeds 40%. */
  lemma DominantIffShareAbove40(transport: real, energy: real, food: real)
    requires TotalEmissions(transport, energy, food) > 0.0
    ensures var total := TotalEmissions(transport, energy, food);
      var shares := Percentages(transport, energy, food).value;
      && (transport > total * DominantShare <==> shares.transport > 40.0)
      && (energy > total * DominantShare <==> shares.energy > 40.0)
      && (food > total * DominantShare <==> shares.food > 40.0)
  {
    var total := TotalEmissions(transport, energy, food);
    ShareAbove(transport, total, DominantShare);
    ShareAbove(energy, total, DominantShare);
    ShareAbove(food, total, DominantShare);
  }

  /** At most two categories can be dominant: three shares above 40% would exceed 100%. */
  lemma NotAllDominant(transport: real, energy: real, food: real)
    requires TotalEmissions(transport, energy, food) > 0.0
    ensures var total := TotalEmissions(transport, energy, food);
      !(transport > total * DominantShare && energy > total * DominantShare && food > total * DominantShare)
  {
  }

  /** The two reduction scenarios. */
  function ReducedBy10(total: real): (r: real)
    ensures total - r == total * 0.1
  {
    total * 0.9
  }

  function ReducedBy25(total: real): (r: real)
    ensures total - r == total * 0.25
  {
    total * 0.75
  }

  /** The reduction, in percent of the total, that brings it down to the Paris target; only above it. */
  function ReductionNeeded(total: real): (r: Option<real>)
    ensures r.Some? <==> total > ParisTarget
    ensures r.Some? ==> 0.0 < r.value < 100.0
    ensures r.Some? ==> total * (1.0 - r.value / 100.0) == ParisTarget
  {
    if total > ParisTarget then
      var pct := ((total - ParisTarget) / total) * 100.0;
      assert total * (1.0 - pct / 100.0) == total - (total - ParisTarget);
      Some(pct)
    else None
  }

  /** The comparison to the global average in the exported report, in percent. */
  function ComparisonToGlobalAverage(total: real): (r: real)
    ensures r > 0.0 <==> total > GlobalAverage
    ensures r == 0.0 <==> total == GlobalAverage
  {
    ((total / GlobalAverage) - 1.0) * 100.0
  }
}
