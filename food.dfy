/**
  The coarse food engine (main/core/food.py): a daily factor for the diet category, from
  FOOD_FACTORS with the `average` entry as fallback, times a 30-day month.
*/
module Food {
  import opened Wrappers
  import opened Factors
  import Timeframe

  /** The month length this engine uses; the timeframe conversions use 30.44 instead. */
  const FoodMonthDays: real := 30.0

  /**
    `food_emissions`. The fallback `FOOD_FACTORS['average']` is evaluated before the lookup,
    so a table without `average` raises even for a diet it knows.
  */
  function FoodEmissions(diet: map<string, real>, dietType: string): (r: Result<real, LookupError>)
    ensures r.Success? <==> "average" in diet
    ensures r.Failure? ==> r.error == MissingKey(["average"])
  {
    if "average" !in diet then Failure(MissingKey(["average"]))
    else
      var daily := if dietType in diet then diet[dietType] else diet["average"];
      Success(daily * FoodMonthDays)
  }

  /** A known diet costs its own daily factor for thirty days. */
  lemma KnownDiet(diet: map<string, real>, dietType: string)
    requires "average" in diet && dietType in diet
    ensures FoodEmissions(diet, dietType) == Success(diet[dietType] * 30.0)
  {
  }

  /** An unknown diet gives exactly the result of `average`. */
  lemma UnknownDietIsAverage(diet: map<string, real>, dietType: string)
    requires dietType !in diet
    ensures FoodEmissions(diet, dietType) == FoodEmissions(diet, "average")
  {
  }

  /** Even a known diet fails when the table lacks `average`. */
  lemma AverageAlwaysRequired(diet: map<string, real>, dietType: string)
    requires dietType in diet && "average" !in diet
    ensures FoodEmissions(diet, dietType).Failure?
  {
  }

  /** The month here is 30 days: the result differs from the 30.44-day conversion for any non-zero factor. */
  lemma MonthIsThirtyDays(diet: map<string, real>, dietType: string)
    requires "average" in diet && dietType in diet && diet[dietType] != 0.0
    ensures FoodEmissions(diet, dietType).value != Timeframe.DailyToMonthly(diet[dietType])
  {
  }

  /** Non-negative factors give a non-negative result. */
  lemma FoodNonNegative(diet: map<string, real>, dietType: string)
    requires NonNegativeRates(diet) && "average" in diet
    ensures FoodEmissions(diet, dietType).value >= 0.0
  {
  }
}
