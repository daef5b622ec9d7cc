/**
  The food page (categories/enhanced_food.py): in custom mode every serving count is checked
  first, then the servings are weighted by per-serving factors and reduced for local and
  organic sourcing, the reduction capped at a quarter; the other modes use the coarse diet
  engine.
*/
module DetailedFood {
  import opened Wrappers
  import opened Factors
  import Text
  import Validators
  import Food
  import Timeframe
  import Reals

  /** kg CO2 per serving (per glass of milk, per egg). */
  const Beef: real := 6.6
  const Pork: real := 2.9
  const Chicken: real := 1.6
  const Fish: real := 1.2
  const Legumes: real := 0.1
  const Tofu: real := 0.3
  const Milk: real := 0.4
  const Cheese: real := 1.0
  const Eggs: real := 0.4

  /** The page writes its own days-per-month literal for milk. */
  const MilkDaysPerMonth: real := 30.44

  /** Sourcing reductions: 15% at fully local produce, 5% at fully organic food, at most 25%. */
  const LocalWeight: real := 0.15
  const OrganicWeight: real := 0.05
  const ReductionCap: real := 0.25

  /** The slider values: monthly servings, except milk in glasses per day. */
  datatype Servings = Servings(
    beef: real, pork: real, chicken: real, fish: real, legumes: real, tofu: real,
    milkGlasses: real, cheese: real, eggs: real)

  ghost predicate NonNegativeServings(s: Servings) {
    s.beef >= 0.0 && s.pork >= 0.0 && s.chicken >= 0.0 && s.fish >= 0.0 && s.legumes >= 0.0
    && s.tofu >= 0.0 && s.milkGlasses >= 0.0 && s.cheese >= 0.0 && s.eggs >= 0.0
  }

  /** Daily glasses of milk as a monthly quantity. */
  function MonthlyMilk(s: Servings): real {
    s.milkGlasses * MilkDaysPerMonth
  }

  /** The per-item emissions of the breakdown table, in its row order, before any reduction. */
  function Breakdown(s: Servings): (b: seq<real>)
    ensures |b| == 9
  {
    [s.beef * Beef, s.pork * Pork, s.chicken * Chicken, s.fish * Fish, s.legumes * Legumes,
     s.tofu * Tofu, MonthlyMilk(s) * Milk, s.cheese * Cheese, s.eggs * Eggs]
  }

  /** The monthly emissions of the servings before the sourcing reduction. */
  function RawEmissions(s: Servings): real {
    s.beef * Beef + s.pork * Pork + s.chicken * Chicken + s.fish * Fish + s.legumes * Legumes
    + s.tofu * Tofu + MonthlyMilk(s) * Milk + s.cheese * Cheese + s.eggs * Eggs
  }

  /** The breakdown rows add up to the raw, unreduced total. */
  lemma BreakdownSumsToRaw(s: Servings)
    ensures Reals.Sum(Breakdown(s)) == RawEmissions(s)
  {
    var b := Breakdown(s);
    assert Reals.Sum(b[..1]) == b[0] by { assert b[..1][..0] == []; }
    assert Reals.Sum(b[..2]) == b[0] + b[1] by { assert b[..2][..1] == b[..1]; }
    assert Reals.Sum(b[..3]) == b[0] + b[1] + b[2] by { assert b[..3][..2] == b[..2]; }
    assert Reals.Sum(b[..4]) == b[0] + b[1] + b[2] + b[3] by { assert b[..4][..3] == b[..3]; }
    assert Reals.Sum(b[..5]) == b[0] + b[1] + b[2] + b[3] + b[4] by { assert b[..5][..4] == b[..4]; }
    assert Reals.Sum(b[..6]) == b[0] + b[1] + b[2] + b[3] + b[4] + b[5] by { assert b[..6][..5] == b[..5]; }
    assert Reals.Sum(b[..7]) == b[0] + b[1] + b[2] + b[3] + b[4] + b[5] + b[6] by { assert b[..7][..6] == b[..6]; }
    assert Reals.Sum(b[..8]) == b[0] + b[1] + b[2] + b[3] + b[4] + b[5] + b[6] + b[7] by { assert b[..8][..7] == b[..7]; }
    assert Reals.Sum(b[..9]) == b[0] + b[1] + b[2] + b[3] + b[4] + b[5] + b[6] + b[7] + b[8] by { assert b[..9][..8] == b[..8]; }
    assert b[..9] == b;
  }

  /** The milk row is the daily glasses converted with the shared days-per-month constant. */
  lemma MilkUsesDailyConversion(s: Servings)
    ensures MonthlyMilk(s) == Timeframe.DailyToMonthly(s.milkGlasses)
  {
  }

  /** The reduction before the cap. */
  function UncappedReduction(localPct: real, organicPct: real): real {
    (localPct / 100.0) * LocalWeight + (organicPct / 100.0) * OrganicWeight
  }

  /** `min(local + organic reduction, 0.25)`. */
  function Reduction(localPct: real, organicPct: real): (r: real)
    ensures r <= ReductionCap
    ensures r <= UncappedReduction(localPct, organicPct)
    ensures r == ReductionCap || r == UncappedReduction(localPct, organicPct)
  {
    var u := UncappedReduction(localPct, organicPct);
    if u < ReductionCap then u else ReductionCap
  }

  /** Within the sliders' 0..100 range the reduction is at most 20%, so the cap never applies. */
  lemma CapNeverBindsOnSliderRange(localPct: real, organicPct: real)
    requires 0.0 <= localPct <= 100.0 && 0.0 <= organicPct <= 100.0
    ensures 0.0 <= UncappedReduction(localPct, organicPct) <= 0.20
    ensures Reduction(localPct, organicPct) == UncappedReduction(localPct, organicPct)
  {
  }

  /** The custom-mode result: the raw total less the sourcing reduction. */
  function DetailedFoodEmissions(s: Servings, localPct: real, organicPct: real): (r: real)
    ensures RawEmissions(s) >= 0.0 && localPct >= 0.0 && organicPct >= 0.0 ==>
      (1.0 - ReductionCap) * RawEmissions(s) <= r <= RawEmissions(s)
  {
    ReducedWithinCap(RawEmissions(s), localPct, organicPct);
    RawEmissions(s) * (1.0 - Reduction(localPct, organicPct))
  }

  /** Reducing a non-negative amount by non-negative sourcing shares keeps between 75% and all of it. */
  lemma ReducedWithinCap(raw: real, localPct: real, organicPct: real)
    ensures raw >= 0.0 && localPct >= 0.0 && organicPct >= 0.0 ==>
      (1.0 - ReductionCap) * raw <= raw * (1.0 - Reduction(localPct, organicPct)) <= raw
  {
    if raw >= 0.0 && localPct >= 0.0 && organicPct >= 0.0 {
      var reduction := Reduction(localPct, organicPct);
      assert 0.0 <= reduction;
      assert raw * reduction <= raw * ReductionCap;
    }
  }

  /** Non-negative servings give a non-negative raw total. */
  lemma RawNonNegative(s: Servings)
    requires NonNegativeServings(s)
    ensures RawEmissions(s) >= 0.0
  {
  }

  /** No servings, no emissions, whatever the percentages. */
  lemma ZeroServingsGiveZero(localPct: real, organicPct: real)
    ensures DetailedFoodEmissions(Servings(0.0, 0.0, 0.0, 0.0, 0.0, 0.0, 0.0, 0.0, 0.0), localPct, organicPct) == 0.0
  {
  }

  /** The values checked in custom mode, each with its field name, in the page's order. */
  function ServingsToValidate(s: Servings): seq<(real, string)> {
    [(s.beef, "Beef servings"), (s.pork, "Pork servings"), (s.chicken, "Chicken servings"),
     (s.fish, "Fish servings"), (s.legumes, "Legume servings"), (s.tofu, "Tofu servings"),
     (s.milkGlasses, "Milk glasses"), (s.cheese, "Cheese servings"), (s.eggs, "Eggs per month")]
  }

  function ServingValidator(): real -> Validators.Validation {
    x => Validators.ValidateFoodServing(x)
  }

  /** The lower-cased names of the values that fail `validate_food_serving`, in order. */
  function FailingFields(items: seq<(real, string)>): seq<string>
    decreases |items|
  {
    if items == [] then []
    else
      var n := |items| - 1;
      FailingFields(items[..n])
        + if Validators.ValidateAndShowWarning(items[n].0, ServingValidator(), true).valid then []
          else [Text.Lower(items[n].1)]
  }

  /** The validation loop of custom mode: every failing field is collected, with a warning shown for each. */
  method CollectValidationErrors(items: seq<(real, string)>) returns (errors: seq<string>)
    ensures errors == FailingFields(items)
  {
    errors := [];
    for i := 0 to |items|
      invariant errors == FailingFields(items[..i])
    {
      var value, fieldName := items[i].0, items[i].1;
      assert items[..i + 1][..i] == items[..i];
      var checked := Validators.ValidateAndShowWarning(value, ServingValidator(), true);
      if !checked.valid {
        errors := errors + [Text.Lower(fieldName)];
      }
    }
    assert items[..|items|] == items;
  }

  /** The list of failing fields is empty exactly when every value lies between 0 and 30. */
  lemma {:induction false} NoErrorsIffInRange(items: seq<(real, string)>)
    ensures FailingFields(items) == [] <==> forall i :: 0 <= i < |items| ==> 0.0 <= items[i].0 <= 30.0
    decreases |items|
  {
    if items != [] {
      var n := |items| - 1;
      NoErrorsIffInRange(items[..n]);
      assert forall i :: 0 <= i < n ==> items[..n][i] == items[i];
    }
  }

  datatype DietChoice = Custom | DietType(name: string)

  /** What pressing "Calculate" leads to. */
  datatype FoodPageOutcome =
    | Stopped(invalidFields: seq<string>)
    | Computed(emissions: real)
    | EngineError(error: LookupError)

  /**
    The calculation of lines 65-163: custom mode stops on any invalid count and otherwise uses
    the detailed calculation; a named diet goes to the coarse engine.
  */
  function CalculateFoodPage(choice: DietChoice, s: Servings, localPct: real, organicPct: real, diet: map<string, real>)
    : (r: FoodPageOutcome)
    ensures choice.Custom? ==> !r.EngineError?
    ensures choice.Custom? && r.Computed? ==> r.emissions == DetailedFoodEmissions(s, localPct, organicPct)
    ensures choice.DietType? ==> !r.Stopped?
    ensures choice.DietType? && r.Computed? ==> Food.FoodEmissions(diet, choice.name) == Success(r.emissions)
    ensures choice.DietType? ==> (r.Computed? <==> Food.FoodEmissions(diet, choice.name).Success?)
    ensures choice.DietType? && r.EngineError? ==> Food.FoodEmissions(diet, choice.name) == Failure(r.error)
  {
    match choice
    case Custom =>
      var errors := FailingFields(ServingsToValidate(s));
      if errors != [] then Stopped(errors) else Computed(DetailedFoodEmissions(s, localPct, organicPct))
    case DietType(name) =>
      match Food.FoodEmissions(diet, name)
      case Success(v) => Computed(v)
      case Failure(e) => EngineError(e)
  }

  /** Custom mode computes exactly when every count is between 0 and 30. */
  lemma CustomModeStopsOnInvalidCounts(s: Servings, localPct: real, organicPct: real, diet: map<string, real>)
    ensures CalculateFoodPage(Custom, s, localPct, organicPct, diet).Stopped? <==>
      !(0.0 <= s.beef <= 30.0 && 0.0 <= s.pork <= 30.0 && 0.0 <= s.chicken <= 30.0
        && 0.0 <= s.fish <= 30.0 && 0.0 <= s.legumes <= 30.0 && 0.0 <= s.tofu <= 30.0
        && 0.0 <= s.milkGlasses <= 30.0 && 0.0 <= s.cheese <= 30.0 && 0.0 <= s.eggs <= 30.0)
  {
    var items := ServingsToValidate(s);
    NoErrorsIffInRange(items);
    assert items[0].0 == s.beef && items[1].0 == s.pork && items[2].0 == s.chicken;
    assert items[3].0 == s.fish && items[4].0 == s.legumes && items[5].0 == s.tofu;
    assert items[6].0 == s.milkGlasses && items[7].0 == s.cheese && items[8].0 == s.eggs;
  }

  /**
    The sliders offer up to 60 servings of most items and 90 eggs a month, but the check
    caps every count at 30, so a reachable setting such as 40 beef servings stops the page.
  */
  lemma SliderValuesAboveThirtyStop(s: Servings, localPct: real, organicPct: real, diet: map<string, real>)
    requires 30.0 < s.beef <= 60.0
    ensures CalculateFoodPage(Custom, s, localPct, organicPct, diet).Stopped?
  {
    CustomModeStopsOnInvalidCounts(s, localPct, organicPct, diet);
  }
}
