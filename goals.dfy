/**
  The goals page (categories/goals_tracking.py): monthly and annual targets the user
  edits, the progress of the current month against the monthly target, a reduction
  plan when over it, and a log of saved progress entries with its statistics.
*/
module Goals {
  import opened Wrappers
  import Validators

  /** The goals a user without saved goals starts from. */
  const DefaultAnnualTarget: real := 2000.0
  const DefaultMonthlyTarget: real := 167.0

  /** Annual targets outside this band draw a warning, but are still saved. */
  const VeryLowAnnual: real := 500.0
  const VeryHighAnnual: real := 50000.0

  /** A category above this share of the current total draws a recommendation. */
  const RecommendShare: real := 0.3

  function CurrentTotal(transport: real, energy: real, food: real): (total: real)
    ensures transport >= 0.0 && energy >= 0.0 && food >= 0.0 ==> total >= 0.0
  {
    transport + energy + food
  }

  /** The "Over Target" metric shows when the difference to the target is positive. */
  predicate OverTarget(current: real, target: real) {
    current - target > 0.0
  }

  /** Progress in percent of the monthly target, shown only for a positive target. */
  function ProgressPct(current: real, target: real): (r: Option<real>)
    ensures r.Some? <==> target > 0.0
    ensures r.Some? ==> r.value * target == current * 100.0
    ensures r.Some? ==> (r.value > 100.0 <==> OverTarget(current, target))
  {
    if target > 0.0 then
      var pct := current / target * 100.0;
      assert pct * target == current * 100.0 by {
        assert (current / target) * target == current;
      }
      Some(pct)
    else None
  }

  /** One slice of the progress pie chart. */
  datatype Slice = Slice(category: string, amount: real)

  /** The two slices of the pie, drawn only once something has been calculated. */
  function ProgressPie(current: real, target: real): (r: Option<seq<Slice>>)
    ensures r.Some? <==> current > 0.0
    ensures r.Some? ==> |r.value| == 2
    ensures r.Some? && current <= target ==>
      && r.value == [Slice("Current Emissions", current), Slice("Remaining to Target", target - current)]
      && r.value[0].amount + r.value[1].amount == target
    ensures r.Some? && current > target ==>
      && r.value == [Slice("Target", target), Slice("Over Target", current - target)]
      && r.value[0].amount + r.value[1].amount == current
    ensures r.Some? && target >= 0.0 ==> r.value[0].amount >= 0.0 && r.value[1].amount >= 0.0
  {
    if current > 0.0 then
      var under := [Slice("Current Emissions", Min(current, target)),
                    Slice("Remaining to Target", Max(0.0, target - current))];
      Some(if current > target then [Slice("Target", target), Slice("Over Target", current - target)] else under)
    else None
  }

  function Min(a: real, b: real): real { if a <= b then a else b }
  function Max(a: real, b: real): real { if a >= b then a else b }

  /** The action-plan section: congratulations under the target, or recommended reductions. */
  datatype ActionPlan =
    | UnderTarget(margin: real)
    | Reduce(needed: real, transport: Option<real>, energy: Option<real>, food: Option<real>)

  /** A recommendation for a category above 30% of the total: the smaller of two shares. */
  function Recommend(category: real, total: real, ofNeeded: real, ofCategory: real): (r: Option<real>)
    ensures r.Some? <==> category > total * RecommendShare
    ensures r.Some? ==> r.value <= ofNeeded && r.value <= ofCategory
    ensures r.Some? ==> r.value == ofNeeded || r.value == ofCategory
  {
    if category > total * RecommendShare then Some(Min(ofNeeded, ofCategory)) else None
  }

  function OrZero(r: Option<real>): real {
    if r.Some? then r.value else 0.0
  }

  /**
    The plan: above the target, the reduction needed and, per dominant category, the smaller
    of 40% (transport), 30% (energy) or 30% (food) of it and 30%, 25% or 20% of the category
    itself; the recommendations never add up to more than what is needed.
  */
  function Plan(transport: real, energy: real, food: real, target: real): (r: ActionPlan)
    ensures var current := CurrentTotal(transport, energy, food);
      && (r.Reduce? <==> current > target)
      && (r.UnderTarget? ==> r.margin == target - current && r.margin >= 0.0)
      && (r.Reduce? ==> r.needed == current - target && r.needed > 0.0)
    ensures var current := CurrentTotal(transport, energy, food);
      r.Reduce? ==>
        && (r.transport.Some? <==> transport > current * RecommendShare)
        && (r.energy.Some? <==> energy > current * RecommendShare)
        && (r.food.Some? <==> food > current * RecommendShare)
        && (r.transport.Some? ==> r.transport.value <= r.needed * 0.4 && r.transport.value <= transport * 0.3)
        && (r.energy.Some? ==> r.energy.value <= r.needed * 0.3 && r.energy.value <= energy * 0.25)
        && (r.food.Some? ==> r.food.value <= r.needed * 0.3 && r.food.value <= food * 0.2)
    ensures r.Reduce? && r.transport.Some? ==> r.transport.value == Min(r.needed * 0.4, transport * 0.3)
    ensures r.Reduce? && r.energy.Some? ==> r.energy.value == Min(r.needed * 0.3, energy * 0.25)
    ensures r.Reduce? && r.food.Some? ==> r.food.value == Min(r.needed * 0.3, food * 0.2)
    ensures r.Reduce? ==> OrZero(r.transport) + OrZero(r.energy) + OrZero(r.food) <= r.needed
  {
    var current := CurrentTotal(transport, energy, food);
    if current > target then
      var needed := current - target;
      Reduce(needed,
             Recommend(transport, current, needed * 0.4, transport * 0.3),
             Recommend(energy, current, needed * 0.3, energy * 0.25),
             Recommend(food, current, needed * 0.3, food * 0.2))
    else UnderTarget(target - current)
  }

  /**
    Over a non-negative target the plan always recommends something: three categories
    each at most 30% of the total would add up to less than the total.
  */
  lemma OverTargetRecommendsSomething(transport: real, energy: real, food: real, target: real)
    requires target >= 0.0
    requires CurrentTotal(transport, energy, food) > target
    ensures var p := Plan(transport, energy, food, target);
      p.transport.Some? || p.energy.Some? || p.food.Some?
  {
  }

  /** A saved progress entry. */
  datatype ProgressEntry = ProgressEntry(
    date: string, transport: real, energy: real, food: real,
    total: real, target: real, metTarget: bool)

  /** The entry the save button records for the current month. */
  function MakeEntry(date: string, transport: real, energy: real, food: real, target: real): (e: ProgressEntry)
    ensures e.total == CurrentTotal(transport, energy, food)
    ensures e.metTarget <==> e.total <= e.target
    ensures e.metTarget <==> !OverTarget(e.total, target)
    ensures e.date == date && e.target == target
    ensures e.transport == transport && e.energy == energy && e.food == food
  {
    var total := CurrentTotal(transport, energy, food);
    ProgressEntry(date, transport, energy, food, total, target, total <= target)
  }

  /** What every saved entry satisfies. */
  predicate WellFormed(e: ProgressEntry) {
    && e.total > 0.0
    && e.total == e.transport + e.energy + e.food
    && (e.metTarget <==> e.total <= e.target)
  }

  /** The session's progress log: entries are only ever appended. */
  class ProgressLog {
    var entries: seq<ProgressEntry>

    ghost predicate Valid()
      reads this
    {
      forall i :: 0 <= i < |entries| ==> WellFormed(entries[i])
    }

    constructor()
      ensures entries == [] && Valid()
    {
      entries := [];
    }

    /** Appends exactly one entry, and only once something has been calculated. */
    method SaveCurrentProgress(date: string, transport: real, energy: real, food: real, target: real)
      returns (saved: bool)
      requires Valid()
      modifies this
      ensures Valid()
      ensures saved <==> CurrentTotal(transport, energy, food) > 0.0
      ensures saved ==> entries == old(entries) + [MakeEntry(date, transport, energy, food, target)]
      ensures !saved ==> entries == old(entries)
    {
      var current := CurrentTotal(transport, energy, food);
      if current > 0.0 {
        entries := entries + [MakeEntry(date, transport, energy, food, target)];
        saved := true;
      } else {
        saved := false;
      }
    }
  }

  function SumTotals(entries: seq<ProgressEntry>): real {
    if entries == [] then 0.0 else SumTotals(entries[..|entries| - 1]) + entries[|entries| - 1].total
  }

  function CountMet(entries: seq<ProgressEntry>): (n: nat)
    ensures n <= |entries|
  {
    if entries == [] then 0
    else CountMet(entries[..|entries| - 1]) + (if entries[|entries| - 1].metTarget then 1 else 0)
  }

  /** The statistics under the history chart, shown once at least one entry exists. */
  datatype Statistics = Statistics(average: real, successRate: real, trend: Option<real>)

  function HistoryStatistics(entries: seq<ProgressEntry>): (r: Option<Statistics>)
    ensures r.Some? <==> |entries| > 0
    ensures r.Some? ==> r.value.average * (|entries| as real) == SumTotals(entries)
    ensures r.Some? ==> 0.0 <= r.value.successRate <= 100.0
    ensures r.Some? ==> r.value.successRate * (|entries| as real) == (CountMet(entries) as real) * 100.0
    ensures r.Some? ==> (r.value.trend.Some? <==> |entries| > 1)
    ensures r.Some? && r.value.trend.Some? ==>
      r.value.trend.value == entries[|entries| - 1].total - entries[0].total
  {
    if |entries| == 0 then None
    else
      var n := |entries| as real;
      var met := CountMet(entries) as real;
      var average := SumTotals(entries) / n;
      var rate := met / n * 100.0;
      assert average * n == SumTotals(entries);
      assert rate * n == met * 100.0 by {
        assert (met / n) * n == met;
      }
      assert met / n <= 1.0;
      Some(Statistics(average, rate,
        if |entries| > 1 then Some(entries[|entries| - 1].total - entries[0].total) else None))
  }

  /** The number of met targets equals the entries whose `metTarget` flag is set. */
  lemma {:induction false} CountMetCounts(entries: seq<ProgressEntry>)
    ensures CountMet(entries) == |set i | 0 <= i < |entries| && entries[i].metTarget|
  {
    if entries != [] {
      var n := |entries| - 1;
      var prefix := entries[..n];
      CountMetCounts(prefix);
      var before := set i | 0 <= i < n && prefix[i].metTarget;
      var after := set i | 0 <= i < |entries| && entries[i].metTarget;
      assert before == set i | 0 <= i < n && entries[i].metTarget;
      if entries[n].metTarget {
        assert after == before + {n};
      } else {
        assert after == before;
      }
    }
  }

  /** A success rate of 100% means every saved entry met its target, 0% that none did. */
  lemma {:induction false} SuccessRateExtremes(entries: seq<ProgressEntry>)
    ensures CountMet(entries) == |entries| <==> forall i :: 0 <= i < |entries| ==> entries[i].metTarget
    ensures CountMet(entries) == 0 <==> forall i :: 0 <= i < |entries| ==> !entries[i].metTarget
  {
    if entries != [] {
      var n := |entries| - 1;
      SuccessRateExtremes(entries[..n]);
      assert forall i :: 0 <= i < n ==> entries[..n][i] == entries[i];
    }
  }

  /** The average of entries whose totals lie between two bounds lies between them too. */
  lemma {:induction false} SumTotalsBounds(entries: seq<ProgressEntry>, lo: real, hi: real)
    requires forall i :: 0 <= i < |entries| ==> lo <= entries[i].total <= hi
    ensures (|entries| as real) * lo <= SumTotals(entries) <= (|entries| as real) * hi
  {
    if entries != [] {
      var n := |entries| - 1;
      assert forall i :: 0 <= i < n ==> entries[..n][i] == entries[i];
      SumTotalsBounds(entries[..n], lo, hi);
      var m := n as real;
      assert lo <= entries[n].total <= hi;
      assert (m + 1.0) * lo == m * lo + lo && (m + 1.0) * hi == m * hi + hi;
      assert |entries| as real == m + 1.0;
    }
  }

  lemma AverageWithinBounds(entries: seq<ProgressEntry>, lo: real, hi: real)
    requires |entries| > 0
    requires forall i :: 0 <= i < |entries| ==> lo <= entries[i].total <= hi
    ensures lo <= HistoryStatistics(entries).value.average <= hi
  {
    var n := |entries| as real;
    var sum := SumTotals(entries);
    SumTotalsBounds(entries, lo, hi);
    QuotientBounds(sum, n, lo, hi);
    assert HistoryStatistics(entries).value.average == sum / n;
  }

  /** A sum between n-fold bounds, divided by n, lies between the bounds. */
  lemma QuotientBounds(sum: real, n: real, lo: real, hi: real)
    requires n > 0.0 && n * lo <= sum <= n * hi
    ensures lo <= sum / n <= hi
  {
    assert (sum / n) * n == sum;
    assert (sum / n - lo) * n >= 0.0;
    assert (hi - sum / n) * n >= 0.0;
  }

  /** A log kept by `SaveCurrentProgress` has a positive average. */
  lemma SavedLogHasPositiveAverage(log: ProgressLog)
    requires log.Valid() && |log.entries| > 0
    ensures HistoryStatistics(log.entries).value.average > 0.0
  {
    var entries := log.entries;
    var n := |entries| as real;
    SumTotalsPositive(entries);
    var average := HistoryStatistics(entries).value.average;
    assert average * n == SumTotals(entries);
  }

  lemma {:induction false} SumTotalsPositive(entries: seq<ProgressEntry>)
    requires |entries| > 0
    requires forall i :: 0 <= i < |entries| ==> WellFormed(entries[i])
    ensures SumTotals(entries) > 0.0
  {
    var n := |entries| - 1;
    assert WellFormed(entries[n]);
    if n > 0 {
      assert forall i :: 0 <= i < n ==> entries[..n][i] == entries[i];
      SumTotalsPositive(entries[..n]);
    }
  }

  /** A realism warning about the annual target. */
  datatype TargetWarning = VeryLow | VeryHigh

  /** The outcome of pressing "Update Goals". */
  datatype GoalUpdate =
    | Rejected(fields: seq<string>, warnings: seq<TargetWarning>)
    | Saved(warnings: seq<TargetWarning>)
    | SaveFailed(warnings: seq<TargetWarning>)

  /** The fields whose value fails `validate_positive_number`, in the page's order. */
  function InvalidFields(annual: real, monthly: real): (r: seq<string>)
    ensures r == [] <==> annual >= 0.0 && monthly >= 0.0
    ensures "annual target" in r <==> annual < 0.0
    ensures "monthly target" in r <==> monthly < 0.0
  {
    var annualCheck := Validators.ValidateAndShowWarning(annual,
      x => Validators.ValidatePositiveNumber(x, "Annual target"), true);
    var monthlyCheck := Validators.ValidateAndShowWarning(monthly,
      x => Validators.ValidatePositiveNumber(x, "Monthly target"), true);
    (if annualCheck.valid then [] else ["annual target"])
      + (if monthlyCheck.valid then [] else ["monthly target"])
  }

  /** The realism warnings shown for an annual target, before the validation outcome is known. */
  function TargetWarnings(annual: real): (r: seq<TargetWarning>)
    ensures VeryLow in r <==> annual < VeryLowAnnual
    ensures VeryHigh in r <==> annual > VeryHighAnnual
  {
    (if annual < VeryLowAnnual then [VeryLow] else [])
      + (if annual > VeryHighAnnual then [VeryHigh] else [])
  }

  /** The user's goals, as the page keeps them in the session. */
  class CarbonGoals {
    var annualTarget: real
    var monthlyTarget: real

    /** Goals loaded for the user, or the defaults when none were saved. */
    constructor(saved: Option<(real, real)>)
      ensures saved.None? ==> annualTarget == DefaultAnnualTarget && monthlyTarget == DefaultMonthlyTarget
      ensures saved.Some? ==> annualTarget == saved.value.0 && monthlyTarget == saved.value.1
    {
      if saved.Some? {
        annualTarget := saved.value.0;
        monthlyTarget := saved.value.1;
      } else {
        annualTarget := DefaultAnnualTarget;
        monthlyTarget := DefaultMonthlyTarget;
      }
    }

    /**
      Validates both targets and shows the realism warnings whatever the validation decides;
      then hands valid targets to the store (whose answer is `storeAccepts`) and updates the
      goals only when the store accepted them.
    */
    method UpdateGoals(newAnnual: real, newMonthly: real, storeAccepts: bool) returns (outcome: GoalUpdate)
      modifies this
      ensures outcome.Rejected? <==> newAnnual < 0.0 || newMonthly < 0.0
      ensures outcome.Rejected? ==> outcome.fields == InvalidFields(newAnnual, newMonthly)
      ensures outcome.Saved? <==> !outcome.Rejected? && storeAccepts
      ensures outcome.warnings == TargetWarnings(newAnnual)
      ensures outcome.Saved? ==> annualTarget == newAnnual && monthlyTarget == newMonthly
      ensures !outcome.Saved? ==> annualTarget == old(annualTarget) && monthlyTarget == old(monthlyTarget)
    {
      var errors := InvalidFields(newAnnual, newMonthly);
      var warnings := TargetWarnings(newAnnual);
      if errors == [] {
        if storeAccepts {
          annualTarget := newAnnual;
          monthlyTarget := newMonthly;
          outcome := Saved(warnings);
        } else {
          outcome := SaveFailed(warnings);
        }
      } else {
        outcome := Rejected(errors, warnings);
      }
    }
  }
}
