# Emission calculator: a Dafny model of its arithmetic core

This project models the emission arithmetic of the `emission-calculator` repository and
proves properties of that model. The repository is a Python carbon-footprint calculator
with a web API, Streamlit pages and a CLI. It turns monthly transport distances and flights,
household energy use and diet into kg of CO2 per month.

What is modelled, one Dafny module per source file:

- **Factors** (`main/data/emission_factors.py`): the factor tables. They are read from a
  YAML document that is given here as a map from section name to section. Also the
  car-fuel consumption table.
- **Transport** (`main/core/transport.py`): the transport engine. Car, bus and train factors
  default to 0 for an unknown type. The four mode tables and the three flight bands are
  indexed without a default, so a missing key is an error result (Python's `KeyError`).
- **Energy** (`main/core/energy.py`): the energy engine. It is an accumulation loop over
  keyword arguments, proved against a recursive sum. The sum is shown to be independent of
  argument order.
- **Food** (`main/core/food.py`): the coarse food engine. A diet factor with `average` as the
  fallback, times 30 days. The fallback is evaluated eagerly, so `average` is always required.
- **LegacyCalculator** (`emission_calculator/calculator.py`) and **MainCalculator**
  (`main/calculator.py`): the older calculators with hard-coded factors.
- **Api** (`main/api/api.py`): the `/calculate` endpoint, which composes the three engines.
- **Timeframe** (`main/utils/timeframe_standards.py`): the monthly-standard conversions, the
  consistency check of a set of figures, the display suffixes and the help texts.
- **Validators** (`main/utils/validators.py`): the range validators. Their `ValueError` is a
  `Failure`.
- **EmissionModels** (`main/models/emission_models.py`): the request records. This covers
  field bounds, the car-fuel and diet validators that lower-case their input, and the annual
  projection. **Text** holds the ASCII `lower()` they use.
- **DetailedFood** (`categories/enhanced_food.py`): the detailed food calculation, with its
  validation loop, per-item breakdown and capped local/organic reduction.
- **Analytics** (`results/enhanced_analytics.py`): the results page. It computes shares,
  rating bands, suggestions, projections and the reduction needed to reach the Paris target.
- **Goals** (`categories/goals_tracking.py`): the goals page. It covers progress against the
  monthly target, the pie amounts, the capped recommended reductions, the progress log and
  its statistics, and goal updates.
- **Auth** (`main/utils/auth.py`, class `SimpleAuth`): the user table, kept as a class over
  a `map`.

All quantities are `real`, and flight counts are `int`. Floating-point rounding is not
modelled.

The factor module defines a per-fuel consumption table, `CAR_FUEL_CONSUMPTION`
(`main/data/emission_factors.py:15-19`), but the transport engine never reads it: the car
term (`main/core/transport.py:26`) is km times the per-km factor alone, and this model
follows that. `Transport.CarTermIgnoresConsumption` states the consequence.

## Model

| member | source | states |
|---|---|---|
| `Factors.RateOrZero` | main/core/transport.py:16-18 | a key the table lacks reads as 0; a table of non-negative factors yields a non-negative factor |
| `Factors.LoadFactors` | main/data/emission_factors.py:8-13 | loading succeeds iff transport (a table of tables), diet and energy sections are all present; the tables are those sections; a missing section is named in the error, transport before diet |
| `Factors.MissingSectionIsFatal` | main/data/emission_factors.py:11-13 | a document lacking any one of the three sections never yields tables |
| `Factors.CarFuelConsumptionShape` | main/data/emission_factors.py:15-19 | the consumption table has exactly petrol, diesel and electric, all non-negative, electric at 0 |
| `Transport.TransportEmissions` | main/core/transport.py:16-31 | succeeds iff car, bus, train, flight and the short, medium and long bands exist; a missing car table, or a missing short band, gives that key's error; a success is the four-term total |
| `Transport.ZeroInputGivesZero` | main/core/transport.py:25-31 | all-zero distances and counts give exactly 0 whatever the types |
| `Transport.SingleModeTotals` | main/core/transport.py:19-30 | each mode alone costs its quantity times its factor; flights cost each band's count times its per-flight factor |
| `Transport.TotalIsSumOfModes` | main/core/transport.py:25-30 | no cross terms: the total is the sum of the four single-mode totals |
| `Transport.UnknownTypeContributesNothing` | main/core/transport.py:16-18 | with an unknown car fuel, bus fuel or train type, changing that distance leaves the total unchanged |
| `Transport.TotalMonotone` | main/core/transport.py:25-30 | with non-negative factors, raising any distance or flight count never lowers the total |
| `Transport.TotalNonNegative` | main/core/transport.py:25-30 | non-negative factors and quantities give a non-negative total |
| `Transport.CarTermIgnoresConsumption` | main/core/transport.py:26 | an electric car with a positive factor emits more than factor × km × its 0 consumption: no consumption multiplier is applied |
| `Energy.EnergyEmissions` | main/core/energy.py:6-10 | the loop's result is the sum over all arguments of kWh × factor, 0 for an unknown source |
| `Energy.NoSourcesGiveZero` | main/core/energy.py:6-10 | a call without arguments gives 0 |
| `Energy.SumAppend` | main/core/energy.py:7-9 | the sum over two argument lists in sequence is the sum of their sums |
| `Energy.SumWithout` | main/core/energy.py:7-9 | removing one argument removes exactly its term |
| `Energy.OrderIndependent` | main/core/energy.py:7-10 | two argument lists that are permutations of each other give the same total |
| `Energy.UnknownSourceContributesNothing` | main/core/energy.py:8-9 | a source the table does not know, inserted anywhere, leaves the total unchanged |
| `Energy.ZeroKwhContributesNothing` | main/core/energy.py:9 | a source with 0 kWh, inserted anywhere, leaves the total unchanged |
| `Energy.ScalingIsLinear` | main/core/energy.py:9 | scaling every kWh value by c scales the total by c |
| `Energy.SumNonNegative` | main/core/energy.py:6-10 | non-negative factors and kWh give a non-negative total |
| `Food.FoodEmissions` | main/core/food.py:10-11 | succeeds iff the table has `average`; otherwise the error names `average` |
| `Food.KnownDiet` | main/core/food.py:10-11 | a known diet gives its own daily factor × 30 |
| `Food.UnknownDietIsAverage` | main/core/food.py:10 | an unknown diet gives exactly the result for `average` |
| `Food.AverageAlwaysRequired` | main/core/food.py:10 | even a known diet fails when `average` is absent |
| `Food.MonthIsThirtyDays` | main/core/food.py:11 | the engine's month is 30 days, not the 30.44 of the timeframe conversions |
| `Food.FoodNonNegative` | main/core/food.py:10-11 | non-negative factors give a non-negative result |
| `LegacyCalculator.CalculateTransportEmissions` | emission_calculator/calculator.py:1-9 | non-negative distances give a non-negative total |
| `LegacyCalculator.CalculateFoodEmissions` | emission_calculator/calculator.py:11-20 | a listed diet gives its factor × 30, any other 5.6 × 30; the result lies between 2.9 × 30 and 7.2 × 30 |
| `LegacyCalculator.CalculateEnergyEmissions` | emission_calculator/calculator.py:22-34 | non-negative kWh give a non-negative total |
| `LegacyCalculator.Monotone` | emission_calculator/calculator.py:1-9 | the transport sum is monotone in each distance |
| `LegacyCalculator.EnergyMonotone` | emission_calculator/calculator.py:22-34 | the energy sum is monotone in each source |
| `LegacyCalculator.UnknownDietIsAverage` | emission_calculator/calculator.py:19 | an unlisted diet gives the `average` result |
| `LegacyCalculator.PinnedValues` | tests/test_calculator.py:6-27 | the transport and food values the unit tests expect |
| `MainCalculator.CalulateTransportEmissions` | main/calculator.py:1-9 | all-zero distances give 0 |
| `MainCalculator.AgreesWithLegacy` | main/calculator.py:1-9 | the copy equals the legacy transport sum on every input |
| `MainCalculator.Monotone` | main/calculator.py:1-9 | the copy is monotone in each distance |
| `Api.CalculateEmissions` | main/api/api.py:11-40 | succeeds iff the transport keys and `average` exist; the response carries each engine's own result and their sum; a transport key error is returned as is |
| `Api.EnergyByName` | main/api/api.py:26-31 | the energy figure is the four kWh values weighted by the electricity, oil, gas and wood factors (0 when missing) |
| `Api.ResponseNonNegative` | main/api/api.py:33-40 | non-negative tables and inputs give a response with non-negative figures |
| `Timeframe.DailyToMonthly` | main/utils/timeframe_standards.py:32-34 | a non-negative daily value converts to at least itself |
| `Timeframe.WeeklyToMonthly` | main/utils/timeframe_standards.py:36-38 | a non-negative weekly value converts to at least itself |
| `Timeframe.AnnualMonthlyRoundTrip` | main/utils/timeframe_standards.py:40-46 | annual-to-monthly and monthly-to-annual undo each other in both orders |
| `Timeframe.NumericValue` | main/utils/timeframe_standards.py:65 | exactly numbers and booleans are numeric, a number reading as itself |
| `Timeframe.WarningFor` | main/utils/timeframe_standards.py:65-71 | an entry draws a warning iff it is numeric and below 0 or above 10000; it is a negative-value warning exactly for a negative entry |
| `Timeframe.ValidateTimeframeConsistency` | main/utils/timeframe_standards.py:48-77 | every entry is copied unchanged; the figures are consistent iff no entry is negative; the warnings are those of the entries, in order |
| `Timeframe.WarningsMatchEntries` | main/utils/timeframe_standards.py:64-71 | a warning is in the list iff some entry draws it |
| `Timeframe.NonNumericDrawsNoWarning` | main/utils/timeframe_standards.py:74-75 | a non-numeric entry never draws a warning |
| `Timeframe.DisplayUnit` | main/utils/timeframe_standards.py:90-97 | `/month`, `/year`, `/day` exactly for monthly, annual, daily; the bare unit for anything else |
| `Timeframe.FormatEmissionDisplay` | main/utils/timeframe_standards.py:79-97 | the formatted value, then a space, then the timeframe's unit; the timeframe defaults to monthly |
| `Timeframe.DefaultDisplayIsMonthly` | main/utils/timeframe_standards.py:79-91 | a display without a timeframe ends in the per-month unit |
| `Timeframe.GetTimeframeHelpText` | main/utils/timeframe_standards.py:99-115 | each of transport, energy and food gets its own text; the generic text is returned exactly for any other section |
| `Validators.ValidatePositiveNumber` | main/utils/validators.py:3-7 | accepts iff the value is at least 0 (zero passes); otherwise the error carries the field and value |
| `Validators.ValidateRange` | main/utils/validators.py:9-35 | accepts iff 0 ≤ value ≤ maximum; a negative value fails the sign check first, a value above the maximum fails as unusually high |
| `Validators.ValidateKmInput` | main/utils/validators.py:9-14 | accepts iff 0 ≤ km ≤ maximum; a negative distance fails as "Distance" |
| `Validators.ValidateEnergyInput` | main/utils/validators.py:16-21 | accepts iff 0 ≤ kWh ≤ maximum |
| `Validators.ValidateFlightsInput` | main/utils/validators.py:23-28 | accepts iff 0 ≤ flights ≤ maximum |
| `Validators.ValidateFoodServing` | main/utils/validators.py:30-35 | accepts iff 0 ≤ servings ≤ maximum |
| `Validators.DefaultCeilings` | main/utils/validators.py:9-30 | called without a ceiling, each validator accepts exactly 0..10000 km, 0..5000 kWh, 0..10 flights or 0..30 servings, both ends included |
| `Validators.ValidateAndShowWarning` | main/utils/validators.py:37-48 | true iff the validator accepts; the validator's error is shown iff rejected and a container is given |
| `Text.LowerChar` | main/models/emission_models.py:22 | an upper-case ASCII letter maps to the lower-case letter at the same place in the alphabet; everything else is unchanged |
| `Text.Lower` | main/models/emission_models.py:22 | same length, each character lowered |
| `Text.LowerIsIdempotent` | main/models/emission_models.py:22-24 | lowered text has no upper-case letter and lowers to itself |
| `Text.LowerOfLower` | main/models/emission_models.py:22-24 | text without upper case is left alone |
| `EmissionModels.ValidateCarFuel` | main/models/emission_models.py:19-24 | accepts iff the lower-cased fuel is petrol, diesel or electric, and stores the lower case |
| `EmissionModels.ValidateDiet` | main/models/emission_models.py:37-42 | accepts iff the lower-cased diet is one of the four, and stores the lower case |
| `EmissionModels.NormalisationIsStable` | main/models/emission_models.py:19-42 | a stored value validates again to itself |
| `EmissionModels.ValidateTransportData` | main/models/emission_models.py:7-24 | accepts iff every distance and flight count is ≥ 0 and the car fuel is allowed; the record keeps its fields with the fuel lower-cased; a rejection lists at least one field |
| `EmissionModels.BusAndTrainTypesUnchecked` | main/models/emission_models.py:11-14 | bus fuel and train type never affect acceptance and are kept as given |
| `EmissionModels.ValidateEnergyData` | main/models/emission_models.py:26-31 | accepts iff every field, an absent one read as 0, is ≥ 0; the accepted record holds exactly those four values |
| `EmissionModels.EnergyDataDefaults` | main/models/emission_models.py:28-31 | a record built from no fields is all zeros |
| `EmissionModels.AnnualProjection` | main/models/emission_models.py:52-55 | the projection converts back to the monthly total |
| `DetailedFood.BreakdownSumsToRaw` | categories/enhanced_food.py:107-143 | the nine breakdown rows add up to the unreduced total |
| `DetailedFood.MilkUsesDailyConversion` | categories/enhanced_food.py:114 | milk glasses per day are converted with the 30.44-day month |
| `DetailedFood.Reduction` | categories/enhanced_food.py:120-123 | the reduction is the smaller of the local + organic reduction and 0.25 |
| `DetailedFood.CapNeverBindsOnSliderRange` | categories/enhanced_food.py:120-123 | for percentages in 0..100 the reduction is at most 0.20, so the 0.25 cap never applies |
| `DetailedFood.DetailedFoodEmissions` | categories/enhanced_food.py:107-124 | for non-negative inputs the result lies between 75% and 100% of the unreduced total |
| `DetailedFood.RawNonNegative` | categories/enhanced_food.py:107-117 | non-negative servings give a non-negative unreduced total |
| `DetailedFood.ZeroServingsGiveZero` | categories/enhanced_food.py:107-124 | no servings give 0 whatever the percentages |
| `DetailedFood.CollectValidationErrors` | categories/enhanced_food.py:68-85 | the loop collects the lower-cased names of exactly the failing fields, in order |
| `DetailedFood.NoErrorsIffInRange` | categories/enhanced_food.py:83-85 | no field fails iff every value lies in 0..30 |
| `DetailedFood.CalculateFoodPage` | categories/enhanced_food.py:65-163 | custom mode never reaches the engine and computes the detailed result; a named diet never stops, computes exactly when the coarse engine succeeds and then returns its result, and otherwise passes the engine's error on unchanged |
| `DetailedFood.CustomModeStopsOnInvalidCounts` | categories/enhanced_food.py:67-89 | custom mode stops iff some count lies outside 0..30 |
| `DetailedFood.SliderValuesAboveThirtyStop` | categories/enhanced_food.py:28-89 | a beef count the slider offers (31 to 60) stops the page |
| `Analytics.TotalEmissions` | results/enhanced_analytics.py:34 | with non-negative categories the total is at least each of them |
| `Analytics.SharesSumToHundred` | results/enhanced_analytics.py:53 | the three percentages of a positive total add up to 100 |
| `Analytics.Percentages` | results/enhanced_analytics.py:49-54 | shares exist iff the total is positive; they add up to 100 and each is its category's percentage of the total |
| `Analytics.CarbonRating` | results/enhanced_analytics.py:91-102 | Excellent up to 167, Good up to 400, Average up to 667, High above, each an iff |
| `Analytics.RatingMonotone` | results/enhanced_analytics.py:91-102 | a larger total never gets a better rating |
| `Analytics.AnnualProjection` | results/enhanced_analytics.py:87 | the projection converts back to the monthly total |
| `Analytics.DailyAverage` | results/enhanced_analytics.py:88 | the daily average times 30 is the total |
| `Analytics.ImprovementSuggestions` | results/enhanced_analytics.py:126-139 | the appended list is exactly the ordered suggestion list of the six triggers |
| `Analytics.SuggestionTriggers` | results/enhanced_analytics.py:126-139 | each suggestion appears iff its trigger holds; there are at most six |
| `Analytics.InSuggestions` | results/enhanced_analytics.py:126-139 | any given suggestion is in the list exactly when its own trigger holds |
| `Analytics.DominantIffShareAbove40` | results/enhanced_analytics.py:127-132 | with a positive total a category draws its suggestion iff its share exceeds 40% |
| `Analytics.NotAllDominant` | results/enhanced_analytics.py:127-132 | no positive total has all three categories above 40% |
| `Analytics.ReducedBy10` | results/enhanced_analytics.py:154-155 | the scenario is 10% below the total |
| `Analytics.ReducedBy25` | results/enhanced_analytics.py:160-161 | the scenario is 25% below the total |
| `Analytics.ReductionNeeded` | results/enhanced_analytics.py:166-170 | a reduction exists iff the total exceeds 167; it lies strictly between 0 and 100 and brings the total exactly to 167 |
| `Analytics.ComparisonToGlobalAverage` | results/enhanced_analytics.py:185 | positive iff above the global average, zero iff equal |
| `Goals.CurrentTotal` | categories/goals_tracking.py:119-122 | non-negative categories give a non-negative total |
| `Goals.ProgressPct` | categories/goals_tracking.py:134-143 | progress exists iff the target is positive; it is the current total in percent of the target, above 100 iff over target |
| `Goals.ProgressPie` | categories/goals_tracking.py:147-157 | drawn iff the total is positive; under target the slices are current and remaining and add up to the target; over target they are target and excess and add up to the total |
| `Goals.Recommend` | categories/goals_tracking.py:178-199 | a recommendation exists iff the category exceeds 30% of the total; it is the smaller of its two caps |
| `Goals.Plan` | categories/goals_tracking.py:170-208 | reductions are planned iff over target; each recommendation exists iff its category exceeds 30%, and is then exactly the smaller of its two caps (40%/30%/30% of the reduction needed, 30%/25%/20% of the category); together they never exceed the reduction needed |
| `Goals.OverTargetRecommendsSomething` | categories/goals_tracking.py:170-199 | over a non-negative target at least one category draws a recommendation |
| `Goals.MakeEntry` | categories/goals_tracking.py:218-227 | the entry's total is the sum; `met_target` holds iff total ≤ target, i.e. iff the page does not show "Over Target" |
| `Goals.ProgressLog.constructor` | categories/goals_tracking.py:44-45 | the log starts empty |
| `Goals.ProgressLog.SaveCurrentProgress` | categories/goals_tracking.py:217-235 | saves iff the total is positive, appending exactly one entry and nothing else; keeps every entry well formed |
| `Goals.HistoryStatistics` | categories/goals_tracking.py:240-268 | statistics exist iff there are entries: the average times the count is the sum of totals, the success rate is the met share in percent and lies in 0..100, and a trend (last minus first) exists iff there are two or more entries |
| `Goals.CountMetCounts` | categories/goals_tracking.py:260 | the number of met targets is the number of entries flagged as met |
| `Goals.SuccessRateExtremes` | categories/goals_tracking.py:260-263 | all entries met iff the count is the length; none met iff it is 0 |
| `Goals.SumTotalsBounds` | categories/goals_tracking.py:256 | totals within [lo, hi] sum to between n·lo and n·hi |
| `Goals.AverageWithinBounds` | categories/goals_tracking.py:255-257 | the average lies between any bounds of the entries' totals |
| `Goals.SumTotalsPositive` | categories/goals_tracking.py:218-232 | well-formed entries have a positive sum of totals |
| `Goals.SavedLogHasPositiveAverage` | categories/goals_tracking.py:218-257 | a log filled by saving has a positive average |
| `Goals.InvalidFields` | categories/goals_tracking.py:81-86 | the errors list names annual and monthly target exactly when each is negative |
| `Goals.TargetWarnings` | categories/goals_tracking.py:88-92 | an annual target below 500 warns as very low, above 50000 as very high |
| `Goals.CarbonGoals.constructor` | categories/goals_tracking.py:28-41 | loaded goals are used; without them the targets are 2000 a year and 167 a month |
| `Goals.CarbonGoals.UpdateGoals` | categories/goals_tracking.py:79-111 | every outcome, a rejection included, carries the realism warnings above; rejected iff a target is negative, naming the fields; saved iff not rejected and the store accepts, and the targets change exactly then |
| `Auth.NewUser` | main/utils/auth.py:46-56 | a new record holds the hash, email and creation time, no last login and the default settings |
| `Auth.Register` | main/utils/auth.py:41-58 | succeeds iff the name is free; adds exactly that user; leaves every other user, and the whole table on refusal, unchanged |
| `Auth.CheckCredentials` | main/utils/auth.py:60-74 | succeeds iff the user exists with that hash; then only that user's last login changes, otherwise nothing |
| `Auth.Info` | main/utils/auth.py:80-86 | some record iff the user exists; it is the stored record without the password hash |
| `Auth.Merge` | main/utils/auth.py:93 | the given settings win; every other existing setting is kept |
| `Auth.UpdateSettings` | main/utils/auth.py:88-95 | succeeds iff the user exists; merges into that user's settings only |
| `Auth.RegisterThenAuthenticate` | main/utils/auth.py:41-74 | a new user can log in with its own password, which stamps its last login |
| `Auth.RegisterThenWrongPassword` | main/utils/auth.py:60-74 | a password with a different digest is refused and changes nothing |
| `Auth.RegisterTwiceFails` | main/utils/auth.py:43-44 | the second registration of a name fails and keeps the first record |
| `Auth.RegisteredInfo` | main/utils/auth.py:41-86 | a new user's info shows its email and creation time, no login and the default settings |
| `Auth.UpdateSettingsIdempotent` | main/utils/auth.py:88-95 | applying the same settings twice equals applying them once |
| `Auth.OperationsKeepDefaultKeys` | main/utils/auth.py:41-95 | registration, login and settings updates keep the three default setting keys on every record |
| `Auth.SimpleAuth.constructor` | main/utils/auth.py:17-19 | the table is the loaded one |
| `Auth.SimpleAuth.HashPassword` | main/utils/auth.py:36-39 | the digest of the password followed by the salt |
| `Auth.SimpleAuth.RegisterUser` | main/utils/auth.py:41-58 | the new table and result are those of `Register`; the email defaults to the empty string |
| `Auth.SimpleAuth.Authenticate` | main/utils/auth.py:60-74 | the new table and result are those of `CheckCredentials` on the password's digest |
| `Auth.SimpleAuth.UserExists` | main/utils/auth.py:76-78 | true iff lookup finds the user |
| `Auth.SimpleAuth.GetUserInfo` | main/utils/auth.py:80-86 | the result of `Info` on the current table |
| `Auth.SimpleAuth.UpdateUserSettings` | main/utils/auth.py:88-95 | the new table and result are those of `UpdateSettings` |

## Left out

- Reading `emission_factors.yaml`: the parsed document is a parameter. A section of the wrong shape is refused when the tables are loaded. Python would only fail at the first lookup.
- The factor values inside the YAML file are not part of this model. Properties that need them assume non-negative factors.
- IEEE floating-point rounding, and the `:.1f` / `:.2f` formatting of numbers. `Timeframe.FormatEmissionDisplay` takes the already formatted number.
- SHA-256 inside `_hash_password`: the class is given the hex-digest function.
- `datetime.now()`: the current time is a string parameter.
- The JSON file load and save of the user table (`_load_users`, `_save_users`), and the Streamlit login forms.
- Streamlit rendering, session-state plumbing, charts and CSV export on every page.
- The `auth.save_user_goals` store call: its answer is a parameter of `Goals.CarbonGoals.UpdateGoals`.
- Goals.CarbonGoals.UpdateGoals: takes any real target, while the number inputs at `categories/goals_tracking.py:57-70` only offer an annual target in 500..20000 and a monthly one in 50..2000; so neither the rejection nor either realism warning can be reached from those widgets, but all three are modelled as the code writes them.
- The goals page's `start_date` / `target_date` defaults and the `updated_date` field: they are dates from the clock.
- Display strings are reduced to tags: the suggestion texts (`Analytics.Suggestion`), the emoji rating labels such as "🟢 Excellent" (`Analytics.Rating`), the ⚠️ realism warnings of the goals page (`Goals.TargetWarning`), and the warning strings of `validate_timeframe_consistency` (`Timeframe.Warning`, which keeps the key and the value). The help texts of `Timeframe.GetTimeframeHelpText` are kept verbatim.
- The EU average of the results page's benchmark table: it only feeds a chart.
- `Text.Lower`: folds ASCII letters only; Python's `str.lower()` also folds non-ASCII letters.
- `Validators.ValidateAndShowWarning`: the `field_name` argument is not modelled, because the function never uses it. The error text is abstracted to the error's kind, field and value.
- `Timeframe.ValidateTimeframeConsistency`: the entries are a sequence with distinct keys, which is what a dictionary's items are; dictionary insertion order is that sequence order.
- `EmissionModels.ValidateTransportData`: pydantic's type coercion and its error messages are not modelled; only the bounds and the two validators are.
- The calculation date of an `EmissionReport` is not modelled.
- The interactive CLIs, the database- and Supabase-backed stores, `main/models/profile.py` and the `categories/energy.py` page are not part of this model.
