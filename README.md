# Pantry nutrition core, modelled in Dafny

This project models the computational core of a pantry-based diet planner:

- **Nutrient normalisation** (`NutrientNormalizer`). This covers classifying USDA nutrient names into calories, protein, fat and carbohydrate. It also covers pulling per-100 g values and a reference portion out of a food record.
- **Pantry estimation and aggregation** (`PantryAggregator`). Each pantry entry's grams and nutrient totals are estimated, then summed over the pantry. The first failed lookup aborts the aggregation.
- **The greedy seven-day allocator** (`GreedyPlanner`). It rotates through a copied inventory toward a daily calorie goal.
- **Body-metric targets** (`PyHealthify`): BMI, Mifflin–St Jeor BMR, the activity multiplier, the goal adjustment and the 25/25/50 macro split.
- **The USDA client's expiring cache and `get_food`** (`Usda`). The client is a class whose `cache` map the methods update. The clock readings and the provider's HTTP response are parameters.
- **The front end's mock meal-plan routes** (`MealRotation`, `DietWeek`, `DietMonth`). These build rotating 7-day and 30-day plans from a pantry and normalise the `POST` body.

Three support modules are shared: `Common` (the four tracked nutrients, a record with one value per nutrient, and Python truthiness of optional strings and numbers), `Text` (ASCII lower-casing, Python `strip`, substring tests, decimal rendering) and `Rounding` (Python `round` on exact reals).

Where the code works by updating state, the model is imperative. Examples are the nutrient and portion loops, the aggregation loop, the planner's day loop, the cache, and the plan-filling loop. Each such method is proved equal to a specification function, and the properties are proved as lemmas about that function.

The model of `plan_daily_from_targets` stops at nutrition_planner.py:177, where the number of grams to take is known. The update that follows (add the nutrients, lower the stock, record the item) is `GreedyPlanner.AssumedTake`, written from the function's docstring at nutrition_planner.py:141-146 rather than derived from statements. Every result below that speaks of recorded items, day totals or stock after a take depends on that assumed step.

Behaviours of the code that the model states explicitly:

- **The worked profile.** For 70 kg, 175 cm, 30 years, male, sedentary, the formula at pyhealthify.py:12 gives a BMR of 1648.75, reported as 1648.8, and 1978.5 kcal (`PyHealthify.ExampleProfile`).
- **Empty inventory.** Aggregating no entries returns zero totals with an empty breakdown, not an error (`PantryAggregator.EmptyPantryIsZero`); planning over no items returns seven days with no items (`GreedyPlanner.EmptyPantryPlansEmptyDays`). The API handlers in pantry.py:95-96 and pantry.py:127-128 reject an empty pantry before either is called.
- **Negative quantities.** Only a zero or missing quantity is replaced by one portion. A negative quantity is multiplied by the portion mass like any other and gives negative grams (`PantryAggregator.AvailableGramsFromQuantity`).

## Model

| member | source | states |
|---|---|---|
| NutrientNormalizer.MatchNutrientName | be/app/services/nutrition_planner.py:13-15 | An empty or missing name is never classified. |
| NutrientNormalizer.MatchIsClassifyOfLower | be/app/services/nutrition_planner.py:13-26 | For a non-empty name, classification equals the keyword rules applied to the lower-cased name. The rules are tried in order: energy with kcal or calorie, then protein, then lipid or fat, then carb. Stripping and the repeated kcal test never change the outcome. |
| NutrientNormalizer.CarbohydrateMentionsCarb | be/app/services/nutrition_planner.py:24 | Any name containing "carbohydrate" contains "carb", so the carbohydrate test adds nothing. |
| NutrientNormalizer.KilojouleEnergyIsUnclassified | be/app/services/nutrition_planner.py:18 | "Energy (kJ)" is not classified as calories: the energy rule needs a kcal or calorie mention. |
| NutrientNormalizer.KilojouleLineUnclassified | be/app/services/nutrition_planner.py:18-26 | A lower-cased name with no a, c, f, l or p, such as "energy (kj)", matches none of the four rules. |
| NutrientNormalizer.KeywordLettersAbsent | be/app/services/nutrition_planner.py:13-26 | A non-empty name with none of those letters in either case is not classified. |
| NutrientNormalizer.FattyAcidsAreFat | be/app/services/nutrition_planner.py:22-23 | "Fatty acids, total saturated" is classified as fat. |
| NutrientNormalizer.FattyAcidLineIsFat | be/app/services/nutrition_planner.py:18-23 | A lower-cased name starting with "fat" with no g and no p, such as the fatty-acid line, fails the energy and protein rules and hits the fat rule. |
| NutrientNormalizer.FatLeadingNameIsFat | be/app/services/nutrition_planner.py:13-23 | The same holds for a name in any letter case. |
| NutrientNormalizer.ExtractNutrients | be/app/services/nutrition_planner.py:28-74 | The imperative extraction equals `Extract`. Each bucket holds the amount of the last entry that has an amount and classifies into it. The portion is the first qualifying gram weight, else 100. |
| NutrientNormalizer.LastAmountAppend | be/app/services/nutrition_planner.py:39-57 | Later entries overwrite earlier ones: a bucket takes its value from the suffix whenever an entry there feeds it. |
| NutrientNormalizer.LastAmountNoneIff | be/app/services/nutrition_planner.py:36-57 | A bucket stays None exactly when no entry with an amount classifies into it. |
| NutrientNormalizer.LastAmountIsLastFeeder | be/app/services/nutrition_planner.py:39-57 | A reported bucket holds the amount of a feeding entry that no later feeding entry follows. |
| NutrientNormalizer.FirstQualifyingIsFirst | be/app/services/nutrition_planner.py:59-67 | The portion scan returns the gram weight of the first portion that is a non-zero number above 5. It returns None only when no portion qualifies. |
| NutrientNormalizer.PortionGramAboveFive | be/app/services/nutrition_planner.py:59-72 | The reference portion is always above 5 g. It is exactly 100 when no portion qualifies, or when the first qualifying one weighs 100. |
| NutrientNormalizer.NothingUsableNormalisesToDefaults | be/app/services/nutrition_planner.py:36-74 | A record with no usable entry and no qualifying portion gives four Nones and a 100 g portion. |
| PantryAggregator.EstimateItem | be/app/services/nutrition_planner.py:91-119 | The imperative estimate equals `Estimate`. Each total is the per-100 g value scaled by available grams / 100 and rounded to 2 places, or None. |
| PantryAggregator.EstimateScalesPer100 | be/app/services/nutrition_planner.py:106-111 | For any extracted values, a total is None exactly when its per-100 g value is. Otherwise it lies within 0.005 of value × grams / 100. |
| PantryAggregator.PortionGrams | be/app/services/nutrition_planner.py:95-98 | With a reference portion above 5 g: a missing or zero count gives one portion. Any other count, negative included, gives count × portion, so a positive count gives positive grams and a negative one negative grams. |
| PantryAggregator.AvailableGramsFromQuantity | be/app/services/nutrition_planner.py:95-98 | A missing or zero quantity gives one portion, which is above 5 g. Any other quantity gives quantity × portion_gram. So a positive quantity gives positive grams, and a negative one is not corrected and gives negative grams. |
| PantryAggregator.AddReported | be/app/services/nutrition_planner.py:129-133 | The inner loop adds each reported total to its running sum and leaves a sum unchanged for a None total. |
| PantryAggregator.AggregatePantry | be/app/services/nutrition_planner.py:121-137 | The imperative aggregation equals `AggregateOf`. That is the first lookup error if any lookup failed. Otherwise it is the rounded sums of the reported totals, with the breakdown in input order. |
| PantryAggregator.AggregateFailsFast | be/app/services/nutrition_planner.py:121-137 | The aggregation fails exactly when some lookup failed, with the first failure's error. On success the breakdown has one estimate per item, in order, with matching ids. |
| PantryAggregator.FirstFailureFound | be/app/services/nutrition_planner.py:127-128 | The first failure is None exactly when all lookups succeeded. Otherwise it is the error of a failed lookup preceded only by successes. |
| PantryAggregator.BreakdownAt | be/app/services/nutrition_planner.py:127-134 | Breakdown entry i is the estimate of item i. |
| PantryAggregator.SumReportedAppend | be/app/services/nutrition_planner.py:127-133 | The running sum over a concatenation is the sum of the sums. |
| PantryAggregator.SumReportedNonNegative | be/app/services/nutrition_planner.py:130-136 | Non-negative item totals give non-negative pantry totals, before and after rounding. |
| PantryAggregator.NullsCountAsZero | be/app/services/nutrition_planner.py:131-133 | Take 200 kcal with no protein, plus no calories with 10 g protein. The totals are 200 kcal and 10 g: a None adds nothing. |
| PantryAggregator.EstimateTotalsOnGrid | be/app/services/nutrition_planner.py:111 | Every total of an estimate is a whole number of hundredths (an unreported one counts as 0). |
| PantryAggregator.SumReportedOnGrid | be/app/services/nutrition_planner.py:126-133 | A sum of totals that are whole hundredths is a whole number of hundredths. |
| PantryAggregator.FinalRoundingIsExact | be/app/services/nutrition_planner.py:135-136 | When every lookup succeeds, each rounded pantry total equals the unrounded sum: on exact reals the final rounding changes nothing, because every item total is already rounded to two places. |
| PantryAggregator.SingleItemTotals | be/app/services/nutrition_planner.py:125-137 | A one-entry pantry succeeds and each of its totals equals that entry's own rounded total (0 when unreported): the second rounding at line 136 changes nothing. |
| PantryAggregator.EmptyPantryIsZero | be/app/services/nutrition_planner.py:125-137 | An empty pantry succeeds with all-zero totals and an empty breakdown. |
| GreedyPlanner.DailyCaloriesFallback | be/app/services/nutrition_planner.py:148 | The goal is the first truthy value among nutrition calories, top-level calories and 2000, so it is never 0. It is 2000 exactly when a source that is used says 2000, or when both sources are missing or 0. |
| GreedyPlanner.TakeGrams | be/app/services/nutrition_planner.py:175-176 | The take is the minimum of the portion (100 when the portion is 0) and the stock. |
| GreedyPlanner.TakeWithinStock | be/app/services/nutrition_planner.py:172-176 | For an item with at least 1 g left, the take never exceeds the stock. The take is at least 1 g whenever the portion is at least 1 g or unset. |
| GreedyPlanner.AssumedTake | be/app/services/nutrition_planner.py:141-146 | Assumed step: records the item with its grams and lowers that item's stock by the grams. No other row changes, and the cursor and attempt count stay as they were. |
| GreedyPlanner.Attempt | be/app/services/nutrition_planner.py:168-176 | Every pass of the loop body advances the cursor and the attempt count by one. An item with less than 1 g left is skipped with nothing else changed. |
| GreedyPlanner.PlanDay | be/app/services/nutrition_planner.py:161-176 | One day's imperative loop equals `RunDay` from the day's start state. The cursor starts at day % max(1, n), with no items and zero totals. |
| GreedyPlanner.PlanDailyFromTargets | be/app/services/nutrition_planner.py:139-177 | The imperative planner equals `Plan`. It copies the breakdown into an inventory, then runs seven days, each from the stock the previous day left. |
| GreedyPlanner.PlanHasSevenDays | be/app/services/nutrition_planner.py:159-160 | There are always exactly seven days, and the inventory keeps one row per breakdown entry. |
| GreedyPlanner.RunDayBounds | be/app/services/nutrition_planner.py:164-171 | A day stops only once the goal is reached or 4n attempts are made, and never exceeds 4n. The cursor moves once per attempt. At most one item is recorded per attempt (assumed step). |
| GreedyPlanner.DaysAreBounded | be/app/services/nutrition_planner.py:164-168 | Every day records at most 4n items. A non-positive goal or an empty inventory yields a day with no items and zero totals. |
| GreedyPlanner.EmptyPantryPlansEmptyDays | be/app/services/nutrition_planner.py:167-168 | An empty inventory gives seven empty days and no division by zero. |
| GreedyPlanner.AttemptKeepsStock | be/app/services/nutrition_planner.py:168-176 | One attempt keeps every row's identity and portion. It never raises a stock whose portion is non-negative, and never makes a non-negative stock negative (assumed step). |
| GreedyPlanner.RunDayKeepsStock | be/app/services/nutrition_planner.py:164-176 | The same over a whole day (assumed step). |
| GreedyPlanner.DaysKeepStock | be/app/services/nutrition_planner.py:159-176 | The same across all planned days (assumed step). |
| GreedyPlanner.PlanOverPantry | be/app/services/nutrition_planner.py:139-176 | Planned from an aggregated pantry, every day has at most 4 items per pantry entry. Each inventory row keeps its item's id and never ends with more grams than the estimate gave it (assumed step). When no pantry quantity is negative, no stock ends negative (assumed step). |
| GreedyPlanner.InventoryNonNegative | be/app/services/nutrition_planner.py:95-98 | A pantry with no negative quantity gives an inventory whose starting grams are all non-negative. |
| PyHealthify.CalcBmi | be/app/services/pyhealthify.py:3-7 | BMI is 0 for a missing, zero or negative height. A usable height with a missing weight fails. |
| PyHealthify.BmiTimesHeightSquared | be/app/services/pyhealthify.py:6-7 | For a positive height, BMI × h × h with h in metres gives back the weight. A non-negative weight gives a non-negative BMI. |
| PyHealthify.Bmr | be/app/services/pyhealthify.py:9-12 | The Mifflin–St Jeor BMR: 10·weight + 6.25·height − 5·age, then +5 for a gender that lower-cases to "male" and −161 for anything else. |
| PyHealthify.BmrSexTerm | be/app/services/pyhealthify.py:9-12 | A man's BMR exceeds anyone else's of the same build by exactly 166. The sex test ignores letter case, and a missing or empty gender is not male. |
| PyHealthify.ActivityMultiplier | be/app/services/pyhealthify.py:14-21 | The multiplier always lies in [1.2, 1.725]. |
| PyHealthify.ActivityTable | be/app/services/pyhealthify.py:14-21 | The four levels give 1.2, 1.375, 1.55 and 1.725, as written and in any letter case. A missing level gives 1.2. |
| PyHealthify.ActivityCaseInsensitive | be/app/services/pyhealthify.py:15 | Any level gives the same multiplier as its lower-cased form. |
| PyHealthify.CalorieTarget | be/app/services/pyhealthify.py:23-29 | For a non-negative BMR the target lies between 1.2·BMR − 500 and 1.725·BMR + 300, the extremes of the multiplier table and the goal shift. |
| PyHealthify.GoalAdjustment | be/app/services/pyhealthify.py:23-29 | The goal shifts maintenance calories by −500 exactly for "lose", by +300 exactly for "gain", and by 0 for any other string, case-sensitively. |
| PyHealthify.MacrosFromCalories | be/app/services/pyhealthify.py:31-36 | All four figures are whole numbers of tenths: each is rounded to one decimal. |
| PyHealthify.MacrosSupplyCalories | be/app/services/pyhealthify.py:31-36 | Before rounding, protein × 4 + fat × 9 + carbs × 4 gives back the calories when the shares sum to 1. After rounding, each figure is within 0.05 of its exact value. |
| PyHealthify.NutritionProfileFromUser | be/app/services/pyhealthify.py:38-49 | The profile succeeds exactly when weight and height are present and age is not None. |
| PyHealthify.ProfileDefaults | be/app/services/pyhealthify.py:42-44 | Missing age, gender and activity act as 30, "male" and "sedentary". A None gender is not male, and a None age is an error. A None activity level acts like a missing one and gives the 1.2 multiplier. |
| PyHealthify.DefaultMacrosClose | be/app/services/pyhealthify.py:31-36 | The default split gives cal/16 g protein, cal/36 g fat and cal/8 g carbohydrate, each within 0.05 after rounding. |
| PyHealthify.ProfileNutrition | be/app/services/pyhealthify.py:45-49 | The profile's BMI is calc_bmi's value rounded to one decimal, within 0.05 of it. Its nutrition is the default split of the goal-adjusted BMR × multiplier. BMR, calories and grams are each within 0.05 of exact, with protein cal/16, fat cal/36 and carbs cal/8. |
| PyHealthify.ExampleProfile | be/app/services/pyhealthify.py:38-49 | 70 kg, 175 cm, 30, male, sedentary, maintain gives BMI 22.9, BMR 1648.8, 1978.5 kcal, 123.7 g protein, 55.0 g fat and 247.3 g carbs. |
| Usda.UsdaClient.constructor | be/app/services/usda_client.py:14 | A new client starts with an empty cache. |
| Usda.UsdaClient.CacheGet | be/app/services/usda_client.py:17-27 | The read equals `CacheLookup`: a miss for a missing key, eviction and a miss for a stale entry, and the stored value otherwise. |
| Usda.UsdaClient.CacheSet | be/app/services/usda_client.py:29-30 | The key maps to (now, value) and every other key is unchanged. |
| Usda.UsdaClient.GetFood | be/app/services/usda_client.py:50-80 | The result and the new cache equal `Lookup`: id check, cache read, 404, non-2xx status, non-JSON or non-object body, and caching of a successful object. |
| Usda.CacheLookupTouchesOnlyKey | be/app/services/usda_client.py:17-27 | A cache read never adds, removes or changes any other key. |
| Usda.CacheExpiry | be/app/services/usda_client.py:15-27 | An entry at most 3600 s old is served as stored and left in place. An older one is evicted and reported as a miss. |
| Usda.SetThenGet | be/app/services/usda_client.py:17-30 | A read within the TTL of a write returns the written value. |
| Usda.FoodKeyInjective | be/app/services/usda_client.py:56 | Distinct ids never share a cache key. |
| Usda.InvalidIdTouchesNothing | be/app/services/usda_client.py:53-54 | A missing or non-positive id fails with the cache untouched, whatever the provider would answer. |
| Usda.CacheHitIgnoresProvider | be/app/services/usda_client.py:56-59 | A fresh non-empty cached record is returned as is, whatever the provider would answer. |
| Usda.OnlySuccessIsCached | be/app/services/usda_client.py:64-80 | Every failure leaves the cache as the read left it. A cache change happens only for a 2xx JSON object, which is then stored under its key at the write time. |
| Usda.ProviderErrors | be/app/services/usda_client.py:66-77 | On a cache miss: 404 is NotFound, and any other non-2xx status is RequestFailed. A 2xx response succeeds exactly when its body is a JSON object. |
| Usda.FetchThenHit | be/app/services/usda_client.py:56-80 | After a fetched non-empty record, asking again within the TTL returns the same record from the cache, whatever the provider says. |
| MealRotation.FillPlan | fe/app/api/diet/week/route.ts:5-17 | The imperative plan-filling loop equals `PlanOf` for the given number of days. |
| MealRotation.DayLabelInjective | fe/app/api/diet/week/route.ts:10 | Distinct days get distinct "Day n" keys. |
| MealRotation.PlanOfAt | fe/app/api/diet/week/route.ts:9-14 | Every day's key is present with that day's meals: a later day never overwrites an earlier one. |
| MealRotation.PlanOfKeys | fe/app/api/diet/week/route.ts:9-14 | The plan has no key other than "Day 1" … "Day k". |
| MealRotation.PlanOfSize | fe/app/api/diet/week/route.ts:9-14 | The plan has exactly k keys. |
| MealRotation.PlanOfDays | fe/app/api/diet/week/route.ts:7-14 | Keys exactly "Day 1" … "Day k", k of them, each with its day's meals. |
| MealRotation.Rotation | fe/app/api/diet/week/route.ts:11-13 | On a non-empty pantry of size n, breakfast, lunch and dinner of day d are the names at d%n, (d+1)%n and (d+2)%n. A meal falls back to 'Cereal', 'Salad' or 'Rice & Veg' exactly when its entry is nullish or has an empty or missing name. |
| MealRotation.EmptyPantryFallbacks | fe/app/api/diet/week/route.ts:11-13 | An empty pantry gives every day Cereal, Salad and Rice & Veg. |
| MealRotation.MenuPeriod | fe/app/api/diet/month/route.ts:10-12 | The menu repeats every n days. |
| MealRotation.NextDayShift | fe/app/api/diet/month/route.ts:10-12 | A named entry at lunch on day d is breakfast on day d+1, and one at dinner is lunch on day d+1. |
| MealRotation.NormalisePantry | fe/app/api/diet/week/route.ts:23 | An array is used as given, including an empty one. A non-array becomes []. |
| MealRotation.PostWith | fe/app/api/diet/week/route.ts:20-28 | The status is 400 exactly for an unparseable or null body. Otherwise the answer carries the mode and the plan of the normalised pantry. |
| MealRotation.NonArrayIsEmpty | fe/app/api/diet/week/route.ts:22-23 | A pantry that is not an array is planned exactly like an empty one. |
| DietWeek.SamplePlanFromPantry | fe/app/api/diet/week/route.ts:5-17 | Exactly 7 keys, "Day 1" … "Day 7", each with the rotating meals of its day. |
| DietWeek.Post | fe/app/api/diet/week/route.ts:20-28 | The status is 400 exactly for an unreadable body. Otherwise mode 'weekly' and 7 days planned from the normalised pantry. |
| DietMonth.SamplePlanFromPantry | fe/app/api/diet/month/route.ts:5-16 | Exactly 30 keys, "Day 1" … "Day 30", each with the rotating meals of its day. |
| DietMonth.Post | fe/app/api/diet/month/route.ts:19-27 | The status is 400 exactly for an unreadable body. Otherwise mode 'monthly' and 30 days planned from the normalised pantry. |
| Text.StripLowerKeepsWords | be/app/services/nutrition_planner.py:16 | A keyword occurs in the stripped, lower-cased name exactly when it occurs in the lower-cased name. |
| Rounding.RoundIsClose | be/app/services/nutrition_planner.py:111 | `round(x, p)` moves x by at most half a unit in the p-th place. |
| Rounding.RoundIsOnGrid | be/app/services/nutrition_planner.py:111 | `round(x, p)` is a whole number of units in the p-th decimal place. |
| Rounding.RoundOnGridIsIdentity | be/app/services/nutrition_planner.py:136 | A value that is a whole number of units in the p-th place is unchanged by `round(x, p)`. |
| Rounding.OnGridAdd | be/app/services/nutrition_planner.py:133 | Adding two whole numbers of units gives a whole number of units. |
| Rounding.RoundIdempotent | be/app/services/nutrition_planner.py:136 | Rounding an already rounded value changes nothing. |

## Left out

- GreedyPlanner.AssumedTake: the model stops at nutrition_planner.py:177. The nutrient accumulation, stock decrement and recorded item are taken from the docstring at nutrition_planner.py:141-146 and assumed, not derived. So are the returned structure (per-day items and totals plus the remaining inventory) and the use of None as 0 in the day totals.
- GreedyPlanner.RunDayBounds, GreedyPlanner.DaysAreBounded, GreedyPlanner.AttemptKeepsStock, GreedyPlanner.RunDayKeepsStock, GreedyPlanner.DaysKeepStock, GreedyPlanner.PlanOverPantry: their statements about recorded items and stock rest on the assumed step above.
- GreedyPlanner.PlanDailyFromTargets: `meals_per_day` is not used by the visible part of the function and is not a parameter. A `nutrition` key holding None, which would fail in the source, is not modelled; `nutrition` is either absent or a dict.
- Python floats: all arithmetic is on exact reals. `round` rounds the exact decimal value half to even, whereas Python rounds the binary float, whose exact value is rarely a tie.
- PyHealthify.CalcBmi: computes `weight / (h * h)` as two divisions by `h`, which is the same quotient on exact reals.
- Text.Lower: lower-cases ASCII letters only, whereas Python's and JavaScript's lower-casing covers all of Unicode.
- `unit` (nutrition_planner.py:42) and `NUTRIENT_KEY_ALIASES` are never used by the code. The constant `per_gram_multiplier` entry of the extraction result is never read and is not modelled.
- NutrientNormalizer.ExtractNutrients: a food record is modelled as lists of nutrient entries only. The code's type errors on other shapes are not modelled. A `labelNutrients` that is a JSON object (as FDC branded foods give it) would be iterated over its string keys, and `n.get` then raises AttributeError. An entry whose `nutrient` is null, or whose name is not a string, makes `nutrient.get` or `.strip()` raise. `Option<seq<NutrientEntry>>` cannot represent these, so the model never raises there.
- `float(amount)` on a non-numeric amount is not modelled: amounts are reals or missing. A JSON boolean gram weight is modelled as not a number, which the scan also rejects.
- The HTTP transport of the client is not modelled: `httpx`, the API key, URLs, the timeout and `search_foods`. The provider's answer is a `Response` parameter.
- `time.time()` is not modelled: the two readings in `get_food` (cache read, cache write) are the `readAt` and `writeAt` parameters.
- `estimate_nutrients_for_pantry_item` calls `get_food` through the client. In the model, each item's lookup result is passed in, and a failed lookup aborts the aggregation as the raised exception would.
- In the routes, a pantry element's `name` is either a string or missing. A truthy non-string name (a number, an object) is not modelled. Key order of the JSON plan object is not modelled (a map). Response headers are not modelled.
- Type errors in the user dict other than `None` (for example a string weight) are not modelled. Fields are numbers, strings, `None` or absent.
