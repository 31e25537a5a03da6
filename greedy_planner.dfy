/** The greedy seven-day allocator `plan_daily_from_targets`.

    The loop that picks items is modelled statement by statement, up to the
    point where the grams to take are known (nutrition_planner.py:177). What
    the allocator does next (add the nutrients, lower the stock, record the
    item) is `AssumedTake`, written after the function's own description:
    per-day items, estimated totals and a simulated remaining inventory. Every result below that mentions the
    recorded items, the day totals or the stock after a take rests on that
    assumed step and says so. */
module GreedyPlanner {
  import opened Wrappers
  import opened Common
  import opened NutrientNormalizer
  import opened PantryAggregator

  /** `targets["nutrition"]`, when present: only its `calories` is read. */
  datatype NutritionTargets = NutritionTargets(calories: Option<real>)

  /** The planner's `targets` dict: a `nutrition` sub-dict and a top-level `calories`. */
  datatype PlanTargets = PlanTargets(nutrition: Option<NutritionTargets>, calories: Option<real>)

  /** One row of the local inventory copy. */
  datatype StockItem = StockItem(
    fdcId: int,
    description: string,
    availableGrams: real,
    per100: Nutrients,
    portionGram: real)

  /** An allocation recorded for a day (assumed step). */
  datatype Taken = Taken(fdcId: int, description: string, grams: real)

  /** A finished day: the allocations and their estimated totals (assumed step). */
  datatype DayPlan = DayPlan(items: seq<Taken>, totals: Totals)

  /** The state of one day's `while` loop. */
  datatype DayState = DayState(
    used: seq<Taken>,
    totals: Totals,
    inventory: seq<StockItem>,
    cursor: nat,
    attempts: nat)

  /** `targets.get("nutrition", {}).get("calories") or targets.get("calories") or 2000` */
  function DailyCalories(t: PlanTargets): real {
    if t.nutrition.Some? && TruthyNumber(t.nutrition.value.calories) then t.nutrition.value.calories.value
    else if TruthyNumber(t.calories) then t.calories.value
    else 2000.0
  }

  /** The daily goal is the first truthy source in the order nutrition
      calories, top-level calories, 2000; so it is never zero, and a target
      from a later source is used only when every earlier one is missing or 0. */
  lemma DailyCaloriesFallback(t: PlanTargets)
    ensures DailyCalories(t) != 0.0
    ensures t.nutrition.Some? && TruthyNumber(t.nutrition.value.calories) ==> DailyCalories(t) == t.nutrition.value.calories.value
    ensures DailyCalories(t) == 2000.0 <==>
      (t.nutrition.Some? && t.nutrition.value.calories == Some(2000.0)) ||
      (!(t.nutrition.Some? && TruthyNumber(t.nutrition.value.calories)) && t.calories == Some(2000.0)) ||
      (!(t.nutrition.Some? && TruthyNumber(t.nutrition.value.calories)) && !TruthyNumber(t.calories))
  {
  }

  /** The inventory row copied from one breakdown entry. */
  function StockOf(b: ItemEstimate): StockItem {
    StockItem(b.fdcId, b.description, b.availableGrams, b.per100, b.portionGram)
  }

  function InventoryOf(breakdown: seq<ItemEstimate>): seq<StockItem> {
    seq(|breakdown|, i requires 0 <= i < |breakdown| => StockOf(breakdown[i]))
  }

  /** `item["portion_gram"] or 100.0` */
  function PortionOr100(portionGram: real): real {
    if portionGram != 0.0 then portionGram else 100.0
  }

  /** `min(pg, item["available_grams"])`: the grams proposed for one portion. */
  function TakeGrams(item: StockItem): (g: real)
    ensures g <= item.availableGrams && g <= PortionOr100(item.portionGram)
    ensures g == item.availableGrams || g == PortionOr100(item.portionGram)
  {
    var pg := PortionOr100(item.portionGram);
    if item.availableGrams < pg then item.availableGrams else pg
  }

  /** A take from an item with at least 1 g left is at least 1 g whenever the
      item's portion is at least 1 g or unset, and the item's stock, lowered
      by the take, stays non-negative. */
  lemma TakeWithinStock(item: StockItem)
    requires item.availableGrams >= 1.0
    ensures item.availableGrams - TakeGrams(item) >= 0.0
    ensures item.portionGram >= 1.0 || item.portionGram == 0.0 ==> TakeGrams(item) >= 1.0
  {
  }

  /** Each per-100 g value scaled by `factor` and added to `totals`; an
      unreported value adds nothing. */
  function AddScaled(totals: Totals, per100: Nutrients, factor: real): (r: Totals)
    ensures forall k :: r.Get(k) == totals.Get(k) + per100.Get(k).GetOr(0.0) * factor
  {
    Macros(totals.calories + per100.calories.GetOr(0.0) * factor,
           totals.protein + per100.protein.GetOr(0.0) * factor,
           totals.fat + per100.fat.GetOr(0.0) * factor,
           totals.carbs + per100.carbs.GetOr(0.0) * factor)
  }

  /** ASSUMED STEP, standing for the statements that follow the choice of
      `take_grams`: the item's nutrients for the grams taken are added to the
      day's totals, its stock is lowered by those grams, and the allocation is
      recorded. Nothing else in the state changes. */
  function AssumedTake(st: DayState, idx: nat, grams: real): (r: DayState)
    requires idx < |st.inventory|
    ensures |r.inventory| == |st.inventory| && r.cursor == st.cursor && r.attempts == st.attempts
    ensures r.used == st.used + [Taken(st.inventory[idx].fdcId, st.inventory[idx].description, grams)]
    ensures r.inventory[idx] == st.inventory[idx].(availableGrams := st.inventory[idx].availableGrams - grams)
    ensures forall i :: 0 <= i < |r.inventory| && i != idx ==> r.inventory[i] == st.inventory[i]
  {
    var item := st.inventory[idx];
    st.(used := st.used + [Taken(item.fdcId, item.description, grams)],
        totals := AddScaled(st.totals, item.per100, grams / 100.0),
        inventory := st.inventory[idx := item.(availableGrams := item.availableGrams - grams)])
  }

  /** One pass of the `while` body: look at the item under the cursor, advance
      the cursor and the attempt count, skip an item with less than 1 g left,
      otherwise take one portion of it. */
  function Attempt(st: DayState): (r: DayState)
    requires |st.inventory| > 0
    ensures |r.inventory| == |st.inventory|
    ensures r.cursor == st.cursor + 1 && r.attempts == st.attempts + 1
    ensures st.inventory[st.cursor % |st.inventory|].availableGrams < 1.0 ==>
      r == st.(cursor := st.cursor + 1, attempts := st.attempts + 1)
  {
    var idx := st.cursor % |st.inventory|;
    var item := st.inventory[idx];
    var next := st.(cursor := st.cursor + 1, attempts := st.attempts + 1);
    if item.availableGrams < 1.0 then next
    else AssumedTake(next, idx, TakeGrams(item))
  }

  /** The attempt cap of one day: `len(inventory) * 4`. */
  function Cap(st: DayState): nat {
    |st.inventory| * 4
  }

  /** The day's `while` loop run to its end from `st`. */
  function RunDay(goal: real, st: DayState): (r: DayState)
    ensures |r.inventory| == |st.inventory|
    decreases Cap(st) - st.attempts
  {
    if st.totals.calories < goal && st.attempts < Cap(st) then RunDay(goal, Attempt(st))
    else st
  }

  /** Day `day` starts with nothing used, zero totals, and the cursor at
      `day % max(1, len(inventory))`. */
  function StartOfDay(inventory: seq<StockItem>, day: nat): DayState {
    DayState([], Zero, inventory, day % (if |inventory| > 1 then |inventory| else 1), 0)
  }

  /** The first `k` days and the inventory left after them. */
  function Days(goal: real, inventory: seq<StockItem>, k: nat): (r: (seq<DayPlan>, seq<StockItem>))
    ensures |r.0| == k && |r.1| == |inventory|
  {
    if k == 0 then ([], inventory)
    else
      var prev := Days(goal, inventory, k - 1);
      var st := RunDay(goal, StartOfDay(prev.1, k - 1));
      (prev.0 + [DayPlan(st.used, st.totals)], st.inventory)
  }

  /** `plan_daily_from_targets`: seven days planned from the daily goal. */
  function Plan(targets: PlanTargets, breakdown: seq<ItemEstimate>): (seq<DayPlan>, seq<StockItem>) {
    Days(DailyCalories(targets), InventoryOf(breakdown), 7)
  }

  /** `plan_daily_from_targets`: copy the breakdown into a local inventory,
      then for each of seven days run the rotating greedy loop. */
  method PlanDailyFromTargets(targets: PlanTargets, breakdown: seq<ItemEstimate>)
    returns (plan: seq<DayPlan>, inventory: seq<StockItem>)
    ensures (plan, inventory) == Plan(targets, breakdown)
  {
    var dailyCal := DailyCalories(targets);
    inventory := [];
    for i := 0 to |breakdown|
      invariant inventory == InventoryOf(breakdown[..i])
    {
      inventory := inventory + [StockOf(breakdown[i])];
    }
    assert breakdown[..|breakdown|] == breakdown;
    ghost var inventory0 := inventory;
    plan := [];
    for day := 0 to 7
      invariant (plan, inventory) == Days(dailyCal, inventory0, day)
    {
      var finished := PlanDay(dailyCal, inventory, day);
      plan := plan + [DayPlan(finished.used, finished.totals)];
      inventory := finished.inventory;
    }
  }

  /** One iteration of `for day in range(7)`: the rotating greedy `while`
      loop, from the cursor `day % max(1, len(inventory))` until the calorie
      goal is reached or `4 * len(inventory)` attempts are made. */
  method PlanDay(goal: real, inventory0: seq<StockItem>, day: nat) returns (st: DayState)
    ensures st == RunDay(goal, StartOfDay(inventory0, day))
  {
    var used: seq<Taken> := [];
    var dayTotals := Zero;
    var inventory := inventory0;
    var n := |inventory|;
    var invIndex: nat := day % (if n > 1 then n else 1);
    var attempts: nat := 0;
    while dayTotals.calories < goal && attempts < n * 4
      invariant |inventory| == n
      invariant RunDay(goal, DayState(used, dayTotals, inventory, invIndex, attempts)) == RunDay(goal, StartOfDay(inventory0, day))
      decreases n * 4 - attempts
    {
      var idx := invIndex % n;
      var item := inventory[idx];
      invIndex := invIndex + 1;
      attempts := attempts + 1;
      if item.availableGrams < 1.0 {
        continue;
      }
      var pg := if item.portionGram != 0.0 then item.portionGram else 100.0;
      var takeGrams := if item.availableGrams < pg then item.availableGrams else pg;
      var next := AssumedTake(DayState(used, dayTotals, inventory, invIndex, attempts), idx, takeGrams);
      used, dayTotals, inventory := next.used, next.totals, next.inventory;
    }
    st := DayState(used, dayTotals, inventory, invIndex, attempts);
  }

  /** The plan always has exactly seven days, and the inventory it hands back
      has one row per breakdown entry. */
  lemma PlanHasSevenDays(targets: PlanTargets, breakdown: seq<ItemEstimate>)
    ensures |Plan(targets, breakdown).0| == 7
    ensures |Plan(targets, breakdown).1| == |breakdown|
  {
  }

  /** A day's loop stops only because the calorie goal is reached or the
      attempts are used up, never goes past `4 * len(inventory)` attempts,
      moves the cursor once per attempt, and records at most one item per
      attempt (the last rests on the assumed step). */
  lemma {:induction false} RunDayBounds(goal: real, st: DayState)
    requires st.attempts <= Cap(st)
    ensures var r := RunDay(goal, st);
      st.attempts <= r.attempts <= Cap(st) &&
      r.cursor - st.cursor == r.attempts - st.attempts &&
      !(r.totals.calories < goal && r.attempts < Cap(st)) &&
      |st.used| <= |r.used| <= |st.used| + (r.attempts - st.attempts) &&
      r.used[..|st.used|] == st.used
    decreases Cap(st) - st.attempts
  {
    if st.totals.calories < goal && st.attempts < Cap(st) {
      var next := Attempt(st);
      RunDayBounds(goal, next);
      var r := RunDay(goal, next);
      assert |st.used| <= |next.used| <= |st.used| + 1 && next.used[..|st.used|] == st.used;
      assert r.used[..|st.used|] == r.used[..|next.used|][..|st.used|];
    }
  }

  /** No row of the inventory has negative stock. */
  predicate StockNonNegative(inventory: seq<StockItem>) {
    forall i :: 0 <= i < |inventory| ==> inventory[i].availableGrams >= 0.0
  }

  /** Items that stay put: fdc id, description, per-100 g values and portion
      of every row are as before; only the stock may differ, and it is never
      higher when no portion is negative. */
  predicate SameItemsNoMoreStock(before: seq<StockItem>, after: seq<StockItem>) {
    |before| == |after| &&
    forall i :: 0 <= i < |before| ==>
      after[i].(availableGrams := before[i].availableGrams) == before[i] &&
      (before[i].portionGram >= 0.0 ==> after[i].availableGrams <= before[i].availableGrams)
  }

  /** One attempt keeps the items, never raises a stock whose portion is
      non-negative, and never makes a non-negative stock negative (assumed step). */
  lemma AttemptKeepsStock(st: DayState)
    requires |st.inventory| > 0
    ensures SameItemsNoMoreStock(st.inventory, Attempt(st).inventory)
    ensures StockNonNegative(st.inventory) ==> StockNonNegative(Attempt(st).inventory)
  {
    var idx := st.cursor % |st.inventory|;
    var item := st.inventory[idx];
    if item.availableGrams >= 1.0 {
      TakeWithinStock(item);
    }
  }

  lemma SameItemsNoMoreStockTrans(a: seq<StockItem>, b: seq<StockItem>, c: seq<StockItem>)
    requires SameItemsNoMoreStock(a, b) && SameItemsNoMoreStock(b, c)
    ensures SameItemsNoMoreStock(a, c)
  {
    forall i | 0 <= i < |a|
      ensures c[i].(availableGrams := a[i].availableGrams) == a[i]
      ensures a[i].portionGram >= 0.0 ==> c[i].availableGrams <= a[i].availableGrams
    {
      assert b[i].portionGram == a[i].portionGram;
    }
  }

  /** Over a whole day: same items, stock never raised where the portion is
      non-negative, and non-negative stock stays non-negative (assumed step). */
  lemma {:induction false} RunDayKeepsStock(goal: real, st: DayState)
    ensures SameItemsNoMoreStock(st.inventory, RunDay(goal, st).inventory)
    ensures StockNonNegative(st.inventory) ==> StockNonNegative(RunDay(goal, st).inventory)
    decreases Cap(st) - st.attempts
  {
    if st.totals.calories < goal && st.attempts < Cap(st) {
      var next := Attempt(st);
      AttemptKeepsStock(st);
      RunDayKeepsStock(goal, next);
      SameItemsNoMoreStockTrans(st.inventory, next.inventory, RunDay(goal, next).inventory);
    }
  }

  /** Across all the days planned so far the inventory keeps its items, no
      stock with a non-negative portion goes up, and stock that started
      non-negative stays so (assumed step). */
  lemma {:induction false} DaysKeepStock(goal: real, inventory: seq<StockItem>, k: nat)
    ensures SameItemsNoMoreStock(inventory, Days(goal, inventory, k).1)
    ensures StockNonNegative(inventory) ==> StockNonNegative(Days(goal, inventory, k).1)
  {
    if k == 0 {
      assert SameItemsNoMoreStock(inventory, inventory);
    } else {
      DaysKeepStock(goal, inventory, k - 1);
      var prev := Days(goal, inventory, k - 1);
      RunDayKeepsStock(goal, StartOfDay(prev.1, k - 1));
      SameItemsNoMoreStockTrans(inventory, prev.1, Days(goal, inventory, k).1);
    }
  }

  /** Each planned day records at most `4 * len(inventory)` items (assumed
      step), and a day with a non-positive goal records none. */
  lemma {:induction false} DaysAreBounded(goal: real, inventory: seq<StockItem>, k: nat, d: nat)
    requires d < k
    ensures |Days(goal, inventory, k).0[d].items| <= 4 * |inventory|
    ensures goal <= 0.0 || |inventory| == 0 ==> Days(goal, inventory, k).0[d] == DayPlan([], Zero)
  {
    var prev := Days(goal, inventory, k - 1);
    if d < k - 1 {
      DaysAreBounded(goal, inventory, k - 1, d);
      assert Days(goal, inventory, k).0[d] == prev.0[d];
    } else {
      RunDayBounds(goal, StartOfDay(prev.1, k - 1));
    }
  }

  /** An empty pantry plans seven days with no items and zero totals, and
      there is no division by zero on the way. */
  lemma EmptyPantryPlansEmptyDays(targets: PlanTargets)
    ensures Plan(targets, []).0 == seq(7, _ => DayPlan([], Zero))
  {
    forall d | 0 <= d < 7
      ensures Plan(targets, []).0[d] == DayPlan([], Zero)
    {
      DaysAreBounded(DailyCalories(targets), [], 7, d);
    }
  }

  /** The planner over the breakdown of a pantry: every day is bounded by four
      attempts per pantry entry, stock never rises (every breakdown portion is
      positive) and, when the pantry's quantities are non-negative, stays
      non-negative (assumed step). */
  lemma PlanOverPantry(targets: PlanTargets, items: seq<PantryItem>, lookups: seq<Result<FoodRecord, Usda.ClientError>>)
    requires |items| == |lookups| && AggregateOf(items, lookups).Success?
    ensures var b := AggregateOf(items, lookups).value.breakdown;
      var p := Plan(targets, b);
      (forall d :: 0 <= d < 7 ==> |p.0[d].items| <= 4 * |items|) &&
      |p.1| == |items| &&
      (forall i :: 0 <= i < |items| ==> p.1[i].availableGrams <= b[i].availableGrams && p.1[i].fdcId == items[i].fdcId) &&
      ((forall i :: 0 <= i < |items| ==> items[i].quantity.GetOr(0.0) >= 0.0) ==> StockNonNegative(p.1))
  {
    var b := AggregateOf(items, lookups).value.breakdown;
    AggregateFailsFast(items, lookups);
    var inv := InventoryOf(b);
    var goal := DailyCalories(targets);
    forall d | 0 <= d < 7
      ensures |Plan(targets, b).0[d].items| <= 4 * |items|
    {
      DaysAreBounded(goal, inv, 7, d);
    }
    DaysKeepStock(goal, inv, 7);
    forall i | 0 <= i < |items|
      ensures inv[i].portionGram >= 0.0 && inv[i].fdcId == items[i].fdcId
    {
      PortionGramAboveFive(lookups[i].value);
    }
    if forall i :: 0 <= i < |items| ==> items[i].quantity.GetOr(0.0) >= 0.0 {
      InventoryNonNegative(items, lookups);
    }
  }

  /** A pantry without negative quantities gives an inventory without negative stock. */
  lemma InventoryNonNegative(items: seq<PantryItem>, lookups: seq<Result<FoodRecord, Usda.ClientError>>)
    requires |items| == |lookups| && AggregateOf(items, lookups).Success?
    requires forall i :: 0 <= i < |items| ==> items[i].quantity.GetOr(0.0) >= 0.0
    ensures StockNonNegative(InventoryOf(AggregateOf(items, lookups).value.breakdown))
  {
    var b := AggregateOf(items, lookups).value.breakdown;
    AggregateFailsFast(items, lookups);
    forall i | 0 <= i < |items|
      ensures InventoryOf(b)[i].availableGrams >= 0.0
    {
      AvailableGramsFromQuantity(items[i], lookups[i].value);
    }
  }
}
