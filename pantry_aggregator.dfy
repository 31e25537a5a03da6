/** Estimating the nutrients a pantry entry holds and summing them over a
    pantry (`estimate_nutrients_for_pantry_item`, `aggregate_pantry_nutrients`).
    The food record of each entry is what `get_food` returned for it. */
module PantryAggregator {
  import opened Wrappers
  import opened Rounding
  import opened Common
  import opened NutrientNormalizer
  import opened Usda

  /** A stored pantry row as the estimator reads it; `quantity` is `None` when null. */
  datatype PantryItem = PantryItem(fdcId: int, description: string, quantity: Option<real>, unitName: string)

  /** One breakdown entry: the grams available, the per-100 g values and the
      totals they scale to. */
  datatype ItemEstimate = ItemEstimate(
    fdcId: int,
    description: string,
    availableGrams: real,
    per100: Nutrients,
    total: Nutrients,
    portionGram: real)

  /** Sums over a pantry; unreported nutrients count as zero. */
  type Totals = Macros<real>

  const Zero: Totals := Macros(0.0, 0.0, 0.0, 0.0)

  datatype Aggregate = Aggregate(totals: Totals, breakdown: seq<ItemEstimate>)

  /** `pantry_item.quantity or 1.0`: a missing or zero quantity is one portion. */
  function PortionCount(quantity: Option<real>): real {
    if quantity.Some? && quantity.value != 0.0 then quantity.value else 1.0
  }

  /** `v * factor`, kept as a term of its own so that the solver does not
      rearrange the product inside `Round`. */
  function Times(v: real, factor: real): real {
    v * factor
  }

  /** `round(v * factor, 2) if v is not None else None` */
  function ScaleValue(v: Option<real>, factor: real): Option<real> {
    match v
    case None => None
    case Some(x) => Some(Round(Times(x, factor), 2))
  }

  /** Every per-100 g value scaled by `factor`, which is grams / 100. */
  function ScaleAll(per100: Nutrients, factor: real): Nutrients {
    Macros(ScaleValue(per100.calories, factor), ScaleValue(per100.protein, factor),
           ScaleValue(per100.fat, factor), ScaleValue(per100.carbs, factor))
  }

  /** The estimate of `item` from the values extracted from its record. */
  function EstimateFrom(item: PantryItem, ex: Extracted): ItemEstimate {
    var grams := PortionCount(item.quantity) * ex.portionGram;
    ItemEstimate(item.fdcId, item.description, grams, ex.per100, ScaleAll(ex.per100, grams / 100.0), ex.portionGram)
  }

  /** What `estimate_nutrients_for_pantry_item` returns for `item` given its record. */
  function Estimate(item: PantryItem, food: FoodRecord): ItemEstimate {
    EstimateFrom(item, Extract(food))
  }

  /** `estimate_nutrients_for_pantry_item`, with the looked-up record as `food`. */
  method EstimateItem(item: PantryItem, food: FoodRecord) returns (info: ItemEstimate)
    ensures info == Estimate(item, food)
  {
    var nutrients := ExtractNutrients(food);
    var qty := if item.quantity.Some? && item.quantity.value != 0.0 then item.quantity.value else 1.0;
    var portionGram := nutrients.portionGram;
    var availableGrams := qty * portionGram;
    var per100 := nutrients.per100;
    var factor := availableGrams / 100.0;
    var total := Unreported;
    KeysDistinct();
    for i := 0 to |Keys|
      invariant forall j :: 0 <= j < i ==> total.Get(Keys[j]) == ScaleValue(per100.Get(Keys[j]), factor)
    {
      var k := Keys[i];
      var v := per100.Get(k);
      var scaled := if v.Some? then Some(Round(Times(v.value, factor), 2)) else None;
      total := total.Set(k, scaled);
    }
    ScaleAllByKeys(per100, factor, total);
    info := ItemEstimate(item.fdcId, item.description, availableGrams, per100, total, portionGram);
  }

  /** A value for every key that agrees with the scaled per-100 g value is the
      scaled record. */
  lemma ScaleAllByKeys(per100: Nutrients, factor: real, total: Nutrients)
    requires forall j :: 0 <= j < |Keys| ==> total.Get(Keys[j]) == ScaleValue(per100.Get(Keys[j]), factor)
    ensures total == ScaleAll(per100, factor)
  {
    assert Keys[0] == Energy && Keys[1] == Protein && Keys[2] == Fat && Keys[3] == Carbs;
  }

  /** The per-100 g value of `k`, scaled. */
  lemma ScaleAllGet(per100: Nutrients, factor: real, k: NutrientKey)
    ensures ScaleAll(per100, factor).Get(k) == ScaleValue(per100.Get(k), factor)
  {
  }

  lemma ScaleByHundredth(x: real, grams: real)
    ensures Times(x, grams / 100.0) == x * grams / 100.0
  {
  }

  /** A total is reported exactly when its per-100 g value is, and then lies
      within 0.005 of the per-100 g value scaled to the available grams. */
  lemma EstimateScalesPer100(item: PantryItem, ex: Extracted, k: NutrientKey)
    ensures var e := EstimateFrom(item, ex);
      (e.total.Get(k).None? <==> e.per100.Get(k).None?) &&
      (e.per100.Get(k).Some? ==>
        var exact := e.per100.Get(k).value * e.availableGrams / 100.0;
        -0.005 <= e.total.Get(k).value - exact <= 0.005)
  {
    var e := EstimateFrom(item, ex);
    var factor := e.availableGrams / 100.0;
    ScaleAllGet(e.per100, factor, k);
    if e.per100.Get(k).Some? {
      var x := e.per100.Get(k).value;
      RoundIsClose(Times(x, factor), 2);
      ScaleByHundredth(x, e.availableGrams);
      assert HalfUlp(2) == 0.005;
    }
  }

  /** Portions times a reference portion above 5 g: one portion for a missing
      or zero count, and otherwise the count itself, whatever its sign. */
  lemma PortionGrams(quantity: Option<real>, portionGram: real)
    requires portionGram > 5.0
    ensures quantity.None? || quantity == Some(0.0) ==> PortionCount(quantity) * portionGram == portionGram
    ensures quantity.Some? && quantity.value > 0.0 ==> PortionCount(quantity) * portionGram == quantity.value * portionGram > 0.0
    ensures quantity.Some? && quantity.value < 0.0 ==> PortionCount(quantity) * portionGram < 0.0
    ensures quantity.Some? && quantity.value != 0.0 ==> PortionCount(quantity) * portionGram == quantity.value * portionGram
  {
    if quantity.Some? && quantity.value < 0.0 {
      assert (-quantity.value) * portionGram > 0.0;
    }
  }

  /** The grams available: a missing or zero quantity counts as one reference
      portion (so more than 5 g); any other one, negative included, scales it
      as it is, so a negative quantity gives negative grams. */
  lemma AvailableGramsFromQuantity(item: PantryItem, food: FoodRecord)
    ensures var e := Estimate(item, food);
      e.portionGram == Extract(food).portionGram &&
      (item.quantity.None? || item.quantity == Some(0.0) ==> e.availableGrams == e.portionGram && e.availableGrams > 5.0) &&
      (item.quantity.Some? && item.quantity.value > 0.0 ==> e.availableGrams == item.quantity.value * e.portionGram > 0.0) &&
      (item.quantity.Some? && item.quantity.value < 0.0 ==> e.availableGrams < 0.0) &&
      (item.quantity.Some? && item.quantity.value != 0.0 ==> e.availableGrams == item.quantity.value * e.portionGram)
  {
    PortionGramAboveFive(food);
    PortionGrams(item.quantity, Extract(food).portionGram);
  }

  /** Sum of one nutrient over a breakdown, unreported totals counting as zero. */
  function SumReported(breakdown: seq<ItemEstimate>, k: NutrientKey): real {
    if breakdown == [] then 0.0
    else SumReported(breakdown[..|breakdown| - 1], k) + breakdown[|breakdown| - 1].total.Get(k).GetOr(0.0)
  }

  /** The error of the first failed lookup, if any. */
  function FirstFailure(lookups: seq<Result<FoodRecord, ClientError>>): Option<ClientError> {
    if lookups == [] then None
    else if lookups[0].Failure? then Some(lookups[0].error)
    else FirstFailure(lookups[1..])
  }

  predicate AllFound(lookups: seq<Result<FoodRecord, ClientError>>) {
    forall i :: 0 <= i < |lookups| ==> lookups[i].Success?
  }

  /** The estimates of all entries, in input order. */
  function Breakdown(items: seq<PantryItem>, lookups: seq<Result<FoodRecord, ClientError>>): seq<ItemEstimate>
    requires |items| == |lookups| && AllFound(lookups)
  {
    if items == [] then []
    else
      var n := |items| - 1;
      Breakdown(items[..n], lookups[..n]) + [Estimate(items[n], lookups[n].value)]
  }

  lemma {:induction false} BreakdownLength(items: seq<PantryItem>, lookups: seq<Result<FoodRecord, ClientError>>)
    requires |items| == |lookups| && AllFound(lookups)
    ensures |Breakdown(items, lookups)| == |items|
  {
    if items != [] {
      var n := |items| - 1;
      BreakdownLength(items[..n], lookups[..n]);
    }
  }

  lemma {:induction false} BreakdownAt(items: seq<PantryItem>, lookups: seq<Result<FoodRecord, ClientError>>, i: nat)
    requires |items| == |lookups| && AllFound(lookups) && i < |items|
    ensures |Breakdown(items, lookups)| == |items|
    ensures Breakdown(items, lookups)[i] == Estimate(items[i], lookups[i].value)
  {
    var n := |items| - 1;
    var b := Breakdown(items[..n], lookups[..n]);
    assert Breakdown(items, lookups) == b + [Estimate(items[n], lookups[n].value)];
    BreakdownLength(items[..n], lookups[..n]);
    if i < n {
      BreakdownAt(items[..n], lookups[..n], i);
      assert items[..n][i] == items[i] && lookups[..n][i] == lookups[i];
    }
  }

  function RoundedTotals(breakdown: seq<ItemEstimate>): Totals {
    Macros(Round(SumReported(breakdown, Energy), 2), Round(SumReported(breakdown, Protein), 2),
           Round(SumReported(breakdown, Fat), 2), Round(SumReported(breakdown, Carbs), 2))
  }

  /** What `aggregate_pantry_nutrients` returns, or the first lookup error it raises. */
  function AggregateOf(items: seq<PantryItem>, lookups: seq<Result<FoodRecord, ClientError>>): Result<Aggregate, ClientError>
    requires |items| == |lookups|
  {
    if !AllFound(lookups) then Failure(FirstFailure(lookups).GetOr(InvalidId))
    else
      var breakdown := Breakdown(items, lookups);
      Success(Aggregate(RoundedTotals(breakdown), breakdown))
  }

  /** The inner `for k in agg` loop: add each reported total to its sum. */
  method AddReported(agg: Totals, tot: Nutrients) returns (sum: Totals)
    ensures forall k :: sum.Get(k) == agg.Get(k) + tot.Get(k).GetOr(0.0)
  {
    sum := agg;
    KeysDistinct();
    for ki := 0 to |Keys|
      invariant forall j :: 0 <= j < ki ==> sum.Get(Keys[j]) == agg.Get(Keys[j]) + tot.Get(Keys[j]).GetOr(0.0)
      invariant forall j :: ki <= j < |Keys| ==> sum.Get(Keys[j]) == agg.Get(Keys[j])
    {
      var k := Keys[ki];
      var val := tot.Get(k);
      if val.Some? {
        sum := sum.Set(k, sum.Get(k) + val.value);
      }
    }
    assert Keys[0] == Energy && Keys[1] == Protein && Keys[2] == Fat && Keys[3] == Carbs;
  }

  /** `aggregate_pantry_nutrients`: estimate each entry in order, add the
      reported totals, and round the four sums at the end. A failed lookup
      aborts the whole aggregation. `lookups[i]` is what `get_food` gave for `items[i]`. */
  method AggregatePantry(items: seq<PantryItem>, lookups: seq<Result<FoodRecord, ClientError>>)
    returns (r: Result<Aggregate, ClientError>)
    requires |items| == |lookups|
    ensures r == AggregateOf(items, lookups)
  {
    var agg := Zero;
    var breakdown: seq<ItemEstimate> := [];
    for i := 0 to |items|
      invariant AllFound(lookups[..i])
      invariant FirstFailure(lookups) == FirstFailure(lookups[i..])
      invariant breakdown == Breakdown(items[..i], lookups[..i])
      invariant forall k :: agg.Get(k) == SumReported(breakdown, k)
    {
      if lookups[i].Failure? {
        FailureAborts(items, lookups, i);
        return Failure(lookups[i].error);
      }
      assert lookups[i..][1..] == lookups[i + 1..];
      var info := EstimateItem(items[i], lookups[i].value);
      agg := AddReported(agg, info.total);
      BreakdownStep(items, lookups, i, info);
      SumReportedLast(breakdown, info);
      breakdown := breakdown + [info];
    }
    assert items[..|items|] == items;
    assert lookups[..|items|] == lookups;
    agg := Macros(Round(agg.calories, 2), Round(agg.protein, 2), Round(agg.fat, 2), Round(agg.carbs, 2));
    r := Success(Aggregate(agg, breakdown));
    assert agg == RoundedTotals(breakdown) by {
      assert forall k :: agg.Get(k) == Round(SumReported(breakdown, k), 2);
    }
  }

  lemma BreakdownStep(items: seq<PantryItem>, lookups: seq<Result<FoodRecord, ClientError>>, i: nat, info: ItemEstimate)
    requires |items| == |lookups| && i < |lookups| && AllFound(lookups[..i]) && lookups[i].Success?
    requires info == Estimate(items[i], lookups[i].value)
    ensures AllFound(lookups[..i + 1])
    ensures Breakdown(items[..i + 1], lookups[..i + 1]) == Breakdown(items[..i], lookups[..i]) + [info]
  {
    assert items[..i + 1][..i] == items[..i];
    assert lookups[..i + 1][..i] == lookups[..i];
  }

  /** One more estimate adds its reported totals to the sums. */
  lemma SumReportedLast(b: seq<ItemEstimate>, info: ItemEstimate)
    ensures forall k :: SumReported(b + [info], k) == SumReported(b, k) + info.total.Get(k).GetOr(0.0)
  {
    forall k
      ensures SumReported(b + [info], k) == SumReported(b, k) + info.total.Get(k).GetOr(0.0)
    {
      SumReportedAppend(b, [info], k);
      assert SumReported([info], k) == SumReported([], k) + info.total.Get(k).GetOr(0.0) by {
        assert [info][..0] == [];
      }
    }
  }

  lemma FailureAborts(items: seq<PantryItem>, lookups: seq<Result<FoodRecord, ClientError>>, i: nat)
    requires |items| == |lookups| && i < |lookups| && lookups[i].Failure?
    requires FirstFailure(lookups) == FirstFailure(lookups[i..])
    ensures AggregateOf(items, lookups) == Failure(lookups[i].error)
  {
    assert !AllFound(lookups);
  }

  lemma {:induction false} FirstFailureFound(lookups: seq<Result<FoodRecord, ClientError>>)
    ensures FirstFailure(lookups).None? <==> AllFound(lookups)
    ensures FirstFailure(lookups).Some? ==>
      exists i :: 0 <= i < |lookups| && lookups[i] == Failure(FirstFailure(lookups).value) && AllFound(lookups[..i])
  {
    if lookups != [] {
      FirstFailureFound(lookups[1..]);
      if lookups[0].Success? && FirstFailure(lookups[1..]).Some? {
        var i :| 0 <= i < |lookups| - 1 && lookups[1..][i] == Failure(FirstFailure(lookups[1..]).value) && AllFound(lookups[1..][..i]);
        assert lookups[i + 1] == lookups[1..][i];
        assert lookups[..i + 1] == [lookups[0]] + lookups[1..][..i];
      }
    }
  }

  /** Fail-fast: the aggregation fails exactly when some lookup failed, and then
      with the error of the first one; otherwise the breakdown has one estimate
      per entry, in input order. */
  lemma AggregateFailsFast(items: seq<PantryItem>, lookups: seq<Result<FoodRecord, ClientError>>)
    requires |items| == |lookups|
    ensures AggregateOf(items, lookups).Failure? <==> exists i :: 0 <= i < |lookups| && lookups[i].Failure?
    ensures AggregateOf(items, lookups).Failure? ==>
      exists i :: 0 <= i < |lookups| && lookups[i] == Failure(AggregateOf(items, lookups).error) && AllFound(lookups[..i])
    ensures AggregateOf(items, lookups).Success? ==>
      var b := AggregateOf(items, lookups).value.breakdown;
      |b| == |items| &&
      forall i :: 0 <= i < |items| ==> b[i].fdcId == items[i].fdcId && b[i] == Estimate(items[i], lookups[i].value)
  {
    FirstFailureFound(lookups);
    if AllFound(lookups) {
      forall i | 0 <= i < |items|
        ensures |Breakdown(items, lookups)| == |items|
        ensures Breakdown(items, lookups)[i] == Estimate(items[i], lookups[i].value)
      {
        BreakdownAt(items, lookups, i);
      }
      if items == [] {
        assert |Breakdown(items, lookups)| == 0;
      }
    }
  }

  /** An unreported total adds nothing; a reported one adds its value. */
  lemma {:induction false} SumReportedAppend(xs: seq<ItemEstimate>, ys: seq<ItemEstimate>, k: NutrientKey)
    ensures SumReported(xs + ys, k) == SumReported(xs, k) + SumReported(ys, k)
  {
    if ys == [] {
      assert xs + ys == xs;
    } else {
      assert (xs + ys)[..|xs + ys| - 1] == xs + ys[..|ys| - 1];
      SumReportedAppend(xs, ys[..|ys| - 1], k);
    }
  }

  /** Every per-entry total non-negative makes every pantry total non-negative. */
  lemma {:induction false} SumReportedNonNegative(breakdown: seq<ItemEstimate>, k: NutrientKey)
    requires forall i :: 0 <= i < |breakdown| ==> breakdown[i].total.Get(k).GetOr(0.0) >= 0.0
    ensures SumReported(breakdown, k) >= 0.0
    ensures Round(SumReported(breakdown, k), 2) >= 0.0
  {
    if breakdown != [] {
      SumReportedNonNegative(breakdown[..|breakdown| - 1], k);
    }
    RoundNonNegative(SumReported(breakdown, k), 2);
  }

  /** The two-entry example: 200 kcal with no protein, plus no calories with
      10 g protein, totals 200 kcal and 10 g protein. */
  lemma NullsCountAsZero(a: ItemEstimate, b: ItemEstimate)
    requires a.total.calories == Some(200.0) && a.total.protein == None
    requires b.total.calories == None && b.total.protein == Some(10.0)
    ensures RoundedTotals([a, b]).calories == 200.0
    ensures RoundedTotals([a, b]).protein == 10.0
  {
    assert [a, b][..1] == [a];
    assert [a][..0] == [];
    assert SumReported([a], Energy) == 200.0;
    assert SumReported([a, b], Energy) == 200.0;
    assert SumReported([a], Protein) == 0.0;
    assert SumReported([a, b], Protein) == 10.0;
    WholeNumberOnGrid(200);
    WholeNumberOnGrid(10);
    RoundOnGridIsIdentity(200.0, 2);
    RoundOnGridIsIdentity(10.0, 2);
  }

  lemma WholeNumberOnGrid(n: int)
    ensures OnGrid(n as real, 2)
  {
    assert Pow10(2) == 100;
    assert Units(n as real, 2) == (100 * n) as real;
    WholeOfInt(100 * n);
  }

  /** Every total of an estimate is on the 0.01 grid (an unreported one counting as 0). */
  lemma EstimateTotalsOnGrid(item: PantryItem, ex: Extracted, k: NutrientKey)
    ensures OnGrid(EstimateFrom(item, ex).total.Get(k).GetOr(0.0), 2)
  {
    var e := EstimateFrom(item, ex);
    var factor := e.availableGrams / 100.0;
    ScaleAllGet(e.per100, factor, k);
    if e.per100.Get(k).Some? {
      RoundIsOnGrid(Times(e.per100.Get(k).value, factor), 2);
    } else {
      WholeNumberOnGrid(0);
    }
  }

  lemma {:induction false} SumReportedOnGrid(breakdown: seq<ItemEstimate>, k: NutrientKey)
    requires forall i :: 0 <= i < |breakdown| ==> OnGrid(breakdown[i].total.Get(k).GetOr(0.0), 2)
    ensures OnGrid(SumReported(breakdown, k), 2)
  {
    if breakdown == [] {
      WholeNumberOnGrid(0);
    } else {
      var n := |breakdown| - 1;
      SumReportedOnGrid(breakdown[..n], k);
      OnGridAdd(SumReported(breakdown[..n], k), breakdown[n].total.Get(k).GetOr(0.0), 2);
    }
  }

  /** Every entry's totals are already rounded to two places, so on exact
      reals the final rounding of the four sums changes nothing. */
  lemma FinalRoundingIsExact(items: seq<PantryItem>, lookups: seq<Result<FoodRecord, ClientError>>, k: NutrientKey)
    requires |items| == |lookups| && AllFound(lookups)
    ensures AggregateOf(items, lookups).value.totals.Get(k) == SumReported(AggregateOf(items, lookups).value.breakdown, k)
  {
    var b := Breakdown(items, lookups);
    BreakdownLength(items, lookups);
    forall i | 0 <= i < |b|
      ensures OnGrid(b[i].total.Get(k).GetOr(0.0), 2)
    {
      BreakdownAt(items, lookups, i);
      EstimateTotalsOnGrid(items[i], Extract(lookups[i].value), k);
    }
    SumReportedOnGrid(b, k);
    RoundOnGridIsIdentity(SumReported(b, k), 2);
  }

  /** A one-entry pantry totals exactly its entry's rounded totals: rounding
      them a second time changes nothing. */
  lemma SingleItemTotals(item: PantryItem, food: FoodRecord, k: NutrientKey)
    ensures AggregateOf([item], [Success(food)]).Success?
    ensures AggregateOf([item], [Success(food)]).value.totals.Get(k) == Estimate(item, food).total.Get(k).GetOr(0.0)
  {
    var e := Estimate(item, food);
    var lookups: seq<Result<FoodRecord, ClientError>> := [Success(food)];
    assert AllFound(lookups);
    assert Breakdown([item], lookups) == [e] by {
      assert [item][..0] == [] && lookups[..0] == [];
    }
    assert SumReported([e], k) == e.total.Get(k).GetOr(0.0) by {
      assert [e][..0] == [];
    }
    var factor := e.availableGrams / 100.0;
    ScaleAllGet(e.per100, factor, k);
    if e.per100.Get(k).Some? {
      RoundIdempotent(Times(e.per100.Get(k).value, factor), 2);
    } else {
      WholeNumberOnGrid(0);
      RoundOnGridIsIdentity(0.0, 2);
    }
  }

  /** An empty pantry aggregates to zero totals and an empty breakdown, not an error. */
  lemma EmptyPantryIsZero()
    ensures AggregateOf([], []) == Success(Aggregate(Zero, []))
  {
    assert Round(0.0, 2) == 0.0 by {
      assert Pow10(2) == 100;
    }
  }
}
