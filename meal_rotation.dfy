/** The mock meal plan both diet routes build from a pantry: day `d` takes
    its breakfast, lunch and dinner from the pantry entries at `d`, `d + 1`
    and `d + 2` modulo the pantry size, with a fixed dish for each meal when
    the entry is missing or has no name. */
module MealRotation {
  import opened Wrappers
  import opened Text

  /** A pantry element as the route reads it: `null`/`undefined`, or a value
      whose `name` property is a string or missing. */
  datatype PantryEntry = Nullish | Entry(name: Option<string>)

  datatype Meals = Meals(breakfast: string, lunch: string, dinner: string)

  /** The request body: unparseable JSON, JSON `null`, or a value whose
      `pantry` property is an array (`Some`) or anything else (`None`). */
  datatype RequestBody = Malformed | NullBody | Body(pantry: Option<seq<PantryEntry>>)

  /** The answer: `{ mode, plan }` as JSON, or the text 'Invalid' with status 400. */
  datatype Response = Json(mode: string, plan: map<string, Meals>) | Invalid

  function Status(r: Response): int {
    if r.Json? then 200 else 400
  }

  const DayPrefix: string := "Day "

  /** The key `` `Day ${d+1}` ``. */
  function DayLabel(d: nat): string {
    DayPrefix + DecimalString(d + 1)
  }

  /** Day labels of distinct days differ. */
  lemma DayLabelInjective(a: nat, b: nat)
    requires DayLabel(a) == DayLabel(b)
    ensures a == b
  {
    PrefixedDecimalInjective(DayPrefix, a + 1, b + 1);
  }

  /** An entry whose `?.name` is truthy. */
  predicate Named(e: PantryEntry) {
    e.Entry? && e.name.Some? && e.name.value != ""
  }

  /** `pantry[i % pantry.length]?.name || fallback`: on an empty pantry the
      index is `NaN` and the element `undefined`. */
  function NameOr(pantry: seq<PantryEntry>, i: nat, fallback: string): string {
    if |pantry| == 0 then fallback
    else
      var e := pantry[i % |pantry|];
      if Named(e) then e.name.value else fallback
  }

  /** The three meals of day `d`. */
  function MealsFor(pantry: seq<PantryEntry>, d: nat): Meals {
    Meals(NameOr(pantry, d, "Cereal"), NameOr(pantry, d + 1, "Salad"), NameOr(pantry, d + 2, "Rice & Veg"))
  }

  /** The plan object after its first `k` days have been assigned. */
  function PlanOf(pantry: seq<PantryEntry>, k: nat): map<string, Meals> {
    if k == 0 then map[] else PlanOf(pantry, k - 1)[DayLabel(k - 1) := MealsFor(pantry, k - 1)]
  }

  /** `samplePlanFromPantry`'s loop: `plan[`Day ${d+1}`] = {…}` for each of
      `days` days. */
  method FillPlan(pantry: seq<PantryEntry>, days: nat) returns (plan: map<string, Meals>)
    ensures plan == PlanOf(pantry, days)
  {
    plan := map[];
    for d := 0 to days
      invariant plan == PlanOf(pantry, d)
    {
      plan := plan[DayLabel(d) := MealsFor(pantry, d)];
    }
  }

  /** Every day up to `k` has its label in the plan, with its own meals. */
  lemma {:induction false} PlanOfAt(pantry: seq<PantryEntry>, k: nat, d: nat)
    requires d < k
    ensures DayLabel(d) in PlanOf(pantry, k) && PlanOf(pantry, k)[DayLabel(d)] == MealsFor(pantry, d)
  {
    if d < k - 1 {
      PlanOfAt(pantry, k - 1, d);
      if DayLabel(d) == DayLabel(k - 1) {
        DayLabelInjective(d, k - 1);
      }
    }
  }

  /** The plan has no key other than the day labels up to `k`. */
  lemma {:induction false} PlanOfKeys(pantry: seq<PantryEntry>, k: nat)
    ensures forall key :: key in PlanOf(pantry, k) ==> exists d :: 0 <= d < k && key == DayLabel(d)
  {
    if k > 0 {
      PlanOfKeys(pantry, k - 1);
    }
  }

  /** The plan has exactly `k` keys. */
  lemma {:induction false} PlanOfSize(pantry: seq<PantryEntry>, k: nat)
    ensures |PlanOf(pantry, k).Keys| == k
  {
    if k > 0 {
      var prev := PlanOf(pantry, k - 1);
      PlanOfSize(pantry, k - 1);
      PlanOfKeys(pantry, k - 1);
      if DayLabel(k - 1) in prev {
        var d :| 0 <= d < k - 1 && DayLabel(k - 1) == DayLabel(d);
        DayLabelInjective(d, k - 1);
      }
      assert PlanOf(pantry, k).Keys == prev.Keys + {DayLabel(k - 1)};
    }
  }

  /** The plan's keys are exactly "Day 1" … "Day k", one per day, and each
      day keeps the meals assigned to it. */
  lemma PlanOfDays(pantry: seq<PantryEntry>, k: nat)
    ensures |PlanOf(pantry, k).Keys| == k
    ensures forall key :: key in PlanOf(pantry, k) ==> exists d :: 0 <= d < k && key == DayLabel(d)
    ensures forall d :: 0 <= d < k ==> DayLabel(d) in PlanOf(pantry, k) && PlanOf(pantry, k)[DayLabel(d)] == MealsFor(pantry, d)
  {
    PlanOfSize(pantry, k);
    PlanOfKeys(pantry, k);
    forall d | 0 <= d < k
      ensures DayLabel(d) in PlanOf(pantry, k) && PlanOf(pantry, k)[DayLabel(d)] == MealsFor(pantry, d)
    {
      PlanOfAt(pantry, k, d);
    }
  }

  /** On a non-empty pantry of size n the meals of day d come from the entries
      at d % n, (d + 1) % n and (d + 2) % n, each falling back to its fixed
      dish exactly when that entry is nullish or has an empty or missing name. */
  lemma Rotation(pantry: seq<PantryEntry>, d: nat, i: nat)
    requires |pantry| > 0 && i < 3
    ensures var e := pantry[(d + i) % |pantry|];
      var m := MealsFor(pantry, d);
      var meal := if i == 0 then m.breakfast else if i == 1 then m.lunch else m.dinner;
      var fallback := if i == 0 then "Cereal" else if i == 1 then "Salad" else "Rice & Veg";
      (Named(e) ==> meal == e.name.value) && (!Named(e) ==> meal == fallback)
  {
  }

  /** An empty pantry gives every day the fixed dishes. */
  lemma EmptyPantryFallbacks(k: nat, d: nat)
    requires d < k
    ensures DayLabel(d) in PlanOf([], k) && PlanOf([], k)[DayLabel(d)] == Meals("Cereal", "Salad", "Rice & Veg")
  {
    PlanOfAt([], k, d);
  }

  /** The menu repeats with the pantry's size as its period. */
  lemma MenuPeriod(pantry: seq<PantryEntry>, d: nat)
    requires |pantry| > 0
    ensures MealsFor(pantry, d + |pantry|) == MealsFor(pantry, d)
  {
    var n := |pantry|;
    ModShift(d, n);
    ModShift(d + 1, n);
    ModShift(d + 2, n);
  }

  lemma ModShift(a: nat, n: nat)
    requires n > 0
    ensures (a + n) % n == a % n
  {
    var q := a / n;
    var r := a % n;
    assert a + n == (q + 1) * n + r;
    ModUnique(a + n, n, q + 1, r);
  }

  lemma {:induction false} MulAtLeast(k: int, n: int)
    requires k >= 1 && n > 0
    ensures k * n >= n
  {
    if k > 1 {
      MulAtLeast(k - 1, n);
      assert k * n == (k - 1) * n + n;
    }
  }

  /** The remainder is the unique `r` in [0, n) with x = q·n + r. */
  lemma ModUnique(x: int, n: int, q: int, r: int)
    requires n > 0 && 0 <= r < n && x == q * n + r
    ensures x % n == r
  {
    var q' := x / n;
    var r' := x % n;
    var dq := q - q';
    assert dq * n == r' - r by {
      assert q * n - q' * n == (q - q') * n;
    }
    if dq >= 1 {
      MulAtLeast(dq, n);
    } else if dq <= -1 {
      MulAtLeast(-dq, n);
    }
  }

  /** A named entry served at lunch on day d is served at breakfast on day
      d + 1, and one served at dinner is served at lunch the next day. */
  lemma NextDayShift(pantry: seq<PantryEntry>, d: nat)
    requires |pantry| > 0
    ensures Named(pantry[(d + 1) % |pantry|]) ==> MealsFor(pantry, d + 1).breakfast == MealsFor(pantry, d).lunch
    ensures Named(pantry[(d + 2) % |pantry|]) ==> MealsFor(pantry, d + 1).lunch == MealsFor(pantry, d).dinner
  {
  }

  /** `Array.isArray(pantry) && pantry.length ? pantry : []` */
  function NormalisePantry(pantry: Option<seq<PantryEntry>>): (r: seq<PantryEntry>)
    ensures pantry.Some? ==> r == pantry.value
    ensures pantry.None? ==> r == []
  {
    if pantry.Some? && |pantry.value| > 0 then pantry.value else []
  }

  /** The `POST` handler shared by both routes: parse, normalise, plan
      `days` days and label the answer with `mode`; a body that does not parse
      or has no properties to destructure is answered with status 400. */
  function PostWith(body: RequestBody, days: nat, mode: string): (r: Response)
    ensures Status(r) == 400 <==> body.Malformed? || body.NullBody?
    ensures r.Json? ==> r.mode == mode && r.plan == PlanOf(NormalisePantry(body.pantry), days)
  {
    match body
    case Malformed => Invalid
    case NullBody => Invalid
    case Body(pantry) => Json(mode, PlanOf(NormalisePantry(pantry), days))
  }

  /** Anything but an array as `pantry` is planned like an empty pantry. */
  lemma NonArrayIsEmpty(days: nat, mode: string)
    ensures PostWith(Body(None), days, mode) == PostWith(Body(Some([])), days, mode)
  {
  }
}
