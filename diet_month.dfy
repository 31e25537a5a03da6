/** The monthly mock plan route (`/api/diet/month`). */
module DietMonth {
  import opened MealRotation

  const Days: nat := 30

  /** `samplePlanFromPantry`: thirty days of rotating meals. */
  method SamplePlanFromPantry(pantry: seq<PantryEntry>) returns (plan: map<string, Meals>)
    ensures |plan.Keys| == 30
    ensures forall d :: 0 <= d < 30 ==> DayLabel(d) in plan && plan[DayLabel(d)] == MealsFor(pantry, d)
    ensures forall key :: key in plan ==> exists d :: 0 <= d < 30 && key == DayLabel(d)
  {
    plan := FillPlan(pantry, Days);
    PlanOfDays(pantry, Days);
  }

  /** `POST`: answers `{ mode: 'monthly', plan }` with the plan of the
      normalised pantry, or status 400 when the body cannot be read. */
  function Post(body: RequestBody): (r: Response)
    ensures Status(r) == 400 <==> body.Malformed? || body.NullBody?
    ensures r.Json? ==> (r.mode == "monthly" && |r.plan.Keys| == 30 &&
      forall d :: 0 <= d < 30 ==> DayLabel(d) in r.plan && r.plan[DayLabel(d)] == MealsFor(NormalisePantry(body.pantry), d))
  {
    var r := PostWith(body, Days, "monthly");
    if r.Json? then PlanOfDays(NormalisePantry(body.pantry), Days); r else r
  }
}
