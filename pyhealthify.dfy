/** Body metrics and daily nutrition targets from a user's profile: BMI, the
    Mifflin–St Jeor basal metabolic rate, the activity multiplier, the goal
    adjustment and the 25/25/50 macro split. */
module PyHealthify {
  import opened Wrappers
  import opened Text
  import opened Rounding
  import opened Common

  /** One value read from the user dict: the key may be missing, hold `None`,
      or hold a value. */
  datatype Field<T> = Absent | Null | Present(value: T)

  /** `calc_bmi`: 0.0 when the height is missing, zero or negative; otherwise
      weight in kg over the square of the height in metres (written as two
      divisions by the height, which on exact reals is the same quotient).
      The weight is read only when the height is usable. */
  function CalcBmi(weight: Option<real>, height: Option<real>): (r: Result<real, ProfileError>)
    ensures !TruthyNumber(height) || height.value <= 0.0 ==> r == Success(0.0)
    ensures TruthyNumber(height) && height.value > 0.0 && weight.None? ==> r.Failure?
  {
    if !TruthyNumber(height) || height.value <= 0.0 then Success(0.0)
    else if weight.None? then Failure(TypeError)
    else
      var h := height.value / 100.0;
      Success(weight.value / h / h)
  }

  /** BMI undoes itself: multiplied back twice by the height in metres `h`
      it gives the weight, and a non-negative weight has a non-negative BMI. */
  lemma BmiTimesHeightSquared(weight: real, height: real, h: real)
    requires height > 0.0 && h == height / 100.0
    ensures CalcBmi(Some(weight), Some(height)).Success?
    ensures CalcBmi(Some(weight), Some(height)).value * h * h == weight
    ensures weight >= 0.0 ==> CalcBmi(Some(weight), Some(height)).value >= 0.0
  {
    DivideBack(weight, h);
    DivideBack(weight / h, h);
  }

  lemma DivideBack(x: real, d: real)
    requires d > 0.0
    ensures (x / d) * d == x
    ensures x >= 0.0 ==> x / d >= 0.0
  {
  }

  /** The sex term: `gender and gender.lower() == "male"`. */
  predicate IsMale(gender: Option<string>) {
    gender.Some? && gender.value != "" && Lower(gender.value) == "male"
  }

  /** The error the source raises when a needed number is `None`. */
  datatype ProfileError = TypeError

  /** `bmr_mifflin_segor`: 10·weight + 6.25·height − 5·age, plus 5 for men and
      −161 otherwise. */
  function Bmr(weight: real, height: real, age: real, gender: Option<string>): (r: real)
    ensures r - (10.0 * weight + 6.25 * height - 5.0 * age) == (if IsMale(gender) then 5.0 else -161.0)
  {
    var s := if IsMale(gender) then 5.0 else -161.0;
    10.0 * weight + 6.25 * height - 5.0 * age + s
  }

  /** The formula differs by exactly 166 kcal between a man and anyone else
      of the same build, and the sex test ignores letter case; a missing or
      empty gender counts as not male. */
  lemma BmrSexTerm(weight: real, height: real, age: real, g1: Option<string>, g2: Option<string>)
    ensures IsMale(g1) && !IsMale(g2) ==> Bmr(weight, height, age, g1) - Bmr(weight, height, age, g2) == 166.0
    ensures g1.Some? && g2.Some? && Lower(g1.value) == Lower(g2.value) ==> Bmr(weight, height, age, g1) == Bmr(weight, height, age, g2)
    ensures g1.None? || g1 == Some("") ==> !IsMale(g1)
  {
    if g1.Some? && g2.Some? && Lower(g1.value) == Lower(g2.value) {
      assert |g1.value| == |Lower(g1.value)| == |g2.value|;
    }
  }

  /** `activity_multiplier`: the table looked up under `(level or "").lower()`,
      1.2 for anything not in it. */
  function ActivityMultiplier(level: Option<string>): (r: real)
    ensures 1.2 <= r <= 1.725
  {
    var key := Lower(level.GetOr(""));
    if key == "sedentary" then 1.2
    else if key == "light" then 1.375
    else if key == "moderate" then 1.55
    else if key == "active" then 1.725
    else 1.2
  }

  /** A string with no upper-case ASCII letter is its own lower case. */
  lemma {:induction false} LowerOfLowercase(s: string)
    requires forall i :: 0 <= i < |s| ==> !('A' <= s[i] <= 'Z')
    ensures Lower(s) == s
  {
    assert forall i :: 0 <= i < |s| ==> Lower(s)[i] == s[i];
  }

  /** The four table entries, reached whatever the letter case, and the
      default for a missing level. */
  lemma ActivityTable(level: string)
    ensures ActivityMultiplier(Some("sedentary")) == 1.2
    ensures ActivityMultiplier(Some("light")) == 1.375
    ensures ActivityMultiplier(Some("moderate")) == 1.55
    ensures ActivityMultiplier(Some("active")) == 1.725
    ensures Lower(level) == "sedentary" ==> ActivityMultiplier(Some(level)) == 1.2
    ensures Lower(level) == "light" ==> ActivityMultiplier(Some(level)) == 1.375
    ensures Lower(level) == "moderate" ==> ActivityMultiplier(Some(level)) == 1.55
    ensures Lower(level) == "active" ==> ActivityMultiplier(Some(level)) == 1.725
    ensures ActivityMultiplier(None) == 1.2
  {
    LowerOfLowercase("sedentary");
    LowerOfLowercase("light");
    LowerOfLowercase("moderate");
    LowerOfLowercase("active");
  }

  /** The multiplier ignores letter case altogether. */
  lemma ActivityCaseInsensitive(level: string)
    ensures ActivityMultiplier(Some(level)) == ActivityMultiplier(Some(Lower(level)))
  {
    LowerIdempotent(level);
  }

  /** `calorie_target`: the BMR times the activity multiplier, 500 less for
      the goal "lose" and 300 more for "gain". */
  function CalorieTarget(bmr: real, activity: Option<string>, goal: string): (r: real)
    ensures bmr >= 0.0 ==> bmr * 1.2 - 500.0 <= r <= bmr * 1.725 + 300.0
  {
    var cal := bmr * ActivityMultiplier(activity);
    ScaleBetween(bmr, ActivityMultiplier(activity));
    if goal == "lose" then cal - 500.0
    else if goal == "gain" then cal + 300.0
    else cal
  }

  lemma ScaleBetween(bmr: real, m: real)
    requires 1.2 <= m <= 1.725
    ensures bmr >= 0.0 ==> bmr * 1.2 <= bmr * m <= bmr * 1.725
  {
    if bmr >= 0.0 {
      assert bmr * m - bmr * 1.2 == bmr * (m - 1.2);
      assert bmr * 1.725 - bmr * m == bmr * (1.725 - m);
    }
  }

  /** The goal shifts the maintenance calories by −500 exactly for "lose", by
      +300 exactly for "gain" (letter case matters), and not at all otherwise. */
  lemma GoalAdjustment(bmr: real, activity: Option<string>, goal: string)
    ensures var shift := CalorieTarget(bmr, activity, goal) - bmr * ActivityMultiplier(activity);
      (shift == -500.0 <==> goal == "lose") &&
      (shift == 300.0 <==> goal == "gain") &&
      (shift == 0.0 <==> goal != "lose" && goal != "gain")
  {
  }

  /** `macros_from_calories`: grams of protein, fat and carbohydrate that
      supply the given shares of the calories at 4, 9 and 4 kcal/g, each
      rounded to one decimal, together with the calories rounded the same way. */
  function MacrosFromCalories(calories: real, proteinPct: real, fatPct: real, carbsPct: real): (r: Macros<real>)
    ensures OnGrid(r.calories, 1) && OnGrid(r.protein, 1) && OnGrid(r.fat, 1) && OnGrid(r.carbs, 1)
  {
    RoundIsOnGrid(calories, 1);
    RoundIsOnGrid(calories * proteinPct / 4.0, 1);
    RoundIsOnGrid(calories * fatPct / 9.0, 1);
    RoundIsOnGrid(calories * carbsPct / 4.0, 1);
    Macros(Round(calories, 1),
           Round(calories * proteinPct / 4.0, 1),
           Round(calories * fatPct / 9.0, 1),
           Round(calories * carbsPct / 4.0, 1))
  }

  /** The default split 25 % protein, 25 % fat, 50 % carbohydrate. */
  function DefaultMacros(calories: real): Macros<real> {
    MacrosFromCalories(calories, 0.25, 0.25, 0.5)
  }

  /** Before rounding, the grams give back each share of the calories, so
      with shares summing to one they give back all of them; after rounding,
      each figure is within 0.05 of its exact value. */
  lemma MacrosSupplyCalories(calories: real, proteinPct: real, fatPct: real, carbsPct: real)
    ensures var p := calories * proteinPct / 4.0;
      var f := calories * fatPct / 9.0;
      var c := calories * carbsPct / 4.0;
      p * 4.0 == calories * proteinPct && f * 9.0 == calories * fatPct && c * 4.0 == calories * carbsPct &&
      (proteinPct + fatPct + carbsPct == 1.0 ==> p * 4.0 + f * 9.0 + c * 4.0 == calories)
    ensures var m := MacrosFromCalories(calories, proteinPct, fatPct, carbsPct);
      -0.05 <= m.calories - calories <= 0.05 &&
      -0.05 <= m.protein - calories * proteinPct / 4.0 <= 0.05 &&
      -0.05 <= m.fat - calories * fatPct / 9.0 <= 0.05 &&
      -0.05 <= m.carbs - calories * carbsPct / 4.0 <= 0.05
  {
    var p := calories * proteinPct / 4.0;
    var f := calories * fatPct / 9.0;
    var c := calories * carbsPct / 4.0;
    if proteinPct + fatPct + carbsPct == 1.0 {
      assert p * 4.0 + f * 9.0 + c * 4.0 == calories * (proteinPct + fatPct + carbsPct);
    }
    assert HalfUlp(1) == 0.05;
    RoundIsClose(calories, 1);
    RoundIsClose(p, 1);
    RoundIsClose(f, 1);
    RoundIsClose(c, 1);
  }

  /** The user dict as `nutrition_profile_from_user` reads it. */
  datatype UserRecord = UserRecord(
    weightKg: Field<real>,
    heightCm: Field<real>,
    age: Field<real>,
    gender: Field<string>,
    activityLevel: Field<string>)

  /** `user.get(key)`: a missing key reads as `None`. */
  function Get<T>(f: Field<T>): Option<T> {
    match f
    case Present(v) => Some(v)
    case _ => None
  }

  /** `user.get(key, default)`: the default replaces a missing key only, not a `None`. */
  function GetDefault<T>(f: Field<T>, default: T): Option<T> {
    match f
    case Absent => Some(default)
    case Null => None
    case Present(v) => Some(v)
  }

  datatype Profile = Profile(bmi: real, bmr: real, nutrition: Macros<real>)

  /** `nutrition_profile_from_user`: the BMI and BMR rounded to one decimal and
      the macros of the calorie target. A weight or height that is missing or
      `None`, or an age that is `None`, makes the arithmetic fail. */
  function NutritionProfileFromUser(user: UserRecord, goal: string): (r: Result<Profile, ProfileError>)
    ensures r.Success? <==> user.weightKg.Present? && user.heightCm.Present? && !user.age.Null?
  {
    var weight := Get(user.weightKg);
    var height := Get(user.heightCm);
    var age := GetDefault(user.age, 30.0);
    var gender := GetDefault(user.gender, "male");
    var activity := GetDefault(user.activityLevel, "sedentary");
    var bmi := CalcBmi(weight, height);
    if bmi.Failure? then Failure(bmi.error)
    else if weight.None? || height.None? || age.None? then Failure(TypeError)
    else
      var bmr := Bmr(weight.value, height.value, age.value, gender);
      var calories := CalorieTarget(bmr, activity, goal);
      Success(Profile(Round(bmi.value, 1), Round(bmr, 1), DefaultMacros(calories)))
  }

  /** The defaults age 30, "male" and "sedentary" stand in for missing keys
      only: a `None` gender is not male and a `None` activity level is the
      1.2 default, while a `None` age is an error. */
  lemma ProfileDefaults(w: real, h: real, goal: string)
    ensures var absent := NutritionProfileFromUser(UserRecord(Present(w), Present(h), Absent, Absent, Absent), goal);
      var spelled := NutritionProfileFromUser(UserRecord(Present(w), Present(h), Present(30.0), Present("male"), Present("sedentary")), goal);
      absent == spelled
    ensures NutritionProfileFromUser(UserRecord(Present(w), Present(h), Absent, Null, Absent), goal).value.bmr ==
            Round(10.0 * w + 6.25 * h - 150.0 - 161.0, 1)
    ensures NutritionProfileFromUser(UserRecord(Present(w), Present(h), Null, Absent, Absent), goal) == Failure(TypeError)
    ensures NutritionProfileFromUser(UserRecord(Present(w), Present(h), Absent, Absent, Null), goal) ==
            NutritionProfileFromUser(UserRecord(Present(w), Present(h), Absent, Absent, Absent), goal)
  {
  }

  /** The profile's BMI is `calc_bmi` rounded to one decimal, its BMR the
      formula's value rounded the same way, its calorie figure the
      goal-adjusted BMR × multiplier, and
      its macros are the default split of that figure, each within rounding
      of the exact value, with the grams giving back the calories exactly
      before rounding. */
  lemma ProfileNutrition(user: UserRecord, goal: string)
    requires NutritionProfileFromUser(user, goal).Success?
    ensures var p := NutritionProfileFromUser(user, goal).value;
      var bmi := CalcBmi(Get(user.weightKg), Get(user.heightCm)).value;
      p.bmi == Round(bmi, 1) && -0.05 <= p.bmi - bmi <= 0.05
    ensures var p := NutritionProfileFromUser(user, goal).value;
      var bmr := Bmr(user.weightKg.value, user.heightCm.value, GetDefault(user.age, 30.0).value, GetDefault(user.gender, "male"));
      var cal := CalorieTarget(bmr, GetDefault(user.activityLevel, "sedentary"), goal);
      p.nutrition == DefaultMacros(cal) &&
      -0.05 <= p.bmr - bmr <= 0.05 &&
      -0.05 <= p.nutrition.calories - cal <= 0.05 &&
      -0.05 <= p.nutrition.protein - cal / 16.0 <= 0.05 &&
      -0.05 <= p.nutrition.fat - cal / 36.0 <= 0.05 &&
      -0.05 <= p.nutrition.carbs - cal / 8.0 <= 0.05
  {
    var bmr := Bmr(user.weightKg.value, user.heightCm.value, GetDefault(user.age, 30.0).value, GetDefault(user.gender, "male"));
    var cal := CalorieTarget(bmr, GetDefault(user.activityLevel, "sedentary"), goal);
    var bmi := CalcBmi(Get(user.weightKg), Get(user.heightCm));
    assert NutritionProfileFromUser(user, goal).value == Profile(Round(bmi.value, 1), Round(bmr, 1), DefaultMacros(cal));
    DefaultMacrosClose(cal);
    assert HalfUlp(1) == 0.05;
    RoundIsClose(bmr, 1);
    RoundIsClose(bmi.value, 1);
  }

  /** The default split gives a sixteenth of the calories in protein grams,
      a thirty-sixth in fat grams and an eighth in carbohydrate grams, each
      within rounding. */
  lemma DefaultMacrosClose(cal: real)
    ensures var m := DefaultMacros(cal);
      -0.05 <= m.calories - cal <= 0.05 &&
      -0.05 <= m.protein - cal / 16.0 <= 0.05 &&
      -0.05 <= m.fat - cal / 36.0 <= 0.05 &&
      -0.05 <= m.carbs - cal / 8.0 <= 0.05
  {
    MacrosSupplyCalories(cal, 0.25, 0.25, 0.5);
    assert cal * 0.25 / 4.0 == cal / 16.0;
    assert cal * 0.25 / 9.0 == cal / 36.0;
    assert cal * 0.5 / 4.0 == cal / 8.0;
  }

  /** A 70 kg, 175 cm, 30-year-old sedentary man who maintains: BMI 22.9,
      BMR 1648.8 (1648.75 before rounding), 1978.5 kcal, 123.7 g protein,
      55.0 g fat and 247.3 g carbohydrate. */
  lemma ExampleProfile()
    ensures NutritionProfileFromUser(UserRecord(Present(70.0), Present(175.0), Present(30.0), Present("male"), Present("sedentary")), "maintain")
      == Success(Profile(22.9, 1648.8, Macros(1978.5, 123.7, 55.0, 247.3)))
  {
    LowerOfLowercase("male");
    LowerOfLowercase("sedentary");
    assert Bmr(70.0, 175.0, 30.0, Some("male")) == 1648.75;
    assert CalorieTarget(1648.75, Some("sedentary"), "maintain") == 1978.5;
    assert Pow10(1) == 10;
    assert RoundHalfEven(70.0 / (1.75 * 1.75) * 10.0) == 229;
    assert RoundHalfEven(16487.5) == 16488;
    assert RoundHalfEven(19785.0) == 19785;
    assert RoundHalfEven(1236.5625) == 1237;
    assert RoundHalfEven(1978.5 * 0.25 / 9.0 * 10.0) == 550;
    assert RoundHalfEven(2473.125) == 2473;
  }
}
