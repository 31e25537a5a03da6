/** Normalising a food-composition record onto calories, protein, fat and
    carbohydrate per 100 g, plus a reference portion mass
    (`_match_nutrient_name` and `extract_nutrients_from_usda`). */
module NutrientNormalizer {
  import opened Wrappers
  import opened Text
  import opened Common

  /** One entry of a record's nutrient list. `nutrientName` and `name` are the
      entry's own keys; `nestedName` is `nutrient.name`. */
  datatype NutrientEntry = NutrientEntry(
    nutrientName: Option<string>,
    name: Option<string>,
    nestedName: Option<string>,
    amount: Option<real>)

  /** A portion's `gramWeight`: absent or null, a number, or some other JSON value. */
  datatype GramWeight = NoWeight | Number(grams: real) | NotANumber

  datatype Portion = Portion(gramWeight: GramWeight)

  /** The fields of a food record the normaliser reads; `None` is an absent or
      null key. `keyCount` is the number of top-level keys: zero is the empty
      object `{}`, which Python treats as false. */
  datatype FoodRecord = FoodRecord(
    foodNutrients: Option<seq<NutrientEntry>>,
    labelNutrients: Option<seq<NutrientEntry>>,
    foodPortions: Option<seq<Portion>>,
    keyCount: nat)

  /** Per-100 g nutrient values; `None` is a nutrient the record did not report. */
  type Nutrients = Macros<Option<real>>

  const Unreported: Nutrients := Macros(None, None, None, None)

  /** The result of `extract_nutrients_from_usda`: per-100 g values and `portion_gram`. */
  datatype Extracted = Extracted(per100: Nutrients, portionGram: real)

  /** The keyword rules on a lower-cased name: energy needs a kcal or calorie
      mention, then protein, then fat or lipid, then carbohydrate; first hit wins. */
  function Classify(n: string): Option<NutrientKey> {
    if Contains(n, "energy") && (Contains(n, "kcal") || Contains(n, "calorie")) then Some(Energy)
    else if Contains(n, "protein") then Some(Protein)
    else if Contains(n, "lipid") || Contains(n, "fat") then Some(Fat)
    else if Contains(n, "carb") then Some(Carbs)
    else None
  }

  /** `_match_nutrient_name`, test by test. */
  function MatchNutrientName(name: Option<string>): (r: Option<NutrientKey>)
    ensures !TruthyText(name) ==> r == None
  {
    if !TruthyText(name) then None
    else
      var n := Lower(Strip(name.value));
      if Contains(n, "energy") && (Contains(n, "kcal") || Contains(Lower(name.value), "kcal") || Contains(n, "calorie")) then Some(Energy)
      else if Contains(n, "protein") then Some(Protein)
      else if Contains(n, "lipid") || Contains(n, "fat") then Some(Fat)
      else if Contains(n, "carbohydrate") || Contains(n, "carb") then Some(Carbs)
      else None
  }

  lemma CarbohydrateMentionsCarb(n: string)
    ensures Contains(n, "carbohydrate") ==> Contains(n, "carb")
  {
    ContainsIff(n, "carbohydrate");
    ContainsIff(n, "carb");
    if Contains(n, "carbohydrate") {
      var i :| OccursAt(n, "carbohydrate", i);
      assert n[i..i + 4] == n[i..i + 12][..4];
      assert OccursAt(n, "carb", i);
    }
  }

  /** Classification ignores surrounding whitespace and the repeated "kcal" test:
      a non-empty name is classified by the keyword rules on its lower-cased form. */
  lemma MatchIsClassifyOfLower(name: string)
    requires name != ""
    ensures MatchNutrientName(Some(name)) == Classify(Lower(name))
  {
    StripLowerKeepsWords(name, "energy");
    StripLowerKeepsWords(name, "kcal");
    StripLowerKeepsWords(name, "calorie");
    StripLowerKeepsWords(name, "protein");
    StripLowerKeepsWords(name, "lipid");
    StripLowerKeepsWords(name, "fat");
    StripLowerKeepsWords(name, "carbohydrate");
    StripLowerKeepsWords(name, "carb");
    CarbohydrateMentionsCarb(Lower(name));
  }

  /** A lower-cased name without an a, c, f, l or p meets none of the rules. */
  lemma KilojouleLineUnclassified(n: string)
    requires 'a' !in n && 'c' !in n && 'f' !in n && 'l' !in n && 'p' !in n
    ensures Classify(n) == None
  {
    MissingCharNotContained(n, "kcal", 'a');
    MissingCharNotContained(n, "calorie", 'a');
    MissingCharNotContained(n, "protein", 'p');
    MissingCharNotContained(n, "lipid", 'l');
    MissingCharNotContained(n, "fat", 'f');
    MissingCharNotContained(n, "carb", 'c');
  }

  /** The same for a name in any case. */
  lemma KeywordLettersAbsent(name: string)
    requires name != ""
    requires forall i :: 0 <= i < |name| ==> name[i] !in "aAcCfFlLpP"
    ensures MatchNutrientName(Some(name)) == None
  {
    MatchIsClassifyOfLower(name);
    LowerLacks(name, 'a', 'A');
    LowerLacks(name, 'c', 'C');
    LowerLacks(name, 'f', 'F');
    LowerLacks(name, 'l', 'L');
    LowerLacks(name, 'p', 'P');
    KilojouleLineUnclassified(Lower(name));
  }

  /** "Energy (kJ)" is not calories: the energy rule needs a kcal or calorie mention. */
  lemma KilojouleEnergyIsUnclassified()
    ensures MatchNutrientName(Some("Energy (kJ)")) == None
  {
    KeywordLettersAbsent("Energy (kJ)");
  }

  /** A name that starts with "fat" and has neither a 'g' nor a 'p' misses the
      energy and protein rules and is caught by the fat rule. */
  lemma FattyAcidLineIsFat(n: string)
    requires |n| >= 3 && n[..3] == "fat" && 'g' !in n && 'p' !in n
    ensures Classify(n) == Some(Fat)
  {
    MissingCharNotContained(n, "energy", 'g');
    MissingCharNotContained(n, "protein", 'p');
    ContainsAt(n, "fat", 0);
  }

  /** The same for a name in any case: "Fat…" without a g or p in either case. */
  lemma FatLeadingNameIsFat(name: string)
    requires |name| >= 3 && name[0] in "fF" && name[1] in "aA" && name[2] in "tT"
    requires forall i :: 0 <= i < |name| ==> name[i] !in "gGpP"
    ensures MatchNutrientName(Some(name)) == Some(Fat)
  {
    MatchIsClassifyOfLower(name);
    LowerLacks(name, 'g', 'G');
    LowerLacks(name, 'p', 'P');
    assert Lower(name)[..3] == "fat" by {
      assert Lower(name)[0] == 'f' && Lower(name)[1] == 'a' && Lower(name)[2] == 't';
    }
    FattyAcidLineIsFat(Lower(name));
  }

  /** A fatty-acid line is classified as fat, although it is not total fat. */
  lemma FattyAcidsAreFat()
    ensures MatchNutrientName(Some("Fatty acids, total saturated")) == Some(Fat)
  {
    FatLeadingNameIsFat("Fatty acids, total saturated");
  }

  /** The name an entry is known by: `nutrientName or name or nutrient.name`. */
  function EntryName(e: NutrientEntry): Option<string> {
    if TruthyText(e.nutrientName) then e.nutrientName
    else if TruthyText(e.name) then e.name
    else e.nestedName
  }

  /** Entry `e` writes bucket `k`: it has an amount and its name classifies as `k`. */
  predicate Feeds(e: NutrientEntry, k: NutrientKey) {
    e.amount.Some? && MatchNutrientName(EntryName(e)) == Some(k)
  }

  /** `foodNutrients or labelNutrients or []` */
  function NutrientList(food: FoodRecord): seq<NutrientEntry> {
    if food.foodNutrients.Some? && food.foodNutrients.value != [] then food.foodNutrients.value
    else if food.labelNutrients.Some? && food.labelNutrients.value != [] then food.labelNutrients.value
    else []
  }

  /** `foodPortions or []` */
  function PortionList(food: FoodRecord): seq<Portion> {
    if food.foodPortions.Some? then food.foodPortions.value else []
  }

  /** The amount of the last entry that feeds bucket `k`. */
  function LastAmount(entries: seq<NutrientEntry>, k: NutrientKey): Option<real> {
    if entries == [] then None
    else
      var e := entries[|entries| - 1];
      if Feeds(e, k) then e.amount else LastAmount(entries[..|entries| - 1], k)
  }

  /** A portion the scan accepts: a non-zero number above 5 g. */
  predicate Qualifies(p: Portion) {
    p.gramWeight.Number? && p.gramWeight.grams != 0.0 && p.gramWeight.grams > 5.0
  }

  /** The gram weight of the first qualifying portion. */
  function FirstQualifying(portions: seq<Portion>): Option<real> {
    if portions == [] then None
    else if Qualifies(portions[0]) then Some(portions[0].gramWeight.grams)
    else FirstQualifying(portions[1..])
  }

  /** What `extract_nutrients_from_usda` returns for `food`. */
  function Extract(food: FoodRecord): Extracted {
    var entries := NutrientList(food);
    Extracted(
      Macros(LastAmount(entries, Energy), LastAmount(entries, Protein),
                LastAmount(entries, Fat), LastAmount(entries, Carbs)),
      FirstQualifying(PortionList(food)).GetOr(100.0))
  }

  /** `extract_nutrients_from_usda`: one pass over the nutrient list in which a
      later matching entry overwrites an earlier one, then a scan of the portions
      that stops at the first qualifying one. */
  method ExtractNutrients(food: FoodRecord) returns (out: Extracted)
    ensures out == Extract(food)
  {
    var per100 := Unreported;
    var entries := NutrientList(food);
    var i := 0;
    while i < |entries|
      invariant 0 <= i <= |entries|
      invariant forall k :: per100.Get(k) == LastAmount(entries[..i], k)
    {
      var e := entries[i];
      assert entries[..i + 1][..i] == entries[..i];
      i := i + 1;
      if e.amount == None {
        continue;
      }
      var key := MatchNutrientName(EntryName(e));
      if key == None {
        continue;
      }
      per100 := per100.Set(key.value, e.amount);
    }
    assert entries[..i] == entries;

    var gramPortion: Option<real> := None;
    var portions := PortionList(food);
    var j := 0;
    while j < |portions|
      invariant 0 <= j <= |portions|
      invariant gramPortion == None
      invariant FirstQualifying(portions) == FirstQualifying(portions[j..])
    {
      var gw := portions[j].gramWeight;
      if gw.Number? && gw.grams != 0.0 {
        if gw.grams > 5.0 {
          gramPortion := Some(gw.grams);
          break;
        }
      }
      assert portions[j..][1..] == portions[j + 1..];
      j := j + 1;
    }
    var portionGram := if gramPortion.Some? && gramPortion.value != 0.0 then gramPortion.value else 100.0;
    out := Extracted(per100, portionGram);
  }

  /** Later entries win: the bucket's value comes from the suffix if any entry
      there feeds it, and from the prefix otherwise. */
  lemma {:induction false} LastAmountAppend(xs: seq<NutrientEntry>, ys: seq<NutrientEntry>, k: NutrientKey)
    ensures LastAmount(xs + ys, k) == if LastAmount(ys, k).Some? then LastAmount(ys, k) else LastAmount(xs, k)
  {
    if ys == [] {
      assert xs + ys == xs;
    } else {
      assert (xs + ys)[..|xs + ys| - 1] == xs + ys[..|ys| - 1];
      LastAmountAppend(xs, ys[..|ys| - 1], k);
    }
  }

  /** A bucket is `None` exactly when no entry feeds it. */
  lemma {:induction false} LastAmountNoneIff(entries: seq<NutrientEntry>, k: NutrientKey)
    ensures LastAmount(entries, k) == None <==> forall i :: 0 <= i < |entries| ==> !Feeds(entries[i], k)
  {
    if entries != [] {
      var init := entries[..|entries| - 1];
      LastAmountNoneIff(init, k);
      assert forall i :: 0 <= i < |init| ==> init[i] == entries[i];
    }
  }

  /** The index of the last entry that feeds a reported bucket. */
  lemma {:induction false} LastFeederIndex(entries: seq<NutrientEntry>, k: NutrientKey) returns (i: nat)
    requires LastAmount(entries, k).Some?
    ensures i < |entries| && Feeds(entries[i], k) && entries[i].amount == LastAmount(entries, k)
    ensures forall j :: i < j < |entries| ==> !Feeds(entries[j], k)
  {
    var last := |entries| - 1;
    if Feeds(entries[last], k) {
      i := last;
    } else {
      var init := entries[..last];
      assert LastAmount(entries, k) == LastAmount(init, k);
      i := LastFeederIndex(init, k);
      assert entries[i] == init[i];
      forall j | i < j < |entries|
        ensures !Feeds(entries[j], k)
      {
        if j < last {
          assert entries[j] == init[j];
        }
      }
    }
  }

  /** A reported bucket holds the amount of an entry that feeds it and that no
      later feeding entry follows. */
  lemma LastAmountIsLastFeeder(entries: seq<NutrientEntry>, k: NutrientKey)
    requires LastAmount(entries, k).Some?
    ensures exists i :: 0 <= i < |entries| && Feeds(entries[i], k) && entries[i].amount == LastAmount(entries, k) &&
                        (forall j :: i < j < |entries| ==> !Feeds(entries[j], k))
  {
    var i := LastFeederIndex(entries, k);
  }

  /** The portion scan's answer is the first qualifying portion, and `None` only
      when no portion qualifies. */
  lemma {:induction false} FirstQualifyingIsFirst(portions: seq<Portion>)
    ensures FirstQualifying(portions) == None <==> forall i :: 0 <= i < |portions| ==> !Qualifies(portions[i])
    ensures FirstQualifying(portions).Some? ==>
      exists i :: 0 <= i < |portions| && Qualifies(portions[i]) &&
        FirstQualifying(portions) == Some(portions[i].gramWeight.grams) &&
        forall j :: 0 <= j < i ==> !Qualifies(portions[j])
  {
    if portions != [] && !Qualifies(portions[0]) {
      var rest := portions[1..];
      FirstQualifyingIsFirst(rest);
      if FirstQualifying(rest).Some? {
        var i :| 0 <= i < |rest| && Qualifies(rest[i]) &&
          FirstQualifying(rest) == Some(rest[i].gramWeight.grams) &&
          forall j :: 0 <= j < i ==> !Qualifies(rest[j]);
        assert portions[i + 1] == rest[i];
        assert forall j :: 1 <= j < i + 1 ==> portions[j] == rest[j - 1];
      }
    }
  }

  /** The reference portion is always above 5 g: a qualifying weight, or exactly 100. */
  lemma {:induction false} PortionGramAboveFive(food: FoodRecord)
    ensures Extract(food).portionGram > 5.0
    ensures Extract(food).portionGram == 100.0 <==>
      (forall i :: 0 <= i < |PortionList(food)| ==> !Qualifies(PortionList(food)[i])) ||
      FirstQualifying(PortionList(food)) == Some(100.0)
  {
    FirstQualifyingIsFirst(PortionList(food));
  }

  /** A record none of whose entries feeds a bucket and none of whose portions
      qualifies normalises to four `None`s and a 100 g portion. */
  lemma NothingUsableNormalisesToDefaults(food: FoodRecord)
    requires forall i, k :: 0 <= i < |NutrientList(food)| ==> !Feeds(NutrientList(food)[i], k)
    requires forall i :: 0 <= i < |PortionList(food)| ==> !Qualifies(PortionList(food)[i])
    ensures Extract(food) == Extracted(Unreported, 100.0)
  {
    forall k { LastAmountNoneIff(NutrientList(food), k); }
    FirstQualifyingIsFirst(PortionList(food));
  }
}
