/** Values shared by the services: the four nutrients they track, a record
    holding one quantity per nutrient, and Python's truthiness of optional
    values. */
module Common {
  import opened Wrappers

  datatype NutrientKey = Energy | Protein | Fat | Carbs

  /** The four nutrient quantities the services track, in one record. */
  datatype Macros<T> = Macros(calories: T, protein: T, fat: T, carbs: T) {
    function Get(k: NutrientKey): T {
      match k
      case Energy => calories
      case Protein => protein
      case Fat => fat
      case Carbs => carbs
    }

    function Set(k: NutrientKey, v: T): (r: Macros<T>)
      ensures r.Get(k) == v
      ensures forall j :: j != k ==> r.Get(j) == Get(j)
    {
      match k
      case Energy => this.(calories := v)
      case Protein => this.(protein := v)
      case Fat => this.(fat := v)
      case Carbs => this.(carbs := v)
    }
  }

  /** The keys in the order the services visit them. */
  const Keys: seq<NutrientKey> := [Energy, Protein, Fat, Carbs]

  /** The four keys are distinct, so a loop over them visits each bucket once. */
  lemma KeysDistinct()
    ensures |Keys| == 4
    ensures forall i, j :: 0 <= i < j < |Keys| ==> Keys[i] != Keys[j]
  {
  }

  /** Python truthiness of an optional string: `None` and "" are false. */
  predicate TruthyText(s: Option<string>) {
    s.Some? && s.value != ""
  }

  /** Python truthiness of an optional number: `None` and 0 are false. */
  predicate TruthyNumber(x: Option<real>) {
    x.Some? && x.value != 0.0
  }
}
