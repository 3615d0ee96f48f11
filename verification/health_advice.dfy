/** The condition-aware advice engine of the camera page: a nutrient profile
    and a health condition give an ordered list of flags and a list of
    recommendations. */
module HealthAdvice {
  import opened Types

  // JavaScript compares an `undefined` property false against every number,
  // so each comparison below is false for a nutrient that is not a key.

  predicate Above(p: Profile, nutrient: string, t: real) {
    nutrient in p && p[nutrient] > t
  }

  predicate AtLeast(p: Profile, nutrient: string, t: real) {
    nutrient in p && p[nutrient] >= t
  }

  predicate Below(p: Profile, nutrient: string, t: real) {
    nutrient in p && p[nutrient] < t
  }

  /** JavaScript truthiness of a numeric property: present and non-zero. */
  predicate Present(p: Profile, nutrient: string) {
    nutrient in p && p[nutrient] != 0.0
  }

  datatype Advice = Advice(flags: seq<Flag>, recommendations: seq<string>)

  /** The rule's contribution when its guard holds, nothing otherwise. */
  function When<T>(guard: bool, xs: seq<T>): seq<T> {
    if guard then xs else []
  }

  const DefaultFlag := Flag(Green, "Suitable for your health condition")

  const CarbsFlag := Flag(Red, "High carbohydrate content - monitor blood sugar")
  const SugarFlag := Flag(Yellow, "Contains added sugars")
  const DiabeticFiberFlag := Flag(Green, "Good fiber content helps blood sugar control")
  const CarbsAdvice := "Consider smaller portions or pair with protein"
  const SugarAdvice := "Limit sugary foods and drinks"

  const HighSodiumFlag := Flag(Red, "Very high sodium - risk for blood pressure")
  const ModerateSodiumFlag := Flag(Yellow, "Moderate sodium content")
  const PotassiumFlag := Flag(Green, "Contains potassium - good for blood pressure")
  const HighSodiumAdvice := "Choose low-sodium alternatives"
  const ModerateSodiumAdvice := "Monitor daily sodium intake"

  const CaloriesFlag := Flag(Yellow, "High calorie content")
  const SatietyFlag := Flag(Green, "High protein helps with satiety")
  const FullnessFlag := Flag(Green, "High fiber promotes fullness")
  const CaloriesAdvice := "Consider smaller portions or increase physical activity"

  const MaternalProteinFlag := Flag(Green, "Excellent protein for maternal health")
  const IronFlag := Flag(Green, "Good iron content for pregnancy")
  const CalciumFlag := Flag(Green, "Calcium supports baby development")
  const PregnancyAdvice := ["Ensure adequate hydration", "Include variety of nutrients"]

  const FatFlag := Flag(Yellow, "High fat content")
  const CholesterolFlag := Flag(Red, "High cholesterol content")
  const CholesterolFiberFlag := Flag(Green, "Fiber helps reduce cholesterol")
  const FatAdvice := "Choose lean proteins and healthy fats"
  const CholesterolAdvice := "Limit high-cholesterol foods"

  const BalancedFlag := Flag(Green, "Well-balanced nutritional profile")

  /** The flags and recommendations of the active condition's rules, in rule
      order, before the default flag is considered. */
  function RuleAdvice(p: Profile, c: Condition): Advice {
    match c
    case Diabetic =>
      Advice(
        When(Above(p, "carbs", 45.0), [CarbsFlag])
        + When(Above(p, "sugar", 10.0), [SugarFlag])
        + When(AtLeast(p, "fiber", 5.0), [DiabeticFiberFlag]),
        When(Above(p, "carbs", 45.0), [CarbsAdvice])
        + When(Above(p, "sugar", 10.0), [SugarAdvice]))
    case Hypertensive =>
      Advice(
        (if Above(p, "sodium", 800.0) then [HighSodiumFlag]
         else When(Above(p, "sodium", 400.0), [ModerateSodiumFlag]))
        + When(Present(p, "potassium") && Above(p, "potassium", 300.0), [PotassiumFlag]),
        if Above(p, "sodium", 800.0) then [HighSodiumAdvice]
        else When(Above(p, "sodium", 400.0), [ModerateSodiumAdvice]))
    case WeightLoss =>
      Advice(
        When(Above(p, "calories", 500.0), [CaloriesFlag])
        + When(AtLeast(p, "protein", 20.0), [SatietyFlag])
        + When(AtLeast(p, "fiber", 5.0), [FullnessFlag]),
        When(Above(p, "calories", 500.0), [CaloriesAdvice]))
    case PregnantNursing =>
      Advice(
        When(AtLeast(p, "protein", 25.0), [MaternalProteinFlag])
        + When(Present(p, "iron") && AtLeast(p, "iron", 3.0), [IronFlag])
        + When(Present(p, "calcium") && AtLeast(p, "calcium", 200.0), [CalciumFlag]),
        PregnancyAdvice)
    case CholesterolWatch =>
      Advice(
        When(Above(p, "fat", 20.0), [FatFlag])
        + When(Present(p, "cholesterol") && Above(p, "cholesterol", 200.0), [CholesterolFlag])
        + When(AtLeast(p, "fiber", 5.0), [CholesterolFiberFlag]),
        When(Above(p, "fat", 20.0), [FatAdvice])
        + When(Present(p, "cholesterol") && Above(p, "cholesterol", 200.0), [CholesterolAdvice]))
    case Normal =>
      Advice(
        When(Below(p, "calories", 600.0) && AtLeast(p, "protein", 15.0), [BalancedFlag]),
        [])
  }

  /** `generateHealthAdvice`: the rule output, with the default green flag
      when no rule produced a flag. */
  function GenerateHealthAdvice(p: Profile, c: Condition): (a: Advice)
    ensures 1 <= |a.flags| <= 3
    ensures a.recommendations == RuleAdvice(p, c).recommendations
    ensures a.flags == [DefaultFlag] <==> !AnyRuleFires(p, c)
    ensures AnyRuleFires(p, c) ==> a.flags == RuleAdvice(p, c).flags
  {
    var rules := RuleAdvice(p, c);
    RuleFlagsBound(p, c);
    RuleFlagsNotDefault(p, c);
    if |rules.flags| == 0 then Advice([DefaultFlag], rules.recommendations) else rules
  }

  /** The guards of the flag-producing rules of each condition, read
      directly off the rule table. */
  predicate AnyRuleFires(p: Profile, c: Condition) {
    match c
    case Diabetic => Above(p, "carbs", 45.0) || Above(p, "sugar", 10.0) || AtLeast(p, "fiber", 5.0)
    case Hypertensive => Above(p, "sodium", 400.0) || Above(p, "potassium", 300.0)
    case WeightLoss => Above(p, "calories", 500.0) || AtLeast(p, "protein", 20.0) || AtLeast(p, "fiber", 5.0)
    case PregnantNursing => AtLeast(p, "protein", 25.0) || AtLeast(p, "iron", 3.0) || AtLeast(p, "calcium", 200.0)
    case CholesterolWatch => Above(p, "fat", 20.0) || Above(p, "cholesterol", 200.0) || AtLeast(p, "fiber", 5.0)
    case Normal => Below(p, "calories", 600.0) && AtLeast(p, "protein", 15.0)
  }

  /** Rule flags: at most three, none of them the default flag, and empty
      exactly when no guard holds. */
  lemma RuleFlagsBound(p: Profile, c: Condition)
    ensures |RuleAdvice(p, c).flags| <= 3
    ensures |RuleAdvice(p, c).flags| == 0 <==> !AnyRuleFires(p, c)
  {
    match c
    case Diabetic =>
    case Hypertensive =>
    case WeightLoss =>
    case PregnantNursing =>
    case CholesterolWatch =>
    case Normal =>
  }

  /** Every flag a rule can raise. */
  const RuleFlags: set<Flag> := {
    CarbsFlag, SugarFlag, DiabeticFiberFlag, HighSodiumFlag, ModerateSodiumFlag,
    PotassiumFlag, CaloriesFlag, SatietyFlag, FullnessFlag, MaternalProteinFlag,
    IronFlag, CalciumFlag, FatFlag, CholesterolFlag, CholesterolFiberFlag, BalancedFlag}

  /** No rule flag is the default flag. */
  lemma RuleFlagsNotDefault(p: Profile, c: Condition)
    ensures DefaultFlag !in RuleAdvice(p, c).flags
  {
    var flags := RuleAdvice(p, c).flags;
    assert forall f | f in flags :: f in RuleFlags;
    assert DefaultFlag !in RuleFlags;
  }

  /** Number of yellow or red flags. */
  function NonGreenCount(flags: seq<Flag>): (n: nat)
    ensures n <= |flags|
  {
    if |flags| == 0 then 0
    else (if flags[0].level == Green then 0 else 1) + NonGreenCount(flags[1..])
  }

  lemma {:induction false} NonGreenCountAppend(a: seq<Flag>, b: seq<Flag>)
    ensures NonGreenCount(a + b) == NonGreenCount(a) + NonGreenCount(b)
  {
    if |a| == 0 {
      assert a + b == b;
    } else {
      assert (a + b)[1..] == a[1..] + b;
      NonGreenCountAppend(a[1..], b);
    }
  }

  predicate AllGreen(flags: seq<Flag>) {
    forall i :: 0 <= i < |flags| ==> flags[i].level == Green
  }

  /** Outside pregnancy, every rule recommendation belongs to exactly one
      yellow or red flag and every yellow or red flag carries one. */
  lemma RecommendationsMatchWarnings(p: Profile, c: Condition)
    requires c != PregnantNursing
    ensures |GenerateHealthAdvice(p, c).recommendations| == NonGreenCount(GenerateHealthAdvice(p, c).flags)
  {
    var r := RuleAdvice(p, c);
    match c
    case Diabetic =>
      NonGreenCountAppend(When(Above(p, "carbs", 45.0), [CarbsFlag]), When(Above(p, "sugar", 10.0), [SugarFlag]));
      NonGreenCountAppend(
        When(Above(p, "carbs", 45.0), [CarbsFlag]) + When(Above(p, "sugar", 10.0), [SugarFlag]),
        When(AtLeast(p, "fiber", 5.0), [DiabeticFiberFlag]));
    case Hypertensive =>
      NonGreenCountAppend(
        if Above(p, "sodium", 800.0) then [HighSodiumFlag] else When(Above(p, "sodium", 400.0), [ModerateSodiumFlag]),
        When(Present(p, "potassium") && Above(p, "potassium", 300.0), [PotassiumFlag]));
    case WeightLoss =>
      NonGreenCountAppend(When(Above(p, "calories", 500.0), [CaloriesFlag]), When(AtLeast(p, "protein", 20.0), [SatietyFlag]));
      NonGreenCountAppend(
        When(Above(p, "calories", 500.0), [CaloriesFlag]) + When(AtLeast(p, "protein", 20.0), [SatietyFlag]),
        When(AtLeast(p, "fiber", 5.0), [FullnessFlag]));
    case CholesterolWatch =>
      NonGreenCountAppend(
        When(Above(p, "fat", 20.0), [FatFlag]),
        When(Present(p, "cholesterol") && Above(p, "cholesterol", 200.0), [CholesterolFlag]));
      NonGreenCountAppend(
        When(Above(p, "fat", 20.0), [FatFlag]) + When(Present(p, "cholesterol") && Above(p, "cholesterol", 200.0), [CholesterolFlag]),
        When(AtLeast(p, "fiber", 5.0), [CholesterolFiberFlag]));
    case Normal =>
  }

  /** Pregnancy and the default branch only ever praise; pregnancy always
      gives the same two recommendations and the default branch none. */
  lemma PraiseOnlyConditions(p: Profile)
    ensures AllGreen(GenerateHealthAdvice(p, PregnantNursing).flags)
    ensures GenerateHealthAdvice(p, PregnantNursing).recommendations
      == ["Ensure adequate hydration", "Include variety of nutrients"]
    ensures AllGreen(GenerateHealthAdvice(p, Normal).flags)
    ensures GenerateHealthAdvice(p, Normal).recommendations == []
  {
  }

  /** The three sodium bands of the hypertensive rules. */
  lemma HypertensiveSodium(p: Profile)
    ensures Above(p, "sodium", 800.0) ==>
      GenerateHealthAdvice(p, Hypertensive).flags[0].level == Red
      && GenerateHealthAdvice(p, Hypertensive).recommendations == ["Choose low-sodium alternatives"]
    ensures Above(p, "sodium", 400.0) && !Above(p, "sodium", 800.0) ==>
      GenerateHealthAdvice(p, Hypertensive).flags[0].level == Yellow
      && GenerateHealthAdvice(p, Hypertensive).recommendations == ["Monitor daily sodium intake"]
    ensures !Above(p, "sodium", 400.0) && !Above(p, "potassium", 300.0) ==>
      GenerateHealthAdvice(p, Hypertensive) == Advice([DefaultFlag], [])
    ensures NonGreenCount(GenerateHealthAdvice(p, Hypertensive).flags) <= 1
  {
    NonGreenCountAppend(
      if Above(p, "sodium", 800.0) then [HighSodiumFlag] else When(Above(p, "sodium", 400.0), [ModerateSodiumFlag]),
      When(Present(p, "potassium") && Above(p, "potassium", 300.0), [PotassiumFlag]));
  }

  function Severity(l: Level): nat {
    match l
    case Green => 0
    case Yellow => 1
    case Red => 2
  }

  /** Flags listed from most to least severe. */
  predicate SeverityDescending(flags: seq<Flag>) {
    forall i, j :: 0 <= i < j < |flags| ==> Severity(flags[i].level) >= Severity(flags[j].level)
  }

  /** For diabetic users the rule order (carbs, sugar, fiber) happens to list
      red before yellow before green, and a red flag is always the first.
      Each of the three rules fires exactly on its own threshold, and the
      portion advice comes exactly with the high-carbohydrate flag. */
  lemma DiabeticRuleOrder(p: Profile)
    ensures SeverityDescending(GenerateHealthAdvice(p, Diabetic).flags)
    ensures Above(p, "carbs", 45.0) <==> GenerateHealthAdvice(p, Diabetic).flags[0].level == Red
    ensures Above(p, "sugar", 10.0) <==> SugarFlag in GenerateHealthAdvice(p, Diabetic).flags
    ensures AtLeast(p, "fiber", 5.0) <==> DiabeticFiberFlag in GenerateHealthAdvice(p, Diabetic).flags
    ensures Above(p, "carbs", 45.0) <==> CarbsAdvice in GenerateHealthAdvice(p, Diabetic).recommendations
    ensures Above(p, "sugar", 10.0) <==> SugarAdvice in GenerateHealthAdvice(p, Diabetic).recommendations
  {
  }

  /** Flags keep evaluation order rather than severity order: under
      cholesterol watch a fatty, cholesterol-rich meal lists the yellow fat
      flag before the red cholesterol flag. */
  lemma FlagsNotSortedBySeverity()
    ensures var a := GenerateHealthAdvice(map["fat" := 25.0, "cholesterol" := 250.0], CholesterolWatch);
      a.flags == [Flag(Yellow, "High fat content"), Flag(Red, "High cholesterol content")]
      && !SeverityDescending(a.flags)
  {
    var a := GenerateHealthAdvice(map["fat" := 25.0, "cholesterol" := 250.0], CholesterolWatch);
    assert Severity(a.flags[0].level) < Severity(a.flags[1].level);
  }

  /** The fixed nutrient profile the camera page analyses. */
  const MockNutrients: Profile := map[
    "calories" := 485.0, "protein" := 28.0, "carbs" := 52.0, "fat" := 18.0,
    "fiber" := 3.0, "sodium" := 890.0, "sugar" := 4.0, "cholesterol" := 75.0,
    "calcium" := 120.0, "iron" := 2.5]

  /** What the mock profile yields under each condition. */
  lemma MockProfileAdvice()
    ensures GenerateHealthAdvice(MockNutrients, Diabetic)
      == Advice([Flag(Red, "High carbohydrate content - monitor blood sugar")],
                ["Consider smaller portions or pair with protein"])
    ensures GenerateHealthAdvice(MockNutrients, Hypertensive)
      == Advice([Flag(Red, "Very high sodium - risk for blood pressure")], ["Choose low-sodium alternatives"])
    ensures GenerateHealthAdvice(MockNutrients, WeightLoss).flags
      == [Flag(Green, "High protein helps with satiety")]
    ensures GenerateHealthAdvice(MockNutrients, PregnantNursing).flags
      == [Flag(Green, "Excellent protein for maternal health")]
    ensures GenerateHealthAdvice(MockNutrients, CholesterolWatch) == Advice([DefaultFlag], [])
    ensures GenerateHealthAdvice(MockNutrients, Normal)
      == Advice([Flag(Green, "Well-balanced nutritional profile")], [])
  {
    var p := MockNutrients;
    assert p["calories"] == 485.0 && p["protein"] == 28.0 && p["carbs"] == 52.0;
    assert p["fat"] == 18.0 && p["fiber"] == 3.0 && p["sodium"] == 890.0 && p["sugar"] == 4.0;
    assert p["cholesterol"] == 75.0 && p["calcium"] == 120.0 && p["iron"] == 2.5;
    assert "potassium" !in p;
  }

  /** A missing nutrient is not a zero: without a calories entry the default
      branch never finds the meal well balanced, while an explicit zero
      does. */
  lemma AbsentIsNotZero(p: Profile, protein: real)
    requires "calories" !in p && protein >= 15.0
    ensures BalancedFlag !in GenerateHealthAdvice(p, Normal).flags
    ensures GenerateHealthAdvice(map["protein" := protein], Normal).flags == [DefaultFlag]
    ensures GenerateHealthAdvice(map["protein" := protein, "calories" := 0.0], Normal).flags
      == [Flag(Green, "Well-balanced nutritional profile")]
  {
    var only := map["protein" := protein];
    assert !Below(only, "calories", 600.0);
    var zeroed := map["protein" := protein, "calories" := 0.0];
    assert Below(zeroed, "calories", 600.0) && AtLeast(zeroed, "protein", 15.0);
  }

  /** An empty profile fires no rule under any condition. */
  lemma EmptyProfile(c: Condition)
    ensures GenerateHealthAdvice(map[], c).flags == [DefaultFlag]
    ensures GenerateHealthAdvice(map[], c).recommendations
      == (if c == PregnantNursing then PregnancyAdvice else [])
  {
  }
}
