/** The health-score engine (`computeHealthScore`): four integer components
    (nutrition, processing, ingredients, labels) summed, clamped to
    [0, 100], scaled to [1, 10] in steps of 0.5, with deduplicated, capped
    pros and cons and a templated rationale. Nutrient values are exact
    reals. */
module Scoring {
  import opened Wrappers
  import opened JsRuntime
  import opened Lists
  import opened OpenFoodFacts

  const MaxListItems: nat := 6

  datatype Details = Details(nutrition: int, processing: int, ingredients: int, labels: int)
  {
    /** The component sum that `computeHealthScore` clamps and scales. */
    function Sum(): int { nutrition + processing + ingredients + labels }
  }

  /** The clauses `generateRationale` concatenates; numbers are kept as
      numbers rather than formatted. */
  datatype RationaleClause =
    | ScoreClause(finalScore: real)
    | NutriScoreClause(upperGrade: string)
    | MinimalProcessing
    | UltraProcessed
    | NoAdditives
    | ManyAdditives
    | OrganicCertified
    | Breakdown(total: int, nutrition: int, processing: int, ingredients: int, labels: int)

  /** A rationale: the engine's clauses, free text from an AI model, or the
      AI route's fixed "response parsing failed" note about a base score. */
  datatype Rationale = Clauses(parts: seq<RationaleClause>) | Prose(text: string) | ParseFailedNote(baseScore: real)

  datatype ScoreResult = ScoreResult(
    score: real, pros: seq<string>, cons: seq<string>, rationale: Rationale, details: Option<Details>)

  /** `num`: `Number(v)` when finite, else the sentinel -1. */
  function NumOf(v: JsValue): (r: real)
    ensures ToNumber(v).None? ==> r == -1.0
    ensures ToNumber(v).Some? ==> r == ToNumber(v).value
  {
    var n := ToNumber(v);
    if n.None? then -1.0 else n.value
  }

  /** A tier's contribution: what it pushes onto `pros` and `cons`, and the
      points it adds to its component. */
  datatype Tier = Tier(pros: seq<string>, cons: seq<string>, delta: int)

  const NoTier: Tier := Tier([], [], 0)

  /** Exactly one list entry, a pro exactly when the delta is positive. */
  predicate OneEntry(t: Tier) {
    (|t.pros| == 1 && t.cons == [] && t.delta > 0) || (t.pros == [] && |t.cons| == 1 && t.delta < 0)
  }

  // ---------------------------------------------------------------------
  // 1. Nutrition

  const BaseFromGrade: map<string, int> := map["a" := 35, "b" := 28, "c" := 21, "d" := 14, "e" := 7]

  function GradeBase(grade: string): (r: int)
    ensures 7 <= r <= 35
    ensures r == 20 <==> grade !in BaseFromGrade
  {
    if grade in BaseFromGrade then BaseFromGrade[grade] else 20
  }

  /** The two lower-case property names every object literal inherits. */
  const InheritedKeys: set<string> := {"constructor", "__proto__"}

  /** The table read as the code writes it, `grade in baseFromGrade ?
      baseFromGrade[grade] : 20`: `in` also finds the inherited properties,
      whose values are a function and an object, not a number (`None`).
      Every other grade gets the base of `GradeBase`. */
  function GradeBaseAsWritten(grade: string): (r: Option<int>)
    ensures r.None? <==> grade in InheritedKeys
    ensures r.Some? ==> r.value == GradeBase(grade)
  {
    if grade in BaseFromGrade then Some(BaseFromGrade[grade])
    else if grade in InheritedKeys then None
    else Some(20)
  }

  /** A grade of "constructor" reaches a non-numeric base as written, where
      the lookup the rest of the model uses gives the default 20. */
  lemma InheritedGradeKeyIsNotNumeric()
    ensures GradeBaseAsWritten("constructor").None? && GradeBaseAsWritten("__proto__").None?
    ensures GradeBase("constructor") == 20 && GradeBase("__proto__") == 20
  {
  }

  /** The base for an already lower-cased grade, and the "Nutri-Score X"
      pro that any non-empty grade adds, recognised or not. */
  function GradeTier(grade: string): (t: Tier)
    ensures t.cons == [] && t.delta == GradeBase(grade)
    ensures grade == "" <==> t.pros == []
    ensures grade != "" ==> t.pros == ["Nutri-Score " + ToUpper(grade)]
  {
    Tier(if grade != "" then ["Nutri-Score " + ToUpper(grade)] else [], [], GradeBase(grade))
  }

  function SugarTier(sugar: real): (t: Tier)
    ensures sugar <= 0.0 <==> t == NoTier
    ensures sugar > 0.0 ==> OneEntry(t)
    ensures sugar > 0.0 ==> (t.pros == ["Low in sugar"] <==> sugar <= 5.0)
    ensures -8 <= t.delta <= 2
  {
    if sugar > 0.0 then
      if sugar > 20.0 then Tier([], ["Very high in sugar"], -8)
      else if sugar > 15.0 then Tier([], ["High in sugar"], -6)
      else if sugar > 10.0 then Tier([], ["Moderately high in sugar"], -4)
      else if sugar > 5.0 then Tier([], ["Moderate sugar content"], -2)
      else Tier(["Low in sugar"], [], 2)
    else NoTier
  }

  function SatFatTier(satFat: real): (t: Tier)
    ensures satFat <= 0.0 <==> t == NoTier
    ensures satFat > 0.0 ==> OneEntry(t)
    ensures satFat > 0.0 ==> (t.pros == ["Low saturated fat"] <==> satFat <= 2.0)
    ensures -7 <= t.delta <= 2
  {
    if satFat > 0.0 then
      if satFat > 10.0 then Tier([], ["Very high in saturated fat"], -7)
      else if satFat > 5.0 then Tier([], ["High in saturated fat"], -5)
      else if satFat > 2.0 then Tier([], ["Moderate saturated fat"], -2)
      else Tier(["Low saturated fat"], [], 2)
    else NoTier
  }

  function SaltTier(salt: real): (t: Tier)
    ensures salt <= 0.0 <==> t == NoTier
    ensures salt > 0.0 ==> OneEntry(t)
    ensures salt > 0.0 ==> (t.pros == ["Low salt"] <==> salt <= 0.6)
    ensures -6 <= t.delta <= 2
  {
    if salt > 0.0 then
      if salt > 2.0 then Tier([], ["Very high in salt"], -6)
      else if salt > 1.2 then Tier([], ["High in salt"], -4)
      else if salt > 0.6 then Tier([], ["Moderate salt content"], -2)
      else Tier(["Low salt"], [], 2)
    else NoTier
  }

  function FiberTier(fiber: real): (t: Tier)
    ensures fiber < 3.0 <==> t == NoTier
    ensures fiber >= 3.0 ==> |t.pros| == 1 && t.cons == [] && t.delta == (if fiber >= 6.0 then 4 else 2)
  {
    if fiber >= 6.0 then Tier(["Excellent source of fiber"], [], 4)
    else if fiber >= 3.0 then Tier(["Good source of fiber"], [], 2)
    else NoTier
  }

  function ProteinTier(protein: real): (t: Tier)
    ensures protein < 8.0 <==> t == NoTier
    ensures protein >= 8.0 ==> |t.pros| == 1 && t.cons == [] && t.delta == (if protein >= 12.0 then 3 else 2)
  {
    if protein >= 12.0 then Tier(["High protein content"], [], 3)
    else if protein >= 8.0 then Tier(["Good protein content"], [], 2)
    else NoTier
  }

  function CalorieTier(kcal: real): (t: Tier)
    ensures t != NoTier <==> (kcal > 450.0 || 0.0 < kcal < 200.0)
    ensures kcal > 450.0 ==> t == Tier([], ["High calorie density"], -2)
    ensures 0.0 < kcal < 200.0 ==> t == Tier(["Low calorie density"], [], 1)
    ensures -2 <= t.delta <= 1
  {
    if kcal > 0.0 then
      if kcal > 450.0 then Tier([], ["High calorie density"], -2)
      else if kcal < 200.0 then Tier(["Low calorie density"], [], 1)
      else NoTier
    else NoTier
  }

  /** The fat-profile check runs only when both total fat and saturated fat
      are positive, and compares their ratio. */
  function FatQualityTier(totalFat: real, satFat: real): (t: Tier)
    ensures !(totalFat > 0.0 && satFat > 0.0) ==> t == NoTier
    ensures totalFat > 0.0 && satFat > 0.0 && satFat / totalFat < 0.3 ==> t == Tier(["Good fat profile"], [], 1)
    ensures totalFat > 0.0 && satFat > 0.0 && satFat / totalFat > 0.6 ==> t == Tier([], ["Poor fat profile"], -2)
    ensures totalFat > 0.0 && 0.3 <= satFat / totalFat <= 0.6 ==> t == NoTier
    ensures -2 <= t.delta <= 1
  {
    if totalFat > 0.0 && satFat > 0.0 then
      var ratio := satFat / totalFat;
      if ratio < 0.3 then Tier(["Good fat profile"], [], 1)
      else if ratio > 0.6 then Tier([], ["Poor fat profile"], -2)
      else NoTier
    else NoTier
  }

  // ---------------------------------------------------------------------
  // 2. Processing

  /** `processingScore` and its list entries for `Number(nova_group || 0)`
      (`None` is NaN). */
  function NovaTier(nova: Option<real>): (t: Tier)
    ensures nova == Some(1.0) ==> t.delta == 25 && t.cons == []
    ensures nova == Some(2.0) ==> t.delta == 20 && t.cons == []
    ensures nova == Some(3.0) ==> t.delta == 12 && |t.pros| == 1 && |t.cons| == 1
    ensures nova == Some(4.0) ==> t.delta == 5 && t.pros == [] && t.cons == ["Ultra-processed (NOVA 4)"]
    ensures nova !in {Some(1.0), Some(2.0), Some(3.0), Some(4.0)} ==> t == Tier([], [], 15)
  {
    if nova == Some(1.0) then Tier(["Unprocessed or minimally processed"], [], 25)
    else if nova == Some(2.0) then Tier(["Processed culinary ingredients"], [], 20)
    else if nova == Some(3.0) then Tier(["Processed foods"], ["Moderately processed"], 12)
    else if nova == Some(4.0) then Tier([], ["Ultra-processed (NOVA 4)"], 5)
    else Tier([], [], 15)
  }

  // ---------------------------------------------------------------------
  // 3. Ingredients

  function AdditiveTier(count: nat): (t: Tier)
    ensures count == 0 ==> t == Tier(["No additives listed"], [], 20)
    ensures 1 <= count <= 2 ==> t == Tier(["Minimal additives"], [], 15)
    ensures 3 <= count <= 5 ==> t == Tier([], ["Contains several additives"], 10)
    ensures count > 5 ==> t == Tier([], ["Many artificial additives"], 5)
  {
    if count == 0 then Tier(["No additives listed"], [], 20)
    else if count <= 2 then Tier(["Minimal additives"], [], 15)
    else if count <= 5 then Tier([], ["Contains several additives"], 10)
    else Tier([], ["Many artificial additives"], 5)
  }

  /** Any allergen costs 2 points and adds one con naming the first three. */
  function AllergenTier(allergens: seq<string>): (t: Tier)
    ensures allergens == [] <==> t == NoTier
    ensures allergens != [] ==> t == Tier([], ["Contains allergens: " + Join(Take(allergens, 3), ", ")], -2)
  {
    if |allergens| > 0 then Tier([], ["Contains allergens: " + Join(Take(allergens, 3), ", ")], -2)
    else NoTier
  }

  // ---------------------------------------------------------------------
  // 4. Labels

  /** `labels.some((l) => l.includes(pat))`. */
  predicate HasLabel(labels: seq<string>, pat: string) {
    exists i :: 0 <= i < |labels| && Contains(labels[i], pat)
  }

  function LabelTier(labels: seq<string>, pat: string, pro: string, bonus: nat): (t: Tier)
    ensures t.cons == []
    ensures HasLabel(labels, pat) ==> t == Tier([pro], [], bonus)
    ensures !HasLabel(labels, pat) ==> t == NoTier
  {
    if HasLabel(labels, pat) then Tier([pro], [], bonus) else NoTier
  }

  function OrganicTier(labels: seq<string>): Tier { LabelTier(labels, "organic", "Organic certified", 8) }
  function VeganTier(labels: seq<string>): Tier { LabelTier(labels, "vegan", "Vegan friendly", 3) }
  function GlutenFreeTier(labels: seq<string>): Tier { LabelTier(labels, "gluten-free", "Gluten-free", 2) }
  function FairTradeTier(labels: seq<string>): Tier { LabelTier(labels, "fair-trade", "Fair trade certified", 2) }

  // ---------------------------------------------------------------------
  // The inputs the engine derives from a product

  datatype Facts = Facts(
    grade: string, sugar: real, satFat: real, salt: real, fiber: real, protein: real,
    kcal: real, totalFat: real, nova: Option<real>, additivesCount: nat,
    allergens: seq<string>, labels: seq<string>)

  /** `num(salt) || num(sodium) * 2.5`: the sentinel -1 is truthy, so sodium
      is used only when the salt value is exactly 0. */
  function SaltOf(n: map<string, JsValue>): real {
    var s := NumOf(Nutriment(n, "salt_100g"));
    if s != 0.0 then s else NumOf(Nutriment(n, "sodium_100g")) * 2.5
  }

  /** `num(kcal) || num(energy) / 4.184`, with the same `||` rule. */
  function KcalOf(n: map<string, JsValue>): real {
    var k := NumOf(Nutriment(n, "energy-kcal_100g"));
    if k != 0.0 then k else NumOf(Nutriment(n, "energy_100g")) / 4.184
  }

  /** `Number(p.nova_group || 0)`. */
  function NovaOf(p: Product): (r: Option<real>)
    ensures !Truthy(p.novaGroup) ==> r == Some(0.0)
    ensures p.novaGroup.Num? ==> r == Some(p.novaGroup.x)
    ensures p.novaGroup.Text? ==> r.None?
  {
    if Truthy(p.novaGroup) then ToNumber(p.novaGroup) else Some(0.0)
  }

  function LowerAll(tags: seq<string>): (r: seq<string>)
    ensures |r| == |tags| && forall i :: 0 <= i < |tags| ==> r[i] == ToLower(tags[i])
  {
    seq(|tags|, i requires 0 <= i < |tags| => ToLower(tags[i]))
  }

  function FactsOf(p: Product): Facts {
    var n := p.nutriments;
    Facts(
      grade := ToLower(p.nutriscoreGrade),
      sugar := NumOf(Nutriment(n, "sugars_100g")),
      satFat := NumOf(Nutriment(n, "saturated-fat_100g")),
      salt := SaltOf(n),
      fiber := NumOf(Nutriment(n, "fiber_100g")),
      protein := NumOf(Nutriment(n, "proteins_100g")),
      kcal := KcalOf(n),
      totalFat := NumOf(Nutriment(n, "fat_100g")),
      nova := NovaOf(p),
      additivesCount := |p.additivesTags|,
      allergens := p.allergensTags,
      labels := LowerAll(p.labelsTags))
  }

  // ---------------------------------------------------------------------
  // Components and lists

  function NutritionScore(f: Facts): int {
    GradeBase(f.grade) + SugarTier(f.sugar).delta + SatFatTier(f.satFat).delta + SaltTier(f.salt).delta
    + FiberTier(f.fiber).delta + ProteinTier(f.protein).delta + CalorieTier(f.kcal).delta
    + FatQualityTier(f.totalFat, f.satFat).delta
  }

  function ProcessingScore(f: Facts): int {
    NovaTier(f.nova).delta
  }

  function IngredientScore(f: Facts): int {
    AdditiveTier(f.additivesCount).delta + AllergenTier(f.allergens).delta
  }

  function LabelScore(f: Facts): int {
    OrganicTier(f.labels).delta + VeganTier(f.labels).delta
    + GlutenFreeTier(f.labels).delta + FairTradeTier(f.labels).delta
  }

  /** The nutrition section's pros, in push order. */
  function NutritionPros(f: Facts): seq<string> {
    GradeTier(f.grade).pros + SugarTier(f.sugar).pros + SatFatTier(f.satFat).pros + SaltTier(f.salt).pros
    + FiberTier(f.fiber).pros + ProteinTier(f.protein).pros + CalorieTier(f.kcal).pros
    + FatQualityTier(f.totalFat, f.satFat).pros
  }

  /** The nutrition section's cons, in push order. */
  function NutritionCons(f: Facts): seq<string> {
    SugarTier(f.sugar).cons + SatFatTier(f.satFat).cons + SaltTier(f.salt).cons
    + CalorieTier(f.kcal).cons + FatQualityTier(f.totalFat, f.satFat).cons
  }

  /** `pros` in push order, before deduplication. */
  function RawPros(f: Facts): seq<string> {
    NutritionPros(f) + NovaTier(f.nova).pros + AdditiveTier(f.additivesCount).pros
    + OrganicTier(f.labels).pros + VeganTier(f.labels).pros + GlutenFreeTier(f.labels).pros
    + FairTradeTier(f.labels).pros
  }

  /** `cons` in push order, before deduplication. */
  function RawCons(f: Facts): seq<string> {
    NutritionCons(f) + NovaTier(f.nova).cons + AdditiveTier(f.additivesCount).cons
    + AllergenTier(f.allergens).cons
  }

  /** `clamp(sum, 0, 100)`, then `Math.round(total / 10 * 2) / 2`, then
      `clamp(.., 1, 10)`. */
  function FinalScore(sum: int): (r: real)
    ensures 1.0 <= r <= 10.0
    ensures IsHalfStep(r)
    ensures 8 <= sum <= 100 ==> -0.25 <= r - sum as real / 10.0 <= 0.25
    ensures sum <= 12 ==> r == 1.0
    ensures sum >= 98 ==> r == 10.0
  {
    var total := ClampInt(sum, 0, 100);
    var k := Round(total as real / 10.0 * 2.0);
    assert 0 <= k <= 20;
    HalfOfInt(k);
    ClampReal(k as real / 2.0, 1.0, 10.0)
  }

  lemma HalfOfInt(k: int)
    ensures IsHalfStep(k as real / 2.0)
  {
    assert 2.0 * (k as real / 2.0) == k as real;
  }

  /** `[c]` when `b` holds, else nothing. */
  function OptionalClause(b: bool, c: RationaleClause): (r: seq<RationaleClause>)
    ensures forall x :: x in r <==> b && x == c
  {
    if b then [c] else []
  }

  /** The clauses of `generateRationale`. */
  function RationaleFor(f: Facts, total: int, finalScore: real, d: Details): (r: seq<RationaleClause>)
    ensures |r| >= 2 && r[0] == ScoreClause(finalScore)
    ensures r[|r| - 1] == Breakdown(total, d.nutrition, d.processing, d.ingredients, d.labels)
  {
    [ScoreClause(finalScore)]
    + OptionalClause(f.grade != "", NutriScoreClause(ToUpper(f.grade)))
    + OptionalClause(f.nova == Some(1.0), MinimalProcessing)
    + OptionalClause(f.nova == Some(4.0), UltraProcessed)
    + OptionalClause(f.additivesCount == 0, NoAdditives)
    + OptionalClause(f.additivesCount > 5, ManyAdditives)
    + OptionalClause(HasLabel(f.labels, "organic"), OrganicCertified)
    + [Breakdown(total, d.nutrition, d.processing, d.ingredients, d.labels)]
  }

  /** Each optional clause is present exactly when its condition holds. */
  lemma RationaleMentions(f: Facts, total: int, finalScore: real, d: Details)
    ensures var r := RationaleFor(f, total, finalScore, d);
      && (NutriScoreClause(ToUpper(f.grade)) in r <==> f.grade != "")
      && (MinimalProcessing in r <==> f.nova == Some(1.0))
      && (UltraProcessed in r <==> f.nova == Some(4.0))
      && (NoAdditives in r <==> f.additivesCount == 0)
      && (ManyAdditives in r <==> f.additivesCount > 5)
      && (OrganicCertified in r <==> HasLabel(f.labels, "organic"))
  {
    var g := NutriScoreClause(ToUpper(f.grade));
    var b := Breakdown(total, d.nutrition, d.processing, d.ingredients, d.labels);
    var nova1, nova4 := f.nova == Some(1.0), f.nova == Some(4.0);
    var organic := HasLabel(f.labels, "organic");
    ClauseMembership(ScoreClause(finalScore), f.grade != "", g, nova1, nova4,
      f.additivesCount == 0, f.additivesCount > 5, organic, b);
  }

  lemma ClauseMembership(s: RationaleClause, hasGrade: bool, gradeClause: RationaleClause,
                         nova1: bool, nova4: bool, none: bool, many: bool, organic: bool,
                         b: RationaleClause)
    requires s.ScoreClause? && gradeClause.NutriScoreClause? && b.Breakdown?
    ensures var r := [s] + OptionalClause(hasGrade, gradeClause) + OptionalClause(nova1, MinimalProcessing)
      + OptionalClause(nova4, UltraProcessed) + OptionalClause(none, NoAdditives)
      + OptionalClause(many, ManyAdditives) + OptionalClause(organic, OrganicCertified) + [b];
      forall x :: x in r <==>
        x == s || (hasGrade && x == gradeClause) || (nova1 && x == MinimalProcessing)
        || (nova4 && x == UltraProcessed) || (none && x == NoAdditives) || (many && x == ManyAdditives)
        || (organic && x == OrganicCertified) || x == b
  {
  }

  function DetailsOf(f: Facts): Details {
    Details(NutritionScore(f), ProcessingScore(f), IngredientScore(f), LabelScore(f))
  }

  function TotalOf(f: Facts): int {
    ClampInt(DetailsOf(f).Sum(), 0, 100)
  }

  /** `computeHealthScore` as a function of the facts it reads. */
  function ScoreFacts(f: Facts): (r: ScoreResult)
    ensures 1.0 <= r.score <= 10.0 && IsHalfStep(r.score)
    ensures |r.pros| <= MaxListItems && NoDuplicates(r.pros)
    ensures |r.cons| <= MaxListItems && NoDuplicates(r.cons)
    ensures var d := Dedup(RawPros(f));
      |r.pros| == (if |d| < MaxListItems then |d| else MaxListItems) && r.pros == d[..|r.pros|]
    ensures var d := Dedup(RawCons(f));
      |r.cons| == (if |d| < MaxListItems then |d| else MaxListItems) && r.cons == d[..|r.cons|]
  {
    var d := DetailsOf(f);
    var final := FinalScore(d.Sum());
    ScoreResult(final, UniqTake(RawPros(f), MaxListItems), UniqTake(RawCons(f), MaxListItems),
                Clauses(RationaleFor(f, TotalOf(f), final, d)), Some(d))
  }

  /** `computeHealthScore` as a function of the product. */
  function HealthScore(p: Product): ScoreResult {
    ScoreFacts(FactsOf(p))
  }

  // ---------------------------------------------------------------------
  // The imperative engine

  /** `generateRationale`, accumulating its clauses with `+=`. */
  method GenerateRationale(f: Facts, total: int, finalScore: real, d: Details)
    returns (parts: seq<RationaleClause>)
    ensures parts == RationaleFor(f, total, finalScore, d)
  {
    parts := [ScoreClause(finalScore)];
    if f.grade != "" {
      parts := parts + [NutriScoreClause(ToUpper(f.grade))];
    }
    assert parts == [ScoreClause(finalScore)] + OptionalClause(f.grade != "", NutriScoreClause(ToUpper(f.grade)));
    ghost var before := parts;
    if f.nova == Some(1.0) {
      parts := parts + [MinimalProcessing];
    } else if f.nova == Some(4.0) {
      parts := parts + [UltraProcessed];
    }
    assert parts == before + OptionalClause(f.nova == Some(1.0), MinimalProcessing)
                           + OptionalClause(f.nova == Some(4.0), UltraProcessed);
    before := parts;
    if f.additivesCount == 0 {
      parts := parts + [NoAdditives];
    } else if f.additivesCount > 5 {
      parts := parts + [ManyAdditives];
    }
    assert parts == before + OptionalClause(f.additivesCount == 0, NoAdditives)
                           + OptionalClause(f.additivesCount > 5, ManyAdditives);
    before := parts;
    if HasLabel(f.labels, "organic") {
      parts := parts + [OrganicCertified];
    }
    assert parts == before + OptionalClause(HasLabel(f.labels, "organic"), OrganicCertified);
    parts := parts + [Breakdown(total, d.nutrition, d.processing, d.ingredients, d.labels)];
  }

  /** The sugar rule of section 1 (per 100 g). */
  method SugarRule(sugar: real, pros0: seq<string>, cons0: seq<string>, score0: int)
    returns (pros: seq<string>, cons: seq<string>, score: int)
    ensures pros == pros0 + SugarTier(sugar).pros && cons == cons0 + SugarTier(sugar).cons
    ensures score == score0 + SugarTier(sugar).delta
  {
    pros, cons, score := pros0, cons0, score0;
    if sugar > 0.0 {
      if sugar > 20.0 {
        cons := cons + ["Very high in sugar"];
        score := score - 8;
      } else if sugar > 15.0 {
        cons := cons + ["High in sugar"];
        score := score - 6;
      } else if sugar > 10.0 {
        cons := cons + ["Moderately high in sugar"];
        score := score - 4;
      } else if sugar > 5.0 {
        cons := cons + ["Moderate sugar content"];
        score := score - 2;
      } else {
        pros := pros + ["Low in sugar"];
        score := score + 2;
      }
    }
  }

  method SatFatRule(satFat: real, pros0: seq<string>, cons0: seq<string>, score0: int)
    returns (pros: seq<string>, cons: seq<string>, score: int)
    ensures pros == pros0 + SatFatTier(satFat).pros && cons == cons0 + SatFatTier(satFat).cons
    ensures score == score0 + SatFatTier(satFat).delta
  {
    pros, cons, score := pros0, cons0, score0;
    if satFat > 0.0 {
      if satFat > 10.0 {
        cons := cons + ["Very high in saturated fat"];
        score := score - 7;
      } else if satFat > 5.0 {
        cons := cons + ["High in saturated fat"];
        score := score - 5;
      } else if satFat > 2.0 {
        cons := cons + ["Moderate saturated fat"];
        score := score - 2;
      } else {
        pros := pros + ["Low saturated fat"];
        score := score + 2;
      }
    }
  }

  method SaltRule(salt: real, pros0: seq<string>, cons0: seq<string>, score0: int)
    returns (pros: seq<string>, cons: seq<string>, score: int)
    ensures pros == pros0 + SaltTier(salt).pros && cons == cons0 + SaltTier(salt).cons
    ensures score == score0 + SaltTier(salt).delta
  {
    pros, cons, score := pros0, cons0, score0;
    if salt > 0.0 {
      if salt > 2.0 {
        cons := cons + ["Very high in salt"];
        score := score - 6;
      } else if salt > 1.2 {
        cons := cons + ["High in salt"];
        score := score - 4;
      } else if salt > 0.6 {
        cons := cons + ["Moderate salt content"];
        score := score - 2;
      } else {
        pros := pros + ["Low salt"];
        score := score + 2;
      }
    }
  }

  /** The fiber and protein bonuses. */
  method FiberProteinRules(fiber: real, protein: real, pros0: seq<string>, score0: int)
    returns (pros: seq<string>, score: int)
    ensures pros == pros0 + FiberTier(fiber).pros + ProteinTier(protein).pros
    ensures score == score0 + FiberTier(fiber).delta + ProteinTier(protein).delta
  {
    pros, score := pros0, score0;
    if fiber >= 6.0 {
      pros := pros + ["Excellent source of fiber"];
      score := score + 4;
    } else if fiber >= 3.0 {
      pros := pros + ["Good source of fiber"];
      score := score + 2;
    }
    if protein >= 12.0 {
      pros := pros + ["High protein content"];
      score := score + 3;
    } else if protein >= 8.0 {
      pros := pros + ["Good protein content"];
      score := score + 2;
    }
  }

  /** The calorie-density rule and the fat-profile rule. */
  method EnergyFatRules(kcal: real, totalFat: real, satFat: real, pros0: seq<string>, cons0: seq<string>, score0: int)
    returns (pros: seq<string>, cons: seq<string>, score: int)
    ensures pros == pros0 + CalorieTier(kcal).pros + FatQualityTier(totalFat, satFat).pros
    ensures cons == cons0 + CalorieTier(kcal).cons + FatQualityTier(totalFat, satFat).cons
    ensures score == score0 + CalorieTier(kcal).delta + FatQualityTier(totalFat, satFat).delta
  {
    pros, cons, score := pros0, cons0, score0;
    if kcal > 0.0 {
      if kcal > 450.0 {
        cons := cons + ["High calorie density"];
        score := score - 2;
      } else if kcal < 200.0 {
        pros := pros + ["Low calorie density"];
        score := score + 1;
      }
    }
    if totalFat > 0.0 && satFat > 0.0 {
      var satFatRatio := satFat / totalFat;
      if satFatRatio < 0.3 {
        pros := pros + ["Good fat profile"];
        score := score + 1;
      } else if satFatRatio > 0.6 {
        cons := cons + ["Poor fat profile"];
        score := score - 2;
      }
    }
  }

  /** Section 1 of `computeHealthScore`: the grade base and the nutrient
      rules, pushing onto the (still empty) `pros` and `cons`. */
  method NutritionSection(f: Facts) returns (pros: seq<string>, cons: seq<string>, nutritionScore: int)
    ensures pros == NutritionPros(f) && cons == NutritionCons(f)
    ensures nutritionScore == NutritionScore(f)
  {
    pros, cons := [], [];
    var grade := f.grade;
    nutritionScore := if grade in BaseFromGrade then BaseFromGrade[grade] else 20;
    if grade != "" {
      pros := pros + ["Nutri-Score " + ToUpper(grade)];
    }
    assert pros == GradeTier(grade).pros;
    pros, cons, nutritionScore := SugarRule(f.sugar, pros, cons, nutritionScore);
    assert cons == SugarTier(f.sugar).cons;
    pros, cons, nutritionScore := SatFatRule(f.satFat, pros, cons, nutritionScore);
    pros, cons, nutritionScore := SaltRule(f.salt, pros, cons, nutritionScore);
    pros, nutritionScore := FiberProteinRules(f.fiber, f.protein, pros, nutritionScore);
    pros, cons, nutritionScore := EnergyFatRules(f.kcal, f.totalFat, f.satFat, pros, cons, nutritionScore);
  }

  /** Section 2: the NOVA group. */
  method ProcessingSection(f: Facts, pros0: seq<string>, cons0: seq<string>)
    returns (pros: seq<string>, cons: seq<string>, processingScore: int)
    ensures pros == pros0 + NovaTier(f.nova).pros && cons == cons0 + NovaTier(f.nova).cons
    ensures processingScore == ProcessingScore(f)
  {
    pros, cons := pros0, cons0;
    var nova := f.nova;
    if nova == Some(1.0) {
      pros := pros + ["Unprocessed or minimally processed"];
      processingScore := 25;
    } else if nova == Some(2.0) {
      pros := pros + ["Processed culinary ingredients"];
      processingScore := 20;
    } else if nova == Some(3.0) {
      pros := pros + ["Processed foods"];
      processingScore := 12;
      cons := cons + ["Moderately processed"];
    } else if nova == Some(4.0) {
      cons := cons + ["Ultra-processed (NOVA 4)"];
      processingScore := 5;
    } else {
      processingScore := 15;
    }
  }

  /** Section 3: additives and allergens. */
  method IngredientSection(f: Facts, pros0: seq<string>, cons0: seq<string>)
    returns (pros: seq<string>, cons: seq<string>, ingredientScore: int)
    ensures pros == pros0 + AdditiveTier(f.additivesCount).pros
    ensures cons == cons0 + AdditiveTier(f.additivesCount).cons + AllergenTier(f.allergens).cons
    ensures ingredientScore == IngredientScore(f)
  {
    pros, cons := pros0, cons0;
    var additivesCount := f.additivesCount;
    if additivesCount == 0 {
      pros := pros + ["No additives listed"];
      ingredientScore := 20;
    } else if additivesCount <= 2 {
      pros := pros + ["Minimal additives"];
      ingredientScore := 15;
    } else if additivesCount <= 5 {
      cons := cons + ["Contains several additives"];
      ingredientScore := 10;
    } else {
      cons := cons + ["Many artificial additives"];
      ingredientScore := 5;
    }
    var allergens := f.allergens;
    if |allergens| > 0 {
      cons := cons + ["Contains allergens: " + Join(Take(allergens, 3), ", ")];
      ingredientScore := ingredientScore - 2;
    }
  }

  /** Section 4: label bonuses. */
  method LabelSection(f: Facts, pros0: seq<string>) returns (pros: seq<string>, labelScore: int)
    ensures pros == pros0 + OrganicTier(f.labels).pros + VeganTier(f.labels).pros
      + GlutenFreeTier(f.labels).pros + FairTradeTier(f.labels).pros
    ensures labelScore == LabelScore(f)
  {
    pros := pros0;
    labelScore := 0;
    var labels := f.labels;
    if HasLabel(labels, "organic") {
      pros := pros + ["Organic certified"];
      labelScore := labelScore + 8;
    }
    assert pros == pros0 + OrganicTier(labels).pros && labelScore == OrganicTier(labels).delta;
    if HasLabel(labels, "vegan") {
      pros := pros + ["Vegan friendly"];
      labelScore := labelScore + 3;
    }
    assert pros == pros0 + OrganicTier(labels).pros + VeganTier(labels).pros;
    ghost var before, score0 := pros, labelScore;
    if HasLabel(labels, "gluten-free") {
      pros := pros + ["Gluten-free"];
      labelScore := labelScore + 2;
    }
    assert pros == before + GlutenFreeTier(labels).pros && labelScore == score0 + GlutenFreeTier(labels).delta;
    before, score0 := pros, labelScore;
    if HasLabel(labels, "fair-trade") {
      pros := pros + ["Fair trade certified"];
      labelScore := labelScore + 2;
    }
    assert pros == before + FairTradeTier(labels).pros && labelScore == score0 + FairTradeTier(labels).delta;
  }

  /** The four sections of `computeHealthScore` in order, pushing onto
      shared `pros` and `cons`. */
  method RunSections(f: Facts) returns (pros: seq<string>, cons: seq<string>, d: Details)
    ensures pros == RawPros(f) && cons == RawCons(f)
    ensures d == DetailsOf(f)
  {
    var nutritionScore, processingScore, ingredientScore, labelScore;
    pros, cons, nutritionScore := NutritionSection(f);
    pros, cons, processingScore := ProcessingSection(f, pros, cons);
    pros, cons, ingredientScore := IngredientSection(f, pros, cons);
    pros, labelScore := LabelSection(f, pros);
    d := Details(nutritionScore, processingScore, ingredientScore, labelScore);
  }

  /** The final steps of `computeHealthScore` on the component sum. */
  method ScaleTotal(sum: int) returns (totalScore: int, clampedScore: real)
    ensures totalScore == ClampInt(sum, 0, 100)
    ensures clampedScore == FinalScore(sum)
  {
    totalScore := ClampInt(sum, 0, 100);
    var finalScore := Round(totalScore as real / 10.0 * 2.0) as real / 2.0;
    clampedScore := ClampReal(finalScore, 1.0, 10.0);
  }

  /** The body of `computeHealthScore` once the product's fields are read:
      the sections, then the total clamped, scaled and clamped again, and
      the lists deduplicated and capped. */
  method ScoreFromFacts(f: Facts) returns (r: ScoreResult)
    ensures r == ScoreFacts(f)
  {
    var pros, cons, d := RunSections(f);
    var totalScore, clampedScore := ScaleTotal(d.Sum());
    var rationale := GenerateRationale(f, totalScore, clampedScore, d);
    r := ScoreResult(clampedScore, UniqTake(pros, MaxListItems), UniqTake(cons, MaxListItems),
                     Clauses(rationale), Some(d));
  }

  /** `computeHealthScore`. */
  method ComputeHealthScore(p: Product) returns (r: ScoreResult)
    ensures r == HealthScore(p)
    ensures 1.0 <= r.score <= 10.0 && IsHalfStep(r.score)
    ensures |r.pros| <= MaxListItems && NoDuplicates(r.pros)
    ensures |r.cons| <= MaxListItems && NoDuplicates(r.cons)
  {
    var f := FactsOf(p);
    r := ScoreFromFacts(f);
  }

  // ---------------------------------------------------------------------
  // Properties

  /** The component ranges: processing is one of five values, ingredients
      one of 20/15/10/5 less 2 for allergens, labels a sum of independent
      bonuses in [0, 15], nutrition the grade base plus bounded deltas. */
  lemma ComponentRanges(f: Facts)
    ensures ProcessingScore(f) in {25, 20, 12, 5, 15}
    ensures IngredientScore(f) == AdditiveTier(f.additivesCount).delta - (if f.allergens == [] then 0 else 2)
    ensures AdditiveTier(f.additivesCount).delta in {20, 15, 10, 5}
    ensures 0 <= LabelScore(f) <= 15
    ensures LabelScore(f) == (if HasLabel(f.labels, "organic") then 8 else 0) + (if HasLabel(f.labels, "vegan") then 3 else 0)
      + (if HasLabel(f.labels, "gluten-free") then 2 else 0) + (if HasLabel(f.labels, "fair-trade") then 2 else 0)
    ensures GradeBase(f.grade) - 25 <= NutritionScore(f) <= GradeBase(f.grade) + 15
  {
  }

  /** The grade is lower-cased before the table lookup; "a".."e" give
      35/28/21/14/7 and anything else, including "", gives 20. Any
      non-empty grade adds the pro "Nutri-Score <GRADE>". */
  lemma GradeLookup(p: Product)
    ensures var g := ToLower(p.nutriscoreGrade);
      && (g == "a" ==> GradeBase(g) == 35) && (g == "b" ==> GradeBase(g) == 28)
      && (g == "c" ==> GradeBase(g) == 21) && (g == "d" ==> GradeBase(g) == 14)
      && (g == "e" ==> GradeBase(g) == 7)
      && (g !in {"a", "b", "c", "d", "e"} ==> GradeBase(g) == 20)
  {
  }

  /** The lookup ignores letter case: "A" scores like "a", and the pro
      shows the grade upper-cased either way. */
  lemma GradeCaseInsensitive()
    ensures GradeBase(ToLower("A")) == 35
    ensures GradeTier(ToLower("a")).pros == GradeTier(ToLower("A")).pros
  {
    assert ToLower("A") == "a";
    assert ToLower("a") == "a";
  }

  /** With the salt value missing, `num` yields the truthy sentinel -1 and
      the sodium value is never consulted; sodium is used only when the
      salt value converts to exactly 0. The same holds for the energy
      fallback. */
  lemma NutrientFallbacks(n: map<string, JsValue>)
    ensures Nutriment(n, "salt_100g").Undefined? ==> SaltOf(n) == -1.0
    ensures ToNumber(Nutriment(n, "salt_100g")) == Some(0.0) ==>
      SaltOf(n) == NumOf(Nutriment(n, "sodium_100g")) * 2.5
    ensures Nutriment(n, "energy-kcal_100g").Undefined? ==> KcalOf(n) == -1.0
    ensures ToNumber(Nutriment(n, "energy-kcal_100g")) == Some(0.0) ==>
      KcalOf(n) == NumOf(Nutriment(n, "energy_100g")) / 4.184
  {
  }

  /** A product with no nutriment data gets the grade base and nothing
      else from the nutrition section: every missing value reads as -1 and
      triggers no tier. */
  lemma MissingNutrimentsAreInert(p: Product)
    requires p.nutriments == map[]
    ensures NutritionScore(FactsOf(p)) == GradeBase(ToLower(p.nutriscoreGrade))
    ensures RawCons(FactsOf(p)) == NovaTier(NovaOf(p)).cons + AdditiveTier(|p.additivesTags|).cons
                                   + AllergenTier(p.allergensTags).cons
  {
    var f := FactsOf(p);
    assert f.sugar == -1.0 && f.satFat == -1.0 && f.fiber == -1.0 && f.protein == -1.0;
    assert f.salt == -1.0 && f.kcal == -1.0 && f.totalFat == -1.0;
  }

  /** Raising the component sum never lowers the score. */
  lemma FinalScoreMonotone(a: int, b: int)
    requires a <= b
    ensures FinalScore(a) <= FinalScore(b)
  {
    var ta, tb := ClampInt(a, 0, 100), ClampInt(b, 0, 100);
    assert ta <= tb;
    assert ta as real / 10.0 * 2.0 <= tb as real / 10.0 * 2.0;
  }

  /** Scenario: grade e, NOVA 4, 7 additives, gluten, sugar 25, saturated
      fat 12, salt 2.5. */
  function ScenarioB(): Product {
    Product("0000000000001", "", "", "", "",
      map["sugars_100g" := Num(25.0), "saturated-fat_100g" := Num(12.0), "salt_100g" := Num(2.5)],
      "e", Num(4.0), ["e1", "e2", "e3", "e4", "e5", "e6", "e7"], [], ["gluten"], "")
  }

  const FactsB: Facts := Facts("e", 25.0, 12.0, 2.5, -1.0, -1.0, -1.0, -1.0, Some(4.0), 7, ["gluten"], [])

  /** What the engine reads from scenario B: missing values read as -1. */
  lemma ScenarioBFacts()
    ensures FactsOf(ScenarioB()) == FactsB
  {
    assert ToLower("e") == "e";
  }

  /** Every component is at its worst: the sum -14 + 5 + 3 + 0 is clamped
      to 0 and the score to 1. */
  lemma ScenarioBScore()
    ensures DetailsOf(FactsB) == Details(-14, 5, 3, 0)
    ensures TotalOf(FactsB) == 0
    ensures ScoreFacts(FactsB).score == 1.0
  {
    assert NutritionScore(FactsB) == -14;
  }

  /** The cons come out in push order, all six distinct. */
  lemma ScenarioBLists()
    ensures UniqTake(RawPros(FactsB), MaxListItems) == ["Nutri-Score E"]
    ensures UniqTake(RawCons(FactsB), MaxListItems) == ["Very high in sugar", "Very high in saturated fat",
      "Very high in salt", "Ultra-processed (NOVA 4)", "Many artificial additives",
      "Contains allergens: gluten"]
  {
    var f := FactsB;
    assert ToUpper("e") == "E";
    assert "Nutri-Score " + "E" == "Nutri-Score E";
    assert RawPros(f) == ["Nutri-Score E"];
    assert Join(Take(["gluten"], 3), ", ") == "gluten";
    assert "Contains allergens: " + "gluten" == "Contains allergens: gluten";
    var cons := RawCons(f);
    assert cons == ["Very high in sugar", "Very high in saturated fat",
      "Very high in salt", "Ultra-processed (NOVA 4)", "Many artificial additives",
      "Contains allergens: gluten"];
    assert NoDuplicates(cons);
    DedupOfDistinct(cons);
    DedupOfDistinct(RawPros(f));
  }

  /** Scenario: grade a, NOVA 1, no additives, organic and vegan labels,
      sugar 3, saturated fat 0.5, salt 0.2, fiber 6, protein 10. */
  function ScenarioA(): Product {
    Product("0000000000002", "", "", "", "",
      map["sugars_100g" := Num(3.0), "saturated-fat_100g" := Num(0.5), "salt_100g" := Num(0.2),
          "fiber_100g" := Num(6.0), "proteins_100g" := Num(10.0)],
      "a", Num(1.0), [], ["organic", "vegan"], [], "")
  }

  const FactsA: Facts := Facts("a", 3.0, 0.5, 0.2, 6.0, 10.0, -1.0, -1.0, Some(1.0), 0, [], ["organic", "vegan"])

  lemma ScenarioAFacts()
    ensures FactsOf(ScenarioA()) == FactsA
  {
    assert ToLower("a") == "a";
    assert ToLower("organic") == "organic";
    assert ToLower("vegan") == "vegan";
  }

  lemma ScenarioALabels()
    ensures HasLabel(FactsA.labels, "organic") && HasLabel(FactsA.labels, "vegan")
    ensures !HasLabel(FactsA.labels, "gluten-free") && !HasLabel(FactsA.labels, "fair-trade")
  {
    var labels := FactsA.labels;
    assert OccursAt(labels[0], "organic", 0);
    assert OccursAt(labels[1], "vegan", 0);
    NotContainsLong(labels[0], "gluten-free");
    NotContainsLong(labels[1], "gluten-free");
    NotContainsLong(labels[0], "fair-trade");
    NotContainsLong(labels[1], "fair-trade");
  }

  lemma ScenarioANutrition()
    ensures NutritionScore(FactsA) == 47
  {
  }

  lemma ScenarioAComponents()
    ensures DetailsOf(FactsA) == Details(47, 25, 20, 11)
  {
    ScenarioALabels();
    ScenarioANutrition();
  }

  /** The sum 47 + 25 + 20 + 11 = 103 is clamped to 100 and the score is
      10. */
  lemma ScenarioAScore()
    ensures TotalOf(FactsA) == 100
    ensures ScoreFacts(FactsA).score == 10.0
  {
    ScenarioAComponents();
  }

  const SixProsA: seq<string> := ["Nutri-Score A", "Low in sugar", "Low saturated fat",
      "Low salt", "Excellent source of fiber", "Good protein content"]

  const RawProsA: seq<string> := SixProsA + ["Unprocessed or minimally processed", "No additives listed",
      "Organic certified", "Vegan friendly"]

  lemma ScenarioANutritionPros()
    ensures NutritionPros(FactsA) == SixProsA
  {
    assert ToUpper("a") == "A";
    assert "Nutri-Score " + "A" == "Nutri-Score A";
  }

  /** Ten pros are pushed in this order, and no cons. */
  lemma ScenarioARawLists()
    ensures RawPros(FactsA) == RawProsA
    ensures RawCons(FactsA) == []
  {
    ScenarioALabels();
    ScenarioANutritionPros();
  }

  /** The six-item cap cuts the pros after "Good protein content", so
      "Organic certified" is not among them. */
  lemma ScenarioALists()
    ensures UniqTake(RawPros(FactsA), MaxListItems) == SixProsA
    ensures UniqTake(RawCons(FactsA), MaxListItems) == []
  {
    ScenarioARawLists();
    CapOfDistinctPrefix();
  }

  lemma CapOfDistinctPrefix()
    ensures UniqTake(RawProsA, MaxListItems) == SixProsA
  {
    assert NoDuplicates(SixProsA);
    DedupOfDistinct(SixProsA);
    DedupPrefix(SixProsA, RawProsA[6..]);
    assert SixProsA + RawProsA[6..] == RawProsA;
  }

  lemma NotContainsLong(s: string, pat: string)
    requires |s| < |pat|
    ensures !Contains(s, pat)
  {
  }

  // ---------------------------------------------------------------------
  // Score categories

  datatype ScoreCategory = ScoreCategory(name: string, color: string, description: string)

  /** 4 for Excellent down to 0 for Very Poor. */
  function CategoryLevel(score: real): (r: nat)
    ensures r <= 4
    ensures r == 4 <==> score >= 8.5
    ensures r == 0 <==> score < 4.0
  {
    if score >= 8.5 then 4 else if score >= 7.0 then 3 else if score >= 5.5 then 2
    else if score >= 4.0 then 1 else 0
  }

  const Categories: seq<ScoreCategory> := [
    ScoreCategory("Very Poor", "red", "Not recommended for health"),
    ScoreCategory("Poor", "orange", "Limited health benefits"),
    ScoreCategory("Fair", "yellow", "Moderate health impact"),
    ScoreCategory("Good", "green", "Healthy option"),
    ScoreCategory("Excellent", "emerald", "Very healthy choice")]

  /** `getScoreCategory`: total, one of five categories. */
  function GetScoreCategory(score: real): (c: ScoreCategory)
    ensures c in Categories
    ensures c == Categories[CategoryLevel(score)]
  {
    Categories[CategoryLevel(score)]
  }

  /** A higher score never lands in a lower category. */
  lemma CategoryMonotone(a: real, b: real)
    requires a <= b
    ensures CategoryLevel(a) <= CategoryLevel(b)
  {
  }
}
