/** The home page's handlers: `onDetected` (the second dedup on
    `lastBarcode`, confidence clamping, the lookup-status routing, the
    base score, the scan history and AI enrichment), `analyzeUnknownProduct`,
    `handleVisionAnalysis`, `resetScan`, the AI availability probe, and the
    pure utterance and gradient helpers. Everything the handlers await
    (the lookup, `confirm`, `prompt`, the AI route's replies, `Date.now`)
    is an input. */
module Page {
  import opened Wrappers
  import opened JsRuntime
  import opened Lists
  import opened OpenFoodFacts
  import opened Scoring
  import RouteSupport
  import AiScoreRoute

  const MaxHistory: nat := 10

  /** The error banner. Each fixed message the page shows is a
      constructor (its text is `NoticeText`); `ServerError` carries the
      lookup's own `error` text. */
  datatype Notice =
    | NoNotice
    | NetworkError
    | NotInDatabase
    | TooManyRequests
    | LookupFailed
    | ServerError(text: string)
    | AiUnavailable
    | AnalysisFailed

  function NoticeText(n: Notice): string {
    match n
    case NoNotice => ""
    case NetworkError => "Network error. Please check your connection and try again."
    case NotInDatabase => "Product not found in our database. Try another product, use computer vision, or check the barcode."
    case TooManyRequests => "Too many requests. Please wait a moment before scanning again."
    case LookupFailed => "Unable to fetch product information. Please try again."
    case ServerError(text) => text
    case AiUnavailable => "AI analysis not available. Please try scanning a different product or check your connection."
    case AnalysisFailed => "Failed to analyze unknown product. Please try again or scan a different product."
  }

  /** `{ score: 0, pros: [], cons: [], rationale: "" }`. */
  const EmptyScore: ScoreResult := ScoreResult(0.0, [], [], Prose(""), None)

  datatype ScanMode = BarcodeMode | VisionMode

  datatype HistoryEntry = HistoryEntry(barcode: string, product: Product, score: ScoreResult, timestamp: int)

  datatype UnknownProduct = UnknownProduct(barcode: string, description: string)

  /** A successful vision analysis as the page reads it (absent strings
      are "", absent lists []). */
  datatype VisionResult = VisionResult(
    productName: string, productType: string, healthScore: real,
    pros: seq<string>, cons: seq<string>, rationale: string)

  /** Every state hook the handlers touch. */
  datatype PageState = PageState(
    lastBarcode: string,
    product: Option<Product>,
    score: ScoreResult,
    loading: bool,
    error: Notice,
    muted: bool,
    enhanceWithAi: bool,
    aiAvailable: bool,
    aiBusy: bool,
    confidence: real,
    visionMode: ScanMode,
    visionAnalysis: Option<VisionResult>,
    unknownProduct: Option<UnknownProduct>,
    history: seq<HistoryEntry>)

  // ---------------------------------------------------------------------
  // Scan history

  /** `[entry, ...prev.slice(0, 9)]`. */
  function Prepend(history: seq<HistoryEntry>, entry: HistoryEntry): (r: seq<HistoryEntry>)
    ensures |r| <= MaxHistory && |r| >= 1 && r[0] == entry
    ensures |history| < MaxHistory ==> r == [entry] + history
    ensures |history| >= MaxHistory ==> |r| == MaxHistory && r[1..] == history[..MaxHistory - 1]
  {
    [entry] + Take(history, MaxHistory - 1)
  }

  /** `prev.map(item => item.barcode === barcode ? { ...item, score } : item)`. */
  function ReplaceScore(history: seq<HistoryEntry>, barcode: string, score: ScoreResult): (r: seq<HistoryEntry>)
    ensures |r| == |history|
    ensures forall i :: 0 <= i < |history| && history[i].barcode == barcode ==> r[i] == history[i].(score := score)
    ensures forall i :: 0 <= i < |history| && history[i].barcode != barcode ==> r[i] == history[i]
  {
    if |history| == 0 then []
    else
      var head := if history[0].barcode == barcode then history[0].(score := score) else history[0];
      [head] + ReplaceScore(history[1..], barcode, score)
  }

  // ---------------------------------------------------------------------
  // Lookup routing

  /** Where `onDetected` goes with what `fetchProductByBarcode` resolved to
      (`None` for a null result). */
  datatype LookupRoute = Found(product: Product) | NetworkFailure | NotFound | RateLimited | Failed(notice: Notice)

  function RouteLookup(data: Option<OffResponse>): (r: LookupRoute)
    ensures data.None? <==> r.NetworkFailure?
    ensures r.Found? <==> data.Some? && data.value.status == Some(1) && data.value.product.Some?
    ensures r.Found? ==> r.product == data.value.product.value
    ensures r.NotFound? <==> data.Some? && data.value.status == Some(404)
    ensures r.RateLimited? <==> data.Some? && data.value.status == Some(429)
    ensures r.Failed? <==>
      (data.Some? && !(data.value.status == Some(1) && data.value.product.Some?)
       && data.value.status != Some(404) && data.value.status != Some(429))
    ensures r.Failed? && data.value.error != "" ==> r.notice == ServerError(data.value.error)
    ensures r.Failed? && data.value.error == "" ==> r.notice == LookupFailed
  {
    if data.None? then NetworkFailure
    else
      var d := data.value;
      if d.status == Some(1) && d.product.Some? then Found(d.product.value)
      else if d.status == Some(404) then NotFound
      else if d.status == Some(429) then RateLimited
      else if d.error != "" then Failed(ServerError(d.error))
      else Failed(LookupFailed)
  }

  /** The message shown for a lookup that brought no product (and did not
      go down the AI path). */
  function LookupMessage(r: LookupRoute): Notice
    requires !r.Found?
  {
    match r
    case NetworkFailure => NetworkError
    case NotFound => NotInDatabase
    case RateLimited => TooManyRequests
    case Failed(n) => n
  }

  // ---------------------------------------------------------------------
  // The handlers as functions of the page state

  /** The product record `analyzeUnknownProduct` files in the history. */
  function UnknownPlaceholder(barcode: string, description: string): Product {
    Product("", "Unknown Product (" + barcode + ")", "", "Unknown", description, map[], "", Num(0.0), [], [], [], "")
  }

  /** The product record `handleVisionAnalysis` files in the history. */
  function VisionPlaceholder(result: VisionResult): Product {
    Product("", result.productName, "", result.productType, "", map[], "", Num(0.0), [], [], [], "")
  }

  /** The score `handleVisionAnalysis` shows for a vision result. */
  function VisionScore(result: VisionResult): ScoreResult {
    ScoreResult(result.healthScore, result.pros, result.cons, Prose(result.rationale), None)
  }

  /** `Math.max(0, Math.min(1, c))` when a number is supplied. */
  function StoredConfidence(current: real, approx: Option<real>): (c: real)
    ensures approx.None? ==> c == current
    ensures approx.Some? ==> 0.0 <= c <= 1.0
    ensures approx.Some? && 0.0 <= approx.value <= 1.0 ==> c == approx.value
    ensures approx.Some? && approx.value < 0.0 ==> c == 0.0
    ensures approx.Some? && approx.value > 1.0 ==> c == 1.0
  {
    if approx.Some? then ClampReal(approx.value, 0.0, 1.0) else current
  }

  /** The updates `onDetected` makes before awaiting the lookup. */
  function BeginScan(s: PageState, barcode: string, approx: Option<real>): PageState {
    s.(lastBarcode := barcode, confidence := StoredConfidence(s.confidence, approx),
       error := NoNotice, loading := true, product := None, score := EmptyScore,
       unknownProduct := None, visionAnalysis := None)
  }

  /** What the AI route answered: a parsed score, or a non-OK reply or a
      failed request. */
  datatype AiAnswer = AiFailed | AiScored(result: ScoreResult)

  /** `analyzeUnknownProduct(barcode, description)`. */
  function AnalyzeUnknown(s: PageState, barcode: string, description: string, answer: AiAnswer, now: int): (r: PageState)
    ensures !s.aiAvailable ==> r == s.(error := AiUnavailable)
    ensures s.aiAvailable ==> !r.loading && r.unknownProduct == Some(UnknownProduct(barcode, description))
    ensures s.aiAvailable && answer.AiScored? ==>
      r.score == answer.result && r.error == NoNotice && |r.history| >= 1 && r.history == Prepend(s.history, r.history[0])
      && r.history[0].barcode == barcode && r.history[0].score == answer.result
    ensures s.aiAvailable && answer.AiFailed? ==> r.error == AnalysisFailed && r.history == s.history && r.score == s.score
    ensures r.lastBarcode == s.lastBarcode && r.confidence == s.confidence
  {
    if !s.aiAvailable then s.(error := AiUnavailable)
    else
      var s1 := s.(loading := true, error := NoNotice, unknownProduct := Some(UnknownProduct(barcode, description)));
      match answer
      case AiScored(r) =>
        s1.(score := r, history := Prepend(s1.history, HistoryEntry(barcode, UnknownPlaceholder(barcode, description), r, now)),
            loading := false)
      case AiFailed => s1.(error := AnalysisFailed, loading := false)
  }

  /** The base score of a found product, shown and filed in the history. */
  function FileScore(s: PageState, barcode: string, p: Product, base: ScoreResult, now: int): PageState {
    s.(product := Some(p), score := base, history := Prepend(s.history, HistoryEntry(barcode, p, base, now)))
  }

  /** The optional AI enrichment after the base score is shown. */
  function Enrich(s: PageState, barcode: string, enriched: AiAnswer): PageState {
    if s.enhanceWithAi && s.aiAvailable then
      match enriched
      case AiScored(e) => s.(score := e, history := ReplaceScore(s.history, barcode, e), aiBusy := false)
      case AiFailed => s.(aiBusy := false)
    else s
  }

  /** A found product: its base score `base`, filed in the history, then
      the optional AI enrichment. */
  function ScoreFound(s: PageState, barcode: string, p: Product, base: ScoreResult, enriched: AiAnswer, now: int): PageState {
    Enrich(FileScore(s, barcode, p, base, now), barcode, enriched)
  }

  /** The score `computeHealthScore` gives the product a lookup found
      (`EmptyScore`, which no branch reads, when there is none). */
  function BaseScoreOf(data: Option<OffResponse>): ScoreResult {
    var route := RouteLookup(data);
    if route.Found? then HealthScore(route.product) else EmptyScore
  }

  /** The user's answers to the not-found dialogs: `confirm` and the text
      `prompt` returned ("" for none). */
  datatype Dialog = Dialog(analyze: bool, description: string)

  /** The not-found dialog went on to `prompt`: a description leads to
      `analyzeUnknownProduct`, none to the not-found message. */
  function NotFoundDialog(s: PageState, barcode: string, description: string, answer: AiAnswer, now: int): PageState {
    if description != "" then AnalyzeUnknown(s, barcode, description, answer, now)
    else s.(error := NotInDatabase)
  }

  /** What `onDetected` does once the lookup has resolved; `base` is the
      base score of the product it found. */
  function AfterLookup(s: PageState, barcode: string, data: Option<OffResponse>, base: ScoreResult,
                       dialog: Dialog, unknownAnswer: AiAnswer, enriched: AiAnswer, now: int): PageState
  {
    var route := RouteLookup(data);
    if route.Found? then ScoreFound(s, barcode, route.product, base, enriched, now)
    else if route.NotFound? && dialog.analyze then
      NotFoundDialog(s.(visionMode := VisionMode), barcode, dialog.description, unknownAnswer, now)
    else s.(error := LookupMessage(route))
  }

  /** `onDetected(barcode, approxConfidence)`, where `base` is the base
      score of the product the lookup found. */
  function Detected(s: PageState, barcode: string, approx: Option<real>, data: Option<OffResponse>, base: ScoreResult,
                    dialog: Dialog, unknownAnswer: AiAnswer, enriched: AiAnswer, now: int): PageState
  {
    if barcode == "" || barcode == s.lastBarcode then s
    else AfterLookup(BeginScan(s, barcode, approx), barcode, data, base, dialog, unknownAnswer, enriched, now).(loading := false)
  }

  /** `handleVisionAnalysis(result)`. */
  function VisionAnalyzed(s: PageState, result: VisionResult, now: nat): (r: PageState)
    ensures r.visionAnalysis == Some(result) && r.product.None? && !r.loading && r.error == NoNotice
    ensures |r.history| >= 1 && r.history[0].barcode == "vision_" + NatToString(now) && r.history[0].score == r.score
    ensures r.score.score == result.healthScore && r.score.pros == result.pros && r.score.cons == result.cons
    ensures r.lastBarcode == s.lastBarcode && r.confidence == s.confidence
  {
    var score := VisionScore(result);
    s.(error := NoNotice, loading := false, product := None, visionAnalysis := Some(result), score := score,
       history := Prepend(s.history, HistoryEntry("vision_" + NatToString(now), VisionPlaceholder(result), score, now)))
  }

  /** `resetScan`. */
  function Reset(s: PageState): PageState {
    s.(lastBarcode := "", product := None, score := EmptyScore, error := NoNotice, confidence := 0.0,
       visionAnalysis := None, unknownProduct := None)
  }

  /** The state every handler keeps. */
  predicate Invariant(s: PageState) {
    |s.history| <= MaxHistory && 0.0 <= s.confidence <= 1.0
  }

  const InitialState: PageState :=
    PageState("", None, EmptyScore, false, NoNotice, false, false, false, false, 0.0, BarcodeMode, None, None, [])

  /** The corrected availability test on the probe's status (`None` when
      the request failed): AI counts as available only on 200, the status
      the route sends when a provider key is configured. */
  function AiAvailableFrom(probe: Option<int>): (available: bool)
    ensures available <==> probe == Some(200)
  {
    probe.Some? && probe.value == 200
  }

  /** `setAiAvailable(res.ok)` as written: any 2xx status counts. */
  function AiAvailableAsWritten(probe: Option<int>): (available: bool)
    ensures available <==> probe.Some? && 200 <= probe.value <= 299
  {
    probe.Some? && 200 <= probe.value <= 299
  }

  /** As written, the probe reports AI as available even when no provider
      key is configured: the route then answers 204, which is OK. */
  lemma AsWrittenProbeIgnoresKeys(env: RouteSupport.Env)
    ensures AiAvailableAsWritten(Some(AiScoreRoute.OptionsStatus(env)))
    ensures !RouteSupport.AnyKey(env) ==> AiScoreRoute.OptionsStatus(env) == 204
  {
  }

  /** With the corrected test, AI is available exactly when a key is set. */
  lemma ProbeMatchesKeys(env: RouteSupport.Env)
    ensures AiAvailableFrom(Some(AiScoreRoute.OptionsStatus(env))) <==> RouteSupport.AnyKey(env)
  {
  }

  // ---------------------------------------------------------------------
  // Properties of the handlers

  /** `onDetected` ignores an empty barcode and a repeat of the last one. */
  lemma RepeatedBarcodeIgnored(s: PageState, barcode: string, approx: Option<real>, data: Option<OffResponse>, base: ScoreResult,
                               dialog: Dialog, unknownAnswer: AiAnswer, enriched: AiAnswer, now: int)
    requires barcode == "" || barcode == s.lastBarcode
    ensures Detected(s, barcode, approx, data, base, dialog, unknownAnswer, enriched, now) == s
  {
  }

  /** The branches after the lookup leave `lastBarcode` and the confidence
      alone and keep the history within ten entries. */
  lemma AfterLookupKeeps(s: PageState, barcode: string, data: Option<OffResponse>, base: ScoreResult,
                         dialog: Dialog, unknownAnswer: AiAnswer, enriched: AiAnswer, now: int)
    ensures var r := AfterLookup(s, barcode, data, base, dialog, unknownAnswer, enriched, now);
      r.lastBarcode == s.lastBarcode && r.confidence == s.confidence
      && (|s.history| <= MaxHistory ==> |r.history| <= MaxHistory)
  {
    var route := RouteLookup(data);
    if route.Found? {
      FoundKeeps(s, barcode, route.product, base, enriched, now);
    } else if route.NotFound? && dialog.analyze {
      DialogKeeps(s.(visionMode := VisionMode), barcode, dialog.description, unknownAnswer, now);
    }
  }

  lemma FoundKeeps(s: PageState, barcode: string, p: Product, base: ScoreResult, enriched: AiAnswer, now: int)
    ensures var r := ScoreFound(s, barcode, p, base, enriched, now);
      r.lastBarcode == s.lastBarcode && r.confidence == s.confidence
      && (|s.history| <= MaxHistory ==> |r.history| <= MaxHistory)
  {
    var f := FileScore(s, barcode, p, base, now);
    assert |f.history| <= MaxHistory;
  }

  lemma DialogKeeps(s: PageState, barcode: string, description: string, answer: AiAnswer, now: int)
    ensures var r := NotFoundDialog(s, barcode, description, answer, now);
      r.lastBarcode == s.lastBarcode && r.confidence == s.confidence
      && (|s.history| <= MaxHistory ==> |r.history| <= MaxHistory)
  {
  }

  /** A new barcode is recorded before the lookup, the confidence is
      clamped when given, and the handler always ends with loading off. */
  lemma NewBarcodeRecorded(s: PageState, barcode: string, approx: Option<real>, data: Option<OffResponse>, base: ScoreResult,
                           dialog: Dialog, unknownAnswer: AiAnswer, enriched: AiAnswer, now: int)
    requires barcode != "" && barcode != s.lastBarcode
    ensures var r := Detected(s, barcode, approx, data, base, dialog, unknownAnswer, enriched, now);
      r.lastBarcode == barcode && r.confidence == StoredConfidence(s.confidence, approx) && !r.loading
  {
    var s1 := BeginScan(s, barcode, approx);
    AfterLookupKeeps(s1, barcode, data, base, dialog, unknownAnswer, enriched, now);
  }

  /** Every handler keeps the history at ten entries or fewer and the
      confidence in [0, 1]. */
  lemma HandlersKeepInvariant(s: PageState, barcode: string, approx: Option<real>, data: Option<OffResponse>, base: ScoreResult,
                              dialog: Dialog, unknownAnswer: AiAnswer, enriched: AiAnswer, now: nat, result: VisionResult)
    requires Invariant(s)
    ensures Invariant(Detected(s, barcode, approx, data, base, dialog, unknownAnswer, enriched, now))
    ensures Invariant(VisionAnalyzed(s, result, now))
    ensures Invariant(Reset(s))
  {
    if barcode != "" && barcode != s.lastBarcode {
      var s1 := BeginScan(s, barcode, approx);
      AfterLookupKeeps(s1, barcode, data, base, dialog, unknownAnswer, enriched, now);
    }
  }

  /** A found product is scored and filed as the newest history entry;
      older entries follow, at most nine of them. Without enrichment the
      base score stays; successful enrichment replaces the score of every
      entry for that barcode and leaves the rest alone. */
  lemma FoundProductFiled(s: PageState, barcode: string, approx: Option<real>, data: Option<OffResponse>, base: ScoreResult,
                          dialog: Dialog, unknownAnswer: AiAnswer, enriched: AiAnswer, now: int)
    requires barcode != "" && barcode != s.lastBarcode && RouteLookup(data).Found?
    ensures var r := Detected(s, barcode, approx, data, base, dialog, unknownAnswer, enriched, now);
      var p := RouteLookup(data).product;
      && r.product == Some(p)
      && |r.history| == (if |s.history| < MaxHistory then |s.history| + 1 else MaxHistory)
      && r.history[0].barcode == barcode && r.history[0].product == p
      && (forall i :: 1 <= i < |r.history| ==> r.history[i].barcode == s.history[i - 1].barcode)
      && (!(s.enhanceWithAi && s.aiAvailable) || enriched.AiFailed? ==> r.score == base && r.history[0].score == base)
      && (s.enhanceWithAi && s.aiAvailable && enriched.AiScored? ==>
            r.score == enriched.result
            && (forall i :: 0 <= i < |r.history| && r.history[i].barcode == barcode ==> r.history[i].score == enriched.result))
  {
    var p := RouteLookup(data).product;
    var s1 := BeginScan(s, barcode, approx);
    var f := FileScore(s1, barcode, p, base, now);
    assert f.history == Prepend(s.history, HistoryEntry(barcode, p, base, now));
    assert forall i :: 1 <= i < |f.history| ==> f.history[i] == s.history[i - 1];
  }

  /** A lookup without a product computes no score and files nothing; the
      message follows the status (unless the not-found dialog leads to an
      AI analysis). */
  lemma MissingProductReported(s: PageState, barcode: string, approx: Option<real>, data: Option<OffResponse>, base: ScoreResult,
                               dialog: Dialog, unknownAnswer: AiAnswer, enriched: AiAnswer, now: int)
    requires barcode != "" && barcode != s.lastBarcode && !RouteLookup(data).Found?
    requires !(RouteLookup(data).NotFound? && dialog.analyze && dialog.description != "")
    ensures var r := Detected(s, barcode, approx, data, base, dialog, unknownAnswer, enriched, now);
      && r.score == EmptyScore && r.product.None? && r.history == s.history
      && (data.None? ==> r.error == NetworkError)
      && (RouteLookup(data).NotFound? ==> r.error == NotInDatabase)
      && (RouteLookup(data).RateLimited? ==> r.error == TooManyRequests)
      && (RouteLookup(data).Failed? && data.value.error != "" ==> r.error == ServerError(data.value.error))
      && (RouteLookup(data).Failed? && data.value.error == "" ==> r.error == LookupFailed)
  {
  }

  /** `resetScan` clears the scan but keeps the history and the settings. */
  lemma ResetClears(s: PageState)
    ensures var r := Reset(s);
      r.lastBarcode == "" && r.confidence == 0.0 && r.score.score == 0.0 && r.error == NoNotice
      && r.history == s.history && r.aiAvailable == s.aiAvailable && r.muted == s.muted
  {
  }

  // ---------------------------------------------------------------------
  // Pure helpers

  /** A multiple of 0.5 is a whole number or a whole number and a half. */
  lemma HalfStepFraction(x: real)
    ensures IsHalfStep(x) ==> x - x.Floor as real == 0.0 || x - x.Floor as real == 0.5
  {
    if IsHalfStep(x) {
      var k := (2.0 * x).Floor;
      var w := x.Floor;
      assert 0 <= k - 2 * w < 2;
    }
  }

  /** `${score}` for the scores the page speaks: for a non-negative
      multiple of 0.5, the decimal digits of its whole part followed by
      ".5" exactly when it is a half. */
  function ScoreText(x: real): (t: string)
    ensures |t| >= 1
    ensures x >= 0.0 && IsHalfStep(x) ==>
      t == NatToString(x.Floor) + (if x - x.Floor as real == 0.5 then ".5" else "")
    ensures x < 0.0 ==> t[0] == '-'
  {
    HalfStepFraction(x);
    var n := if x < 0.0 then -x else x;
    var whole := n.Floor;
    var digits := NatToString(whole) + (if n - whole as real >= 0.5 then ".5" else "");
    if x < 0.0 then "-" + digits else digits
  }

  /** "Benefits: a, b. " for the first two items, or nothing when they
      join to "". */
  function ListClause(heading: string, items: seq<string>): string {
    var text := Join(Take(items, 2), ", ");
    if text == "" then "" else heading + ": " + text + ". "
  }

  /** The text `speakScore` speaks ("" when muted: nothing is spoken). */
  function Utterance(muted: bool, s: ScoreResult): (u: string)
    ensures muted <==> u == ""
  {
    if muted then ""
    else
      GetScoreCategory(s.score).name + " health score: " + ScoreText(s.score) + " out of 10. "
      + ListClause("Benefits", s.pros) + ListClause("Concerns", s.cons)
  }

  /** Only the first two pros and two cons are named. */
  lemma UtteranceNamesFirstTwo(muted: bool, s: ScoreResult)
    ensures Utterance(muted, s) == Utterance(muted, s.(pros := Take(s.pros, 2), cons := Take(s.cons, 2)))
  {
    assert Take(Take(s.pros, 2), 2) == Take(s.pros, 2);
    assert Take(Take(s.cons, 2), 2) == Take(s.cons, 2);
  }

  /** The clause is left out exactly when there is nothing to name: no
      items, or a single empty one. */
  lemma ListClauseEmptyIff(heading: string, items: seq<string>)
    ensures ListClause(heading, items) == "" <==> items == [] || items == [""]
  {
    var t := Take(items, 2);
    if |items| >= 2 {
      assert t == [items[0], items[1]];
      assert Join(t, ", ") == items[0] + ", " + items[1];
      assert |Join(t, ", ")| >= 2;
    } else if |items| == 1 {
      assert t == items;
    }
  }

  const Gradients: seq<string> := [
    "from-rose-500 via-red-500 to-pink-500",
    "from-orange-500 via-amber-500 to-yellow-500",
    "from-lime-500 via-yellow-400 to-amber-400",
    "from-emerald-500 via-green-500 to-teal-500"]

  /** 3 for the top tier down to 0. */
  function GradLevel(score: real): (r: nat)
    ensures r <= 3
    ensures r == 3 <==> score >= 8.0
    ensures r >= 2 <==> score >= 6.0
    ensures r >= 1 <==> score >= 4.0
  {
    if score >= 8.0 then 3 else if score >= 6.0 then 2 else if score >= 4.0 then 1 else 0
  }

  /** `healthGrad`: the gradient for the shown score. */
  function HealthGrad(score: real): (g: string)
    ensures g in Gradients
    ensures g == Gradients[GradLevel(score)]
  {
    Gradients[GradLevel(score)]
  }

  /** A higher score never gets a lower tier. */
  lemma HealthGradMonotone(a: real, b: real)
    requires a <= b
    ensures GradLevel(a) <= GradLevel(b)
  {
  }

  // ---------------------------------------------------------------------
  // The page component

  /** The page component. Its state hooks are the fields of one
      `PageState` record; every `setX(v)` call replaces that record with
      one whose `x` is `v`. */
  class HomePage {
    var state: PageState

    ghost predicate Valid()
      reads this
    {
      Invariant(state)
    }

    constructor()
      ensures state == InitialState && Valid()
    {
      state := InitialState;
    }

    /** `checkAI`, run once on mount: `probe` is the status of the
        `OPTIONS /api/ai-score` request, `None` when it threw. As written,
        every OK status marks AI as available, the 204 of a server without
        keys included. */
    method CheckAi(probe: Option<int>)
      requires Valid()
      modifies this
      ensures Valid()
      ensures state == old(state).(aiAvailable := AiAvailableAsWritten(probe))
    {
      if probe.None? {
        state := state.(aiAvailable := false);
      } else {
        state := state.(aiAvailable := 200 <= probe.value <= 299);
      }
    }

    /** `analyzeUnknownProduct(barcode, description)`. */
    method AnalyzeUnknownProduct(barcode: string, description: string, answer: AiAnswer, now: int)
      requires Valid()
      modifies this
      ensures Valid()
      ensures state == AnalyzeUnknown(old(state), barcode, description, answer, now)
    {
      if !state.aiAvailable {
        state := state.(error := AiUnavailable);
        return;
      }
      state := state.(loading := true);
      state := state.(error := NoNotice);
      state := state.(unknownProduct := Some(UnknownProduct(barcode, description)));
      match answer {
        case AiScored(r) =>
          state := state.(score := r);
          var entry := HistoryEntry(barcode, UnknownPlaceholder(barcode, description), r, now);
          state := state.(history := Prepend(state.history, entry));
        case AiFailed =>
          state := state.(error := AnalysisFailed);
      }
      state := state.(loading := false);
    }

    /** The found-product part of `onDetected`: base score, history entry,
        then the optional AI enrichment. */
    method ScoreProduct(barcode: string, p: Product, enriched: AiAnswer, now: int)
      requires Valid()
      modifies this
      ensures Valid()
      ensures state == ScoreFound(old(state), barcode, p, HealthScore(p), enriched, now)
    {
      var base := ComputeHealthScore(p);
      ShowBaseScore(barcode, p, base, now);
      ApplyEnrichment(barcode, enriched);
    }

    method ShowBaseScore(barcode: string, p: Product, base: ScoreResult, now: int)
      requires Valid()
      modifies this
      ensures Valid()
      ensures state == FileScore(old(state), barcode, p, base, now)
    {
      state := state.(product := Some(p));
      state := state.(score := base);
      state := state.(history := Prepend(state.history, HistoryEntry(barcode, p, base, now)));
    }

    method ApplyEnrichment(barcode: string, enriched: AiAnswer)
      requires Valid()
      modifies this
      ensures Valid()
      ensures state == Enrich(old(state), barcode, enriched)
    {
      if state.enhanceWithAi && state.aiAvailable {
        state := state.(aiBusy := true);
        match enriched {
          case AiScored(e) =>
            state := state.(score := e);
            state := state.(history := ReplaceScore(state.history, barcode, e));
          case AiFailed =>
        }
        state := state.(aiBusy := false);
      }
    }

    /** The answer to `prompt` after the not-found `confirm` was accepted. */
    method OfferAiAnalysis(barcode: string, description: string, answer: AiAnswer, now: int)
      requires Valid()
      modifies this
      ensures Valid()
      ensures state == NotFoundDialog(old(state), barcode, description, answer, now)
    {
      if description != "" {
        AnalyzeUnknownProduct(barcode, description, answer, now);
      } else {
        state := state.(error := NotInDatabase);
      }
    }

    /** The updates `onDetected` makes before it awaits the lookup. */
    method BeginLookup(barcode: string, approx: Option<real>)
      requires Valid()
      modifies this
      ensures Valid()
      ensures state == BeginScan(old(state), barcode, approx)
    {
      state := state.(lastBarcode := barcode);
      if approx.Some? {
        state := state.(confidence := ClampReal(approx.value, 0.0, 1.0));
      }
      state := state.(error := NoNotice, loading := true, product := None, score := EmptyScore,
                      unknownProduct := None, visionAnalysis := None);
    }

    /** The not-found, rate-limited and failed branches of `onDetected`. */
    method ReportMissing(barcode: string, d: OffResponse, dialog: Dialog, unknownAnswer: AiAnswer, now: int)
      requires !(d.status == Some(1) && d.product.Some?)
      requires Valid()
      modifies this
      ensures Valid()
      ensures state == AfterLookup(old(state), barcode, Some(d), EmptyScore, dialog, unknownAnswer, AiFailed, now)
    {
      if d.status == Some(404) {
        if dialog.analyze {
          state := state.(visionMode := VisionMode);
          OfferAiAnalysis(barcode, dialog.description, unknownAnswer, now);
        } else {
          state := state.(error := NotInDatabase);
        }
      } else if d.status == Some(429) {
        state := state.(error := TooManyRequests);
      } else if d.error != "" {
        state := state.(error := ServerError(d.error));
      } else {
        state := state.(error := LookupFailed);
      }
    }

    /** `onDetected(barcode, approxConfidence)`. */
    method OnDetected(barcode: string, approx: Option<real>, data: Option<OffResponse>,
                      dialog: Dialog, unknownAnswer: AiAnswer, enriched: AiAnswer, now: int)
      requires Valid()
      modifies this
      ensures Valid()
      ensures state == Detected(old(state), barcode, approx, data, BaseScoreOf(data), dialog, unknownAnswer, enriched, now)
    {
      if barcode == "" || barcode == state.lastBarcode {
        return;
      }
      BeginLookup(barcode, approx);
      if data.None? {
        state := state.(error := NetworkError);
      } else if data.value.status != Some(1) || data.value.product.None? {
        ReportMissing(barcode, data.value, dialog, unknownAnswer, now);
      } else {
        ScoreProduct(barcode, data.value.product.value, enriched, now);
      }
      state := state.(loading := false);
    }

    /** `handleVisionAnalysis(result)`. */
    method HandleVisionAnalysis(result: VisionResult, now: nat)
      requires Valid()
      modifies this
      ensures Valid()
      ensures state == VisionAnalyzed(old(state), result, now)
    {
      state := state.(error := NoNotice, loading := true, product := None, visionAnalysis := Some(result));
      var visionScore := VisionScore(result);
      state := state.(score := visionScore);
      var entry := HistoryEntry("vision_" + NatToString(now), VisionPlaceholder(result), visionScore, now);
      state := state.(history := Prepend(state.history, entry));
      state := state.(loading := false);
    }

    /** `resetScan`. */
    method ResetScan()
      requires Valid()
      modifies this
      ensures Valid()
      ensures state == Reset(old(state))
    {
      state := state.(lastBarcode := "", product := None, score := EmptyScore, error := NoNotice,
                      confidence := 0.0, visionAnalysis := None, unknownProduct := None);
    }
  }
}
