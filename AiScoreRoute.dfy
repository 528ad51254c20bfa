/** The `/api/ai-score` route: the `OPTIONS` availability probe and the
    `POST` handler's validation, provider choice, JSON extraction with its
    fallback, and the sanitising and merging of the model's score, pros,
    cons and rationale. The model call itself is an input (`reply`, `None`
    when it throws) and `JSON.parse` is the parameter `parse`. */
module AiScoreRoute {
  import opened Wrappers
  import opened JsRuntime
  import opened Lists
  import opened RouteSupport

  const MaxItems: nat := 6

  const NotConfigured := "AI not configured. Please add OPENAI_API_KEY or XAI_API_KEY to your environment variables."
  const MissingProduct := "Missing product data"
  const InvalidBaseScore := "Invalid base score. Must be a number between 1-10."
  const InvalidLists := "Invalid pros/cons arrays"
  const ProcessingFailed := "AI processing failed. Please try again or use base scoring."

  /** The rationale of an enhanced reply: the model's own (trimmed) text,
      or the template naming the model and the score. */
  datatype AiRationale = AiText(text: string) | EnhancedNote(modelName: string, score: int)

  datatype Reply =
    | ErrorReply(status: int, error: string)
      /** No JSON in the model text: the base assessment is echoed with
          `fallback: true` and a rationale built from the base score. */
    | FallbackReply(baseScore: real, pros: seq<Json>, cons: seq<Json>)
    | EnhancedReply(score: int, pros: seq<Json>, cons: seq<Json>, rationale: AiRationale, aiProvider: string)

  function StatusOf(r: Reply): int {
    if r.ErrorReply? then r.status else 200
  }

  /** `OPTIONS`: 200 when a provider key is configured, 204 otherwise. */
  function OptionsStatus(env: Env): (status: int)
    ensures status == 200 <==> AnyKey(env)
    ensures status == 204 <==> !AnyKey(env)
  {
    if AnyKey(env) then 200 else 204
  }

  /** The model name reported for the chosen provider; OpenAI wins when
      both keys are set. */
  function ModelName(env: Env): (name: string)
    ensures env.hasOpenAi ==> name == "GPT-4o"
    ensures !env.hasOpenAi ==> name == "Grok-3"
  {
    if env.hasOpenAi then "GPT-4o" else "Grok-3"
  }

  /** `Math.max(1, Math.min(10, Math.round(Number(parsed.score) || baseScore)))`. */
  function SanitizeScore(aiScore: Json, baseScore: real): (score: int)
    ensures 1 <= score <= 10
    ensures NumberOf(aiScore).Some? && NumberOf(aiScore).value != 0.0 && 0.5 <= NumberOf(aiScore).value < 10.5 ==>
      score as real - 0.5 <= NumberOf(aiScore).value < score as real + 0.5
    ensures (NumberOf(aiScore).None? || NumberOf(aiScore) == Some(0.0)) && 0.5 <= baseScore < 10.5 ==>
      score as real - 0.5 <= baseScore < score as real + 0.5
    ensures NumberOf(aiScore).Some? && NumberOf(aiScore).value >= 10.5 ==> score == 10
    ensures NumberOf(aiScore).Some? && NumberOf(aiScore).value != 0.0 && NumberOf(aiScore).value < 0.5 ==> score == 1
  {
    var n := NumberOf(aiScore);
    var v := if n.Some? && n.value != 0.0 then n.value else baseScore;
    ClampInt(Round(v), 1, 10)
  }

  /** The pros (or cons) taken from the model: its non-blank strings,
      at most six, when it sent an array; the base list otherwise. */
  function SanitizeList(ai: Json, base: seq<Json>): (r: seq<Json>)
    ensures ai.JArr? ==> |r| <= MaxItems
    ensures ai.JArr? ==> forall x :: x in r ==> x in ai.elems && IsNonBlankString(x)
    ensures ai.JArr? ==> r == Take(NonBlankStrings(ai.elems), MaxItems)
    ensures !ai.JArr? ==> r == base
  {
    if ai.JArr? then Take(NonBlankStrings(ai.elems), MaxItems) else base
  }

  /** `Array.from(new Set([...ai, ...base])).slice(0, 6)`. */
  function Merge(ai: seq<Json>, base: seq<Json>): (r: seq<Json>)
    ensures |r| <= MaxItems && NoDuplicates(r)
    ensures forall x :: x in r ==> x in ai || x in base
    ensures |r| == if |Dedup(ai + base)| < MaxItems then |Dedup(ai + base)| else MaxItems
    ensures r == Dedup(ai + base)[..|r|]
  {
    UniqTake(ai + base, MaxItems)
  }

  function SanitizeRationale(ai: Json, modelName: string, score: int): (r: AiRationale)
    ensures IsNonBlankString(ai) ==> r == AiText(Trim(ai.s))
    ensures !IsNonBlankString(ai) ==> r == EnhancedNote(modelName, score)
  {
    if IsNonBlankString(ai) then AiText(Trim(ai.s)) else EnhancedNote(modelName, score)
  }

  /** The reply built from a parsed model object. */
  function Enhance(env: Env, parsed: map<string, Json>, baseScore: real, basePros: seq<Json>, baseCons: seq<Json>): (r: Reply)
    ensures r.EnhancedReply? && 1 <= r.score <= 10
    ensures |r.pros| <= MaxItems && |r.cons| <= MaxItems
    ensures r.aiProvider == ModelName(env)
  {
    var obj := JObj(parsed);
    var score := SanitizeScore(Get(obj, "score"), baseScore);
    var pros := SanitizeList(Get(obj, "pros"), basePros);
    var cons := SanitizeList(Get(obj, "cons"), baseCons);
    var rationale := SanitizeRationale(Get(obj, "rationale"), ModelName(env), score);
    EnhancedReply(score, Merge(pros, basePros), Merge(cons, baseCons), rationale, ModelName(env))
  }

  /** The request is accepted past validation. */
  predicate ValidRequest(body: Json) {
    IsTruthy(Get(body, "product"))
    && Get(body, "baseScore").JNum? && 1.0 <= Get(body, "baseScore").x <= 10.0
    && Get(body, "basePros").JArr? && Get(body, "baseCons").JArr?
  }

  /** `POST`. `body` is `None` when `req.json()` rejects (the handler then
      reads `null`); `reply` is the model text, `None` when the call throws;
      `parse` is `JSON.parse` on the extracted span (`None` when it throws;
      a span that parses is an object, since it starts with "{"). */
  function Post(env: Env, body: Option<Json>, reply: Option<string>, parse: string -> Option<map<string, Json>>): (r: Reply)
    ensures !AnyKey(env) ==> r == ErrorReply(503, NotConfigured)
    ensures AnyKey(env) && !IsTruthy(Get(body.GetOr(JNull), "product")) ==> r == ErrorReply(400, MissingProduct)
    ensures StatusOf(r) == 200 ==> AnyKey(env) && body.Some? && ValidRequest(body.value) && reply.Some?
    ensures r.FallbackReply? ==>
      (body.Some? && r.baseScore == Get(body.value, "baseScore").x
       && r.pros == Get(body.value, "basePros").elems && r.cons == Get(body.value, "baseCons").elems)
    ensures r.EnhancedReply? ==> 1 <= r.score <= 10 && |r.pros| <= MaxItems && |r.cons| <= MaxItems
  {
    var b := body.GetOr(JNull);
    if !AnyKey(env) then ErrorReply(503, NotConfigured)
    else if !IsTruthy(Get(b, "product")) then ErrorReply(400, MissingProduct)
    else if !Get(b, "baseScore").JNum? || Get(b, "baseScore").x < 1.0 || Get(b, "baseScore").x > 10.0 then
      ErrorReply(400, InvalidBaseScore)
    else if !Get(b, "basePros").JArr? || !Get(b, "baseCons").JArr? then ErrorReply(400, InvalidLists)
    else if reply.None? then ErrorReply(500, ProcessingFailed)
    else
      var baseScore := Get(b, "baseScore").x;
      var basePros := Get(b, "basePros").elems;
      var baseCons := Get(b, "baseCons").elems;
      var span := BraceSpan(reply.value);
      if span.None? || parse(span.value).None? then FallbackReply(baseScore, basePros, baseCons)
      else Enhance(env, parse(span.value).value, baseScore, basePros, baseCons)
  }

  /** For a valid request, the model's text yields an enhanced reply
      exactly when it holds a brace span that parses; that reply is built
      from the parsed object by the sanitisers, with the AI items merged
      ahead of the base items. Otherwise the base assessment is echoed. */
  lemma EnhancedReplyIff(env: Env, body: Json, text: string, parse: string -> Option<map<string, Json>>)
    requires AnyKey(env) && ValidRequest(body)
    ensures var r := Post(env, Some(body), Some(text), parse);
      var span := BraceSpan(text);
      && (r.EnhancedReply? <==> span.Some? && parse(span.value).Some?)
      && (!r.EnhancedReply? ==>
            r == FallbackReply(Get(body, "baseScore").x, Get(body, "basePros").elems, Get(body, "baseCons").elems))
    ensures var r := Post(env, Some(body), Some(text), parse);
      var span := BraceSpan(text);
      r.EnhancedReply? ==>
        var obj := JObj(parse(span.value).value);
        var basePros := Get(body, "basePros").elems;
        var baseCons := Get(body, "baseCons").elems;
        && r.score == SanitizeScore(Get(obj, "score"), Get(body, "baseScore").x)
        && r.pros == Merge(SanitizeList(Get(obj, "pros"), basePros), basePros)
        && r.cons == Merge(SanitizeList(Get(obj, "cons"), baseCons), baseCons)
        && r.rationale == SanitizeRationale(Get(obj, "rationale"), ModelName(env), r.score)
        && r.aiProvider == ModelName(env)
  {
  }

  /** The checks run in the order of the handler: key, product, base
      score, lists, and only then the model call. */
  lemma RejectsInOrder(env: Env, body: Json, reply: Option<string>, parse: string -> Option<map<string, Json>>)
    requires AnyKey(env) && IsTruthy(Get(body, "product"))
    ensures !(Get(body, "baseScore").JNum? && 1.0 <= Get(body, "baseScore").x <= 10.0) ==>
      Post(env, Some(body), reply, parse) == ErrorReply(400, InvalidBaseScore)
    ensures (Get(body, "baseScore").JNum? && 1.0 <= Get(body, "baseScore").x <= 10.0
             && !(Get(body, "basePros").JArr? && Get(body, "baseCons").JArr?)) ==>
      Post(env, Some(body), reply, parse) == ErrorReply(400, InvalidLists)
    ensures ValidRequest(body) && reply.None? ==> Post(env, Some(body), reply, parse) == ErrorReply(500, ProcessingFailed)
  {
  }

  /** A body that is not JSON reaches the handler as `null` and is refused
      as missing its product. */
  lemma UnparseableBodyIsMissingProduct(env: Env, reply: Option<string>, parse: string -> Option<map<string, Json>>)
    requires AnyKey(env)
    ensures Post(env, None, reply, parse) == ErrorReply(400, MissingProduct)
  {
  }

  /** `{invalid: "data"}` is answered with a non-OK status whatever the
      environment and the model do. */
  lemma InvalidDataIsRejected(env: Env, reply: Option<string>, parse: string -> Option<map<string, Json>>)
    ensures StatusOf(Post(env, Some(JObj(map["invalid" := JStr("data")])), reply, parse)) != 200
    ensures AnyKey(env) ==> StatusOf(Post(env, Some(JObj(map["invalid" := JStr("data")])), reply, parse)) == 400
  {
    var body := JObj(map["invalid" := JStr("data")]);
    assert "product" !in body.fields;
  }

  /** Model text without a brace pair falls back to the base assessment,
      whatever `JSON.parse` would do. */
  lemma NoJsonFallsBack(env: Env, body: Json, text: string, parse: string -> Option<map<string, Json>>)
    requires AnyKey(env) && ValidRequest(body)
    requires forall i, j :: 0 <= i < j < |text| && text[i] == '{' ==> text[j] != '}'
    ensures Post(env, Some(body), Some(text), parse)
      == FallbackReply(Get(body, "baseScore").x, Get(body, "basePros").elems, Get(body, "baseCons").elems)
  {
    assert BraceSpan(text).None?;
  }

  /** A parsed score of 0 counts as missing: the base score is used. */
  lemma ZeroScoreUsesBase(baseScore: real)
    ensures SanitizeScore(JNum(0.0), baseScore) == SanitizeScore(JUndefined, baseScore)
    ensures 1.0 <= baseScore <= 10.0 ==> SanitizeScore(JNum(0.0), baseScore) == Round(baseScore)
  {
  }

  /** The model's items come first: the merged list starts with the
      deduplicated AI items, as many as fit in six. */
  lemma {:induction false} MergeKeepsAiFirst(ai: seq<Json>, base: seq<Json>)
    ensures var k := if |Dedup(ai)| < MaxItems then |Dedup(ai)| else MaxItems;
      k <= |Merge(ai, base)| && Merge(ai, base)[..k] == Dedup(ai)[..k]
  {
    DedupPrefix(ai, base);
    var k := if |Dedup(ai)| < MaxItems then |Dedup(ai)| else MaxItems;
    var d := Dedup(ai + base);
    assert d[..|Dedup(ai)|] == Dedup(ai);
    assert Merge(ai, base) == Take(d, MaxItems);
    assert d[..k] == Dedup(ai)[..k];
  }

  /** Sanitised AI items have no blanks; when they are distinct they all
      survive the merge, in their own order, ahead of the base items. */
  lemma DistinctAiItemsSurvive(ai: seq<Json>, base: seq<Json>)
    requires NoDuplicates(ai) && |ai| <= MaxItems
    ensures |ai| <= |Merge(ai, base)| && Merge(ai, base)[..|ai|] == ai
  {
    DedupOfDistinct(ai);
    MergeKeepsAiFirst(ai, base);
  }
}
