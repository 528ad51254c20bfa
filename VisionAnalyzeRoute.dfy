/** The `/api/vision-analyze` route's `POST`: provider check, input
    validation, extraction of the model's JSON object, its structure check
    and the in-place clamp of `healthScore`. The model call is an input
    (`reply`, `None` when it throws) and `JSON.parse` is the parameter
    `parse`. */
module VisionAnalyzeRoute {
  import opened Wrappers
  import opened JsRuntime
  import opened RouteSupport

  const NoProvider := "No AI provider configured"
  const MissingFields := "Missing required fields: imageData and description"
  const AnalysisFailed := "AI analysis failed"
  const InternalError := "Internal server error"

  datatype Reply =
    | ErrorReply(status: int, error: string)
    | Success(analysis: map<string, Json>, aiProvider: string)

  function StatusOf(r: Reply): int {
    if r.ErrorReply? then r.status else 200
  }

  /** OpenAI is preferred when both keys are set. */
  function ProviderName(env: Env): (name: string)
    ensures env.hasOpenAi ==> name == "OpenAI"
    ensures !env.hasOpenAi ==> name == "xAI"
  {
    if env.hasOpenAi then "OpenAI" else "xAI"
  }

  /** The structure check: a truthy `productName` and a numeric
      `healthScore`. */
  predicate WellFormed(analysis: map<string, Json>) {
    IsTruthy(Get(JObj(analysis), "productName")) && Get(JObj(analysis), "healthScore").JNum?
  }

  /** The analysis returned to the client: `healthScore` clamped into
      [1, 10], every other property as the model sent it. */
  function Clamped(analysis: map<string, Json>): (r: map<string, Json>)
    requires WellFormed(analysis)
    ensures r.Keys == analysis.Keys
    ensures r["healthScore"].JNum? && 1.0 <= r["healthScore"].x <= 10.0
    ensures 1.0 <= analysis["healthScore"].x <= 10.0 ==> r["healthScore"] == analysis["healthScore"]
    ensures forall k :: k in analysis && k != "healthScore" ==> r[k] == analysis[k]
  {
    analysis["healthScore" := JNum(ClampReal(analysis["healthScore"].x, 1.0, 10.0))]
  }

  /** `POST` as a function of its inputs. `body` is `None` when
      `request.json()` throws. Destructuring a `null` body throws inside
      the outer `try`, so it is answered like an unreadable body. */
  function Respond(env: Env, body: Option<Json>, reply: Option<string>, parse: string -> Option<map<string, Json>>): (r: Reply)
    ensures !AnyKey(env) ==> r == ErrorReply(503, NoProvider)
    ensures AnyKey(env) && (body.None? || body == Some(JNull)) ==> r == ErrorReply(500, InternalError)
    ensures r.Success? ==>
      (AnyKey(env) && body.Some? && IsTruthy(Get(body.value, "imageData")) && IsTruthy(Get(body.value, "description"))
       && reply.Some? && r.aiProvider == ProviderName(env))
    ensures r.Success? ==>
      ("healthScore" in r.analysis && r.analysis["healthScore"].JNum?
       && 1.0 <= r.analysis["healthScore"].x <= 10.0)
    ensures (&& AnyKey(env) && body.Some? && !body.value.JNull?
             && IsTruthy(Get(body.value, "imageData")) && IsTruthy(Get(body.value, "description"))
             && !r.Success?) ==> r == ErrorReply(500, AnalysisFailed)
    ensures r.ErrorReply? ==> r.status in {400, 500, 503}
  {
    if !AnyKey(env) then ErrorReply(503, NoProvider)
    else if body.None? || body.value.JNull? then ErrorReply(500, InternalError)
    else if !IsTruthy(Get(body.value, "imageData")) || !IsTruthy(Get(body.value, "description")) then
      ErrorReply(400, MissingFields)
    else if reply.None? then ErrorReply(500, AnalysisFailed)
    else
      var span := BraceSpan(reply.value);
      if span.None? || parse(span.value).None? || !WellFormed(parse(span.value).value) then
        ErrorReply(500, AnalysisFailed)
      else
        Success(Clamped(parse(span.value).value), ProviderName(env))
  }

  /** The parsed model object whose `healthScore` the handler overwrites. */
  class Analysis {
    var fields: map<string, Json>

    constructor(parsed: map<string, Json>)
      ensures fields == parsed
    {
      fields := parsed;
    }

    /** `analysis.healthScore = Math.max(1, Math.min(10, analysis.healthScore))`. */
    method ClampHealthScore()
      requires WellFormed(fields)
      modifies this
      ensures fields == Clamped(old(fields))
    {
      var x := fields["healthScore"].x;
      fields := fields["healthScore" := JNum(ClampReal(x, 1.0, 10.0))];
    }
  }

  /** The handler, overwriting the parsed object in place. */
  method Post(env: Env, body: Option<Json>, reply: Option<string>, parse: string -> Option<map<string, Json>>) returns (r: Reply)
    ensures r == Respond(env, body, reply, parse)
  {
    if !AnyKey(env) {
      return ErrorReply(503, NoProvider);
    }
    if body.None? || body.value.JNull? {
      return ErrorReply(500, InternalError);
    }
    var b := body.value;
    if !IsTruthy(Get(b, "imageData")) || !IsTruthy(Get(b, "description")) {
      return ErrorReply(400, MissingFields);
    }
    if reply.None? {
      return ErrorReply(500, AnalysisFailed);
    }
    var span := BraceSpan(reply.value);
    if span.None? {
      return ErrorReply(500, AnalysisFailed);
    }
    var parsed := parse(span.value);
    if parsed.None? || !WellFormed(parsed.value) {
      return ErrorReply(500, AnalysisFailed);
    }
    var analysis := new Analysis(parsed.value);
    analysis.ClampHealthScore();
    r := Success(analysis.fields, ProviderName(env));
  }

  /** Once a provider is configured, any readable non-null body whose
      `imageData` or `description` is falsy (missing, "", 0, false, null)
      is refused with 400, whatever the model would answer; in particular
      `{imageData: "invalid"}`, which has no description. */
  lemma MissingDescriptionIsRejected(env: Env, body: Json, reply: Option<string>, parse: string -> Option<map<string, Json>>)
    requires AnyKey(env) && !body.JNull?
    requires !IsTruthy(Get(body, "imageData")) || !IsTruthy(Get(body, "description"))
    ensures Respond(env, Some(body), reply, parse) == ErrorReply(400, MissingFields)
    ensures Respond(env, Some(JObj(map["imageData" := JStr("invalid")])), reply, parse) == ErrorReply(400, MissingFields)
  {
    var literal := JObj(map["imageData" := JStr("invalid")]);
    assert "description" !in literal.fields;
  }

  /** For a complete request, every failure is the model's: a thrown call,
      text without a "{…}" span, a span that does not parse, or an object
      without a truthy `productName` and a numeric `healthScore` are all
      answered 500 "AI analysis failed". */
  lemma FailedAnalysisIs500(env: Env, body: Json, reply: Option<string>, parse: string -> Option<map<string, Json>>)
    requires AnyKey(env) && !body.JNull?
    requires IsTruthy(Get(body, "imageData")) && IsTruthy(Get(body, "description"))
    ensures reply.None? ==> Respond(env, Some(body), reply, parse) == ErrorReply(500, AnalysisFailed)
    ensures reply.Some? && (BraceSpan(reply.value).None? || parse(BraceSpan(reply.value).value).None?
                            || !WellFormed(parse(BraceSpan(reply.value).value).value)) ==>
      Respond(env, Some(body), reply, parse) == ErrorReply(500, AnalysisFailed)
    ensures !Respond(env, Some(body), reply, parse).Success? ==>
      Respond(env, Some(body), reply, parse) == ErrorReply(500, AnalysisFailed)
  {
  }

  /** A reply is a success exactly when the request is complete, the
      model answers, and its text holds a parseable, well-formed object. */
  lemma SuccessIff(env: Env, body: Json, text: string, parse: string -> Option<map<string, Json>>)
    requires AnyKey(env) && !body.JNull?
    requires IsTruthy(Get(body, "imageData")) && IsTruthy(Get(body, "description"))
    ensures Respond(env, Some(body), Some(text), parse).Success? <==>
      (BraceSpan(text).Some? && parse(BraceSpan(text).value).Some? && WellFormed(parse(BraceSpan(text).value).value))
    ensures Respond(env, Some(body), Some(text), parse).Success? ==>
      Respond(env, Some(body), Some(text), parse).analysis == Clamped(parse(BraceSpan(text).value).value)
  {
  }
}
