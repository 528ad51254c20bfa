/** What the two AI routes share: a JSON value as request bodies and
    parsed model replies carry it, property access and the JavaScript
    conversions the routes apply to it, the provider keys read from the
    environment, and the greedy `/\{[\s\S]*\}/` extraction of a JSON object
    from model text. */
module RouteSupport {
  import opened Wrappers
  import opened JsRuntime

  /** A JSON value. JSON has no NaN and no infinities, so every number is
      a finite real; `JUndefined` is what reading a missing property gives. */
  datatype Json =
    | JUndefined
    | JNull
    | JBool(b: bool)
    | JNum(x: real)
    | JStr(s: string)
    | JArr(elems: seq<Json>)
    | JObj(fields: map<string, Json>)

  /** JavaScript truthiness. */
  predicate IsTruthy(v: Json) {
    match v
    case JBool(b) => b
    case JNum(x) => x != 0.0
    case JStr(s) => s != ""
    case JArr(_) => true
    case JObj(_) => true
    case _ => false
  }

  /** `v.key` (or `v?.key`) on a value produced by `JSON.parse`: only an
      object has own properties; on anything else the read gives
      `undefined`. */
  function Get(v: Json, key: string): (r: Json)
    ensures v.JObj? && key in v.fields ==> r == v.fields[key]
    ensures !(v.JObj? && key in v.fields) ==> r == JUndefined
  {
    if v.JObj? && key in v.fields then v.fields[key] else JUndefined
  }

  /** `Number(v)`, with `None` for NaN. Strings that are blank convert to
      0; every other string is treated as NaN. An array converts through
      its `join(",")` text: the empty array to 0, a one-element array as
      its element's text (null and undefined give "", booleans and objects
      give non-numeric text), and a longer array, whose text holds a
      comma, to NaN. Every object converts to NaN. */
  function NumberOf(v: Json): (r: Option<real>)
    ensures v.JNum? ==> r == Some(v.x)
    ensures v.JNull? || v == JBool(false) || v == JArr([]) ==> r == Some(0.0)
    ensures v == JBool(true) ==> r == Some(1.0)
    ensures v.JUndefined? || v.JObj? ==> r.None?
    ensures v.JArr? && |v.elems| == 1 && v.elems[0].JNum? ==> r == Some(v.elems[0].x)
    ensures v.JArr? && |v.elems| == 1 && (v.elems[0].JNull? || v.elems[0].JUndefined?) ==> r == Some(0.0)
    ensures v.JArr? && |v.elems| >= 2 ==> r.None?
  {
    match v
    case JUndefined => None
    case JNull => Some(0.0)
    case JBool(b) => if b then Some(1.0) else Some(0.0)
    case JNum(x) => Some(x)
    case JStr(s) => if NonBlank(s) then None else Some(0.0)
    case JArr(elems) =>
      if |elems| == 0 then Some(0.0)
      else if |elems| >= 2 then None
      else (match elems[0]
        case JUndefined => Some(0.0)
        case JNull => Some(0.0)
        case JBool(_) => None
        case _ => NumberOf(elems[0]))
    case JObj(_) => None
  }

  /** `typeof v === "string" && v.trim().length > 0`. */
  predicate IsNonBlankString(v: Json) {
    v.JStr? && NonBlank(v.s)
  }

  /** `items.filter(p => typeof p === "string" && p.trim().length > 0)`. */
  function NonBlankStrings(items: seq<Json>): (r: seq<Json>)
    ensures |r| <= |items|
    ensures forall x :: x in r <==> x in items && IsNonBlankString(x)
  {
    if |items| == 0 then []
    else
      var rest := NonBlankStrings(items[1..]);
      assert items == [items[0]] + items[1..];
      if IsNonBlankString(items[0]) then [items[0]] + rest else rest
  }

  /** The filter keeps its input's order and multiplicity: it maps
      concatenation to concatenation and keeps exactly the non-blank
      strings among single items. */
  lemma {:induction false} NonBlankStringsConcat(a: seq<Json>, b: seq<Json>, x: Json)
    ensures NonBlankStrings(a + b) == NonBlankStrings(a) + NonBlankStrings(b)
    ensures NonBlankStrings([x]) == if IsNonBlankString(x) then [x] else []
    decreases |a|
  {
    assert [x][1..] == [];
    if |a| > 0 {
      assert (a + b)[1..] == a[1..] + b;
      NonBlankStringsConcat(a[1..], b, x);
    } else {
      assert a + b == b;
    }
  }

  /** The provider keys: `!!process.env.OPENAI_API_KEY` and
      `!!process.env.XAI_API_KEY`. */
  datatype Env = Env(hasOpenAi: bool, hasXai: bool)

  predicate AnyKey(env: Env) {
    env.hasOpenAi || env.hasXai
  }

  /** The last position of `c` in `s`. */
  function LastPos(s: string, c: char): (r: Option<nat>)
    ensures r.Some? ==> r.value < |s| && s[r.value] == c
    ensures r.Some? ==> forall j :: r.value < j < |s| ==> s[j] != c
    ensures r.None? ==> forall j :: 0 <= j < |s| ==> s[j] != c
  {
    if |s| == 0 then None
    else if s[|s| - 1] == c then Some(|s| - 1)
    else LastPos(s[..|s| - 1], c)
  }

  /** The first position of `c` in `s`. */
  function FirstPos(s: string, c: char): (r: Option<nat>)
    ensures r.Some? ==> r.value < |s| && s[r.value] == c
    ensures r.Some? ==> forall j :: 0 <= j < r.value ==> s[j] != c
    ensures r.None? ==> forall j :: 0 <= j < |s| ==> s[j] != c
  {
    if |s| == 0 then None
    else if s[0] == c then Some(0)
    else
      var k := FirstPos(s[1..], c);
      if k.Some? then Some(k.value + 1) else None
  }

  /** `text[i..j + 1]` is the span the regex matches: "{" at `i`, "}" at
      `j`, no "{" before `i` and no "}" after `j`. */
  predicate GreedySpan(text: string, i: int, j: int) {
    0 <= i < j < |text| && text[i] == '{' && text[j] == '}'
    && (forall k :: 0 <= k < i ==> text[k] != '{')
    && (forall k :: j < k < |text| ==> text[k] != '}')
  }

  /** `text.match(/\{[\s\S]*\}/)`: the leftmost "{" that has a "}" after
      it, up to the last "}" (the `*` is greedy). Such a "{" exists exactly
      when the first "{" comes before the last "}". */
  function BraceSpan(text: string): (r: Option<string>)
    ensures r.Some? <==> exists i, j :: 0 <= i < j < |text| && text[i] == '{' && text[j] == '}'
    ensures r.Some? ==> exists i, j :: GreedySpan(text, i, j) && r.value == text[i..j + 1]
    ensures r.Some? ==> |r.value| >= 2 && r.value[0] == '{' && r.value[|r.value| - 1] == '}'
  {
    var first := FirstPos(text, '{');
    var last := LastPos(text, '}');
    if first.Some? && last.Some? && first.value < last.value then
      assert GreedySpan(text, first.value, last.value);
      Some(text[first.value..last.value + 1])
    else
      None
  }
}
