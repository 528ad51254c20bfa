/** The Open Food Facts client: the product record, the lookup policy of
    `fetchProductByBarcode` (barcode validation, a five-minute cache, the
    classification of HTTP statuses and exceptions) and the pure helpers
    over a product. The HTTP request itself and the clock are inputs. */
module OpenFoodFacts {
  import opened Wrappers
  import opened JsRuntime

  /** The fields of an Open Food Facts product the application reads. An
      absent optional string is "" and an absent tag list is [] (every use
      in the source goes through `|| ""`, `|| []` or a truthiness test). */
  datatype Product = Product(
    code: string,
    productName: string,
    brands: string,
    categories: string,
    ingredientsText: string,
    nutriments: map<string, JsValue>,
    nutriscoreGrade: string,
    novaGroup: JsValue,
    additivesTags: seq<string>,
    labelsTags: seq<string>,
    allergensTags: seq<string>,
    imageFrontUrl: string)

  /** `OFFResponse`: a status (absent when the API body had no numeric
      status), an optional product and an error text ("" for none). */
  datatype OffResponse = OffResponse(status: Option<int>, product: Option<Product>, error: string)

  /** `nutr[key]` on the nutriments record. */
  function Nutriment(nutr: map<string, JsValue>, key: string): JsValue {
    if key in nutr then nutr[key] else Undefined
  }

  // ---------------------------------------------------------------------
  // Lookup policy

  const CacheDurationMs: int := 5 * 60 * 1000
  const MinBarcodeLength: nat := 8

  /** What was thrown: an `Error` with its name and message, or any other
      value. */
  datatype Thrown = ErrorObject(name: string, message: string) | NonError

  /** The body of a response as `res.json()` delivers it: it throws, or it
      yields a value that is not an object (null, a number, ...), or an
      object. */
  datatype Body = Unparseable(error: Thrown) | NotAnObject | Object(json: OffResponse)

  /** What the network did with the request: `fetch` rejected, or a
      response arrived. */
  datatype FetchOutcome =
    | FetchThrew(error: Thrown)
    | Responded(status: int, statusText: string, body: Body)

  datatype CacheEntry = CacheEntry(data: OffResponse, timestamp: int)

  function Failure(status: int, error: string): OffResponse {
    OffResponse(Some(status), None, error)
  }

  /** `res.ok`. */
  predicate HttpOk(status: int) {
    200 <= status <= 299
  }

  /** The `catch` block: every exception becomes a response. */
  function ClassifyThrown(e: Thrown): (r: OffResponse)
    ensures r.product.None?
    ensures r.status == Some(408) <==> e.ErrorObject? && e.name == "AbortError"
    ensures r.status == Some(503) <==>
      e.ErrorObject? && e.name != "AbortError" && Contains(e.message, "fetch")
    ensures r.status == Some(408) || r.status == Some(503) || r.status == Some(500)
  {
    match e
    case ErrorObject(name, message) =>
      if name == "AbortError" then Failure(408, "Request timeout. Please try again.")
      else if Contains(message, "fetch") then Failure(503, "Network error. Please check your connection.")
      else Failure(500, "Failed to fetch product data. Please try again.")
    case NonError => Failure(500, "Failed to fetch product data. Please try again.")
  }

  /** A non-OK HTTP status. */
  function ClassifyHttpError(status: int, statusText: string): (r: OffResponse)
    ensures r.product.None? && r.status == Some(status)
    ensures status == 404 ==> r.error == "Product not found in database"
    ensures status == 429 ==> r.error == "Rate limit exceeded. Please try again later."
    ensures status != 404 && status != 429 ==> r.error == "API error: " + statusText
  {
    if status == 404 then Failure(404, "Product not found in database")
    else if status == 429 then Failure(429, "Rate limit exceeded. Please try again later.")
    else Failure(status, "API error: " + statusText)
  }

  /** The network part of `fetchProductByBarcode`: the response to return,
      and whether it is to be cached. */
  function FromNetwork(outcome: FetchOutcome): (r: (OffResponse, bool))
    ensures r.1 <==> outcome.Responded? && HttpOk(outcome.status)
                     && outcome.body.Object? && outcome.body.json.product.Some?
    ensures r.1 ==> r.0 == outcome.body.json
    ensures outcome.FetchThrew? ==> r.0 == ClassifyThrown(outcome.error)
    ensures outcome.Responded? && !HttpOk(outcome.status) ==>
      r.0 == ClassifyHttpError(outcome.status, outcome.statusText)
    ensures outcome.Responded? && HttpOk(outcome.status) && outcome.body.Unparseable? ==>
      r.0 == ClassifyThrown(outcome.body.error)
    ensures outcome.Responded? && HttpOk(outcome.status) && outcome.body.NotAnObject? ==>
      r.0 == Failure(500, "Invalid response format from API")
    ensures outcome.Responded? && HttpOk(outcome.status) && outcome.body.Object? ==>
      var json := outcome.body.json;
      if json.product.None? && json.status == Some(0)
      then r.0 == Failure(404, "Product not found in Open Food Facts database")
      else r.0 == json
    ensures !outcome.Responded? || !HttpOk(outcome.status) || !outcome.body.Object? ==> r.0.product.None?
  {
    match outcome
    case FetchThrew(e) => (ClassifyThrown(e), false)
    case Responded(status, statusText, body) =>
      if !HttpOk(status) then (ClassifyHttpError(status, statusText), false)
      else match body
        case Unparseable(e) => (ClassifyThrown(e), false)
        case NotAnObject => (Failure(500, "Invalid response format from API"), false)
        case Object(json) =>
          if json.product.None? && json.status == Some(0) then
            (Failure(404, "Product not found in Open Food Facts database"), false)
          else (json, json.product.Some?)
  }

  /** `fetchProductByBarcode` as a function of the cache and the clock:
      the response and the new cache. */
  function Lookup(cache: map<string, CacheEntry>, barcode: string, now: int, outcome: FetchOutcome)
    : (r: (OffResponse, map<string, CacheEntry>))
    ensures |barcode| < MinBarcodeLength ==> r == (Failure(400, "Invalid barcode format"), cache)
    ensures |barcode| >= MinBarcodeLength && barcode in cache && now - cache[barcode].timestamp < CacheDurationMs ==>
      r == (cache[barcode].data, cache)
    ensures r.1 == cache || (r.0.product.Some? && r.1 == cache[barcode := CacheEntry(r.0, now)])
  {
    if |barcode| < MinBarcodeLength then (Failure(400, "Invalid barcode format"), cache)
    else if barcode in cache && now - cache[barcode].timestamp < CacheDurationMs then
      (cache[barcode].data, cache)
    else
      var (resp, store) := FromNetwork(outcome);
      (resp, if store then cache[barcode := CacheEntry(resp, now)] else cache)
  }

  /** A short or empty barcode is rejected with 400 before the cache or the
      network is consulted. */
  lemma InvalidBarcodeRejected(cache: map<string, CacheEntry>, barcode: string, now: int, outcome: FetchOutcome)
    requires |barcode| < MinBarcodeLength
    ensures Lookup(cache, barcode, now, outcome) == (Failure(400, "Invalid barcode format"), cache)
  {
  }

  /** A cached entry is served exactly while it is younger than five
      minutes; otherwise the answer is the network's. */
  lemma CacheFreshness(cache: map<string, CacheEntry>, barcode: string, now: int, outcome: FetchOutcome)
    requires |barcode| >= MinBarcodeLength
    ensures barcode in cache && now - cache[barcode].timestamp < 300000 ==>
      Lookup(cache, barcode, now, outcome) == (cache[barcode].data, cache)
    ensures !(barcode in cache && now - cache[barcode].timestamp < 300000) ==>
      Lookup(cache, barcode, now, outcome).0 == FromNetwork(outcome).0
  {
  }

  /** Only a response carrying a product is stored, stamped with `now`;
      nothing is ever removed and no other entry changes. */
  lemma CacheStoresOnlyProducts(cache: map<string, CacheEntry>, barcode: string, now: int, outcome: FetchOutcome)
    ensures var (resp, cache') := Lookup(cache, barcode, now, outcome);
      && cache.Keys <= cache'.Keys
      && (forall k :: k in cache && k != barcode ==> cache'[k] == cache[k])
      && (cache' != cache ==> resp.product.Some? && cache' == cache[barcode := CacheEntry(resp, now)])
  {
  }

  /** The lookup never fails to answer: every exception is classified. */
  lemma ThrownStatuses(outcome: FetchOutcome)
    requires outcome.FetchThrew?
    ensures FromNetwork(outcome).0.status in {Some(408), Some(503), Some(500)}
  {
  }

  /** The owned cache of `fetchProductByBarcode` (the module-level
      `productCache` map). */
  class ProductCache {
    var entries: map<string, CacheEntry>

    constructor ()
      ensures entries == map[]
    {
      entries := map[];
    }

    /** `fetchProductByBarcode(barcode)` at time `now`, where `outcome` is
        what the network does if it is asked. */
    method FetchProductByBarcode(barcode: string, now: int, outcome: FetchOutcome) returns (r: OffResponse)
      modifies this
      ensures (r, entries) == Lookup(old(entries), barcode, now, outcome)
    {
      if barcode == "" || |barcode| < 8 {
        return Failure(400, "Invalid barcode format");
      }
      if barcode in entries {
        var cached := entries[barcode];
        if now - cached.timestamp < CacheDurationMs {
          return cached.data;
        }
      }
      match outcome {
        case FetchThrew(e) =>
          r := ClassifyThrown(e);
        case Responded(status, statusText, body) =>
          if !HttpOk(status) {
            if status == 404 {
              return Failure(404, "Product not found in database");
            }
            if status == 429 {
              return Failure(429, "Rate limit exceeded. Please try again later.");
            }
            return Failure(status, "API error: " + statusText);
          }
          if body.Unparseable? {
            return ClassifyThrown(body.error);
          }
          if body.NotAnObject? {
            return Failure(500, "Invalid response format from API");
          }
          var json := body.json;
          if json.product.None? && json.status == Some(0) {
            return Failure(404, "Product not found in Open Food Facts database");
          }
          if json.product.Some? {
            entries := entries[barcode := CacheEntry(json, now)];
          }
          r := json;
      }
    }
  }

  // ---------------------------------------------------------------------
  // Pure helpers

  datatype ImageSize = Small | Medium | Large

  const PlaceholderImage: string := "/placeholder.svg?height=200&width=200&query=food+product"
  const ProductsPath: string := "/images/products/"

  /** `getProductImageUrl`. */
  function ProductImageUrl(p: Product, size: ImageSize): (r: string)
    ensures p.imageFrontUrl == "" ==> r == PlaceholderImage
    ensures p.imageFrontUrl != "" && size == Medium ==> r == p.imageFrontUrl
    ensures p.imageFrontUrl != "" && !Contains(p.imageFrontUrl, ProductsPath) ==> r == p.imageFrontUrl
  {
    if p.imageFrontUrl != "" then
      match size
      case Small => ReplaceFirst(p.imageFrontUrl, ProductsPath, "/images/products/100/")
      case Large => ReplaceFirst(p.imageFrontUrl, ProductsPath, "/images/products/400/")
      case Medium => p.imageFrontUrl
    else PlaceholderImage
  }

  /** A small or large image URL is the original with the size directory
      inserted right after the first "/images/products/". */
  lemma ImageUrlInsertsSize(p: Product, size: ImageSize)
    requires p.imageFrontUrl != "" && size != Medium && Contains(p.imageFrontUrl, ProductsPath)
    ensures var u := p.imageFrontUrl;
      var i := IndexOf(u, ProductsPath).value;
      var dir := if size == Small then "100/" else "400/";
      ProductImageUrl(p, size) == u[..i + |ProductsPath|] + dir + u[i + |ProductsPath|..]
  {
    var u := p.imageFrontUrl;
    var i := IndexOf(u, ProductsPath).value;
    assert u[i..i + |ProductsPath|] == ProductsPath;
    assert u[..i + |ProductsPath|] == u[..i] + ProductsPath;
  }

  /** `getNutritionSummary`: JavaScript `||`, `?:` and arithmetic on raw
      nutriment values. */
  datatype NutritionSummary = NutritionSummary(
    energy: JsValue, protein: JsValue, carbs: JsValue, fat: JsValue,
    saturatedFat: JsValue, sugar: JsValue, fiber: JsValue, salt: JsValue, sodium: JsValue)

  /** `v / d` or `v * d` in JavaScript, through `Number(v)`. */
  function Scale(v: JsValue, factor: real): (r: JsValue)
    ensures ToNumber(v).None? <==> r == NaN
    ensures ToNumber(v).Some? ==> r.Num? && r.x == ToNumber(v).value * factor
  {
    var n := ToNumber(v);
    if n.None? then NaN else Num(n.value * factor)
  }

  function NutritionSummaryOf(p: Product): (r: NutritionSummary)
    ensures Truthy(Nutriment(p.nutriments, "energy-kcal_100g")) ==>
      r.energy == Nutriment(p.nutriments, "energy-kcal_100g")
    ensures !Truthy(Nutriment(p.nutriments, "energy-kcal_100g")) ==>
      r.energy == Scale(Nutriment(p.nutriments, "energy_100g"), 1.0 / 4.184)
    ensures r.salt != Undefined
    ensures !Truthy(Nutriment(p.nutriments, "salt_100g")) && !Truthy(Nutriment(p.nutriments, "sodium_100g"))
      ==> r.salt == Null
    ensures Truthy(Nutriment(p.nutriments, "salt_100g")) ==> r.salt == Nutriment(p.nutriments, "salt_100g")
    ensures !Truthy(Nutriment(p.nutriments, "salt_100g")) && Truthy(Nutriment(p.nutriments, "sodium_100g"))
      ==> r.salt == Scale(Nutriment(p.nutriments, "sodium_100g"), 2.5)
    ensures r.sodium == Nutriment(p.nutriments, "sodium_100g")
    ensures r.protein == Nutriment(p.nutriments, "proteins_100g")
    ensures r.carbs == Nutriment(p.nutriments, "carbohydrates_100g")
    ensures r.fat == Nutriment(p.nutriments, "fat_100g")
    ensures r.saturatedFat == Nutriment(p.nutriments, "saturated-fat_100g")
    ensures r.sugar == Nutriment(p.nutriments, "sugars_100g")
    ensures r.fiber == Nutriment(p.nutriments, "fiber_100g")
  {
    var n := p.nutriments;
    var kcal := Nutriment(n, "energy-kcal_100g");
    var salt := Nutriment(n, "salt_100g");
    var sodium := Nutriment(n, "sodium_100g");
    NutritionSummary(
      energy := if Truthy(kcal) then kcal else Scale(Nutriment(n, "energy_100g"), 1.0 / 4.184),
      protein := Nutriment(n, "proteins_100g"),
      carbs := Nutriment(n, "carbohydrates_100g"),
      fat := Nutriment(n, "fat_100g"),
      saturatedFat := Nutriment(n, "saturated-fat_100g"),
      sugar := Nutriment(n, "sugars_100g"),
      fiber := Nutriment(n, "fiber_100g"),
      salt := if Truthy(salt) then salt else if Truthy(sodium) then Scale(sodium, 2.5) else Null,
      sodium := sodium)
  }

  predicate OrganicLabel(tag: string) {
    var l := ToLower(tag);
    Contains(l, "organic") || Contains(l, "bio") || Contains(l, "ecologique")
  }

  /** `isOrganic`: some label, lower-cased, mentions "organic", "bio" or
      "ecologique". */
  function IsOrganic(p: Product): (r: bool)
    ensures r <==> exists i :: 0 <= i < |p.labelsTags| && OrganicLabel(p.labelsTags[i])
  {
    AnyOrganic(p.labelsTags)
  }

  function AnyOrganic(labels: seq<string>): (r: bool)
    ensures r <==> exists i :: 0 <= i < |labels| && OrganicLabel(labels[i])
  {
    if labels == [] then false
    else OrganicLabel(labels[0]) || (assert forall i :: 0 < i < |labels| ==> labels[i] == labels[1..][i - 1];
                                   AnyOrganic(labels[1..]))
  }

  /** `getNovaDescription`. */
  function NovaDescription(novaGroup: real): (r: string)
    ensures novaGroup !in {1.0, 2.0, 3.0, 4.0} <==> r == "Unknown processing level"
    ensures novaGroup == 1.0 ==> r == "Unprocessed or minimally processed"
    ensures novaGroup == 2.0 ==> r == "Processed culinary ingredients"
    ensures novaGroup == 3.0 ==> r == "Processed foods"
    ensures novaGroup == 4.0 ==> r == "Ultra-processed foods"
  {
    if novaGroup == 1.0 then "Unprocessed or minimally processed"
    else if novaGroup == 2.0 then "Processed culinary ingredients"
    else if novaGroup == 3.0 then "Processed foods"
    else if novaGroup == 4.0 then "Ultra-processed foods"
    else "Unknown processing level"
  }
}
