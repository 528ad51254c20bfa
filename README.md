# Live health scorer: a verified model of its sequential core

The application scans a product barcode with the device camera and looks the
product up in Open Food Facts. It then computes a 1–10 health score with
pros, cons and a rationale, and can refine that score through an AI route.
This Dafny project models the deterministic logic behind that flow and
proves properties about it:

- **Scoring** (`lib/scoring.ts`): `computeHealthScore`, modelled as an
  imperative method. It pushes onto `pros`/`cons` and reassigns four integer
  component scores. It is proved equal to a specification function, and the
  properties are proved about that function: bounds, tiers, the 0.5 grid,
  deduplication and the six-item cap. Two concrete products, one scoring
  at the top and one at the bottom, are computed end to end.
  `getScoreCategory` is covered too.
- **ScanGate**, **VisionScanner**, **CameraScanner**
  (`components/vision-scanner.tsx`, `components/camera-scanner.tsx`): the
  `cooldownRef`/`lastCodeRef` gate as a class per component. Each class has
  a `Tick` method (one animation frame, given what the native detector
  returned) and an `OnZxing` method (the ZXing callback). Both are proved
  against the pure gate in `ScanGate`. Runs of inputs are proved to keep
  the cooldown in [0, 1200] on a 16 ms grid. They never emit the same code
  twice in a row, and they hold off for 74 frames after an acceptance.
- **OpenFoodFacts** (`lib/open-food-facts.ts`): the lookup policy of
  `fetchProductByBarcode`. It is a class that owns the cache map and takes
  `now` and the network outcome as inputs. It covers barcode validation,
  cache freshness, what gets cached, and how statuses and exceptions are
  classified. The pure helpers (`getProductImageUrl`,
  `getNutritionSummary`, `isOrganic`, `getNovaDescription`) are included.
- **AiScoreRoute**, **VisionAnalyzeRoute**, **RouteSupport**
  (`app/api/ai-score/route.ts`, `app/api/vision-analyze/route.ts`): the
  validation order, greedy `{…}` extraction, score clamping and rounding,
  and list filtering, merging, deduplication and capping. The model's text
  and `JSON.parse` are inputs.
- **Page** (`app/page.tsx`): the handlers' state updates in a class whose
  one field is the record of all state hooks. This covers the second dedup
  on `lastBarcode`, confidence clamping, routing of lookup statuses to
  messages, the newest-first history capped at ten, per-barcode score
  replacement after AI enrichment, `resetScan`, the spoken utterance and
  the `healthGrad` tiers.
- **JsRuntime**, **Lists**, **Wrappers**: the JavaScript semantics the code
  relies on. These are `Number()`, truthiness, `Math.round`, clamping,
  string search, `replace`, `trim`, `join`, and `Array.from(new Set(xs))`
  followed by `slice`.

Nutrient values are exact `real`s, and integers are unbounded. Every
component score in the source is an integer literal sum, so no
wrap-around arises.

## Behaviour of the code worth knowing

- A different code that arrives while the cooldown is running is dropped.
  It does not preempt the cooldown (`components/vision-scanner.tsx:351`).
  `ScanGate.Offer` states this.
- `lastCodeRef` is never cleared, so the gate never emits the same code
  twice in a row, however much time passes
  (`components/vision-scanner.tsx:353`). Re-scanning the same product
  after the cooldown therefore produces no second event.
  `ScanGate.SameCodeNeverReemitted` and `ScanGate.RunNeverRepeats` state
  this.
- The scanners do not clamp confidence. Only the page clamps it
  (`app/page.tsx:198-200`).
- The page sets `aiAvailable` from `res.ok`, so any 2xx answer to the
  probe counts (`app/page.tsx:91`). `Page.HomePage.CheckAi` keeps that
  test; the corrected test is stated beside it (see Findings).
- A product with ten pros loses the later ones to `slice(0, 6)`
  (`lib/scoring.ts:239-244`). For the top-scoring product, "Organic
  certified" is cut, as `Scoring.ScenarioALists` states.

## Model

| member | source | states |
|---|---|---|
| Scoring.NumOf | lib/scoring.ts:313-316 | a value that converts to a number gives that number; anything that converts to NaN gives the sentinel -1 |
| Scoring.GradeBase | lib/scoring.ts:32-39 | the corrected base: it lies in [7, 35] and is 20 exactly when the grade is not one of the five table keys, inherited keys included |
| Scoring.GradeBaseAsWritten | lib/scoring.ts:32-39 | as written, `grade in baseFromGrade` also holds for the inherited keys "constructor" and "__proto__", which then give no numeric base; every other grade gets the base `GradeBase` gives |
| Scoring.InheritedGradeKeyIsNotNumeric | lib/scoring.ts:31-39 | the grades "constructor" and "__proto__" get no numeric base as written, while the corrected `GradeBase` gives them 20 |
| Scoring.GradeTier | lib/scoring.ts:39-43 | a non-empty grade adds exactly the pro "Nutri-Score <UPPER>", even when it is unrecognised; an empty grade adds none; no cons |
| Scoring.SugarTier | lib/scoring.ts:56-74 | a non-positive value (including the -1 sentinel) adds nothing; a positive one adds exactly one entry, a pro only when it is ≤ 5; the delta lies in [-8, 2] |
| Scoring.SatFatTier | lib/scoring.ts:76-91 | same shape: nothing unless positive, then exactly one entry, a pro only when ≤ 2; the delta lies in [-7, 2] |
| Scoring.SaltTier | lib/scoring.ts:93-108 | same shape: nothing unless positive, then exactly one entry, a pro only when ≤ 0.6; the delta lies in [-6, 2] |
| Scoring.FiberTier | lib/scoring.ts:110-117 | below 3 nothing; otherwise one pro, worth +4 at ≥ 6 and +2 otherwise |
| Scoring.ProteinTier | lib/scoring.ts:119-125 | below 8 nothing; otherwise one pro, worth +3 at ≥ 12 and +2 otherwise |
| Scoring.CalorieTier | lib/scoring.ts:127-136 | fires only above 450 (con, -2) or strictly between 0 and 200 (pro, +1) |
| Scoring.FatQualityTier | lib/scoring.ts:138-148 | runs only when total fat and saturated fat are both positive; a ratio below 0.3 gives +1 with a pro, above 0.6 gives -2 with a con, and otherwise nothing |
| Scoring.NovaTier | lib/scoring.ts:150-167 | NOVA 1/2/3/4 give 25/20/12/5, NOVA 3 adds both a pro and a con, and anything else gives 15 with no entries |
| Scoring.AdditiveTier | lib/scoring.ts:169-183 | counts 0, 1-2, 3-5 and >5 give 20/15/10/5, each with its own pro or con |
| Scoring.AllergenTier | lib/scoring.ts:185-190 | any allergen gives -2 and one con naming the first three; no allergens give nothing |
| Scoring.LabelTier | lib/scoring.ts:192-213 | a label bonus and its pro apply exactly when some lower-cased tag contains the pattern |
| Scoring.FinalScore | lib/scoring.ts:215-222 | the score lies in [1, 10] and on the 0.5 grid; it is within 0.25 of sum/10 for sums in [8, 100], 1 for sums ≤ 12 and 10 for sums ≥ 98 |
| Scoring.RationaleFor | lib/scoring.ts:280-310 | the rationale opens with the score clause and ends with the component breakdown |
| Scoring.RationaleMentions | lib/scoring.ts:282-300 | each optional clause (grade, NOVA 1, NOVA 4, no additives, many additives, organic) is present exactly when its condition holds |
| Scoring.ScoreFacts | lib/scoring.ts:19-253 | for every input, the score lies in [1, 10] on the 0.5 grid; pros and cons are each the deduplicated raw list cut to min(its length, 6), so they are duplicate-free and keep first-occurrence order |
| Scoring.HealthScore | lib/scoring.ts:19-253 | no contract of its own: `computeHealthScore` as the specification `ScoreFacts(FactsOf(p))`, whose properties `ScoreFacts` and `ComputeHealthScore` state |
| Scoring.FactsOf | lib/scoring.ts:31-213 | no contract of its own: the product fields as the scorer reads them; `ScenarioAFacts`, `ScenarioBFacts` and `NutrientFallbacks` state its readings |
| Scoring.SaltOf | lib/scoring.ts:48 | no contract of its own; `NutrientFallbacks` states the `||` fallback to sodium×2.5 |
| Scoring.KcalOf | lib/scoring.ts:51-52 | no contract of its own; `NutrientFallbacks` states the `||` fallback to energy/4.184 |
| Scoring.NovaOf | lib/scoring.ts:150 | `Number` of `nova_group`, or of 0 when it is falsy: a falsy value gives 0, a number gives itself, and a non-numeric text gives NaN |
| Scoring.GenerateRationale | lib/scoring.ts:255-311 | the `+=` accumulation builds exactly the clause list of the specification |
| Scoring.SugarRule | lib/scoring.ts:56-74 | the sugar branch appends that tier's entries to the lists and adds its delta |
| Scoring.SatFatRule | lib/scoring.ts:76-91 | the saturated-fat branch appends that tier's entries to the lists and adds its delta |
| Scoring.SaltRule | lib/scoring.ts:93-108 | the salt branch appends that tier's entries to the lists and adds its delta |
| Scoring.FiberProteinRules | lib/scoring.ts:110-125 | the fiber and protein bonuses, in push order |
| Scoring.EnergyFatRules | lib/scoring.ts:127-148 | the calorie-density and fat-profile rules, in push order |
| Scoring.NutritionSection | lib/scoring.ts:30-148 | the nutrition section yields exactly the specified pros, cons and nutrition score |
| Scoring.ProcessingSection | lib/scoring.ts:150-167 | the NOVA branch appends its entries and yields the processing score |
| Scoring.IngredientSection | lib/scoring.ts:169-190 | the additive and allergen branches append their entries and yield the ingredient score |
| Scoring.LabelSection | lib/scoring.ts:192-213 | the four independent label checks append their pros and sum their bonuses |
| Scoring.RunSections | lib/scoring.ts:19-213 | the four sections in order produce the raw pro and con lists and the four components |
| Scoring.ScaleTotal | lib/scoring.ts:215-222 | clamp, round to 0.5 and clamp again, agreeing with `FinalScore` |
| Scoring.ScoreFromFacts | lib/scoring.ts:215-252 | the assembled result equals the specification `ScoreFacts` |
| Scoring.ComputeHealthScore | lib/scoring.ts:19-253 | the result equals `HealthScore(p)`, the score lies in [1, 10] on the 0.5 grid, and pros and cons are distinct with at most 6 entries each |
| Scoring.ComponentRanges | lib/scoring.ts:150-213 | processing ∈ {25, 20, 12, 5, 15}; ingredients = additive tier − 2 when allergens are present; labels = the sum of independent 8/3/2/2 bonuses, within [0, 15]; nutrition lies within [base − 25, base + 15] |
| Scoring.GradeLookup | lib/scoring.ts:31-39 | after lower-casing, "a".."e" give 35/28/21/14/7 and any other grade gives 20 (the corrected reading of the `in` test) |
| Scoring.GradeCaseInsensitive | lib/scoring.ts:31-43 | "A" scores like "a", and the pro shows the grade upper-cased either way |
| Scoring.NutrientFallbacks | lib/scoring.ts:46-52 | a missing salt value yields -1 without consulting sodium, and sodium×2.5 is used only when salt converts to exactly 0; energy/4.184 follows the same rule |
| Scoring.MissingNutrimentsAreInert | lib/scoring.ts:45-148 | with no nutriments, nutrition is exactly the grade base and no nutrient con is pushed |
| Scoring.FinalScoreMonotone | lib/scoring.ts:215-222 | a larger component sum never gives a lower score |
| Scoring.ScenarioBFacts | lib/scoring.ts:31-193 | the worst-case product reads as grade e, NOVA 4, 7 additives and gluten, with missing values at -1 |
| Scoring.ScenarioBScore | lib/scoring.ts:215-222 | components -14/5/3/0, total clamped to 0, score 1 |
| Scoring.ScenarioBLists | lib/scoring.ts:238-244 | the only pro is "Nutri-Score E"; the six cons in push order end with "Contains allergens: gluten" |
| Scoring.ScenarioAFacts | lib/scoring.ts:31-193 | the all-good product reads as grade a, NOVA 1, no additives, labels organic and vegan |
| Scoring.ScenarioALabels | lib/scoring.ts:192-213 | the organic and vegan bonuses apply; gluten-free and fair-trade do not |
| Scoring.ScenarioANutrition | lib/scoring.ts:30-148 | its nutrition component is 47 |
| Scoring.ScenarioAComponents | lib/scoring.ts:19-213 | its components are 47/25/20/11 |
| Scoring.ScenarioAScore | lib/scoring.ts:215-222 | the sum 103 is clamped to 100, giving score 10 |
| Scoring.ScenarioANutritionPros | lib/scoring.ts:41-125 | the nutrition section pushes six pros, ending with "Good protein content" |
| Scoring.ScenarioARawLists | lib/scoring.ts:41-213 | ten pros are pushed in order, and no cons |
| Scoring.ScenarioALists | lib/scoring.ts:238-244 | the cap leaves the first six pros, so "Organic certified" is cut; cons stay empty |
| Scoring.CategoryLevel | lib/scoring.ts:319-355 | total: Excellent exactly at ≥ 8.5, Very Poor exactly below 4 |
| Scoring.GetScoreCategory | lib/scoring.ts:319-355 | always one of the five fixed categories, chosen by the cut-offs 8.5/7/5.5/4 |
| Scoring.CategoryMonotone | lib/scoring.ts:324-354 | a higher score never lands in a lower category |
| Lists.UniqTake | lib/scoring.ts:239 | `Array.from(new Set(xs)).slice(0, n)` has exactly min(n, number of distinct elements) entries, has no duplicates, contains only elements of xs, and is a prefix of the deduplicated list |
| Lists.Dedup | lib/scoring.ts:239 | `Array.from(new Set(xs))` is never longer than its input; `DedupMembers`, `DedupNoDuplicates` and `DedupFirstOccurrenceOrder` state what it keeps |
| Lists.Take | lib/scoring.ts:239 | `slice(0, n)` is the prefix of length min(n, length): the whole list when it is short enough |
| Lists.DedupMembers | lib/scoring.ts:239 | deduplication keeps exactly the elements of the input |
| Lists.DedupNoDuplicates | lib/scoring.ts:239 | deduplication yields a duplicate-free list |
| Lists.DedupOfDistinct | lib/scoring.ts:239 | deduplicating a duplicate-free list changes nothing |
| Lists.DedupPrefix | app/api/ai-score/route.ts:167-168 | what is inserted first comes first: Dedup(a) is a prefix of Dedup(a + b) |
| Lists.DedupFirstOccurrenceOrder | lib/scoring.ts:239 | deduplicated elements keep the order of their first occurrences |
| JsRuntime.ClampInt | lib/scoring.ts:16-17 | `Math.max(lo, Math.min(hi, n))` lies in [lo, hi], is n when n is in range, and otherwise the nearer bound |
| JsRuntime.ClampReal | app/api/vision-analyze/route.ts:109 | the same clamp on reals |
| JsRuntime.ToNumber | lib/scoring.ts:313-316 | `Number(v)` is a number exactly for null and numbers: null gives 0 and a number gives itself |
| JsRuntime.Truthy | lib/scoring.ts:48 | no contract of its own: a non-zero number or a non-numeric text is truthy |
| JsRuntime.ToLower | lib/scoring.ts:31 | same length, each character lower-cased |
| JsRuntime.ToUpper | lib/scoring.ts:42 | `toUpperCase`: same length, each character upper-cased (ASCII letters) |
| JsRuntime.Trim | app/api/ai-score/route.ts:153 | the result is the input's slice at some k with only white space before and after it, so exactly the leading and trailing white space is cut; it neither starts nor ends with white space |
| JsRuntime.NatToString | app/page.tsx:373 | the decimal rendering of a natural number: digits only, no leading zero, and `DigitsValue` reads it back as the number |
| JsRuntime.Join | lib/scoring.ts:188 | no items join to "", and a single item joins to itself |
| JsRuntime.JoinSnoc | app/page.tsx:103-104 | appending an item to a non-empty list appends the separator and the item to the join, so `sep` stands between each two neighbours (used for ", " at lib/scoring.ts:188) |
| JsRuntime.Round | lib/scoring.ts:221 | `Math.round` returns the integer r with x − 0.5 < r ≤ x + 0.5, so halves round up |
| JsRuntime.ReplaceFirst | lib/open-food-facts.ts:169-171 | `replace` with a string pattern rewrites only the first occurrence and leaves a string without it unchanged |
| JsRuntime.IndexOf | lib/open-food-facts.ts:144 | the first position where the pattern occurs, or none exactly when it occurs nowhere |
| JsRuntime.Contains | lib/scoring.ts:195-210 | `includes` holds exactly when the pattern occurs at some position |
| JsRuntime.NonBlankIff | app/api/ai-score/route.ts:153 | `s.trim().length > 0` holds exactly when s has a non-white-space character |
| ScanGate.Offer | components/vision-scanner.tsx:351-356 | an empty code or a running cooldown changes nothing, even for a different code; acceptance re-arms the cooldown to 1200; an event fires exactly for an accepted code ≠ lastCode, and lastCode becomes that code |
| ScanGate.Decay | components/vision-scanner.tsx:341 | the cooldown drops by 16 only while positive and stays on the valid grid |
| ScanGate.FirstHit | components/vision-scanner.tsx:347-350 | only the first native barcode is used; its confidence is taken as is, or 0.88 when it is not a number, with no clamping |
| ScanGate.NativeTick | components/vision-scanner.tsx:333-365 | an inactive frame changes nothing; an active one decrements before the check; no result or a thrown `detect` only decrements |
| ScanGate.ZxingStep | components/vision-scanner.tsx:440-453 | an inactive callback or an error-only callback changes nothing; a result goes through the same gate with confidence 0.8 |
| ScanGate.StepKeepsCooldownValid | components/vision-scanner.tsx:341-352 | each step keeps the cooldown within [0, 1200] and a multiple of 16 |
| ScanGate.RunKeepsCooldownValid | components/vision-scanner.tsx:333-453 | any sequence of frames and callbacks keeps that invariant |
| ScanGate.Step | components/vision-scanner.tsx:333-365 | one frame or callback: an emitted code differs from the previous lastCode and becomes the new one; with no emission, lastCode is unchanged |
| ScanGate.Run | components/vision-scanner.tsx:333-453 | a run emits at most one detection per input |
| ScanGate.RunTracksLastCode | components/vision-scanner.tsx:353-356 | after a run, lastCode is the code of the last event, and the first event differs from the starting lastCode |
| ScanGate.RunNeverRepeats | components/vision-scanner.tsx:351-356 | two consecutive events of any run never carry the same code |
| ScanGate.RearmHoldsOff | components/vision-scanner.tsx:341-352 | from a cooldown c, fewer than c/16 active frames emit nothing and count the cooldown down by 16 each |
| ScanGate.CooldownHoldsFor74Frames | components/vision-scanner.tsx:341-352 | after an acceptance, the next 74 active frames accept nothing, whatever they see |
| ScanGate.SeventyFifthFrameAccepts | components/vision-scanner.tsx:341-356 | with 16 ms of cooldown left, as after 74 held frames, the next active frame that sees a new code emits it |
| ScanGate.DetectFailureIsSilent | components/vision-scanner.tsx:359-361 | a thrown `detect` acts like a frame that saw nothing |
| ScanGate.SameCodeNeverReemitted | components/vision-scanner.tsx:353 | the last emitted code is never emitted again by the gate, however long the gap |
| VisionScanner.Scanner.constructor | components/vision-scanner.tsx:57-58 | cooldown 0, no last code, barcode mode, no camera held |
| VisionScanner.Scanner.Tick | components/vision-scanner.tsx:333-365 | the new (cooldown, lastCode) and the event are those of the gate's native step, active only while scanning in barcode mode; the invariant is kept; in vision mode it emits nothing and leaves the gate unchanged |
| VisionScanner.Scanner.OnZxing | components/vision-scanner.tsx:440-453 | the new state and the event are those of the gate's ZXing step under the same mode gate; the invariant is kept; in vision mode it emits nothing and leaves the gate unchanged |
| VisionScanner.Scanner.SetMode | components/vision-scanner.tsx:64 | switching mode touches neither cooldown nor lastCode |
| VisionScanner.Scanner.StartCamera | components/vision-scanner.tsx:370-461 | starting the camera leaves the gate unchanged |
| VisionScanner.Scanner.StopCamera | components/vision-scanner.tsx:73-111 | stopping releases the camera and resets neither cooldown nor lastCode |
| CameraScanner.Scanner.constructor | components/camera-scanner.tsx:36-37 | cooldown 0, no last code, no camera held |
| CameraScanner.Scanner.Tick | components/camera-scanner.tsx:162-194 | the gate's native step gated only on `scanning`; the invariant is kept |
| CameraScanner.Scanner.OnZxing | components/camera-scanner.tsx:269-282 | the gate's ZXing step gated only on `scanning`; the invariant is kept |
| CameraScanner.Scanner.StartCamera | components/camera-scanner.tsx:199-290 | starting the camera leaves the gate unchanged |
| CameraScanner.Scanner.StopCamera | components/camera-scanner.tsx:47-85 | stopping releases the camera and keeps cooldown and lastCode |
| OpenFoodFacts.ClassifyThrown | lib/open-food-facts.ts:134-156 | AbortError gives 408, another Error whose message contains "fetch" gives 503, and everything else gives 500; no product in any case |
| OpenFoodFacts.ClassifyHttpError | lib/open-food-facts.ts:88-105 | a non-OK status is passed through; 404 carries "Product not found in database", 429 "Rate limit exceeded. Please try again later.", and any other status "API error: <statusText>" |
| OpenFoodFacts.FromNetwork | lib/open-food-facts.ts:88-133 | a thrown fetch is classified by `ClassifyThrown`; a non-OK status by `ClassifyHttpError`; an OK body that does not parse by `ClassifyThrown`; a non-object body gives 500 "Invalid response format from API"; an object without product and with status 0 gives 404 "Product not found in Open Food Facts database"; any other object is returned unchanged; only an object carrying a product is cached; every non-object path has no product |
| OpenFoodFacts.Lookup | lib/open-food-facts.ts:53-157 | a short barcode gives 400 with the cache untouched; a fresh cached entry is served as is; the cache either stays the same or gains this barcode's product response stamped with now |
| OpenFoodFacts.InvalidBarcodeRejected | lib/open-food-facts.ts:58-63 | a barcode shorter than 8 (including "") gives 400 "Invalid barcode format" with the cache untouched |
| OpenFoodFacts.CacheFreshness | lib/open-food-facts.ts:66-69 | a cached entry is served exactly while now − timestamp < 300000; otherwise the network's answer is returned |
| OpenFoodFacts.CacheStoresOnlyProducts | lib/open-food-facts.ts:125-131 | the cache changes only by storing a product response stamped with now; no entry is removed or altered otherwise |
| OpenFoodFacts.ThrownStatuses | lib/open-food-facts.ts:134-156 | every exception is answered with 408, 503 or 500 |
| OpenFoodFacts.ProductCache.constructor | lib/open-food-facts.ts:47-50 | the cache starts empty |
| OpenFoodFacts.ProductCache.FetchProductByBarcode | lib/open-food-facts.ts:53-157 | the response and the new cache map are those of the lookup policy `Lookup` |
| OpenFoodFacts.ProductImageUrl | lib/open-food-facts.ts:160-179 | no image gives the placeholder; medium, or a URL without "/images/products/", is returned unchanged |
| OpenFoodFacts.ImageUrlInsertsSize | lib/open-food-facts.ts:168-171 | small and large insert "100/" or "400/" right after the first "/images/products/" |
| OpenFoodFacts.NutritionSummaryOf | lib/open-food-facts.ts:182-198 | energy is the kcal value when truthy, else energy/4.184; salt is salt when truthy, else sodium×2.5 when sodium is truthy, else null; sodium, protein, carbs, fat, saturated fat, sugar and fiber are their nutriment values passed through |
| OpenFoodFacts.IsOrganic | lib/open-food-facts.ts:201-209 | true exactly when some lower-cased label contains "organic", "bio" or "ecologique" |
| OpenFoodFacts.NovaDescription | lib/open-food-facts.ts:212-225 | 1 "Unprocessed or minimally processed", 2 "Processed culinary ingredients", 3 "Processed foods", 4 "Ultra-processed foods", and anything else "Unknown processing level" |
| RouteSupport.Get | app/api/ai-score/route.ts:38 | a property read yields the field of an object and undefined otherwise |
| RouteSupport.NumberOf | app/api/ai-score/route.ts:149 | `Number(v)`: numbers map to themselves, null/false/[] to 0, true to 1, undefined and objects to NaN; a one-element array converts as its element (null or undefined inside give 0), an array of two or more to NaN |
| RouteSupport.NonBlankStrings | app/api/ai-score/route.ts:151-158 | the filter keeps exactly the non-blank strings and never lengthens the list |
| RouteSupport.NonBlankStringsConcat | app/api/ai-score/route.ts:151-158 | the filter maps concatenation to concatenation and keeps a single item exactly when it is a non-blank string, so it keeps order and multiplicity |
| RouteSupport.IsTruthy | app/api/ai-score/route.ts:37-43 | no contract of its own: JavaScript truthiness of a JSON value |
| RouteSupport.BraceSpan | app/api/ai-score/route.ts:126 | a span exists exactly when some "{" precedes some "}"; it runs from the first "{" to the last "}" |
| RouteSupport.GreedySpan | app/api/ai-score/route.ts:126 | no contract of its own: the span the greedy regex matches, against which `BraceSpan` is proved |
| AiScoreRoute.OptionsStatus | app/api/ai-score/route.ts:7-19 | 200 exactly when a provider key is configured, else 204 |
| AiScoreRoute.ModelName | app/api/ai-score/route.ts:106-112 | OpenAI is chosen whenever its key is present |
| AiScoreRoute.SanitizeScore | app/api/ai-score/route.ts:147-150 | always an integer in [1, 10]; the AI score rounded when it is non-zero and in range; the base score rounded when the AI score is 0 or NaN; clamped at either end |
| AiScoreRoute.SanitizeList | app/api/ai-score/route.ts:151-160 | an array gives the first six of its non-blank strings, in their order (the filter, then `slice(0, 6)`); a non-array gives the base list |
| AiScoreRoute.Merge | app/api/ai-score/route.ts:167-168 | the merged list is the deduplicated concatenation AI + base, cut to min(its length, 6): duplicate-free, only AI or base items, AI items first |
| AiScoreRoute.SanitizeRationale | app/api/ai-score/route.ts:161-164 | the trimmed AI text when it is non-blank, else the template naming the model and the score |
| AiScoreRoute.Enhance | app/api/ai-score/route.ts:146-177 | the enhanced reply has a score in [1, 10], lists of at most six, and the chosen model's name; how each field is derived is stated by `EnhancedReplyIff` |
| AiScoreRoute.Post | app/api/ai-score/route.ts:22-192 | no key gives 503, and a missing product gives 400; success requires a key, a valid body and a model reply; the fallback echoes the base score and lists; an enhanced score lies in [1, 10] (the enhanced fields are stated by `EnhancedReplyIff`) |
| AiScoreRoute.EnhancedReplyIff | app/api/ai-score/route.ts:122-177 | for a valid request, the reply is enhanced exactly when the text has a span that parses, and is otherwise the fallback; an enhanced reply's score, lists and rationale are the sanitized AI fields, its lists merged AI-first with the base lists, and its provider the chosen model |
| AiScoreRoute.RejectsInOrder | app/api/ai-score/route.ts:52-65 | after the product check, a bad base score gives 400 before the lists are checked; bad lists then give 400; a failed model call gives 500 |
| AiScoreRoute.UnparseableBodyIsMissingProduct | app/api/ai-score/route.ts:37-43 | a body that is not JSON is refused as missing its product |
| AiScoreRoute.InvalidDataIsRejected | app/api/ai-score/route.ts:37-43 | `{invalid: "data"}` never gets 200, and gets 400 whenever a key is set |
| AiScoreRoute.NoJsonFallsBack | app/api/ai-score/route.ts:122-144 | model text without a "{…}" span gives the fallback echoing the base assessment |
| AiScoreRoute.ZeroScoreUsesBase | app/api/ai-score/route.ts:147-150 | a parsed score of 0 behaves like a missing one and yields round(baseScore) |
| AiScoreRoute.MergeKeepsAiFirst | app/api/ai-score/route.ts:167-168 | the merged list starts with the deduplicated AI items, as many as fit in six |
| AiScoreRoute.DistinctAiItemsSurvive | app/api/ai-score/route.ts:151-168 | up to six distinct AI items all survive the merge, in order, ahead of the base items |
| VisionAnalyzeRoute.ProviderName | app/api/vision-analyze/route.ts:42-43 | OpenAI is chosen when its key is present, otherwise xAI |
| VisionAnalyzeRoute.Clamped | app/api/vision-analyze/route.ts:108-109 | `healthScore` is clamped into [1, 10] without rounding and left alone when already in range; every other property is unchanged |
| VisionAnalyzeRoute.Respond | app/api/vision-analyze/route.ts:17-140 | no key gives 503, and an unreadable or null body gives 500; success needs truthy imageData and description and a model reply; a complete request that does not succeed gets 500 "AI analysis failed"; a success carries a healthScore in [1, 10]; errors are 400, 500 or 503 |
| VisionAnalyzeRoute.Analysis.constructor | app/api/vision-analyze/route.ts:101 | the parsed object holds the model's fields |
| VisionAnalyzeRoute.Analysis.ClampHealthScore | app/api/vision-analyze/route.ts:109 | the in-place overwrite leaves exactly the clamped analysis |
| VisionAnalyzeRoute.Post | app/api/vision-analyze/route.ts:17-140 | the imperative handler answers exactly as `Respond` |
| VisionAnalyzeRoute.MissingDescriptionIsRejected | app/api/vision-analyze/route.ts:34-39 | once a provider is configured, any non-null body whose imageData or description is not truthy gets 400 with the missing-fields message, the body `{imageData: "invalid"}` included |
| VisionAnalyzeRoute.FailedAnalysisIs500 | app/api/vision-analyze/route.ts:95-128 | for a complete request, a thrown model call, text without a "{…}" span, a span that does not parse, or an object failing the structure check each get 500 "AI analysis failed" |
| VisionAnalyzeRoute.SuccessIff | app/api/vision-analyze/route.ts:95-119 | for a complete request, success holds exactly when the text has a span that parses into an object with a truthy productName and a numeric healthScore; the analysis is then that object clamped |
| Page.Prepend | app/page.tsx:263-271 | the new entry comes first; the history grows by one below ten entries and otherwise stays at exactly ten, dropping the oldest |
| Page.ReplaceScore | app/page.tsx:305-309 | same length; every entry with the barcode gets the new score and every other entry is unchanged |
| Page.RouteLookup | app/page.tsx:213-255 | null gives the network branch; only status 1 with a product is found; 404 and 429 have their own branches; any other status shows `data.error` when present, else a generic message |
| Page.StoredConfidence | app/page.tsx:198-200 | a supplied number is clamped into [0, 1]; no number leaves the confidence unchanged |
| Page.AiAvailableAsWritten | app/page.tsx:91 | `res.ok`: any 2xx probe status counts as available |
| Page.AsWrittenProbeIgnoresKeys | app/page.tsx:87-97 | as written, the probe reports AI available even with no key, because the route then answers 204 |
| Page.AiAvailableFrom | app/page.tsx:87-97 | corrected: AI is available exactly when the probe answers 200 |
| Page.ProbeMatchesKeys | app/page.tsx:87-97 | with the corrected test, AI is available exactly when a provider key is set |
| Page.RepeatedBarcodeIgnored | app/page.tsx:196 | an empty barcode or one equal to `lastBarcode` leaves the whole state unchanged |
| Page.AfterLookupKeeps | app/page.tsx:210-330 | the branches after the lookup change neither lastBarcode nor the confidence, and keep the history within ten entries |
| Page.Detected | app/page.tsx:194-340 | no contract of its own: `onDetected`'s final state; `RepeatedBarcodeIgnored`, `NewBarcodeRecorded`, `FoundProductFiled`, `MissingProductReported` and `HandlersKeepInvariant` state its properties |
| Page.AfterLookup | app/page.tsx:210-330 | no contract of its own: the branches after the lookup; `AfterLookupKeeps` states what they keep |
| Page.AnalyzeUnknown | app/page.tsx:114-192 | without AI only the "unavailable" error is set; with AI, an answer is shown as the score and filed newest-first under the barcode, and a failure sets the analysis error and files nothing; lastBarcode and confidence are kept |
| Page.LookupMessage | app/page.tsx:213-255 | no contract of its own: the message of each unsuccessful lookup; `MissingProductReported` states it per status |
| Page.NewBarcodeRecorded | app/page.tsx:196-330 | a new barcode becomes `lastBarcode`, the confidence is the clamped one, and loading ends off |
| Page.HandlersKeepInvariant | app/page.tsx:158-391 | `onDetected`, `handleVisionAnalysis` and `resetScan` keep the history within ten entries and the confidence in [0, 1] |
| Page.FoundProductFiled | app/page.tsx:257-324 | a found product is filed newest-first with older entries shifted; without a successful enrichment the base score stays; with one, the shown score and every entry for that barcode get the enriched score |
| Page.MissingProductReported | app/page.tsx:213-255 | without a product, no score is computed and nothing is filed; the message follows null/404/429/`data.error`/generic |
| Page.ResetClears | app/page.tsx:342-350 | resetScan clears lastBarcode, the confidence, the score and the error, and keeps history and settings |
| Page.VisionAnalyzed | app/page.tsx:352-396 | the vision result is shown, its score and lists become the page's score, an entry "vision_<now>" with that score is filed first, loading ends and the error clears; lastBarcode and confidence are kept |
| Page.Reset | app/page.tsx:342-350 | no contract of its own; `ResetClears` states what it clears and keeps |
| Page.Utterance | app/page.tsx:99-112 | the utterance is empty exactly when muted |
| Page.UtteranceNamesFirstTwo | app/page.tsx:103-104 | only the first two pros and the first two cons affect the utterance |
| Page.ScoreText | app/page.tsx:106 | `${s.score}` for a non-negative multiple of 0.5: the decimal digits of its whole part, followed by ".5" exactly when it is a half; a negative score starts with "-" |
| Page.ListClause | app/page.tsx:103-108 | no contract of its own; `ListClauseEmptyIff` states when the clause is left out |
| Page.ListClauseEmptyIff | app/page.tsx:103-108 | the Benefits/Concerns clause is left out exactly when the joined list is empty: no items, or one empty string |
| Page.GradLevel | app/page.tsx:398-404 | the tier is chosen by score ≥ 8, ≥ 6, ≥ 4, else the lowest |
| Page.HealthGrad | app/page.tsx:398-404 | always one of the four gradients, the one for the score's tier |
| Page.HealthGradMonotone | app/page.tsx:398-404 | a higher score never gets a lower tier |
| Page.HomePage.constructor | app/page.tsx:51-85 | every hook starts at its initial value: no barcode or product, the empty score, confidence 0, barcode mode, empty history; the invariant (history of at most ten, confidence in [0, 1]) holds |
| Page.HomePage.CheckAi | app/page.tsx:87-97 | sets `aiAvailable` by `res.ok` as written: any 2xx status, 204 included, counts as available; a failed request gives false; nothing else changes; the invariant is kept |
| Page.HomePage.AnalyzeUnknownProduct | app/page.tsx:114-192 | without AI only the error is set; an AI answer is shown and filed newest-first; a failure sets the analysis error; the invariant is kept |
| Page.HomePage.ScoreProduct | app/page.tsx:257-324 | the found-product branch equals the specification with `computeHealthScore` as the base; the invariant is kept |
| Page.HomePage.ShowBaseScore | app/page.tsx:257-271 | shows the product and base score and prepends one history entry; the invariant is kept |
| Page.HomePage.ApplyEnrichment | app/page.tsx:273-324 | when enabled and available, success replaces the scores for the barcode and failure keeps the base score; the invariant is kept |
| Page.HomePage.OfferAiAnalysis | app/page.tsx:228-243 | a description leads to the unknown-product analysis, and none to the not-found message; the invariant is kept |
| Page.HomePage.BeginLookup | app/page.tsx:196-208 | records the barcode, clamps the confidence and clears the previous scan before the lookup; the invariant is kept |
| Page.HomePage.ReportMissing | app/page.tsx:221-255 | the not-found, rate-limited and failed branches, as the specification routes them; the invariant is kept |
| Page.HomePage.OnDetected | app/page.tsx:194-340 | the handler's new state is `Detected` applied to the old state, with `computeHealthScore` of the found product; the invariant is kept |
| Page.HomePage.HandleVisionAnalysis | app/page.tsx:352-396 | the vision result is shown and filed newest-first; the invariant is kept |
| Page.HomePage.ResetScan | app/page.tsx:342-350 | the new state is `Reset` of the old one; the invariant is kept |

## Left out

- Rendering, JSX, animation, canvas overlay drawing, `score-gauge`,
  `product-card`, `pros-cons`, error pages and framework configuration.
  These are presentation only.
- Camera set-up and teardown: `getUserMedia`, the video element,
  `BarcodeDetector` construction and ZXing `decodeFromVideoDevice`. These
  are browser and library calls. Their outputs enter `Tick`/`OnZxing` as
  inputs, and the held resources are one boolean.
- Overlapping in-flight `detector.detect` calls inside animation frames.
  Frames are treated as strictly sequential.
- React's stale closures. `tick` reads the `scanning` and `visionMode`
  captured when the loop started, and the ZXing callback reads
  `scanningRef`. In the model, the caller passes the value the closure
  sees as the `scanning` argument.
- Network, timers and clocks (`fetch`, the 10 s abort timer, `Date.now`).
  Their outcomes and `now` are parameters.
- The AI SDK call and the prompts. The model text is an input (`None`
  when the call throws), and `JSON.parse` is a parameter function.
- Blocking `confirm` and `prompt`. Their answers are the `Dialog` input.
- Speech synthesis, `vibrate` and `console` output. The utterance text is
  modelled; speaking it is not.
- `captureImage` and `analyzeImage` in the vision scanner. These are canvas
  encoding and fetch.
- The `catch` in `onDetected` that shows "An unexpected error occurred"
  (app/page.tsx:325-327). Every step before it is total in the model, so
  this path cannot be reached there.
- Intermediate renders between a handler's state updates. Each handler
  is modelled by its final state.
- Binary floating point. `/4.184`, `*2.5`, the saturated-fat ratio and
  the thresholds use exact reals.
- Scoring.GenerateRationale: numbers are not formatted. The rationale is
  its list of clauses with the numbers kept as numbers.
- Page.ScoreText: its rendering is stated only for non-negative
  multiples of 0.5. That covers every score `computeHealthScore` and the
  AI route produce, but not arbitrary vision-route scores, which
  JavaScript would print with their full decimal expansion.
- OpenFoodFacts.Lookup: one `now` serves both clock reads. The source
  reads `Date.now()` for the freshness test (lib/open-food-facts.ts:67)
  and again for the stamp after the fetch (lib/open-food-facts.ts:129), so
  a stored entry is stamped with the request time, not the response time.
- RouteSupport.NumberOf: a non-blank string is treated as NaN, even one
  JavaScript would convert to a number (`Number("7")` is 7). Numeric JSON
  values, null, booleans and arrays are converted as JavaScript does.
- OpenFoodFacts.NutritionSummaryOf: a nutriment value that is a numeric
  string is held as the number it converts to, so the string "0" reads as
  falsy here, whereas JavaScript treats any non-empty string as truthy and
  would keep it instead of falling back to sodium×2.5 or energy/4.184.
- Scoring.GradeBase: it is the corrected lookup, giving 20 to the
  inherited keys "constructor" and "__proto__". The code as written gives
  them a non-numeric base; `Scoring.GradeBaseAsWritten` models that, and
  the scores that follow from it (NaN) are not modelled.
- JsRuntime.ToLower: only ASCII letters change case (likewise
  `JsRuntime.ToUpper`). Unicode case mapping is not modelled.
- AiScoreRoute.Merge: JSON values are compared structurally. A JavaScript
  `Set` distinguishes two equal non-string objects by reference.
- OpenFoodFacts.FromNetwork: `statusText`, the error text and the JSON
  body are taken as given. The HTTP transport and header handling are not
  modelled.
- Barcode checksums: the code checks only that a barcode has at least 8
  characters, so no checksum is modelled.

## Findings

| source | as written | input that shows it | evidently intended | confidence | as-written member | corrected member |
|---|---|---|---|---|---|---|
| app/page.tsx:91 | `setAiAvailable(res.ok)` counts any 2xx answer of `OPTIONS /api/ai-score` as "AI available" | neither OPENAI_API_KEY nor XAI_API_KEY is set: the route answers 204 (app/api/ai-score/route.ts:13), `res.ok` is true, and the page offers AI paths that then get 503 | AI is available only when the probe answers 200, which the route sends exactly when a key is configured | high, not executed | Page.AsWrittenProbeIgnoresKeys | Page.ProbeMatchesKeys |
| lib/scoring.ts:39 | `grade in baseFromGrade` also holds for keys the object literal inherits | a product whose `nutriscore_grade` is "constructor" or "__proto__": the base becomes a function or an object, and the score comes out NaN | any grade other than a–e gets the base 20 | medium, not executed | Scoring.InheritedGradeKeyIsNotNumeric | Scoring.GradeLookup |
