/** The cooldown and last-code gate both barcode scanners share: a
    per-frame step for the native detector and a callback step for the
    ZXing fallback, each deciding whether a decoded code is emitted. The
    state is two fields; everything the browser supplies is an input. */
module ScanGate {
  import opened Wrappers

  /** The cooldown set on each accepted hit, in milliseconds. */
  const CooldownMs: int := 1200
  /** The decrement applied on each active animation frame. */
  const FrameMs: int := 16
  /** The confidence reported when the native detector gives none. */
  const NativeDefaultConfidence: real := 0.88
  /** The confidence every ZXing result carries. */
  const ZxingConfidence: real := 0.8

  /** What `onDetected` receives. */
  datatype Detection = Detection(code: string, confidence: real)

  /** One result of `detector.detect`: a missing `rawValue` is "", a
      non-numeric `confidence` is `None`. */
  datatype Barcode = Barcode(rawValue: string, confidence: Option<real>)

  /** What a frame's detection attempt produced: no attempt (no detector,
      or the video not ready), an exception, or the result list. */
  datatype NativeSample = NotSampled | DetectThrew | Sampled(barcodes: seq<Barcode>)

  /** `cooldownRef` and `lastCodeRef`. */
  datatype Gate = Gate(cooldown: int, lastCode: string)

  const Initial: Gate := Gate(0, "")

  /** The cooldown stays within [0, 1200] on a 16 ms grid. */
  predicate CooldownValid(c: int) {
    0 <= c <= CooldownMs && c % FrameMs == 0
  }

  /** The acceptance block shared by both paths: a non-empty code with the
      cooldown run out re-arms the cooldown, and is emitted only when it
      differs from the last emitted code. */
  function Offer(g: Gate, code: string, confidence: real): (r: (Gate, Option<Detection>))
    ensures (code == "" || g.cooldown > 0) ==> r == (g, None)
    ensures code != "" && g.cooldown <= 0 ==> r.0.cooldown == CooldownMs
    ensures r.1.Some? <==> code != "" && g.cooldown <= 0 && code != g.lastCode
    ensures r.1.Some? ==> r.1.value == Detection(code, confidence) && r.0.lastCode == code
    ensures r.1.None? ==> r.0.lastCode == g.lastCode
  {
    if code != "" && g.cooldown <= 0 then
      if code != g.lastCode then (Gate(CooldownMs, code), Some(Detection(code, confidence)))
      else (Gate(CooldownMs, g.lastCode), None)
    else (g, None)
  }

  /** `if (cooldownRef.current > 0) cooldownRef.current -= 16`. */
  function Decay(c: int): (r: int)
    ensures CooldownValid(c) ==> CooldownValid(r)
    ensures c > 0 ==> r == c - FrameMs
    ensures c <= 0 ==> r == c
  {
    if c > 0 then c - FrameMs else c
  }

  /** The native path's choice of code and confidence: the first barcode
      only, its confidence defaulting to 0.88. */
  function FirstHit(barcodes: seq<Barcode>): (r: Option<Detection>)
    ensures r.Some? <==> |barcodes| > 0
    ensures r.Some? ==> r.value.code == barcodes[0].rawValue
    ensures r.Some? && barcodes[0].confidence.Some? ==> r.value.confidence == barcodes[0].confidence.value
    ensures r.Some? && barcodes[0].confidence.None? ==> r.value.confidence == NativeDefaultConfidence
  {
    if |barcodes| > 0 then
      Some(Detection(barcodes[0].rawValue, barcodes[0].confidence.GetOr(NativeDefaultConfidence)))
    else None
  }

  /** One animation frame of `tick`. `active` is `scanning` (and, in the
      vision scanner, `visionMode === "barcode"`). An inactive frame
      changes nothing; an active one decrements the cooldown before
      looking at the detector's result. */
  function NativeTick(g: Gate, active: bool, sample: NativeSample): (r: (Gate, Option<Detection>))
    ensures !active ==> r == (g, None)
    ensures active ==> r.0.cooldown == Decay(g.cooldown) || r.0.cooldown == CooldownMs
    ensures active && (sample.NotSampled? || sample.DetectThrew?) ==> r == (g.(cooldown := Decay(g.cooldown)), None)
    ensures active && sample.Sampled? && |sample.barcodes| > 0 && Decay(g.cooldown) > 0 ==> r.1.None?
  {
    if !active then (g, None)
    else
      var g1 := g.(cooldown := Decay(g.cooldown));
      match sample
      case NotSampled => (g1, None)
      case DetectThrew => (g1, None)
      case Sampled(barcodes) =>
        match FirstHit(barcodes)
        case None => (g1, None)
        case Some(hit) => Offer(g1, hit.code, hit.confidence)
  }

  /** The ZXing callback. `result` is the decoded text when there is a
      result (`getText() || ""`), `None` when the callback reports only an
      error. The callback never touches the cooldown decrement. */
  function ZxingStep(g: Gate, active: bool, result: Option<string>): (r: (Gate, Option<Detection>))
    ensures !active || result.None? ==> r == (g, None)
    ensures active && result.Some? ==> r == Offer(g, result.value, ZxingConfidence)
    ensures r.1.Some? ==> r.1.value.confidence == ZxingConfidence
  {
    if !active then (g, None)
    else match result
      case None => (g, None)
      case Some(text) => Offer(g, text, ZxingConfidence)
  }

  /** One input the scanner reacts to, with whether it was scanning (in the
      mode that reads barcodes) at that moment. */
  datatype ScanInput = Frame(frameActive: bool, sample: NativeSample) | Zxing(zxingActive: bool, result: Option<string>)

  /** One input, dispatched to the path that handles it. */
  function Step(g: Gate, input: ScanInput): (r: (Gate, Option<Detection>))
    ensures r.1.Some? ==> r.1.value.code != g.lastCode && r.0.lastCode == r.1.value.code
    ensures r.1.None? ==> r.0.lastCode == g.lastCode
  {
    match input
    case Frame(active, sample) => NativeTick(g, active, sample)
    case Zxing(active, result) => ZxingStep(g, active, result)
  }

  /** A run of inputs in order: the final gate and the emitted detections,
      at most one per input. */
  function Run(g: Gate, inputs: seq<ScanInput>): (r: (Gate, seq<Detection>))
    ensures |r.1| <= |inputs|
    decreases |inputs|
  {
    if |inputs| == 0 then (g, [])
    else
      var (g1, e) := Step(g, inputs[0]);
      var (g2, rest) := Run(g1, inputs[1..]);
      (g2, (if e.Some? then [e.value] else []) + rest)
  }

  // ---------------------------------------------------------------------
  // Properties

  /** Each step keeps the cooldown within [0, 1200] on the 16 ms grid. */
  lemma StepKeepsCooldownValid(g: Gate, input: ScanInput)
    requires CooldownValid(g.cooldown)
    ensures CooldownValid(Step(g, input).0.cooldown)
  {
  }

  lemma {:induction false} RunKeepsCooldownValid(g: Gate, inputs: seq<ScanInput>)
    requires CooldownValid(g.cooldown)
    ensures CooldownValid(Run(g, inputs).0.cooldown)
    decreases |inputs|
  {
    if |inputs| > 0 {
      StepKeepsCooldownValid(g, inputs[0]);
      RunKeepsCooldownValid(Step(g, inputs[0]).0, inputs[1..]);
    }
  }

  /** No two consecutive detections carry the same code. */
  predicate NoAdjacentRepeats(ds: seq<Detection>) {
    forall i :: 0 < i < |ds| ==> ds[i].code != ds[i - 1].code
  }

  /** The last code after a run is the last detection's code, or the
      starting one when nothing fired; the first detection differs from
      the starting last code. */
  lemma {:induction false} RunTracksLastCode(g: Gate, inputs: seq<ScanInput>)
    ensures var (g2, ds) := Run(g, inputs);
      && (|ds| > 0 ==> ds[0].code != g.lastCode && g2.lastCode == ds[|ds| - 1].code)
      && (|ds| == 0 ==> g2.lastCode == g.lastCode)
    decreases |inputs|
  {
    if |inputs| > 0 {
      var s := Step(g, inputs[0]);
      RunTracksLastCode(s.0, inputs[1..]);
      var rest := Run(s.0, inputs[1..]);
      assert Run(g, inputs) == (rest.0, (if s.1.Some? then [s.1.value] else []) + rest.1);
    }
  }

  /** No two consecutive detections of a run carry the same code. */
  lemma {:induction false} RunNeverRepeats(g: Gate, inputs: seq<ScanInput>)
    ensures NoAdjacentRepeats(Run(g, inputs).1)
    decreases |inputs|
  {
    if |inputs| > 0 {
      var s := Step(g, inputs[0]);
      RunNeverRepeats(s.0, inputs[1..]);
      var rest := Run(s.0, inputs[1..]).1;
      assert Run(g, inputs).1 == (if s.1.Some? then [s.1.value] else []) + rest;
      if s.1.Some? {
          RunTracksLastCode(s.0, inputs[1..]);
        var ds := [s.1.value] + rest;
        forall i | 0 < i < |ds|
          ensures ds[i].code != ds[i - 1].code
        {
          assert ds[i] == rest[i - 1];
          if i > 1 {
            assert ds[i - 1] == rest[i - 2];
          }
        }
      }
    }
  }

  /** Active native frames only, each with whatever the detector saw. */
  function ActiveFrames(samples: seq<NativeSample>): (r: seq<ScanInput>)
    ensures |r| == |samples|
    ensures forall i :: 0 <= i < |samples| ==> r[i] == Frame(true, samples[i])
  {
    seq(|samples|, i requires 0 <= i < |samples| => Frame(true, samples[i]))
  }

  /** After an acceptance re-arms the cooldown, the next 74 active frames
      accept nothing, whatever they see, and count the cooldown down. */
  lemma {:induction false} RearmHoldsOff(lastCode: string, samples: seq<NativeSample>, c: int)
    requires 0 < c <= CooldownMs && c % FrameMs == 0
    requires FrameMs * |samples| < c
    ensures Run(Gate(c, lastCode), ActiveFrames(samples)).0 == Gate(c - FrameMs * |samples|, lastCode)
    ensures Run(Gate(c, lastCode), ActiveFrames(samples)).1 == []
    decreases |samples|
  {
    var inputs := ActiveFrames(samples);
    if |samples| > 0 {
      var g1 := Gate(c - FrameMs, lastCode);
      assert Step(Gate(c, lastCode), inputs[0]) == (g1, None);
      assert ActiveFrames(samples[1..]) == inputs[1..];
      RearmHoldsOff(lastCode, samples[1..], c - FrameMs);
      assert c - FrameMs - FrameMs * (|samples| - 1) == c - FrameMs * |samples|;
      var tail := Run(g1, inputs[1..]);
      assert tail == (Gate(c - FrameMs * |samples|, lastCode), []);
      assert Run(Gate(c, lastCode), inputs) == (tail.0, [] + tail.1);
    } else {
      assert FrameMs * |samples| == 0;
    }
  }

  lemma CooldownHoldsFor74Frames(lastCode: string, samples: seq<NativeSample>)
    requires |samples| < 75
    ensures Run(Gate(CooldownMs, lastCode), ActiveFrames(samples)) == (Gate(CooldownMs - FrameMs * |samples|, lastCode), [])
  {
    RearmHoldsOff(lastCode, samples, CooldownMs);
  }

  /** The 75th active frame brings the cooldown to 0, so a new code seen
      there is emitted. */
  lemma SeventyFifthFrameAccepts(lastCode: string, code: string, conf: Option<real>)
    requires code != "" && code != lastCode
    ensures NativeTick(Gate(FrameMs, lastCode), true, Sampled([Barcode(code, conf)])).1.Some?
  {
  }

  /** A thrown `detect` leaves the gate as a frame that saw nothing. */
  lemma DetectFailureIsSilent(g: Gate)
    ensures NativeTick(g, true, DetectThrew) == NativeTick(g, true, Sampled([]))
    ensures NativeTick(g, true, DetectThrew) == NativeTick(g, true, NotSampled)
  {
  }

  /** A code seen again with nothing else emitted in between is never
      re-emitted, however long the gap. */
  lemma SameCodeNeverReemitted(g: Gate, conf: real)
    requires g.lastCode != ""
    ensures Offer(g, g.lastCode, conf).1.None?
  {
  }
}
