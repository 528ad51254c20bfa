/** The state of the vision scanner component that outlives a frame: the
    cooldown and last-code refs, the barcode/vision mode toggle, and
    whether camera resources are held. `scanning` is a prop and arrives
    with each call. */
module VisionScanner {
  import opened Wrappers
  import opened ScanGate

  datatype Mode = BarcodeMode | VisionMode

  class Scanner {
    var cooldown: int
    var lastCode: string
    var visionMode: Mode
    /** A media stream, ZXing reader or animation frame is held. */
    var cameraHeld: bool

    ghost predicate Valid()
      reads this
    {
      CooldownValid(cooldown)
    }

    function GateState(): Gate
      reads this
    {
      Gate(cooldown, lastCode)
    }

    constructor()
      ensures Valid() && GateState() == Initial
      ensures visionMode == BarcodeMode && !cameraHeld
    {
      cooldown := 0;
      lastCode := "";
      visionMode := BarcodeMode;
      cameraHeld := false;
    }

    /** Barcodes are read only while scanning in barcode mode. */
    predicate ReadsBarcodes(scanning: bool)
      reads this
    {
      scanning && visionMode == BarcodeMode
    }

    /** `tick`: one animation frame with what the native detector saw. */
    method Tick(scanning: bool, sample: NativeSample) returns (event: Option<Detection>)
      modifies this
      ensures (GateState(), event) == NativeTick(old(GateState()), old(ReadsBarcodes(scanning)), sample)
      ensures old(visionMode) == VisionMode ==> event.None? && GateState() == old(GateState())
      ensures visionMode == old(visionMode) && cameraHeld == old(cameraHeld)
      ensures old(Valid()) ==> Valid()
    {
      event := None;
      if !scanning || visionMode != BarcodeMode {
        return;
      }
      if cooldown > 0 {
        cooldown := cooldown - FrameMs;
      }
      match sample {
        case Sampled(barcodes) =>
          if |barcodes| > 0 {
            var best := barcodes[0];
            var code := best.rawValue;
            var conf := if best.confidence.Some? then best.confidence.value else NativeDefaultConfidence;
            if code != "" && cooldown <= 0 {
              cooldown := CooldownMs;
              if code != lastCode {
                lastCode := code;
                event := Some(Detection(code, conf));
              }
            }
          }
        case NotSampled =>
        case DetectThrew =>
      }
    }

    /** The ZXing result callback registered in `startCamera`. */
    method OnZxing(scanning: bool, result: Option<string>) returns (event: Option<Detection>)
      modifies this
      ensures (GateState(), event) == ZxingStep(old(GateState()), old(ReadsBarcodes(scanning)), result)
      ensures old(visionMode) == VisionMode ==> event.None? && GateState() == old(GateState())
      ensures visionMode == old(visionMode) && cameraHeld == old(cameraHeld)
      ensures old(Valid()) ==> Valid()
    {
      event := None;
      if !scanning || visionMode != BarcodeMode {
        return;
      }
      if result.Some? {
        var text := result.value;
        if text != "" && cooldown <= 0 {
          cooldown := CooldownMs;
          if text != lastCode {
            lastCode := text;
            event := Some(Detection(text, ZxingConfidence));
          }
        }
      }
    }

    /** `setVisionMode`. */
    method SetMode(mode: Mode)
      modifies this
      ensures visionMode == mode
      ensures GateState() == old(GateState()) && cameraHeld == old(cameraHeld)
    {
      visionMode := mode;
    }

    /** `startCamera` once the stream is open. */
    method StartCamera()
      modifies this
      ensures cameraHeld
      ensures GateState() == old(GateState()) && visionMode == old(visionMode)
    {
      cameraHeld := true;
    }

    /** `stopCamera` releases the camera but keeps the cooldown and the
        last code. */
    method StopCamera()
      modifies this
      ensures !cameraHeld
      ensures GateState() == old(GateState()) && visionMode == old(visionMode)
    {
      cameraHeld := false;
    }
  }
}
