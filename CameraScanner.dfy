/** The cooldown and last-code refs of the camera scanner component. It
    runs the same accept block as the vision scanner, with no mode toggle:
    hits are read whenever the `scanning` prop is set. */
module CameraScanner {
  import opened Wrappers
  import opened ScanGate

  class Scanner {
    var cooldown: int
    var lastCode: string
    /** A media stream, ZXing reader or animation frame is held. */
    var cameraHeld: bool

    ghost predicate Valid()
      reads this
    {
      CooldownValid(cooldown)
    }

    function GateState(): Gate
      reads this
    {
      Gate(cooldown, lastCode)
    }

    constructor()
      ensures Valid() && GateState() == Initial && !cameraHeld
    {
      cooldown := 0;
      lastCode := "";
      cameraHeld := false;
    }

    /** `tick`: one animation frame with what the native detector saw. */
    method Tick(scanning: bool, sample: NativeSample) returns (event: Option<Detection>)
      modifies this
      ensures (GateState(), event) == NativeTick(old(GateState()), scanning, sample)
      ensures cameraHeld == old(cameraHeld)
      ensures old(Valid()) ==> Valid()
    {
      event := None;
      if !scanning {
        return;
      }
      if cooldown > 0 {
        cooldown := cooldown - FrameMs;
      }
      match sample {
        case Sampled(barcodes) =>
          if |barcodes| > 0 {
            var best := barcodes[0];
            var code := best.rawValue;
            var conf := if best.confidence.Some? then best.confidence.value else NativeDefaultConfidence;
            if code != "" && cooldown <= 0 {
              cooldown := CooldownMs;
              if code != lastCode {
                lastCode := code;
                event := Some(Detection(code, conf));
              }
            }
          }
        case NotSampled =>
        case DetectThrew =>
      }
    }

    /** The ZXing result callback registered in `startCamera`. */
    method OnZxing(scanning: bool, result: Option<string>) returns (event: Option<Detection>)
      modifies this
      ensures (GateState(), event) == ZxingStep(old(GateState()), scanning, result)
      ensures cameraHeld == old(cameraHeld)
      ensures old(Valid()) ==> Valid()
    {
      event := None;
      if !scanning {
        return;
      }
      if result.Some? {
        var text := result.value;
        if text != "" && cooldown <= 0 {
          cooldown := CooldownMs;
          if text != lastCode {
            lastCode := text;
            event := Some(Detection(text, ZxingConfidence));
          }
        }
      }
    }

    /** `startCamera` once the stream is open. */
    method StartCamera()
      modifies this
      ensures cameraHeld && GateState() == old(GateState())
    {
      cameraHeld := true;
    }

    /** `stopCamera` releases the camera but keeps the cooldown and the
        last code. */
    method StopCamera()
      modifies this
      ensures !cameraHeld && GateState() == old(GateState())
    {
      cameraHeld := false;
    }
  }
}
