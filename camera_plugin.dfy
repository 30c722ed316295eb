/** The capture workflow: the camera plugin's state handlers for the
    FAILSAFE, WAIT, CHOOSE, PREVIEW and CAPTURE states. Each handler updates
    the session fields of the application and of the plugin, and calls the
    camera. Configuration values, the wall-clock date and the user's key
    press are parameters of the handlers. */
module CameraPluginModel {
  import opened Wrappers
  import opened Images
  import opened Timing
  import opened LibcameraV3

  /** The key of the choice event the application found, if any. */
  datatype Key = LeftKey | RightKey | OtherKey(code: int)

  /** The configured capture effects: one for every shot, or one per shot. */
  datatype EffectsConfig = AllShots(effect: string) | PerShot(effects: seq<string>)

  /** What a handler can raise. */
  datatype HookError =
    | IndexError                                 // a choice or an effect index out of range
    | UndecidedCount                             // len(effects) compared with an unset shot count
    | NotEnoughEffects(count: int, effects: nat) // fewer per-shot effects than shots

  /** The remaining time, in milliseconds, above which the countdown numeral is shown. */
  const SmileThresholdMs: nat := 500

  /** math.ceil of a time given in milliseconds, in whole seconds. */
  function CeilSeconds(ms: nat): (s: nat)
    ensures ms <= s * 1000 < ms + 1000
  {
    (ms + 999) / 1000
  }

  /** The overlay the PREVIEW step sets, if any, for the time left on the timer. */
  function PreviewOverlay(countdown: bool, remainingMs: nat): (r: Option<OverlayContent>)
    ensures r == Some(SmilePrompt) <==> remainingMs <= SmileThresholdMs
    ensures r.Some? && r.value.Countdown? <==> countdown && remainingMs > SmileThresholdMs
    ensures r.None? <==> !countdown && remainingMs > SmileThresholdMs
    ensures r.Some? && r.value.Countdown? ==>
      r.value.seconds >= 1 && (r.value.seconds - 1) * 1000 < remainingMs <= r.value.seconds * 1000
  {
    if remainingMs <= SmileThresholdMs then Some(SmilePrompt)
    else if countdown then Some(Countdown(CeilSeconds(remainingMs)))
    else None
  }

  /** The effect for the shot at index `count` of a session of `shots` shots. */
  function ResolveEffect(effects: EffectsConfig, shots: Option<int>, count: nat): (r: Result<string, HookError>)
    ensures effects.AllShots? ==> r == Success(effects.effect)
    ensures effects.PerShot? && r.Success? ==> count < |effects.effects| && r.value == effects.effects[count]
    ensures effects.PerShot? ==>
      (r.Success? <==> shots.Some? && shots.value <= |effects.effects| && count < |effects.effects|)
    ensures effects.PerShot? && shots.Some? && |effects.effects| < shots.value ==>
      r == Failure(NotEnoughEffects(shots.value, |effects.effects|))
  {
    match effects
    case AllShots(e) => Success(e)
    case PerShot(list) =>
      if shots.None? then Failure(UndecidedCount)
      else if |list| >= shots.value then
        if count < |list| then Success(list[count]) else Failure(IndexError)
      else Failure(NotEnoughEffects(shots.value, |list|))
  }

  /** The effects that the first `n` captures of a session resolve to, the
      counter starting from zero; the first failure stops the session. */
  function SessionEffects(effects: EffectsConfig, shots: Option<int>, n: nat): Result<seq<string>, HookError>
  {
    if n == 0 then Success([])
    else match SessionEffects(effects, shots, n - 1)
      case Failure(e) => Failure(e)
      case Success(done) =>
        match ResolveEffect(effects, shots, n - 1)
        case Failure(e) => Failure(e)
        case Success(effect) => Success(done + [effect])
  }

  /** With a per-shot list long enough for the session, successive captures
      take the list's entries in order. */
  lemma {:induction false} PerShotEffectsInOrder(list: seq<string>, shots: int, n: nat)
    requires shots <= |list| && n <= |list|
    ensures SessionEffects(PerShot(list), Some(shots), n) == Success(list[..n])
  {
    if n > 0 {
      PerShotEffectsInOrder(list, shots, n - 1);
      assert list[..n - 1] + [list[n - 1]] == list[..n];
    }
  }

  /** A single configured effect is used for every capture of a session. */
  lemma {:induction false} SingleEffectRepeats(effect: string, shots: Option<int>, n: nat)
    ensures SessionEffects(AllShots(effect), shots, n).Success?
    ensures |SessionEffects(AllShots(effect), shots, n).value| == n
    ensures forall i :: 0 <= i < n ==> SessionEffects(AllShots(effect), shots, n).value[i] == effect
  {
    if n > 0 {
      SingleEffectRepeats(effect, shots, n - 1);
    }
  }

  /** A per-shot list shorter than the shot count fails on the very first capture. */
  lemma {:induction false} ShortEffectListFailsFirst(list: seq<string>, shots: int, n: nat)
    requires |list| < shots && n > 0
    ensures SessionEffects(PerShot(list), Some(shots), n) == Failure(NotEnoughEffects(shots, |list|))
  {
    if n > 1 {
      ShortEffectListFailsFirst(list, shots, n - 1);
    }
  }

  /** The application's session fields. */
  class App {
    var captureDate: Option<string>
    var captureNbr: Option<int>
    const captureChoices: seq<int>
    const camera: LibCamera

    constructor (choices: seq<int>, camera: LibCamera)
      ensures captureDate == None && captureNbr == None
      ensures captureChoices == choices && this.camera == camera
    {
      captureDate := None;
      captureNbr := None;
      captureChoices := choices;
      this.camera := camera;
    }
  }

  class CameraPlugin {
    const timer: PollingTimer
    /** Index of the next capture in the current session. */
    var count: nat

    constructor ()
      ensures count == 0 && fresh(timer) && timer.remainingMs == 0
    {
      timer := new PollingTimer();
      count := 0;
    }

    /** state_failsafe_enter: forget the session and flush the captures. */
    method FailsafeEnter(app: App)
      modifies app, app.camera
      ensures app.captureDate == None && app.captureNbr == None
      ensures app.camera.captures == []
      ensures app.camera.requests == old(app.camera.requests) + [DropCapturesRequest]
      ensures app.camera.hw == old(app.camera.hw) && app.camera.overlay == old(app.camera.overlay)
    {
      app.captureDate := None;
      app.captureNbr := None;
      app.camera.DropCaptures();
    }

    /** state_wait_enter: forget the date; the shot count is decided only when
        there is a single choice. */
    method WaitEnter(app: App) returns (outcome: Outcome<HookError>)
      modifies app
      ensures app.captureDate == None
      ensures |app.captureChoices| > 1 ==> outcome == Pass && app.captureNbr == None
      ensures |app.captureChoices| == 1 ==> outcome == Pass && app.captureNbr == Some(app.captureChoices[0])
      ensures |app.captureChoices| == 0 ==> outcome == Fail(IndexError) && app.captureNbr == old(app.captureNbr)
    {
      app.captureDate := None;
      if |app.captureChoices| > 1 {
        app.captureNbr := None;
      } else if |app.captureChoices| == 1 {
        app.captureNbr := Some(app.captureChoices[0]);
      } else {
        return Fail(IndexError);
      }
      outcome := Pass;
    }

    /** state_wait_exit: a new session starts with the first capture. */
    method WaitExit()
      modifies this
      ensures count == 0
    {
      count := 0;
    }

    /** state_choose_do: the left key picks the first choice, the right key the second. */
    method ChooseDo(app: App, event: Option<Key>) returns (outcome: Outcome<HookError>)
      modifies app
      ensures app.captureDate == old(app.captureDate)
      ensures event == Some(LeftKey) && |app.captureChoices| >= 1 ==>
        outcome == Pass && app.captureNbr == Some(app.captureChoices[0])
      ensures event == Some(RightKey) && |app.captureChoices| >= 2 ==>
        outcome == Pass && app.captureNbr == Some(app.captureChoices[1])
      ensures (event == Some(LeftKey) && |app.captureChoices| < 1) ||
              (event == Some(RightKey) && |app.captureChoices| < 2) ==>
        outcome == Fail(IndexError) && app.captureNbr == old(app.captureNbr)
      ensures event.None? || event.value.OtherKey? ==> outcome == Pass && app.captureNbr == old(app.captureNbr)
    {
      outcome := Pass;
      if event.Some? {
        if event.value == LeftKey {
          if |app.captureChoices| < 1 {
            return Fail(IndexError);
          }
          app.captureNbr := Some(app.captureChoices[0]);
        } else if event.value == RightKey {
          if |app.captureChoices| < 2 {
            return Fail(IndexError);
          }
          app.captureNbr := Some(app.captureChoices[1]);
        }
      }
    }

    /** state_preview_enter: stamp the date unless one is set, start the
        preview in `rect` (the window shrunk by its border), and arm the
        timer for `delaySeconds`. */
    method PreviewEnter(app: App, now: string, rect: Rect, delaySeconds: int)
      modifies app, app.camera, timer
      ensures old(app.captureDate) == None || old(app.captureDate) == Some("") ==> app.captureDate == Some(now)
      ensures old(app.captureDate) != None && old(app.captureDate) != Some("") ==>
        app.captureDate == old(app.captureDate)
      ensures app.captureNbr == old(app.captureNbr)
      ensures app.camera.requests == old(app.camera.requests) + [PreviewRequest(rect, true, Some(PreviewMode))]
      ensures app.camera.hw == old(app.camera.hw) + [SwitchMode(PreviewMode)]
      ensures app.camera.Active() == Some(PreviewMode)
      ensures app.camera.captures == old(app.camera.captures)
      ensures app.camera.previewConfig == old(app.camera.previewConfig)
      ensures app.camera.overlay == old(app.camera.overlay) && app.camera.overlayText == old(app.camera.overlayText)
      ensures timer.remainingMs == if delaySeconds > 0 then delaySeconds * 1000 else 0
    {
      if app.captureDate == None || app.captureDate == Some("") {
        app.captureDate := Some(now);
      }
      app.camera.Preview(rect, true);
      timer.Start(delaySeconds);
    }

    /** state_preview_do: show the countdown, then the smile prompt. */
    method PreviewDo(app: App, countdown: bool)
      modifies app.camera
      ensures PreviewOverlay(countdown, timer.remainingMs).None? ==> unchanged(app.camera)
      ensures PreviewOverlay(countdown, timer.remainingMs).Some? ==>
        var content := PreviewOverlay(countdown, timer.remainingMs).value;
        app.camera.requests == old(app.camera.requests) + [SetOverlayRequest(content)] &&
        app.camera.overlayText == Some(content) &&
        app.camera.overlay == Some(Rendered(app.camera.previewConfig.mainSize, Some(content), app.camera.overlayAlpha))
      ensures app.camera.captures == old(app.camera.captures) && app.camera.hw == old(app.camera.hw)
      ensures app.camera.previewConfig == old(app.camera.previewConfig) && app.camera.options == old(app.camera.options)
      ensures app.camera.overlayAlpha == old(app.camera.overlayAlpha)
    {
      if countdown {
        if timer.Remaining() > SmileThresholdMs {
          app.camera.SetOverlay(Countdown(CeilSeconds(timer.Remaining())));
        }
      }
      if timer.Remaining() <= SmileThresholdMs {
        app.camera.SetOverlay(SmilePrompt);
      }
    }

    /** state_preview_validate: move on to the capture once the timer has run out. */
    method PreviewValidate() returns (next: Option<string>)
      ensures next == Some("capture") <==> timer.IsTimeout()
      ensures next.None? <==> !timer.IsTimeout()
    {
      if timer.IsTimeout() {
        next := Some("capture");
      } else {
        next := None;
      }
    }

    /** state_capture_enter: resolve this shot's effect, then take the capture;
        `frame` is the still the sensor delivers. */
    method CaptureEnter(app: App, effects: EffectsConfig, frame: Image) returns (outcome: Outcome<HookError>)
      modifies this, app.camera
      ensures ResolveEffect(effects, app.captureNbr, old(count)).Failure? ==>
        outcome == Fail(ResolveEffect(effects, app.captureNbr, old(count)).error) &&
        count == old(count) && unchanged(app.camera)
      ensures ResolveEffect(effects, app.captureNbr, old(count)).Success? ==>
        var effect := ResolveEffect(effects, app.captureNbr, old(count)).value;
        outcome == Pass && count == old(count) + 1 &&
        app.camera.captures == old(app.camera.captures) + [CaptureRecord(frame, Some(effect))] &&
        app.camera.requests == old(app.camera.requests) + [CaptureRequest(Some(effect))] &&
        app.camera.hw == old(app.camera.hw) + [SwitchMode(StillMode), CaptureMain] &&
        app.camera.Active() == Some(StillMode) &&
        app.camera.overlay == old(app.camera.overlay) && app.camera.overlayText == old(app.camera.overlayText) &&
        app.camera.overlayAlpha == old(app.camera.overlayAlpha) &&
        app.camera.previewConfig == old(app.camera.previewConfig) && app.camera.options == old(app.camera.options)
    {
      var effect: string;
      match effects {
        case AllShots(e) =>
          effect := e;
        case PerShot(list) =>
          if app.captureNbr.None? {
            return Fail(UndecidedCount);
          } else if |list| >= app.captureNbr.value {
            if count >= |list| {
              return Fail(IndexError);
            }
            effect := list[count];
          } else {
            return Fail(NotEnoughEffects(app.captureNbr.value, |list|));
          }
      }
      app.camera.Capture(Some(effect), frame);
      count := count + 1;
      outcome := Pass;
    }

    /** state_capture_exit: always stop the preview. */
    method CaptureExit(app: App)
      modifies app.camera
      ensures app.camera.requests == old(app.camera.requests) + [StopPreviewRequest]
      ensures app.camera.captures == old(app.camera.captures)
    {
      app.camera.StopPreview();
    }
  }
}
