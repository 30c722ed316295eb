/** Sessions driven through the handlers (or the camera directly) in an order
    the workflow allows, each checking one promised behaviour from the
    contracts alone. */
module Scenarios {
  import opened Wrappers
  import opened Images
  import opened Timing
  import opened LibcameraV3
  import opened CameraPluginModel

  /** Choices (1, 4): the right key selects 4 shots; entering WAIT again
      leaves the count undecided because there are two choices. */
  method ChooseRightThenWait(preview: Configuration, still: Configuration)
    returns (chosen: Option<int>, afterWait: Option<int>)
    ensures chosen == Some(4) && afterWait == None
  {
    var cam := new LibCamera(preview, still, map[], 255);
    var app := new App([1, 4], cam);
    var plugin := new CameraPlugin();
    var _ := plugin.WaitEnter(app);
    var _ := plugin.ChooseDo(app, Some(RightKey));
    chosen := app.captureNbr;
    var _ := plugin.WaitEnter(app);
    afterWait := app.captureNbr;
  }

  /** One effect for all shots and three shots: the three captures of the
      session all carry that effect and the buffer grows from 0 to 3. */
  method ThreeShotsOneEffect(preview: Configuration, still: Configuration, f1: Image, f2: Image, f3: Image)
    returns (buffer: seq<CaptureRecord>)
    ensures buffer == [CaptureRecord(f1, Some("sepia")), CaptureRecord(f2, Some("sepia")),
                       CaptureRecord(f3, Some("sepia"))]
  {
    var cam := new LibCamera(preview, still, map[], 255);
    var app := new App([3], cam);
    var plugin := new CameraPlugin();
    var _ := plugin.WaitEnter(app);
    plugin.WaitExit();
    assert cam.captures == [];
    var _ := plugin.CaptureEnter(app, AllShots("sepia"), f1);
    plugin.CaptureExit(app);
    var _ := plugin.CaptureEnter(app, AllShots("sepia"), f2);
    plugin.CaptureExit(app);
    var _ := plugin.CaptureEnter(app, AllShots("sepia"), f3);
    plugin.CaptureExit(app);
    buffer := cam.captures;
  }

  /** Per-shot effects: successive captures of a session take the list in order,
      and a WAIT exit restarts the list for the next session. */
  method PerShotEffectsAdvance(preview: Configuration, still: Configuration, f1: Image, f2: Image, f3: Image)
    returns (buffer: seq<CaptureRecord>)
    ensures buffer == [CaptureRecord(f1, Some("blur")), CaptureRecord(f2, Some("emboss")),
                       CaptureRecord(f3, Some("blur"))]
  {
    var cam := new LibCamera(preview, still, map[], 255);
    var app := new App([2], cam);
    var plugin := new CameraPlugin();
    var effects := PerShot(["blur", "emboss"]);
    var _ := plugin.WaitEnter(app);
    plugin.WaitExit();
    var _ := plugin.CaptureEnter(app, effects, f1);
    var _ := plugin.CaptureEnter(app, effects, f2);
    var _ := plugin.WaitEnter(app);
    plugin.WaitExit();
    var _ := plugin.CaptureEnter(app, effects, f3);
    buffer := cam.captures;
  }

  /** A per-shot list shorter than the shot count fails before any capture. */
  method ShortEffectListTakesNothing(preview: Configuration, still: Configuration, frame: Image)
    returns (outcome: Outcome<HookError>, buffer: seq<CaptureRecord>, shotIndex: nat)
    ensures outcome == Fail(NotEnoughEffects(4, 1)) && buffer == [] && shotIndex == 0
  {
    var cam := new LibCamera(preview, still, map[], 255);
    var app := new App([1, 4], cam);
    var plugin := new CameraPlugin();
    var _ := plugin.WaitEnter(app);
    plugin.WaitExit();
    var _ := plugin.ChooseDo(app, Some(RightKey));
    outcome := plugin.CaptureEnter(app, PerShot(["sepia"]), frame);
    buffer := cam.captures;
    shotIndex := plugin.count;
  }

  /** Entering FAILSAFE after two captures empties the buffer and the session. */
  method FailsafeDrainsBuffer(preview: Configuration, still: Configuration, f1: Image, f2: Image)
    returns (before: nat, after: nat, shots: Option<int>)
    ensures before == 2 && after == 0 && shots == None
  {
    var cam := new LibCamera(preview, still, map[], 255);
    var app := new App([2], cam);
    var plugin := new CameraPlugin();
    var _ := plugin.WaitEnter(app);
    plugin.WaitExit();
    var _ := plugin.CaptureEnter(app, AllShots("none"), f1);
    var _ := plugin.CaptureEnter(app, AllShots("none"), f2);
    before := |cam.captures|;
    plugin.FailsafeEnter(app);
    after := |cam.captures|;
    shots := app.captureNbr;
  }

  /** A countdown of 3 seconds: the numeral 3 at the start, 2 after 1.2 s,
      the smile prompt in the last half second, and the capture once the
      time is up. */
  method CountdownThenSmile(preview: Configuration, still: Configuration, rect: Rect)
    returns (first: Option<OverlayContent>, second: Option<OverlayContent>,
             last: Option<OverlayContent>, early: Option<string>, late: Option<string>)
    ensures first == Some(Countdown(3)) && second == Some(Countdown(2)) && last == Some(SmilePrompt)
    ensures early == None && late == Some("capture")
  {
    var cam := new LibCamera(preview, still, map[], 255);
    var app := new App([1], cam);
    var plugin := new CameraPlugin();
    plugin.PreviewEnter(app, "2024-01-01-00-00-00", rect, 3);
    plugin.PreviewDo(app, true);
    first := cam.overlayText;
    plugin.timer.Elapse(1200);
    plugin.PreviewDo(app, true);
    second := cam.overlayText;
    early := plugin.PreviewValidate();
    plugin.timer.Elapse(1400);
    plugin.PreviewDo(app, true);
    last := cam.overlayText;
    plugin.timer.Elapse(400);
    late := plugin.PreviewValidate();
  }

  /** An overlay that was set and then hidden leaves later preview frames untouched,
      and hiding a second time changes nothing. */
  method HiddenOverlayLeavesFrame(preview: Configuration, still: Configuration, frame: Image)
    returns (image: Image, calls: seq<HwCall>)
    ensures image == frame && calls == [ClearOverlay]
  {
    var cam := new LibCamera(preview, still, map[], 255);
    var before := |cam.hw|;
    cam.SetOverlay(SmilePrompt);
    cam.HideOverlay();
    cam.HideOverlay();
    calls := cam.hw[before..];
    image := cam.GetPreviewImage(frame);
  }
}
