/** The libcamera (picamera2) camera driver: discovery of a camera proxy, the
    preview-size and crop arithmetic, and the `LibCamera` object whose state
    the driver updates. The calls the driver makes on its picamera2 handle
    are recorded as `HwCall` values in the order they are made; what the
    hardware does with them is not modelled. */
module LibcameraV3 {
  import opened Wrappers
  import opened Images

  // ---------------------------------------------------------------------
  // Camera discovery: get_libcamera_camera_proxy
  // ---------------------------------------------------------------------

  /** One entry of picamera2's camera list. */
  datatype CameraInfo = CameraInfo(model: string, location: string)

  /** One debug line of the camera listing: ">" when `selected`, "*" otherwise. */
  datatype ListingLine = ListingLine(selected: bool, index: nat, model: string, location: string)

  /** A picamera2 handle opened on camera number `cameraNum`. */
  datatype Proxy = Picamera2(cameraNum: int)

  /** The listing marks the camera at `port`, or camera 0 when no port is given. */
  predicate IsSelected(index: int, port: Option<int>)
  {
    (port.Some? && index == port.value) || (port.None? && index == 0)
  }

  /** `listing` has one line per camera, in order, each carrying its selection mark. */
  ghost predicate Lists(listing: seq<ListingLine>, cameras: seq<CameraInfo>, port: Option<int>)
  {
    |listing| == |cameras| &&
    forall i :: 0 <= i < |cameras| ==>
      listing[i] == ListingLine(IsSelected(i, port), i, cameras[i].model, cameras[i].location)
  }

  /** `installed` says whether picamera2 could be imported; `cameras` is what
      picamera2 reports. Returns the proxy and the debug listing it logs. */
  method GetLibcameraCameraProxy(installed: bool, cameras: seq<CameraInfo>, port: Option<int>)
    returns (proxy: Option<Proxy>, listing: seq<ListingLine>)
    ensures proxy.None? <==> !installed || |cameras| == 0
    ensures proxy.None? ==> listing == []
    ensures proxy.Some? ==> proxy.value.cameraNum == (if port.Some? then port.value else 0)
    ensures proxy.Some? ==> Lists(listing, cameras, port)
    ensures proxy.Some? ==>
      forall i :: 0 <= i < |listing| ==> (listing[i].selected <==> i == proxy.value.cameraNum)
  {
    if !installed {
      return None, [];
    }
    if |cameras| == 0 {
      return None, [];
    }
    listing := [];
    var index := 0;
    while index < |cameras|
      invariant 0 <= index <= |cameras|
      invariant Lists(listing, cameras[..index], port)
    {
      var selected := IsSelected(index, port);
      listing := listing + [ListingLine(selected, index, cameras[index].model, cameras[index].location)];
      index := index + 1;
    }
    assert cameras[..index] == cameras;
    if port.Some? {
      proxy := Some(Picamera2(port.value));
    } else {
      proxy := Some(Picamera2(0));
    }
  }

  /** The number of lines marked as selected. */
  function CountSelected(listing: seq<ListingLine>): nat
  {
    if listing == [] then 0
    else CountSelected(listing[..|listing| - 1]) + (if listing[|listing| - 1].selected then 1 else 0)
  }

  /** Exactly one camera is marked when the selected index exists, none otherwise. */
  lemma {:induction false} ListingMarksThePort(listing: seq<ListingLine>, cameras: seq<CameraInfo>, port: Option<int>)
    requires Lists(listing, cameras, port)
    ensures CountSelected(listing) ==
      if (port.None? && |cameras| > 0) || (port.Some? && 0 <= port.value < |cameras|) then 1 else 0
  {
    if listing != [] {
      var n := |listing| - 1;
      assert Lists(listing[..n], cameras[..n], port);
      ListingMarksThePort(listing[..n], cameras[..n], port);
    }
  }

  // ---------------------------------------------------------------------
  // Preview size and capture post-processing
  // ---------------------------------------------------------------------

  /** Height of the preview stream. */
  const PreviewHeight: nat := 300

  /** round(h * 1.777) in integer arithmetic (halves round up). */
  function RoundedWidth(h: nat): (w: nat)
    ensures 1000 * w - 500 <= 1777 * h < 1000 * w + 500
  {
    (h * 1777 + 500) / 1000
  }

  /** The rounded width, bumped to the next even number when it is odd. */
  function EvenWidth(h: nat): (w: nat)
    ensures w % 2 == 0
    ensures RoundedWidth(h) <= w <= RoundedWidth(h) + 1
  {
    NextEven(RoundedWidth(h))
  }

  /** The smallest even number not below n. */
  function NextEven(n: nat): (w: nat)
    ensures w % 2 == 0 && n <= w <= n + 1
  {
    if n % 2 > 0 then n + 1 else n
  }

  /** The main-stream size the driver requests for the preview. */
  function PreviewMainSize(): (s: Size)
    ensures s == Size(534, 300)
    ensures s.width % 2 == 0 && s.height == PreviewHeight
  {
    Size(EvenWidth(PreviewHeight), PreviewHeight)
  }

  const CropLeft: int := 800
  const CropTop: int := 400

  /** The fixed crop box: 800 pixels off each side, 400 off top and bottom. */
  function CropBox(s: Size): (b: Box)
    ensures b.left == CropLeft && b.upper == CropTop
    ensures b.left + b.right == s.width && b.upper + b.lower == s.height
    ensures b.right - b.left == s.width - 1600 && b.lower - b.upper == s.height - 800
  {
    Box(CropLeft, CropTop, s.width - CropLeft, s.height - CropTop)
  }

  /** One entry of the capture buffer: the grabbed image and its effect. */
  datatype CaptureRecord = CaptureRecord(image: Image, effect: Option<string>)

  datatype ProcessError =
    | UnknownFilter(effect: Option<string>)   // getattr(ImageFilter, effect.upper()) fails
    | InvertedCropBox(box: Box)               // the image library refuses right < left or lower < upper

  /** The effect names the post-processing accepts: 'none', or a predefined filter. */
  predicate EffectResolves(effect: Option<string>)
  {
    effect == Some("none") || (effect.Some? && Upper(effect.value) in FilterNames)
  }

  /** _process_capture: apply the effect filter, then crop the fixed border. */
  function ProcessCapture(record: CaptureRecord): (r: Result<Image, ProcessError>)
    ensures !EffectResolves(record.effect) <==> r == Failure(UnknownFilter(record.effect))
    ensures r.Success? <==>
      EffectResolves(record.effect) && SizeOf(record.image).width >= 1600 && SizeOf(record.image).height >= 800
    ensures r.Success? ==>
      SizeOf(r.value) == Size(SizeOf(record.image).width - 1600, SizeOf(record.image).height - 800)
    ensures r.Success? ==> r.value.Cropped? && r.value.box == CropBox(SizeOf(record.image))
    ensures r.Success? ==>
      r.value.source == if record.effect == Some("none") then record.image
                        else Filtered(record.image, Upper(record.effect.value))
  {
    var image, effect := record.image, record.effect;
    if effect != Some("none") && (effect.None? || Upper(effect.value) !in FilterNames) then
      Failure(UnknownFilter(effect))
    else
      var filtered := if effect != Some("none") then Filtered(image, Upper(effect.value)) else image;
      var box := CropBox(SizeOf(filtered));
      if box.right < box.left || box.lower < box.upper then Failure(InvertedCropBox(box))
      else Success(Cropped(filtered, box))
  }

  // ---------------------------------------------------------------------
  // The camera object
  // ---------------------------------------------------------------------

  datatype Mode = PreviewMode | StillMode
  datatype Transform = Transform(hflip: bool, vflip: bool)

  /** The fields of a picamera2 configuration that the driver touches. */
  datatype Configuration = Configuration(
    transform: Transform, bufferCount: int, queue: bool, format: string, mainSize: Size)

  /** A call made on the picamera2 handle. */
  datatype HwCall =
    | CreatePreviewConfiguration
    | CreateStillConfiguration
    | Stop
    | Start
    | Align(requested: Configuration)    // align_configuration on the preview configuration
    | Configure(mode: Mode)              // configure(<preview or capture configuration>)
    | SwitchMode(mode: Mode)             // switch_mode(<preview or capture configuration>)
    | CaptureMain                        // capture_image('main')
    | ClearOverlay                       // set_overlay(None)

  /** The window rectangle a preview is fitted into. */
  datatype Rect = Rect(x: int, y: int, width: int, height: int)

  /** An operation of the camera contract invoked on a camera. */
  datatype Request =
    | PreviewRequest(rect: Rect, flip: bool, active: Option<Mode>)  // with the configuration active then
    | CaptureRequest(effect: Option<string>)
    | SetOverlayRequest(content: OverlayContent)
    | StopPreviewRequest
    | DropCapturesRequest

  /** The configuration most recently configured or switched to. */
  function ActiveMode(calls: seq<HwCall>): Option<Mode>
  {
    if calls == [] then None
    else match calls[|calls| - 1]
      case Configure(m) => Some(m)
      case SwitchMode(m) => Some(m)
      case _ => ActiveMode(calls[..|calls| - 1])
  }

  class LibCamera {
    var previewConfig: Configuration
    const captureConfig: Configuration
    /** The handle's option dictionary (quality, compress_level, ...). */
    var options: map<string, int>
    /** The calls made on the picamera2 handle, oldest first. */
    var hw: seq<HwCall>
    /** The capture buffer. */
    var captures: seq<CaptureRecord>
    var overlay: Option<Image>
    var overlayText: Option<OverlayContent>
    var overlayAlpha: int
    /** The camera-contract operations invoked on this camera, oldest first. */
    ghost var requests: seq<Request>

    /** __init__: the two configurations are what picamera2 creates by default. */
    constructor (previewDefaults: Configuration, stillDefaults: Configuration,
                 handleOptions: map<string, int>, alpha: int)
      ensures previewConfig == previewDefaults && captureConfig == stillDefaults
      ensures options == handleOptions && captures == []
      ensures hw == [CreatePreviewConfiguration, CreateStillConfiguration]
      ensures overlay == None && overlayText == None && overlayAlpha == alpha && requests == []
    {
      previewConfig := previewDefaults;
      captureConfig := stillDefaults;
      options := handleOptions;
      hw := [CreatePreviewConfiguration, CreateStillConfiguration];
      captures := [];
      overlay := None;
      overlayText := None;
      overlayAlpha := alpha;
      requests := [];
    }

    /** Which configuration the hardware runs with. */
    function Active(): Option<Mode>
      reads this
    {
      ActiveMode(hw)
    }

    /** _specific_initialization. `aligned` is the main size that picamera2's
        align_configuration settles on for the requested one. */
    method SpecificInitialization(aligned: Size)
      modifies this
      ensures previewConfig == old(previewConfig).(transform := Transform(true, false), bufferCount := 3,
                                                   queue := true, format := "RGB888", mainSize := aligned)
      ensures options == old(options)["quality" := 95]["compress_level" := 0]
      ensures hw == old(hw) + [Stop,
                               Align(old(previewConfig).(transform := Transform(true, false), bufferCount := 3,
                                                         queue := true, format := "RGB888",
                                                         mainSize := PreviewMainSize())),
                               Configure(PreviewMode), Configure(StillMode), Start]
      ensures Active() == Some(StillMode)
      ensures captures == old(captures) && overlay == old(overlay) && overlayText == old(overlayText)
      ensures overlayAlpha == old(overlayAlpha) && requests == old(requests)
    {
      hw := hw + [Stop];
      previewConfig := previewConfig.(transform := Transform(true, false));
      previewConfig := previewConfig.(bufferCount := 3);
      previewConfig := previewConfig.(queue := true);
      previewConfig := previewConfig.(format := "RGB888");
      previewConfig := previewConfig.(mainSize := PreviewMainSize());
      hw := hw + [Align(previewConfig)];
      previewConfig := previewConfig.(mainSize := aligned);
      options := options["quality" := 95];
      options := options["compress_level" := 0];
      hw := hw + [Configure(PreviewMode)];
      hw := hw + [Configure(StillMode)];
      hw := hw + [Start];
      assert ActiveMode(hw) == ActiveMode(hw[..|hw| - 1]);
    }

    /** _show_overlay: a new overlay, built at the preview main size, replaces the old one. */
    method ShowOverlay()
      modifies this
      ensures overlay == Some(Rendered(previewConfig.mainSize, overlayText, overlayAlpha))
      ensures SizeOf(overlay.value) == previewConfig.mainSize
      ensures previewConfig == old(previewConfig) && options == old(options) && hw == old(hw)
      ensures captures == old(captures) && overlayText == old(overlayText)
      ensures overlayAlpha == old(overlayAlpha) && requests == old(requests)
    {
      overlay := Some(Rendered(previewConfig.mainSize, overlayText, overlayAlpha));
    }

    /** _hide_overlay: clears an existing overlay; does nothing when there is none. */
    method HideOverlay()
      modifies this
      ensures overlay == None
      ensures old(overlay).Some? ==> overlayText == None && hw == old(hw) + [ClearOverlay]
      ensures old(overlay).None? ==> overlayText == old(overlayText) && hw == old(hw)
      ensures previewConfig == old(previewConfig) && options == old(options) && captures == old(captures)
      ensures overlayAlpha == old(overlayAlpha) && requests == old(requests)
    {
      if overlay.Some? {
        hw := hw + [ClearOverlay];
        overlay := None;
        overlayText := None;
      }
    }

    /** get_preview_image: `frame` is what the sensor delivers for the main stream. */
    method GetPreviewImage(frame: Image) returns (image: Image)
      modifies this
      ensures overlay.None? ==> image == frame
      ensures overlay.Some? ==> image == Pasted(frame, overlay.value, Point(0, 0), overlay.value)
      ensures SizeOf(image) == SizeOf(frame)
      ensures hw == old(hw) + [CaptureMain]
      ensures previewConfig == old(previewConfig) && options == old(options) && captures == old(captures)
      ensures overlay == old(overlay) && overlayText == old(overlayText)
      ensures overlayAlpha == old(overlayAlpha) && requests == old(requests)
    {
      hw := hw + [CaptureMain];
      image := frame;
      if overlay.Some? {
        image := Pasted(image, overlay.value, Point(0, 0), overlay.value);
      }
    }

    /** preview: switches to the preview configuration, then hands over to the
        camera base class. */
    method Preview(rect: Rect, flip: bool)
      modifies this
      ensures hw == old(hw) + [SwitchMode(PreviewMode)]
      ensures Active() == Some(PreviewMode)
      ensures requests == old(requests) + [PreviewRequest(rect, flip, Some(PreviewMode))]
      ensures previewConfig == old(previewConfig) && options == old(options) && captures == old(captures)
      ensures overlay == old(overlay) && overlayText == old(overlayText) && overlayAlpha == old(overlayAlpha)
    {
      hw := hw + [SwitchMode(PreviewMode)];
      BasePreview(rect, flip);
    }

    /** The base class's preview, which is not part of this model: only its
        call is recorded, with the configuration active when it runs. It may
        run only once the preview configuration is active. */
    ghost method BasePreview(rect: Rect, flip: bool)
      requires Active() == Some(PreviewMode)
      modifies this`requests
      ensures requests == old(requests) + [PreviewRequest(rect, flip, Active())]
    {
      requests := requests + [PreviewRequest(rect, flip, Active())];
    }

    /** get_capture_image: switches to the capture configuration, grabs `frame`
        and appends it with its effect to the capture buffer. */
    method GetCaptureImage(effect: Option<string>, frame: Image) returns (image: Image)
      modifies this
      ensures image == frame
      ensures captures == old(captures) + [CaptureRecord(frame, effect)]
      ensures hw == old(hw) + [SwitchMode(StillMode), CaptureMain]
      ensures Active() == Some(StillMode)
      ensures previewConfig == old(previewConfig) && options == old(options)
      ensures overlay == old(overlay) && overlayText == old(overlayText)
      ensures overlayAlpha == old(overlayAlpha) && requests == old(requests)
    {
      hw := hw + [SwitchMode(StillMode)];
      image := frame;
      hw := hw + [CaptureMain];
      captures := captures + [CaptureRecord(image, effect)];
      assert ActiveMode(hw) == ActiveMode(hw[..|hw| - 1]);
    }

    // The camera-contract operations below come from the base class, which is
    // not part of this model; their effects are assumed as stated.

    /** capture: assumed to take one still through get_capture_image. */
    method Capture(effect: Option<string>, frame: Image)
      modifies this
      ensures captures == old(captures) + [CaptureRecord(frame, effect)]
      ensures hw == old(hw) + [SwitchMode(StillMode), CaptureMain]
      ensures Active() == Some(StillMode)
      ensures requests == old(requests) + [CaptureRequest(effect)]
      ensures previewConfig == old(previewConfig) && options == old(options)
      ensures overlay == old(overlay) && overlayText == old(overlayText) && overlayAlpha == old(overlayAlpha)
    {
      requests := requests + [CaptureRequest(effect)];
      var _ := GetCaptureImage(effect, frame);
    }

    /** drop_captures: assumed to empty the capture buffer. */
    method DropCaptures()
      modifies this
      ensures captures == []
      ensures requests == old(requests) + [DropCapturesRequest]
      ensures previewConfig == old(previewConfig) && options == old(options) && hw == old(hw)
      ensures overlay == old(overlay) && overlayText == old(overlayText) && overlayAlpha == old(overlayAlpha)
    {
      requests := requests + [DropCapturesRequest];
      captures := [];
    }

    /** set_overlay: assumed to store the text and call _show_overlay. */
    method SetOverlay(content: OverlayContent)
      modifies this
      ensures overlayText == Some(content)
      ensures overlay == Some(Rendered(previewConfig.mainSize, Some(content), overlayAlpha))
      ensures requests == old(requests) + [SetOverlayRequest(content)]
      ensures previewConfig == old(previewConfig) && options == old(options) && hw == old(hw)
      ensures captures == old(captures) && overlayAlpha == old(overlayAlpha)
    {
      requests := requests + [SetOverlayRequest(content)];
      overlayText := Some(content);
      ShowOverlay();
    }

    /** stop_preview: assumed to leave the configurations, the options and the
        capture buffer alone; whether it hides the overlay (and so calls the
        hardware) is not known here. */
    method StopPreview()
      modifies this
      ensures requests == old(requests) + [StopPreviewRequest]
      ensures previewConfig == old(previewConfig) && options == old(options)
      ensures captures == old(captures) && overlayAlpha == old(overlayAlpha)
    {
      requests := requests + [StopPreviewRequest];
    }
  }
}
