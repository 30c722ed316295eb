# pibooth camera core in Dafny

This project models two parts of the pibooth photobooth:

- **The camera plugin's state handlers.** These drive one photo session. FAILSAFE resets the session and flushes the capture buffer. WAIT decides the shot count, or leaves it open. CHOOSE maps the left or right key to a shot count. PREVIEW stamps the session date, starts the live preview, arms the countdown timer, then shows a countdown numeral or the "smile" prompt. CAPTURE picks this shot's effect, takes the still and advances the shot counter.
- **The libcamera driver's bookkeeping.** This covers camera discovery and its selection mark, the preview-configuration fields set at initialization, the even-width preview size, the overlay fields, the append-only capture buffer, and the post-processing of a capture (effect filter, then a fixed border crop).

Each source file has its own module:

- `camera_plugin.dfy` (`CameraPluginModel`) models the plugin. `App` holds the application's session fields (`captureDate`, `captureNbr`, `captureChoices`, `camera`). `CameraPlugin` holds `timer` and `count`, and each hook is a method with a `modifies` clause. Pure functions state the hooks' decisions: `PreviewOverlay`, `ResolveEffect` and `SessionEffects`. Lemmas about those functions state the session-level promises.
- `libcamera_v3.dfy` (`LibcameraV3`) models the driver. `GetLibcameraCameraProxy` is the discovery routine; its loop builds the debug listing. The pure functions cover the size and crop arithmetic. The class `LibCamera` records, in order in `hw`, the calls the driver makes on its picamera2 handle: the two `create_*_configuration` calls, `stop`, `align_configuration`, `configure`, `start`, `switch_mode`, `capture_image("main")` and `set_overlay(None)`. Opening the handle (`Picamera2(...)`) and `global_camera_info` are the inputs and the result of `GetLibcameraCameraProxy`. Which configuration is active is read from that record (`Active`). The ghost field `requests` records the camera operations the workflow invoked, so "called exactly once" can be stated.
- `polling_timer.dfy` (`Timing`) models the countdown timer. It is an abstract count of milliseconds remaining: `Start`, `Elapse` (the passage of time), `Remaining` and `IsTimeout`.
- `images.dfy` (`Images`) stands in for the image library. An image is an opaque value that records how it was made and carries a size.
- `wrappers.dfy` defines `Option`, `Result` and `Outcome`. `Result` and `Outcome` stand for Python's `None` and its raised exceptions.
- `scenarios.dfy` holds client sessions that drive the handlers, or the camera directly, in an order the workflow allows. Each one checks a promised behaviour using only the handlers' contracts, including the assumed ones of the inherited camera operations.

Foreign inputs are parameters of the handlers:

- the wall-clock date string (`now`);
- the configuration values: preview delay, countdown switch and capture effects;
- the key of the choice event;
- where the code calls the sensor, the frame it delivers;
- the main size that `align_configuration` settles on.

Points where the code's behaviour is easy to misread:

- `_process_capture` applies the effect filter first and crops afterwards (libcamera_v3.py:108-117).
- The preview transform is always `hflip=True` (libcamera_v3.py:62), whatever flip setting is configured.
- CAPTURE entry checks only the length of a per-shot effect list. An unknown effect name is not caught there. It fails later, in `_process_capture` (`ProcessCapture` returns `UnknownFilter`).
- The driver keeps no camera-mode state (uninitialized, previewing, and so on). Only the configuration last configured or switched to is modelled.

## Model

| member | source | states |
|---|---|---|
| CameraPluginModel.CameraPlugin.constructor | pibooth/plugins/camera_plugin.py:17-20 | a new plugin has a fresh timer and shot counter 0 |
| CameraPluginModel.CameraPlugin.FailsafeEnter | pibooth/plugins/camera_plugin.py:42-48 | capture date and shot count become unset, `drop_captures` is requested exactly once, and, assumed of the inherited `drop_captures`, the capture buffer is empty afterwards |
| CameraPluginModel.CameraPlugin.WaitEnter | pibooth/plugins/camera_plugin.py:50-56 | the date is always unset; with more than one choice the count is undecided; with exactly one it is that choice; with none, IndexError is raised after the date was cleared and the count is unchanged |
| CameraPluginModel.CameraPlugin.WaitExit | pibooth/plugins/camera_plugin.py:58-60 | the shot counter is reset to 0 |
| CameraPluginModel.CameraPlugin.ChooseDo | pibooth/plugins/camera_plugin.py:62-69 | LEFT sets the count to choice 0 and RIGHT to choice 1; no event or another key leaves it unchanged; a missing choice raises IndexError and leaves the count unchanged; the date is never touched |
| CameraPluginModel.CameraPlugin.PreviewEnter | pibooth/plugins/camera_plugin.py:71-79 | the date is stamped only when it is unset or empty, otherwise kept; the only hardware call the driver makes is the switch to the preview configuration; one preview request (flip on) is made while that configuration is active; the timer holds the preview delay; the count is unchanged; assumed of the inherited `preview` (which changes only the request log): the configuration stays active, and the overlay, its text, the preview configuration and the buffer are unchanged |
| CameraPluginModel.CeilSeconds | pibooth/plugins/camera_plugin.py:85 | the result is the smallest whole number of seconds that is not less than the remaining time |
| CameraPluginModel.PreviewOverlay | pibooth/plugins/camera_plugin.py:82-87 | the three outcomes: at most 500 ms left gives the smile prompt (countdown on or off); more than 500 ms with countdown on gives the numeral ceil(seconds), at least 1; more than 500 ms with countdown off sets nothing |
| CameraPluginModel.CameraPlugin.PreviewDo | pibooth/plugins/camera_plugin.py:81-87 | exactly the `set_overlay` call chosen by `PreviewOverlay` is made; with no call, the camera is unchanged; assumed of the inherited `set_overlay`: the overlay then shows that content at the unchanged preview size, and the configurations, options, buffer and hardware calls are unchanged |
| CameraPluginModel.CameraPlugin.PreviewValidate | pibooth/plugins/camera_plugin.py:89-92 | returns 'capture' exactly when the timer has run out, and nothing otherwise |
| CameraPluginModel.ResolveEffect | pibooth/plugins/camera_plugin.py:96-106 | a single effect is used for every shot; a list yields the entry at the shot index exactly when the count is decided, is at most the list length and the index is inside the list; a list shorter than the count raises the not-enough-effects error |
| CameraPluginModel.CameraPlugin.CaptureEnter | pibooth/plugins/camera_plugin.py:94-110 | on an effect error, that error is raised, no capture is made and the counter is unchanged; otherwise exactly one capture with the resolved effect is requested and the counter grows by 1; assumed of the inherited `capture`: one record is appended, the hardware calls are the still switch and one grab, leaving the still configuration active, and the overlay, its text, the preview configuration and the options are unchanged |
| CameraPluginModel.PerShotEffectsInOrder | pibooth/plugins/camera_plugin.py:100-110 | with a long enough per-shot list, the first n captures after the counter reset take the first n entries in order |
| CameraPluginModel.SingleEffectRepeats | pibooth/plugins/camera_plugin.py:97-99 | with a single effect, every capture of a session succeeds with that effect |
| CameraPluginModel.ShortEffectListFailsFirst | pibooth/plugins/camera_plugin.py:103-106 | a per-shot list shorter than the shot count fails on the first capture of the session |
| CameraPluginModel.CameraPlugin.CaptureExit | pibooth/plugins/camera_plugin.py:112-114 | `stop_preview` is requested exactly once; assumed: the buffer is unchanged |
| Timing.PollingTimer.constructor | pibooth/plugins/camera_plugin.py:19 | assumed of the timer class, which is not part of this model: a timer that was never started has nothing remaining |
| Timing.PollingTimer.Start | pibooth/plugins/camera_plugin.py:79 | the timer holds the delay in milliseconds; assumed of the timer class: nothing remains for a delay that is not positive |
| Timing.PollingTimer.Elapse | pibooth/plugins/camera_plugin.py:84-86 | assumed of the timer class: time passing lowers the time remaining, never below zero |
| LibcameraV3.GetLibcameraCameraProxy | pibooth/camera/libcamera_v3.py:20-41 | no proxy when picamera2 is missing or finds no camera; otherwise a proxy on `port`, or on camera 0 without a port; the listing has one line per camera in order, and a line is marked exactly when its index is the opened camera number |
| LibcameraV3.ListingMarksThePort | pibooth/camera/libcamera_v3.py:33-35 | exactly one camera is marked when the port is unset or inside the list, and none when the port is outside it |
| LibcameraV3.RoundedWidth | pibooth/camera/libcamera_v3.py:71 | the result is the integer nearest to h·1.777 |
| LibcameraV3.EvenWidth | pibooth/camera/libcamera_v3.py:70-74 | the result is the smallest even number not below round(h·1.777) |
| LibcameraV3.PreviewMainSize | pibooth/camera/libcamera_v3.py:70-75 | the requested preview size is (534, 300), with an even width |
| LibcameraV3.CropBox | pibooth/camera/libcamera_v3.py:111-117 | the box starts at (800, 400) and is centred, trimming as much from the right as from the left and from the bottom as from the top; it is (w−1600)×(h−800) |
| LibcameraV3.ProcessCapture | pibooth/camera/libcamera_v3.py:101-118 | with effect 'none' no filter is applied; any other effect is applied as the upper-cased filter before the crop; an unknown filter fails before anything else; success happens exactly when the filter resolves and the image is at least 1600×800; the output is (w−1600)×(h−800) |
| Images.UpperIdempotent | pibooth/camera/libcamera_v3.py:109 | upper-casing an already upper-cased name changes nothing |
| Images.Upper | pibooth/camera/libcamera_v3.py:109 | the length is kept; no lower-case letter remains; a lower-case letter becomes its capital and every other character is kept |
| LibcameraV3.LibCamera.constructor | pibooth/camera/libcamera_v3.py:49-54 | the preview and capture configurations are picamera2's defaults; the only hardware calls are the two configuration creations; assumed of the base class's initialization: the buffer is empty and there is no overlay |
| LibcameraV3.LibCamera.SpecificInitialization | pibooth/camera/libcamera_v3.py:56-84 | sets transform hflip=True, buffer_count 3, queue True and format 'RGB888'; asks alignment for size (534, 300); sets quality 95 and compress level 0; then configures the preview configuration, then the capture configuration, then starts the camera, leaving the capture configuration active |
| LibcameraV3.LibCamera.ShowOverlay | pibooth/camera/libcamera_v3.py:86-89 | the overlay is replaced wholesale by one built from the current text and alpha at the preview main size |
| LibcameraV3.LibCamera.HideOverlay | pibooth/camera/libcamera_v3.py:93-99 | an existing overlay is cleared on the hardware, and it and its text become unset; with no overlay nothing changes, the text included; either way no overlay remains, so a second call does nothing |
| LibcameraV3.LibCamera.GetPreviewImage | pibooth/camera/libcamera_v3.py:120-126 | one main-stream grab; the frame is returned unmodified without an overlay, or with the overlay pasted at (0, 0) and used as its own mask; the size never changes |
| LibcameraV3.LibCamera.Preview | pibooth/camera/libcamera_v3.py:128-158 | the driver's only hardware call is the switch to the preview configuration, and the base preview request is recorded with that configuration active; assumed of the base preview (see BasePreview): no other field changes |
| LibcameraV3.LibCamera.BasePreview | pibooth/camera/libcamera_v3.py:158 | assumed: the base preview may run only with the preview configuration active, is recorded with the active configuration, and changes nothing but the request log |
| LibcameraV3.LibCamera.GetCaptureImage | pibooth/camera/libcamera_v3.py:161-167 | switches to the capture configuration before grabbing; appends exactly one (image, effect) record at the end, earlier records unchanged; returns the grabbed image |
| LibcameraV3.LibCamera.Capture | pibooth/plugins/camera_plugin.py:109 | assumed: takes one still through `get_capture_image` with the given effect, so one record is appended and the still configuration is left active; assumed: the overlay, its text and alpha are unchanged |
| LibcameraV3.LibCamera.DropCaptures | pibooth/plugins/camera_plugin.py:48 | assumed: empties the capture buffer |
| LibcameraV3.LibCamera.SetOverlay | pibooth/plugins/camera_plugin.py:85-87 | assumed: stores the overlay text, then shows an overlay built from it |
| LibcameraV3.LibCamera.StopPreview | pibooth/plugins/camera_plugin.py:114 | the request is recorded; assumed: the configurations, the options, the buffer and the alpha are unchanged; the hardware calls and the overlay may change |
| Scenarios.ChooseRightThenWait | pibooth/plugins/camera_plugin.py:50-69 | with choices (1, 4), RIGHT selects 4, and entering WAIT again leaves the count undecided |
| Scenarios.ThreeShotsOneEffect | pibooth/plugins/camera_plugin.py:94-114 | with a single effect 'sepia' and three shots, the buffer grows from 0 to 3 records, all with 'sepia', in shot order |
| Scenarios.PerShotEffectsAdvance | pibooth/plugins/camera_plugin.py:58-60 | per-shot effects advance from shot to shot and start over after a WAIT exit |
| Scenarios.ShortEffectListTakesNothing | pibooth/plugins/camera_plugin.py:103-106 | one effect for four shots raises the error with no record taken and the counter left at 0 |
| Scenarios.FailsafeDrainsBuffer | pibooth/plugins/camera_plugin.py:43-48 | FAILSAFE after two captures leaves an empty buffer and an unset shot count |
| Scenarios.CountdownThenSmile | pibooth/plugins/camera_plugin.py:74-92 | a 3 s delay shows 3, then 2 after 1.2 s, then the smile prompt in the last half second; CAPTURE is reached only once the time is up |
| Scenarios.HiddenOverlayLeavesFrame | pibooth/camera/libcamera_v3.py:93-126 | after an overlay is set and hidden, the preview frame is returned unmodified; hiding twice clears the hardware overlay once |

## Left out

- `pibooth_setup_camera` and `pibooth_cleanup`: these are hook-wrapper machinery, fallback camera discovery and configuration access, not session logic. `_specific_cleanup` (a single `stop` call) is left out too.
- picamera2 itself (the `Picamera2` class, `global_camera_info`, `create_*_configuration`, `align_configuration`, `configure`, `switch_mode`, `capture_image`, `start`, `stop`, `set_overlay`). These are foreign driver calls. The calls made on the handle are recorded as `HwCall` values; the configurations the two `create_*` calls return are constructor parameters; opening the handle and `global_camera_info` are the inputs and the result of `GetLibcameraCameraProxy`. The alignment result and the delivered frames are parameters. Hardware failures are not modelled.
- The image library's pixel semantics (`filter`, `crop`, `paste`, overlay rendering). Images carry only a size and how they were made. Two library behaviours are assumed: `FilterNames` lists the predefined filters, and a crop box with right < left or lower < upper is refused.
- Images.Upper: upper-cases ASCII letters only, while Python's `str.upper` covers all of Unicode.
- RoundedWidth: rounds halves up in exact arithmetic. Python rounds a float, halves to even. For the fixed height 300 the two agree.
- The polling timer's implementation and the wall clock. The time remaining is one abstract value per tick. The PREVIEW step reads `remaining()` up to three times, and the model assumes all three readings are equal. The date string and the translated "smile" text are inputs.
- pygame: event lookup (`find_choice_event` becomes the `event` parameter), key codes, `win.get_rect` and `Rect.inflate`. `PreviewEnter` receives the rectangle already shrunk by the 100-pixel border.
- Logging, apart from the camera listing, which `GetLibcameraCameraProxy` returns. The listing is kept because it carries the selection mark.
- LibcameraV3.LibCamera.Capture, DropCaptures, SetOverlay, StopPreview, the base `preview` behind LibcameraV3.LibCamera.Preview (BasePreview) and the base class's `__init__` are inherited from a base class that is not part of this model, and the polling timer class is not part of it either. Their effects are assumptions, and every row that relies on one marks that clause "assumed".
- LibcameraV3.LibCamera.StopPreview: does not say what happens to the hardware calls, the overlay or its text, because the base class's `stop_preview` is not part of this model and may hide the overlay. CaptureExit therefore promises nothing about them either.
- LibcameraV3.GetLibcameraCameraProxy: assumes `Picamera2()` opens camera 0. Opening a camera number that does not exist is a driver failure and is not modelled.
- A camera-mode lifecycle, a camera error hierarchy and a negotiation of the configured camera resolution are not modelled: the two core files contain none of these. The one size adjustment they do make, `align_configuration`, is the `aligned` parameter of `SpecificInitialization`.
- Concurrency: the handlers run one at a time on a single thread.
