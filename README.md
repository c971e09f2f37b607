# MiniStudio live compositor — a Dafny model

MiniStudio is a desktop live-production tool. A USB control surface (a Tascam US-428)
starts and stops a compositor thread and switches overlays on and off. On every tick the
compositor thread grabs the screen and builds a frame scene. The scene stacks layers: the
screen grab, a camera picture-in-picture, a magnifier around the cursor, a sliding title
banner and a logo. Each overlay fades in and out through an eased animated switch. Scenes
are painted on a thread pool, optionally saved as numbered PNG files, and their
completions are forwarded to the preview in order. Camera frames pass through a video
filter: an OpenCL emboss filter sharing textures with OpenGL, or a GLSL stub.

The model covers these parts, one Dafny module per source unit:

| module (file) | models |
|---|---|
| `QtTypes` (qt_types.dfy) | sizes, points, rectangles, image handles, symbolic transforms, C integer truncation and unsigned wrap-around |
| `Switches` (animated_switch.dfy) | `AnimatedSwitch`: a pure state and step function, and a class whose methods update the fields in place |
| `Layers` (layer.dfy) | `Layer`, `ImageLayer`, `TitleLayer`, and a painter whose calls are kept as a log of draw operations |
| `Scenes` (frame_scene.dfy) | `FrameScene`: the order list, the name-to-layer map, every layer allocated, painting and completion |
| `FrameNames` (frame_names.dfy) | the `frame_NNNNNN.png` file names of saved frames |
| `Live` (live_thread.dfy) | `LiveThread`: the tick body, the completion filter, clear/stop, saving, the parameter setters |
| `Router` (mini_studio.dfy) | `MiniStudio`: controller decoding against the control arrays, and the button, slider and knob handlers |
| `Gpu` (gpu.dfy) | the GL and CL drivers: handles as naturals, an event log, a legality rule, and no double release or double creation |
| `OpenClFilter` (cl_video_filter.dfy) | `CLVideoFilter`: idempotent init, release, resize, input binding, interop images, the kernel pass, teardown |
| `GlslFilter` (glsl_video_filter.dfy) | `GLSLVideoFilterRunnable`: validation and texture bookkeeping |

Effects that leave the process are recorded as data. These include the painter's calls,
saved files, emitted signals, scenes handed to the pool, sleeps, created directories and
driver calls. Anything the program reads from outside is a parameter: the clock, the screen
grab, the cursor position, the screen's refresh rate, the camera frames, stored settings,
the configuration window's texts and the drivers' success or failure.

`AnimatedSwitch::value()` (ministudio/AnimatedSwitch.hpp:36-39) is read as the class
field `value`. `Layer::opacity()` and `Layer::transform()` (ministudio/Layer.cpp:25-31)
are the fields of the `Layer` datatype.

## Model

| member | source | states |
|---|---|---|
| Switches.NewSwitch | ministudio/AnimatedSwitch.hpp:22-34 | A new switch is disabled at value 0 with snap distance 0.01. The in-curve and in-time are active, and all four arguments are stored. |
| Switches.Toggle | ministudio/AnimatedSwitch.hpp:41-49 | setEnabled with the current state changes nothing. A real change sets the flag and installs the curve and ease time of the new direction, and nothing else. |
| Switches.Step | ministudio/AnimatedSwitch.hpp:51-60 | Only the value changes. Enabled: the advanced value while it is at most 1 − snap, otherwise exactly 1. Disabled: the advanced value while it is at least snap, otherwise exactly 0. |
| Switches.NewSwitchInv | ministudio/AnimatedSwitch.hpp:22-34 | With positive durations a new switch satisfies the switch invariant (value in [0,1], positive ease time). |
| Switches.ToggleInv | ministudio/AnimatedSwitch.hpp:41-49 | setEnabled keeps the invariant. |
| Switches.StepInv | ministudio/AnimatedSwitch.hpp:51-60 | One update keeps the value in [0,1]. |
| Switches.StepMonotone | ministudio/AnimatedSwitch.hpp:52-60 | While enabled an update never lowers the value; while disabled it never raises it. |
| Switches.FullIntervalReachesTarget | ministudio/AnimatedSwitch.hpp:53-60 | One update whose interval is at least the ease time leaves exactly 1 (enabled) or exactly 0 (disabled). |
| Switches.ApplyAllInv | ministudio/AnimatedSwitch.hpp:41-62 | Any sequence of setEnabled and update calls keeps the value in [0,1]. |
| Switches.UpdatesKeepFields | ministudio/AnimatedSwitch.hpp:51-60 | A series of updates changes only the value; an enabled switch at 1 stays at 1. |
| Switches.EnabledUpdatesAccumulate | ministudio/AnimatedSwitch.hpp:53-57 | While enabled, after a series of updates the value is exactly 1 or the start plus the total interval over the ease time. |
| Switches.EnabledBeforeSnap | ministudio/AnimatedSwitch.hpp:53-57 | While enabled and the total advance stays within 1 − snap, the value after a series of updates is exactly the start plus the total interval over the ease time, and stays below 1 when snap is positive. |
| Switches.DisabledBeforeSnap | ministudio/AnimatedSwitch.hpp:53-57 | While disabled and the total retreat stays above snap, the value after a series of updates is exactly the start minus the total interval over the ease time, and stays above 0 when snap is positive. |
| Switches.EnabledConverges | ministudio/AnimatedSwitch.hpp:51-61 | Once the enabled intervals add up to the ease time the value is exactly 1, and update returns the curve's value at 1. |
| Switches.AnimatedSwitch.constructor | ministudio/AnimatedSwitch.hpp:22-34 | The object's state is the new-switch state and satisfies the invariant. |
| Switches.AnimatedSwitch.SetEnabled | ministudio/AnimatedSwitch.hpp:41-49 | The new state is the toggle of the old one; the invariant is kept. |
| Switches.AnimatedSwitch.Update | ministudio/AnimatedSwitch.hpp:51-62 | The new state is the step of the old one. The result is the active curve applied to the new raw value. |
| Layers.Layer.Name | ministudio/Layer.cpp:36-69 | An image layer is always named "Image" and a title layer "Title", whatever key the scene files it under. |
| Layers.Metrics | ministudio/Layer.cpp:78-86 | In unsigned arithmetic: h = H/10, w = (8W)/10, hh = ⌊1.5h⌋, shadow offset h/7. The banner top H − 2h is not negative, and the banner does not reach below H. |
| Layers.TitleLayout | ministudio/Layer.cpp:82-96 | Four operations in order: the black shadow at 0.2 × opacity, the white bar at full opacity, then the title and the subtitle. Both texts start at x = hh, and their baselines lie inside the bar. |
| Layers.ImageLayerDrawsOnce | ministudio/Layer.cpp:47-57 | A null image draws nothing. Otherwise the layer draws once, at the origin, at the layer's opacity. |
| Layers.ImageOps | ministudio/Layer.cpp:47-57 | A null image draws nothing; otherwise one image is drawn at the origin, with the layer's opacity and transform. |
| Layers.TitleOps | ministudio/Layer.cpp:75-97 | A title draws four operations under the layer's transform; the white bar lies inside the canvas. |
| Layers.LayerOps | ministudio/Layer.cpp:47-97 | Any layer draws at most four operations, all under its transform; a title layer draws exactly four. |
| Layers.Render | ministudio/Layer.cpp:47-97 | Rendering appends exactly the layer's operations under the current transform and keeps that transform. It warns exactly for an image layer with a null image. |
| Scenes.AddLayerSpec | ministudio/FrameScene.cpp:49-58 | Adding appends exactly one name and maps it to the newly allocated layer. Earlier layers and other map entries are unchanged, and the scene stays well formed. |
| Scenes.Painted | ministudio/FrameScene.cpp:31-40 | At most one layer is painted per name in the order list, and each painted layer has positive opacity. |
| Scenes.DuplicateNamePaintsLastTwice | ministudio/FrameScene.cpp:49-52 | Adding one name twice maps it to the second layer. Painting then draws that layer twice if visible and not at all otherwise, and the first layer is unreachable (leaked). |
| Scenes.ReAddExistingName | ministudio/FrameScene.cpp:31-58 | Adding a layer under a name the map already holds paints the new layer once more at the end. Every occurrence of the name, old and new, paints the new layer when it is visible, and the replaced layer is never painted again. |
| Scenes.PaintedCount | ministudio/FrameScene.cpp:31-40 | A visible layer is painted once for each occurrence, in the order list, of the one name mapped to it. |
| Scenes.UnmappedNotPainted | ministudio/FrameScene.cpp:31-40 | A layer that no name maps to is never painted. |
| Scenes.PaintOps | ministudio/FrameScene.cpp:31-40 | Painting n layers draws at most four operations per layer. |
| Scenes.BuildShape | ministudio/FrameScene.cpp:49-58 | A sequence of additions lists every name in order, allocates one layer per addition, and maps exactly the listed names. |
| Scenes.DistinctNamesPaintVisibleInOrder | ministudio/FrameScene.cpp:31-40 | With distinct names, run paints exactly the layers of positive opacity, each once, in the order they were added. |
| Scenes.PaintAfterAdd | ministudio/FrameScene.cpp:49-58 | Adding a layer under a new name paints everything painted before, then the new layer when its opacity is positive. |
| Scenes.PaintSnoc | ministudio/FrameScene.cpp:31-40 | One more entry with a new name grows both the painted layers and the visible positions by that entry alone, or by nothing when it is invisible. |
| Scenes.PaintStep | ministudio/FrameScene.cpp:31-40 | One more name in the order list adds that layer's operations when it is mapped and visible, and nothing otherwise. |
| Scenes.PaintName | ministudio/FrameScene.cpp:32-38 | The loop body paints a mapped, visible layer under its own transform; any other name paints nothing. |
| Scenes.PaintInOrder | ministudio/FrameScene.cpp:28-40 | A fresh painter walked over the names draws the visible layers' operations in that order. |
| Scenes.FrameScene.constructor | ministudio/FrameScene.cpp:5-13 | The id, file name and resolution are stored unchanged; the scene is auto-delete and has no layers. |
| Scenes.FrameScene.AddImageLayer | ministudio/FrameScene.cpp:49-52 | The scene state becomes the addition of an image layer under the name. |
| Scenes.FrameScene.AddTitleLayer | ministudio/FrameScene.cpp:55-58 | The scene state becomes the addition of a title layer under the name. |
| Scenes.FrameScene.Run | ministudio/FrameScene.cpp:25-46 | The canvas has the scene's resolution and holds the painted layers in order-list order. The file is saved if and only if the name is non-empty. Exactly one completion follows, carrying the scene's id. |
| Scenes.FrameScene.Destroy | ministudio/FrameScene.cpp:16-23 | Every layer held in the map is deleted exactly once, and the map is left empty. |
| FrameNames.Digit | ministudio/LiveThread.cpp:130 | Each digit below 10 becomes the character '0' + d. |
| FrameNames.Decimal | ministudio/LiveThread.cpp:130 | The decimal form is all digits, at least one, and starts with '0' only when it is "0". |
| FrameNames.Zeros | ministudio/LiveThread.cpp:130 | The fill is exactly k '0' characters. |
| FrameNames.Pad6 | ministudio/LiveThread.cpp:130 | The padded field is all digits. |
| FrameNames.DigitCount | ministudio/LiveThread.cpp:130 | Every number has at least one digit. |
| FrameNames.DigitCountBound | ministudio/LiveThread.cpp:130 | A number has at most k digits exactly when it is below 10^k. |
| FrameNames.DecimalLength | ministudio/LiveThread.cpp:130 | The decimal form has DigitCount characters, and at most six exactly for numbers below 1000000. |
| FrameNames.ParseDecimalRoundTrip | ministudio/LiveThread.cpp:130 | Parsing the decimal form gives the number back. |
| FrameNames.ParseZeros | ministudio/LiveThread.cpp:130 | Leading zeros do not change the value a digit string spells. |
| FrameNames.Pad6Spec | ministudio/LiveThread.cpp:130 | The field is exactly six characters below 1000000, otherwise the full decimal form; either way it parses back to the number. |
| FrameNames.FrameFileNameInjective | ministudio/LiveThread.cpp:128-131 | Different frame numbers never share a file name under one base path. |
| FrameNames.FrameFileNameShape | ministudio/LiveThread.cpp:130 | The name is the base path, "/frame_", the padded number and ".png". |
| FrameNames.FrameFileName | ministudio/LiveThread.cpp:130 | The name starts with the base path, ends with ".png", and is at least 17 characters longer than the base path: "/frame_", six or more digits and the extension. |
| FrameNames.FrameNumberRoundTrip | ministudio/LiveThread.cpp:130 | The digits between "/frame_" and ".png" parse back to the frame number. |
| FrameNames.ParseDecimal | ministudio/LiveThread.cpp:130 | A string of k digits spells a number below 10^k. |
| Live.Setup | ministudio/LiveThread.cpp:100-108 | The run environment keeps the screen and the logo image it was given; where its transforms place points is stated by `Live.SetupMapsPoint` and `Live.SetupPlacement`. |
| Live.MapLogo | ministudio/LiveThread.cpp:102-103 | The logo transform moves every point by (0.9W − logo width, 0.1H). |
| Live.MapPip | ministudio/LiveThread.cpp:106-108 | The picture-in-picture transform maps (x, y) to (0.4(x + 0.1W), 0.4(y + 0.1H)): the translation acts first and the scale after it. |
| Live.SetupMapsPoint | ministudio/LiveThread.cpp:102-108 | For every point, the logo and picture-in-picture transforms of the run environment map it as `MapLogo` and `MapPip` state. |
| Live.PipCorners | ministudio/LiveThread.cpp:106-108 | The picture-in-picture transform maps the origin to (0.04W, 0.04H) and the far corner (W, H) to (0.44W, 0.44H). |
| Live.SetupPlacement | ministudio/LiveThread.cpp:102-108 | The logo's top-left corner lands at (0.9W − logo width, 0.1H); the picture-in-picture box spans (0.04W, 0.04H) to (0.44W, 0.44H). |
| Live.MapCamera | ministudio/LiveThread.cpp:138-139 | Scaling the picture-in-picture transform by s maps (x, y) to (0.4(sx + 0.1W), 0.4(sy + 0.1H)). |
| Live.CameraLayerMaps | ministudio/LiveThread.cpp:138-141 | The camera layer's transform scales the camera image by the PIP size before the picture-in-picture placement. |
| Live.TickPlanOrder | ministudio/LiveThread.cpp:133-176 | A tick's scene has one to five layers. The first is the screen grab at full opacity without transform, and the layer names rise strictly in z-order (screen, camera, magnifier, title, logo). |
| Live.TickPlan | ministudio/LiveThread.cpp:133-176 | A tick adds one to five layers, and the first is the screen grab at full opacity. |
| Live.TickPlanMembership | ministudio/LiveThread.cpp:133-176 | Each overlay is in the scene exactly when its switch's raw value is positive; the camera also needs a stored camera frame. |
| Live.TickPlanNames | ministudio/LiveThread.cpp:133-176 | The names of a tick's scene are "screen" followed by each present overlay's name, in the fixed order. |
| Live.TickPlanDistinct | ministudio/LiveThread.cpp:133-176 | The layer names of one tick never repeat. |
| Live.TickScenePaintsInOrder | ministudio/LiveThread.cpp:133-176 | Painting a tick's scene draws each layer of positive opacity exactly once, in z-order, starting with the screen grab. No layer is lost to a repeated name. |
| Live.TickPlanParameters | ministudio/LiveThread.cpp:135-175 | The camera's opacity is the stored camera opacity × the eased value, under the PIP transform scaled by the PIP size. The title is at full opacity and moved by (eased − 1) × width, so not at all when fully on. The logo's opacity is its eased value. |
| Live.MagZoomInterpolates | ministudio/LiveThread.cpp:152 | The zoom is 1 with the switch off and the set level with it fully on, and lies between the two in between. |
| Live.MagSource | ministudio/LiveThread.cpp:153-154 | There is no source rectangle exactly when the zoom is 0, where the source divides by zero. |
| Live.MagSourceCentred | ministudio/LiveThread.cpp:148-154 | The source rectangle is square, 400/zoom wide, with its corner 200/zoom up and left of the cursor (up to truncation). |
| Live.Elapsed | ministudio/LiveThread.cpp:117-118 | The interval is a quint64 difference and wraps below 2^64. |
| Live.ElapsedSpec | ministudio/LiveThread.cpp:117-118 | A clock that does not go backwards gives the plain difference, also when read back as qint64. |
| Live.SleepBudgetSpec | ministudio/LiveThread.cpp:183-187 | The budget is 4000/refresh − interval, truncated. The thread sleeps exactly when at least one millisecond is left. |
| Live.SleepBudget | ministudio/LiveThread.cpp:183-187 | A positive budget is the quarter refresh period minus the interval, truncated toward zero; a budget of zero or less means less than one millisecond was left. |
| Live.MaxId | ministudio/LiveThread.cpp:201-208 | The running maximum is at least the mark and every delivered id. |
| Live.ForwardedSubset | ministudio/LiveThread.cpp:201-208 | Only delivered completions are forwarded. |
| Live.ForwardedLast | ministudio/LiveThread.cpp:201-208 | Every forwarded id lies between the mark and the running maximum, and the last one forwarded is the maximum. |
| Live.ForwardedMonotone | ministudio/LiveThread.cpp:201-208 | Forwarded ids never decrease and are never below the starting mark; equal ids pass. |
| Live.ForwardedExample | ministudio/LiveThread.cpp:201-208 | Ids 3, 1, 4, 2 arriving from mark 0 forward 3 and then 4. |
| Live.Forwarded | ministudio/LiveThread.cpp:201-208 | The filter forwards at most the completions it receives, and only ids at least the starting mark. |
| Live.SavingStepSpec | ministudio/LiveThread.cpp:241-254 | setSaving always stores the flag. The base path changes only on a false-to-true change and then becomes the new path. Repeating the call changes nothing. |
| Live.BasePathShape | ministudio/LiveThread.cpp:244-248 | The base path is the Movies location (or the working directory), "/MiniStudio_", the time stamp, then "_" + project name when there is one. |
| Live.BasePath | ministudio/LiveThread.cpp:244-248 | The path is as long as the chosen root, "/MiniStudio_", the time, and "_" plus the project name when one is set. |
| Live.SavingStep | ministudio/LiveThread.cpp:241-254 | The flag is always stored, and the base path changes only on a false-to-true change. |
| Live.StepOverlays | ministudio/LiveThread.cpp:135-176 | A grabbed tick updates the magnifier, title and logo switches by the interval. It updates the camera switch only with a stored camera frame. All four keep their invariant. |
| Live.LiveThread.constructor | ministudio/LiveThread.cpp:19-38 | Frame number, clock and mark start at 0; the thread is not done and not saving. Camera opacity, magnifier level and PIP size are 1, and hold is off. The switches take their stated curves and durations. |
| Live.LiveThread.OnFrameRenderComplete | ministudio/LiveThread.cpp:201-208 | A completion is forwarded, and the mark raised to its id, exactly when the thread is not done and the id is at least the mark. |
| Live.LiveThread.DeliverAll | ministudio/LiveThread.cpp:201-208 | Before stop, a series of completions emits exactly the forwarded ones and leaves the mark at the running maximum. After stop nothing is emitted. |
| Live.LiveThread.Clear | ministudio/LiveThread.cpp:193-199 | clear emits an opaque black frame with id mark + 1 and does not raise the mark. |
| Live.LiveThread.Stop | ministudio/LiveThread.cpp:236-239 | stop sets the done flag. |
| Live.LiveThread.SetSaving | ministudio/LiveThread.cpp:241-254 | The flag and base path follow SavingStep. A new base path is also created as a directory. |
| Live.LiveThread.SetProjectName | ministudio/LiveThread.cpp:256-259 | The project name is stored. |
| Live.LiveThread.SetTitle | ministudio/LiveThread.cpp:262-265 | The caption is stored. |
| Live.LiveThread.SetSubTitle | ministudio/LiveThread.cpp:268-271 | The sub-caption is stored. |
| Live.LiveThread.OnCameraFrameReady | ministudio/LiveThread.cpp:212-216 | The camera frame is stored. |
| Live.LiveThread.OnCameraOpacityChange | ministudio/LiveThread.cpp:229-234 | The camera opacity is stored. |
| Live.LiveThread.OnMagLevelChange | ministudio/LiveThread.cpp:274-277 | The magnifier level is stored. |
| Live.LiveThread.OnPipSizeChange | ministudio/LiveThread.cpp:302-305 | The PIP size is stored. |
| Live.LiveThread.OnHoldEnabled | ministudio/LiveThread.cpp:308-311 | The hold flag is stored. |
| Live.LiveThread.OnMagEnabled | ministudio/LiveThread.cpp:280-283 | The magnifier switch is toggled to the flag; the others are untouched. |
| Live.LiveThread.OnTitleEnabled | ministudio/LiveThread.cpp:286-289 | The title switch is toggled to the flag. |
| Live.LiveThread.OnLogoEnabled | ministudio/LiveThread.cpp:292-295 | The logo switch is toggled to the flag. |
| Live.LiveThread.OnCameraEnabled | ministudio/LiveThread.cpp:297-300 | The camera switch is toggled to the flag. |
| Live.LiveThread.ComposeScene | ministudio/LiveThread.cpp:133-176 | The scene carries the frame number, path and grab size. The switches advance by one `StepOverlays` step, and the scene holds exactly `Build` of the tick plan `PlanOf` for the advanced switches. One magnifier paint (`MagPaintsOf`: the zoomed source rectangle, tint 0.2 times the eased value) is logged exactly when the magnifier value is positive. |
| Live.LiveThread.UpdateOverlays | ministudio/LiveThread.cpp:135-176 | The camera switch is updated only with a camera frame, the others always. The readings are the new raw and eased values. |
| Live.LiveThread.Tick | ministudio/LiveThread.cpp:116-187 | The grab is refreshed unless hold is on. A null grab submits nothing and counts a failure. Otherwise the frame number advances only when saving, names the file, and the scene is submitted. The clock is stored, and the budget is slept when positive. |
| Live.LiveThread.FinishTick | ministudio/LiveThread.cpp:182-187 | The clock is stored, and the budget left is slept only when positive. |
| Live.LiveThread.SubmitGrab | ministudio/LiveThread.cpp:123-181 | A grab submits exactly one scene; a null grab submits none and counts a failure. |
| Live.LiveThread.SubmitFrame | ministudio/LiveThread.cpp:124-178 | When saving, the number advances and the file is named after it; otherwise the name is empty and the id repeats. |
| Live.LiveThread.AdvanceFrame | ministudio/LiveThread.cpp:127-132 | When saving, the frame number advances by one and the path names the file after the new number; otherwise the number stays and the path is empty. |
| Live.LiveThread.SleepRest | ministudio/LiveThread.cpp:183-187 | The budget is computed from the refresh rate and interval, and slept only when positive. |
| Live.LiveThread.Run | ministudio/LiveThread.cpp:85-190 | Without a screen nothing happens. Otherwise the thread clears first and clears again once stopped. Saved frames are numbered consecutively and never share a file name; without saving every scene repeats the current number with no file. |
| Live.LiveThread.TickLoop | ministudio/LiveThread.cpp:116-188 | Each submitted scene carries the frame number after its tick, and when saving the file named after it. |
| Live.LiveThread.LoopPass | ministudio/LiveThread.cpp:116-188 | One pass submits at most one scene, numbered with the frame number after the tick and filed under it when saving. Earlier scenes stay as they were, and a stop request marks the thread done. |
| Live.NewTickScene | ministudio/LiveThread.cpp:133-176 | A new scene with the given id, path and size, holding exactly the tick's layers. |
| Router.NamesDisjoint | ministudio/MiniStudio.cpp:60-106 | No controller parameter names two controls. |
| Router.ClampSpec | ministudio/MiniStudio.cpp:533-537 | Every parameter is clamped below 256 and in-range ones are left alone, so every parameter from 255 up reads as InputC+D. |
| Router.Clamp | ministudio/MiniStudio.cpp:535-537 | The clamped parameter indexes the arrays, and an in-range one is kept. |
| Router.Decode | ministudio/MiniStudio.cpp:521-575 | The arrays keep their length. A logged or unchanged event leaves them alone. A press or fader move is reported only when it changes the stored value, and the report carries the new value. |
| Router.DecodeButton | ministudio/MiniStudio.cpp:538-546 | A named button is stored as pressed exactly when the value is 127. It reports an event exactly when that changes the stored state, and no other control changes. |
| Router.DecodeSlider | ministudio/MiniStudio.cpp:548-557 | A named slider is stored at value/127 and reports exactly when that differs from the stored position. |
| Router.DecodeKnob | ministudio/MiniStudio.cpp:558-567 | A named knob stores the value and reports a change, as up exactly when the value grew. |
| Router.DecodeLogged | ministudio/MiniStudio.cpp:524-575 | Unnamed parameters and other event kinds go to the logger, and only they do; they change nothing. |
| Router.DecodeRepeat | ministudio/MiniStudio.cpp:538-567 | The same message a second time reports nothing and changes nothing. |
| Router.SetRecordingSpec | ministudio/MiniStudio.cpp:586-620 | Afterwards a thread exists exactly when run asks for one. A running thread is kept and told only the saving flag. A new one is set up from the current settings. Stopping stops and waits for the thread. No setting changes. |
| Router.SpawnForwardsSettings | ministudio/MiniStudio.cpp:597-607 | A new thread receives the texts, the saving flag and every overlay setting before it starts, but never the hold flag. |
| Router.TransportOnRelease | ministudio/MiniStudio.cpp:636-647 | Play, Record and Stop act on release only: play without recording, play with recording, stop. |
| Router.ReleaseStep | ministudio/MiniStudio.cpp:636-647 | Only Play, Record and Stop can start or stop the thread. |
| Router.OverlayStep | ministudio/MiniStudio.cpp:648-695 | The overlay buttons never start or stop the thread. |
| Router.ButtonStep | ministudio/MiniStudio.cpp:634-697 | A press never starts or stops the thread; a release does so only for Play, Record and Stop. |
| Router.SliderStep | ministudio/MiniStudio.cpp:700-708 | Only the call log can change, and only Channel 1 with a running thread adds a camera opacity call. |
| Router.KnobStep | ministudio/MiniStudio.cpp:712-732 | Only the magnifier level, the PIP size and the call log can change, and only for BigDial with a running thread, one call at a time; a changed level or size is positive, and the two never change together. |
| Router.Dispatch | ministudio/MiniStudio.cpp:538-568 | Unchanged and logged events change nothing, and only button events can start or stop the thread. |
| Router.AuxToggles | ministudio/MiniStudio.cpp:665-695 | With a thread, a press of Aux1, Aux2 or Aux4 flips camera, title or logo and tells the thread. A release, or no thread, changes nothing. |
| Router.AuxTwiceRestores | ministudio/MiniStudio.cpp:665-670 | Two Aux1 presses restore the camera setting. |
| Router.BigDialScales | ministudio/MiniStudio.cpp:712-732 | With a thread, BigDial scales the magnifier level by 1 ± 0.05 while the magnifier is on, else the PIP size while PIP sizing is on. Other knobs change nothing. |
| Router.BigDialGuard | ministudio/MiniStudio.cpp:718-725 | With both the magnifier level and the PIP size non-positive, BigDial changes nothing. |
| Router.BigDialDrifts | ministudio/MiniStudio.cpp:717 | One click up and one down leave the level at 99.75% of where it was. |
| Router.ReleaseKeeps | ministudio/MiniStudio.cpp:636-647 | The transport half keeps level and size and only appends calls. |
| Router.OverlayKeeps | ministudio/MiniStudio.cpp:648-695 | The overlay half keeps level and size and only appends calls. |
| Router.FunctionKeyKeeps | ministudio/MiniStudio.cpp:648-664 | F1 to F3 keep level and size and only append calls. |
| Router.AuxKeeps | ministudio/MiniStudio.cpp:665-695 | The Aux buttons keep level and size and only append calls. |
| Router.HandleKeeps | ministudio/MiniStudio.cpp:634-732 | Every handler keeps the magnifier level and the PIP size positive when they were, and only appends calls. |
| Router.HandleAllKeeps | ministudio/MiniStudio.cpp:634-732 | Over any run of inputs, level and size stay positive and the calls made on threads only accumulate. |
| Router.MiniStudio.constructor | ministudio/MiniStudio.cpp:38-191 | Every button is released and every slider and knob at 0. There is no thread; magnifier, PIP sizing and hold are off. The restored settings apply and the configuration window is shown. |
| Router.MiniStudio.OnMidiReceive | ministudio/MiniStudio.cpp:521-575 | The arrays and outcome are those of Decode, and the router state is that of the outcome's handler. |
| Router.MiniStudio.DecodeInto | ministudio/MiniStudio.cpp:529-568 | The arrays are updated in place to Decode's controls, and the outcome is Decode's. |
| Router.MiniStudio.ShowConfig | ministudio/MiniStudio.cpp:579-583 | The configuration window's visibility becomes the flag. |
| Router.MiniStudio.SetRecording | ministudio/MiniStudio.cpp:586-620 | The state follows SetRecordingStep. |
| Router.MiniStudio.ShowMagnifier | ministudio/MiniStudio.cpp:624-631 | The flag is stored and passed to a running thread. |
| Router.MiniStudio.OnButtonEvent | ministudio/MiniStudio.cpp:634-697 | The state follows ButtonStep: the transport half on release, then the overlay half. |
| Router.MiniStudio.OnOverlayButton | ministudio/MiniStudio.cpp:648-695 | The state follows the overlay half. |
| Router.MiniStudio.OnFunctionKey | ministudio/MiniStudio.cpp:648-664 | F1 shows the magnifier with a thread, F2 sets hold, F3 sets PIP sizing with a thread. |
| Router.MiniStudio.OnAuxButton | ministudio/MiniStudio.cpp:665-695 | Aux3 toggles the presentation window on press; Aux1, Aux2 and Aux4 toggle overlays with a thread. |
| Router.MiniStudio.OnSliderEvent | ministudio/MiniStudio.cpp:700-708 | Channel1 sets a running thread's camera opacity; other sliders do nothing. |
| Router.MiniStudio.OnKnobEvent | ministudio/MiniStudio.cpp:712-732 | The state follows KnobStep. |
| Gpu.EffectSpec | libs/libopencl/CLVideoFilter.cpp:304-322 | An event makes live what it creates and ends what it frees; every other handle keeps its liveness. |
| Gpu.Effect | libs/libopencl/CLVideoFilter.cpp:304-322 | Only texture events touch the live textures, and only compute-object events touch the live objects. |
| Gpu.ReplayMade | libs/libopencl/CLVideoFilter.cpp:304-322 | Every handle live after a log was brought to life by one of its events. |
| Gpu.LegalSnoc | libs/libopencl/CLVideoFilter.cpp:304-322 | Appending an allowed event keeps the log legal and applies its effect. |
| Gpu.WitnessedLegal | libs/libopencl/CLVideoFilter.cpp:304-322 | A log with a pool after each call, where each call is allowed on the pool before it, is legal, and replaying it gives the last pool. |
| Gpu.DeviceLogLegal | libs/libopencl/CLVideoFilter.cpp:304-322 | Every call the device has logged was allowed when it was made, and replaying the log gives exactly its live textures and objects. |
| Gpu.DeadAfterFree | libs/libopencl/CLVideoFilter.cpp:304-322 | A handle freed and not made again is not live. |
| Gpu.LiveAfterMake | libs/libopencl/CLVideoFilter.cpp:449-476 | A handle made and not freed again is live. |
| Gpu.NoDoubleRelease | libs/libopencl/CLVideoFilter.cpp:304-322 | In a legal log two releases of one handle are separated by its re-creation. |
| Gpu.NoDoubleCreate | libs/libopencl/CLVideoFilter.cpp:449-476 | In a legal log two creations of one handle are separated by its release. |
| Gpu.Releases | libs/libopencl/CLVideoFilter.cpp:315-320 | Only the non-zero handles are released, one release event each. |
| Gpu.ReleasesEnds | libs/libopencl/CLVideoFilter.cpp:145-156 | A non-zero first handle is released first, and a non-zero last handle last. |
| Gpu.Device.GenTexture | libs/libopencl/CLVideoFilter.cpp:324-338 | A new texture name is non-zero and not in use, and becomes live. |
| Gpu.Device.DeleteTexture | libs/libopencl/CLVideoFilter.cpp:308-313 | A live texture is deleted and logged. |
| Gpu.Device.Create | libs/libopencl/CLVideoFilter.cpp:247-298 | On success a fresh non-zero object becomes live; on failure the result is 0 and nothing changes. |
| Gpu.Device.CreateImage | libs/libopencl/CLVideoFilter.cpp:455-476 | On success a fresh non-zero image over the texture becomes live; on failure the result is 0 and nothing changes. |
| Gpu.Device.Release | libs/libopencl/CLVideoFilter.cpp:315-320 | A live object is released and logged. |
| Gpu.Device.ReleaseEach | libs/libopencl/CLVideoFilter.cpp:145-156 | The non-zero handles are released in order, and only they stop being live. |
| OpenClFilter.InitStage | libs/libopencl/CLVideoFilter.cpp:172-298 | init stops at the first failing step. Context, queue, program and kernel exist exactly when every step before them succeeded. |
| OpenClFilter.Normalized | libs/libopencl/CLVideoFilter.cpp:397-411 | A planar YUV frame becomes a packed frame of the same size in system memory; other frames are untouched. |
| OpenClFilter.Deletions | libs/libopencl/CLVideoFilter.cpp:308-313 | Only the non-zero textures are deleted. |
| OpenClFilter.ReleaseEvents | libs/libopencl/CLVideoFilter.cpp:304-322 | Exactly the non-zero textures are deleted and the non-zero images released, every deletion before every release. |
| OpenClFilter.TeardownEvents | libs/libopencl/CLVideoFilter.cpp:142-157 | Only releases, exactly of the non-zero set-up objects, the kernel first and the context last. |
| OpenClFilter.KernelEvents | libs/libopencl/CLVideoFilter.cpp:480-515 | Nine calls: the GL finish first, the read-back last with the output texture's name as its target, the kernel over the whole frame with factor 5.0 in between. |
| OpenClFilter.KernelBracketed | libs/libopencl/CLVideoFilter.cpp:480-501 | The images are acquired before the only kernel enqueue, released after it, and the queue is then finished. |
| OpenClFilter.AsWrittenReadsStaleTexture | libs/libopencl/CLVideoFilter.cpp:435-445 | As written, the input image keeps wrapping the previous frame's texture when upload and GL-texture frames alternate (see Findings). |
| OpenClFilter.BindAsWritten | libs/libopencl/CLVideoFilter.cpp:421-445 | As written: an uploaded frame leaves the last input texture as it was and never replaces an existing image; a GL-texture frame is recorded. A new image wraps the frame's texture. |
| OpenClFilter.Bind | libs/libopencl/CLVideoFilter.cpp:421-445 | Corrected: every frame is recorded as the last input, and an existing image over a different texture is replaced by a new one over the frame's texture. |
| OpenClFilter.BindWrapsFrameTexture | libs/libopencl/CLVideoFilter.cpp:435-445 | With the corrected rule the input image always wraps the frame's texture. It is kept exactly when it existed over the same texture. |
| OpenClFilter.BindAllWraps | libs/libopencl/CLVideoFilter.cpp:435-445 | Over any sequence of frames the corrected binding wraps the current frame's texture. |
| OpenClFilter.CLVideoFilter.constructor | libs/libopencl/CLVideoFilter.cpp:127-138 | Every handle is 0, the filter is not initialised, and the size is invalid. |
| OpenClFilter.CLVideoFilter.Init | libs/libopencl/CLVideoFilter.cpp:161-300 | After the first run, init does nothing and calls nothing, whether or not it succeeded. The first run marks the filter initialised and creates InitStage objects. |
| OpenClFilter.CLVideoFilter.SetUp | libs/libopencl/CLVideoFilter.cpp:247-298 | Each object is created only when every earlier step succeeded. |
| OpenClFilter.CLVideoFilter.SetUpQueue | libs/libopencl/CLVideoFilter.cpp:247-279 | The context exists exactly when platform, ids and context creation succeeded, and the queue exactly when the device and queue steps also did. |
| OpenClFilter.CLVideoFilter.SetUpKernel | libs/libopencl/CLVideoFilter.cpp:280-298 | The program is made only with a queue, and the kernel only once the program is built, so the stage reached is the init stage. |
| OpenClFilter.CLVideoFilter.ReleaseTextures | libs/libopencl/CLVideoFilter.cpp:304-322 | All five handles become 0 and no texture stays live. Only non-zero handles are deleted or released, textures first. |
| OpenClFilter.CLVideoFilter.DeleteTextures | libs/libopencl/CLVideoFilter.cpp:308-314 | The live textures are deleted, and the three texture handles become 0. |
| OpenClFilter.CLVideoFilter.ReleaseImages | libs/libopencl/CLVideoFilter.cpp:315-321 | The live images are released, and both handles become 0. |
| OpenClFilter.CLVideoFilter.BindInput | libs/libopencl/CLVideoFilter.cpp:421-445 | Uploads go into the temporary texture, made only when missing; a GL frame's own texture is used. The input image is released by the corrected rule. |
| OpenClFilter.CLVideoFilter.UploadInput | libs/libopencl/CLVideoFilter.cpp:421-434 | The temporary texture is reused while non-zero and made otherwise, then the frame is uploaded into it. |
| OpenClFilter.CLVideoFilter.RetireInput | libs/libopencl/CLVideoFilter.cpp:439-444 | The input image is released and zeroed exactly under the corrected rule; the texture becomes the last input. |
| OpenClFilter.CLVideoFilter.EnsureOutput | libs/libopencl/CLVideoFilter.cpp:449-451 | The output texture is made only when it is 0. |
| OpenClFilter.CLVideoFilter.EnsureImages | libs/libopencl/CLVideoFilter.cpp:455-476 | Each image is made only when it is 0, and an existing one is kept. Success means both images exist, and every creation succeeding gives success. A missing input image whose creation or format query fails gives false, and so does a missing output image whose creation fails. |
| OpenClFilter.CLVideoFilter.Process | libs/libopencl/CLVideoFilter.cpp:480-515 | The kernel pass appends exactly the kernel sequence. |
| OpenClFilter.CLVideoFilter.Filter | libs/libopencl/CLVideoFilter.cpp:388-519 | Unsupported frames give no result and call nothing. A size change releases everything first. At the same size the temporary and output textures and the output image are kept, and so is the input image while the input texture is unchanged. An image that must be made (missing, or released by a size change) and fails, or a failing format query, gives no result. On success the output image wraps the output texture, the kernel sequence ran, and the result has the frame's size. Under the corrected input rule only (see Findings), the last input texture is the frame's and the input image wraps it. |
| OpenClFilter.CLVideoFilter.Resize | libs/libopencl/CLVideoFilter.cpp:413-416 | A new size releases everything, then records the size; the same size changes nothing. |
| OpenClFilter.CLVideoFilter.Attempt | libs/libopencl/CLVideoFilter.cpp:418-519 | The frame is bound, what is missing is made, and on success the kernel runs and the result has the frame's size. Existing handles are kept as in Filter. A failed creation of a missing image, or a failed format query, gives no result. Under the corrected input rule only, the last input is the frame's texture and the input image wraps it. |
| OpenClFilter.CLVideoFilter.Prepare | libs/libopencl/CLVideoFilter.cpp:418-476 | The input is bound and the missing texture and images are made, and existing handles are kept as in Filter. The result is false only when a driver step failed, and always false when a missing image (including an input image just released) cannot be made or its format cannot be read. Under the corrected input rule only, the last input is the frame's texture. |
| OpenClFilter.CLVideoFilter.Run | libs/libopencl/CLVideoFilter.cpp:380-520 | init runs first and sets up only on the first call. An unsupported frame gives no result and keeps the size. A size change releases everything made for the old size. At the same size the temporary and output textures and the output image are kept, and so is the input image while the input texture is unchanged. With every driver call succeeding there is a result. An image that must be made and fails, or a failing format query, gives no result. On success the output image wraps the output texture, the kernel sequence is the last thing called, and the result has the frame's size. Under the corrected input rule only (see Findings), the last input texture is the frame's and the input image wraps it. |
| OpenClFilter.CLVideoFilter.Destroy | libs/libopencl/CLVideoFilter.cpp:142-157 | The textures and images are released, then kernel, program, queue and context; nothing stays live. |
| GlslFilter.Released | libs/libopencl/GLSLVideoFilter.cpp:14-26 | After release all three handles are 0 and the size is kept. |
| GlslFilter.ReleaseLog | libs/libopencl/GLSLVideoFilter.cpp:14-24 | Only the non-zero textures are deleted. |
| GlslFilter.ReleaseIdempotent | libs/libopencl/GLSLVideoFilter.cpp:14-26 | Releasing twice is releasing once, and the second release deletes nothing. |
| GlslFilter.Resized | libs/libopencl/GLSLVideoFilter.cpp:50-53 | A size change releases everything and records the size; the same size changes nothing. |
| GlslFilter.RejectedUnchanged | libs/libopencl/GLSLVideoFilter.cpp:37-48 | Invalid, unsupported and planar YUV frames come back unchanged and change nothing. |
| GlslFilter.AcceptedFrame | libs/libopencl/GLSLVideoFilter.cpp:50-82 | An accepted frame yields an empty frame and records its size. A size change starts by deleting the old textures; otherwise nothing is deleted. |
| GlslFilter.UploadKeepsTemp | libs/libopencl/GLSLVideoFilter.cpp:59-72 | A system-memory frame reuses the temporary texture while non-zero, else takes the stub's −1, and never changes the last input. |
| GlslFilter.GpuInputRecorded | libs/libopencl/GLSLVideoFilter.cpp:73-78 | A GL frame's texture becomes the last input. |
| GlslFilter.RunIdempotent | libs/libopencl/GLSLVideoFilter.cpp:29-83 | Running the same frame again leaves the state as it was and deletes nothing. |
| GlslFilter.NoOutputTexture | libs/libopencl/GLSLVideoFilter.cpp:29-83 | No sequence of frames ever makes an output texture. |
| GlslFilter.RunState | libs/libopencl/GLSLVideoFilter.cpp:29-83 | A rejected frame changes nothing. An accepted one records its size, leaves a non-zero temporary texture for an upload, and records a GL frame's texture; the output texture is never made. |
| GlslFilter.RunLog | libs/libopencl/GLSLVideoFilter.cpp:29-83 | A rejected frame makes no GL call. Otherwise only deletions, bindings and uploads are made, and an upload to the temporary texture comes last. |
| GlslFilter.RunOutput | libs/libopencl/GLSLVideoFilter.cpp:29-83 | An empty frame exactly for accepted frames; any other frame comes back unchanged. |
| GlslFilter.GLSLVideoFilterRunnable.constructor | libs/libopencl/GLSLVideoFilter.cpp:5-12 | All three handles are 0 and the size is invalid. |
| GlslFilter.GLSLVideoFilterRunnable.NewTexture | libs/libopencl/GLSLVideoFilter.hpp:27-30 | The result is −1 as a 32-bit uint, all bits set. |
| GlslFilter.GLSLVideoFilterRunnable.ReleaseTextures | libs/libopencl/GLSLVideoFilter.cpp:14-26 | The state becomes the released state, and exactly the release deletions are logged. |
| GlslFilter.GLSLVideoFilterRunnable.Run | libs/libopencl/GLSLVideoFilter.cpp:29-83 | The result, the new state and the calls made are those of the run functions above. |

## Left out

- Pixels. Painting is a log of draw operations; there is no rasterisation, colour, font rendering or image content. The canvas of `FrameScene::run` is not filled before painting, so its initial pixels are unspecified.
- Layers.Metrics and everything that renders a title: a scene size for which `W * 8` overflows a C++ `int`, or a negative height, is excluded by `PaintableSize` and not modelled.
- Threads and scheduling. The thread pool, queued signal connections, `QThread::start`/`wait` and the race between `stop()` and the running loop are not modelled. Stop is an input that marks the tick during which it arrives. Ticks are a finite sequence.
- Live.LiveThread.Tick: the source interleaves each switch update with adding that layer. The model updates all switches first, then adds the layers. The two touch disjoint state, so the result is the same.
- Live.LiveThread.ComposeScene: the magnifier's painted content is logged as the source rectangle and tint only; the zoom 0 case divides by zero in the source and is modelled as "no rectangle".
- Frame numbers are unbounded naturals; the quint64 wrap after 2^64 frames is not modelled.
- The screen's refresh rate is taken as positive; a zero rate divides by zero in the source.
- Camera set-up and camera errors in `LiveThread::init` and the camera state slots are I/O and are left out; camera frames arrive as `OnCameraFrameReady` calls.
- `qreal` and `float` arithmetic is modelled on exact reals. This covers the switch step, the slider value `value/127.0f` (computed in single precision in the source), the BigDial arithmetic and the sleep budget.
- Router: the live thread is represented by the log of calls the router makes on it; what those calls do is the `Live` model. The system tray, the simulator window, presentation full-screen and focus handling, `logMidi` output, and `saveSettings` are left out. Stored settings are a constructor parameter.
- Router.MiniStudio.constructor: the constructor's loop writes `mKnobs[1]` on every iteration rather than `mKnobs[i]`. The vector is zero-initialised anyway, so every knob starts at 0 as the model states.
- OpenCL platform selection by vendor name, the GL/CL context properties, and the OpenCL program source (the emboss kernel's pixel math) are left out. Each fallible driver call is a boolean parameter.
- OpenClFilter.CLVideoFilter.EnsureImages: the warning when the input image's channel order is not RGBA does not change control flow and is not logged.
- OpenClFilter.CLVideoFilter.Process: a failed kernel enqueue only warns in the source and the run continues; the model treats the enqueue as always logged.
- OpenClFilter.CLVideoFilter.constructor: the source leaves the interop image handles uninitialised until `init()` zeroes them. The model starts them at 0. `run()` always calls `init()` first, so no path reads them before they are set.
- OpenClFilter.CLVideoFilter.ReleaseTextures: the source deletes the GL textures before releasing the CL images that wrap them, and the model keeps that order.
- Gpu.Device: names are never reused (a fresh counter); real drivers may hand out a freed name again. The device is owned by one filter, which is what its handle-ownership invariant relies on.
- OpenClFilter.CLVideoFilter.BindInput: the class uses the corrected input-image rule of the finding below. The as-written rule is modelled by `OpenClFilter.BindAsWritten`, and `OpenClFilter.AsWrittenReadsStaleTexture` exhibits the discrepancy.
- OpenClFilter.KernelEvents: the result image is not shown to hold the output texture's pixels. `run()` passes the output texture's name as the texture target of `glGetTexImage` (libs/libopencl/CLVideoFilter.cpp:509-515), not `GL_TEXTURE_2D`. A texture name is not a valid target in general, so GL reports an invalid enum and writes nothing, and the image made at line 504 keeps unspecified contents. The model logs the call as made (`GetTexImage` with that name) and does not model what it reads.
- GlslFilter.GLSLVideoFilterRunnable.Run: the upload goes into whatever texture is bound. The stub handle −1 names no texture, so a later `glDeleteTextures` of it is logged but affects nothing. The model does not track GL validity for this filter.
- The YUV-to-RGB conversion (`qt_imageFromVideoFrame`) is modelled only as the change of format and location of the frame.

## Findings

| source | as written | input that shows it | evidently intended | confidence | as-written member | corrected member |
|---|---|---|---|---|---|---|
| libs/libopencl/CLVideoFilter.cpp:435-445 | The input interop image is released only for a GL-texture frame, only when the last input texture is non-zero and differs. The upload branch never records its texture as the last input. | Same frame size: an uploaded frame (temporary texture 7), then a GL-texture frame with texture 9. The last input is still 0, so the image over texture 7 is kept and the kernel reads 7, not 9. The reverse order (GL texture 9, then an upload into 7) keeps the image over 9. | The input image wraps the texture of the frame being processed: release it whenever the input texture differs from the one it was made for, for both kinds of frame. | medium; not executed | OpenClFilter.AsWrittenReadsStaleTexture | OpenClFilter.BindWrapsFrameTexture |
