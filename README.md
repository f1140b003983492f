# XACT control station — a Dafny model

The application is an X-ray inspection station: a React user interface
inside a WebView2 window, and a C++ host that drives three devices — the
X-ray tube (`CXray`), the CNC manipulator (`CCnc`) and the flat-panel
detector — through vendor libraries, and exposes them to the page as COM
`IDispatch` host objects.

This project models, and proves properties of:

- the page's panels as state machines: the annotation overlay
  (`OverlayCanvas`), the detector filter panel with its undo stack
  (`DetectorControl`), the X-ray panel with its power and warm-up
  interlocks (`XrayControl`), the manipulator panel (`ManipulatorControl`),
  the layout's menu and sprite transforms (`XactLayout`) and the image
  viewer's fit and load (`ImageViewer`);
- the page's services: the detector frame decode and session
  (`DetectorService`) and the host-object retry and result conversion
  (`ImageDataService`), over a model of the JavaScript text functions they
  use (`JsText`);
- the host: the dispatch of `DeviceHandler`, `CncHandler` and
  `XrayHandler` (name tables, argument rules, state names, JSON status
  texts, the `axis,position` split, the shared-memory read, the status
  monitor's start and stop), the inline helpers of the two device headers
  (`CncHeader`, `XrayHeader`), and the gradient test image and the
  `getImageData` dispatch of the two WebView2 image handlers
  (`Gradient`, `ImageDispatch`, `WebviewBackend`, `WebviewRoot`);
- the COM vocabulary they share (`Com`: result codes, VARIANT values, the
  name-table search, comma lists and flat JSON objects) and byte types
  (`Bytes`).

Code that changes state step by step is a `class` whose methods state the
new state as a function of the old one; the properties are proved as
lemmas about those functions. The device libraries, the C runtime's text
conversions, base64 and the allocators are parameters: the model proves
what the code does with whatever they answer.

## Model

| member | source | states |
|---|---|---|
| DetectorControl.FilterChange | src/components/DetectorControl.jsx:63-68 | one slot takes the new value, the others keep theirs, and the previous slot array is pushed on the history |
| DetectorControl.Undo | src/components/DetectorControl.jsx:71-79 | pops the last snapshot back into the slots; with an empty history every slot becomes "none" |
| DetectorControl.ChangeThenUndo | src/components/DetectorControl.jsx:63-79 | a change followed by an undo restores slots and history |
| DetectorControl.UndoEmptyIdempotent | src/components/DetectorControl.jsx:76-78 | undo with an empty history is idempotent |
| DetectorControl.FourSlotsKept | src/components/DetectorControl.jsx:27-79 | every slot array, current or remembered, keeps four slots under any sequence of changes and undos |
| DetectorControl.UndoStackRestores | src/components/DetectorControl.jsx:63-79 | n in-range changes followed by n undos restore the original slots and history |
| DetectorControl.Panel.constructor | src/components/DetectorControl.jsx:13-28 | initial settings (not live, 30 fps, 1 frame, gain 1.0, exposure 100, delay 0), four "none" slots, empty history |
| DetectorControl.Panel.ToggleLive | src/components/DetectorControl.jsx:31-36 | flips `isLive` and nothing else |
| DetectorControl.Panel.HandleIntegrationChange | src/components/DetectorControl.jsx:39-44 | sets `integrationFrames` only |
| DetectorControl.Panel.HandleFpsChange | src/components/DetectorControl.jsx:47-52 | sets `fps` only |
| DetectorControl.Panel.HandleGainChange | src/components/DetectorControl.jsx:55-60 | sets `gain` only |
| DetectorControl.Panel.ToggleHistogram | src/components/DetectorControl.jsx:158 | flips `histogram` only |
| DetectorControl.Panel.HandleFilterChange | src/components/DetectorControl.jsx:63-68 | the new state is `FilterChange` of the old |
| DetectorControl.Panel.HandleUndo | src/components/DetectorControl.jsx:71-79 | the new state is `Undo` of the old |
| DetectorService.HighByte | src/services/DetectorService.js:53 | the display byte is the sample divided by 256 |
| DetectorService.HighByteMonotone | src/services/DetectorService.js:53 | a larger sample never displays darker |
| DetectorService.HighByteIgnoresLowByte | src/services/DetectorService.js:53 | samples that differ only in the low byte display alike |
| DetectorService.Decode | src/services/DetectorService.js:50-54 | one display byte per sample, each the sample's high byte |
| DetectorService.DecodeMonotone | src/services/DetectorService.js:50-54 | decoding is pointwise monotone |
| DetectorService.DecodeFrame | src/services/DetectorService.js:50-56 | the loop fills a fresh array equal to `Decode` of the view |
| DetectorService.Session.constructor | src/services/DetectorService.js:3-9 | not initialised, no callback, buffer size 0, nothing delivered, buffer all zeros |
| DetectorService.Session.Initialize | src/services/DetectorService.js:24-34 | answers true exactly when not yet initialised and the handler is present; marks the session initialised then |
| DetectorService.Session.OnNewFrame | src/services/DetectorService.js:87-89 | installs or removes the callback |
| DetectorService.Session.ReadSharedBuffer | src/services/DetectorService.js:36-61 | reallocates (zeroed) only when `width*height*2` changed; a negative size answers null and keeps the buffer; otherwise the result is `Decode` of the buffer |
| DetectorService.Session.HandleMessage | src/services/DetectorService.js:11-22 | a `newFrame` reads the buffer as `readSharedBuffer` does (size updated to `width*height*2`, reallocated zeroed only when it changed, kept on a negative size) and, with a callback and a readable size, appends exactly one decoded frame; anything else changes nothing; an all-zero buffer and all-zero delivered frames stay so |
| DetectorService.InitAnswers | src/services/DetectorService.js:24-34 | one answer per call |
| DetectorService.InitializeAtMostOnce | src/services/DetectorService.js:24-34 | over any sequence of calls that do not overlap, `initialize()` answers true at most once, and never after initialisation |
| DetectorService.SerialCallsAreInitAnswers | src/services/DetectorService.js:24-34 | with the call split at its `await`, calls that each resume before the next begins give exactly `InitAnswers` and end initialised exactly when some call found the handler |
| DetectorService.OverlappingCallsBothAnswerTrue | src/services/DetectorService.js:24-34 | two calls that both pass the `!isInitialized` test before either resumes from the `await` both answer true |
| ImageDataService.PollBounded | src/services/ImageDataService.js:9-34 | the retry counter only grows and never passes `maxRetries` (10) |
| ImageDataService.RejectOnlyWhenExhausted | src/services/ImageDataService.js:17-29 | a rejection happens only once the counter has reached the budget |
| ImageDataService.PresentResolvesAtOnce | src/services/ImageDataService.js:15-16 | a present handler resolves at once and costs no retry |
| ImageDataService.SharedBudget | src/services/ImageDataService.js:4-29 | the counter is never reset: after one rejection, a later call whose first probe fails is rejected at once |
| ImageDataService.CopyBytes | src/services/ImageDataService.js:61-64 | one byte per character, each the character code modulo 256 |
| ImageDataService.Service.constructor | src/services/ImageDataService.js:3-7 | counter 0, budget 10, interval 500 ms |
| ImageDataService.Service.WaitForImageHandler | src/services/ImageDataService.js:9-34 | counter and outcome are those of `Poll` on the probes |
| ImageDataService.Service.GetImageData | src/services/ImageDataService.js:47-78 | a rejected wait rejects; once resolved, a rejected host call rejects in turn, and otherwise the answer is `Convert` of the host result |
| ImageDataService.Convert | src/services/ImageDataService.js:58-73 | an image exactly when the result is an array of at least three and `atob` succeeds; bytes are the decoded character codes modulo 256; width and height are slots 1 and 2; otherwise a format error |
| ImageViewer.FitScale | src/components/ImageViewer.jsx:18-27 | at the returned scale the image fits within 90% of the container on both axes, with equality on one |
| ImageViewer.FitScaleIsLargest | src/components/ImageViewer.jsx:24-26 | no larger scale keeps the image inside 90% of the container |
| ImageViewer.Sprite.constructor | src/components/ImageViewer.jsx:61 | a new sprite sits at the origin, unrotated, unscaled, without filters |
| ImageViewer.App.constructor | src/components/ImageViewer.jsx:175-187 | an application with the container's size and an empty stage |
| ImageViewer.LoadedView | src/components/ImageViewer.jsx:69-81 | the loaded sprite sits at the screen centre, anchor 0.5, both scales equal to the recorded initial scale, which fits the screen |
| ImageViewer.Viewer.constructor | src/components/ImageViewer.jsx:13-16 | no application, no sprite, no current image |
| ImageViewer.Viewer.LoadImage | src/components/ImageViewer.jsx:30-105 | without an application nothing changes; otherwise the stage is cleared first; a rejected input or undecodable image leaves it empty and the current image unchanged; a loaded image is the only child, placed as `LoadedView`, and becomes the current image (for a load that completes before the next one starts) |
| ImageViewer.SerialLoadsLeaveTheLast | src/components/ImageViewer.jsx:30-82 | with the load split at its awaits, loads that do not overlap leave no load waiting and exactly the last load's sprite (one if it had a valid, decodable input, else none) |
| ImageViewer.OverlappingLoadsLeaveTwo | src/components/ImageViewer.jsx:30-82 | two loads that both clear the stage before either adds its sprite leave two sprites on the stage |
| OverlayCanvas.RectFrom | src/components/OverlayCanvas.jsx:71-77 | the stroked rectangle starts at the press point and its signed extents reach the release point |
| OverlayCanvas.RectSymmetric | src/components/OverlayCanvas.jsx:71-77 | dragging between two corners in either direction covers the same box |
| OverlayCanvas.DrawAllAppend | src/components/OverlayCanvas.jsx:150 | drawing a concatenated list draws the first part, then the second |
| OverlayCanvas.DrawOrder | src/components/OverlayCanvas.jsx:144-155 | every shape's operations come after those of the shapes before it and before those after it |
| OverlayCanvas.UpCommitsOne | src/components/OverlayCanvas.jsx:197-208 | pointer-up while drawing appends exactly one `{tool, start, end}` shape, ends drawing and changes nothing else |
| OverlayCanvas.LeaveActsAsUp | src/components/OverlayCanvas.jsx:288-289 | pointer-leave acts exactly as pointer-up; neither changes anything unless drawing |
| OverlayCanvas.DownStartsDrawing | src/components/OverlayCanvas.jsx:159-182 | pointer-down is ignored when hidden; with a drag tool it records the start point and starts drawing, nothing else |
| OverlayCanvas.SaveTextCommitsNonBlank | src/components/OverlayCanvas.jsx:214-227 | the untrimmed text is appended exactly when it is not all white space; the box is always emptied and hidden; nothing else changes |
| OverlayCanvas.ClickFlushesThenOpens | src/components/OverlayCanvas.jsx:230-253 | a text-tool click commits non-blank pending text first, then opens a box at the click point |
| OverlayCanvas.ClearAndSetTool | src/components/OverlayCanvas.jsx:54-59 | `clearCanvas` empties the shapes; `setTool` changes only the tool and commits no pending text |
| OverlayCanvas.MoveOnlyRedraws | src/components/OverlayCanvas.jsx:144-195 | pointer-move leaves the state unchanged; while drawing the frame is clear, every committed shape in order, then the preview |
| OverlayCanvas.AppendOnly | src/components/OverlayCanvas.jsx:197-227 | without `clearCanvas`, any run of events keeps the old shape list as a prefix of the new one |
| OverlayCanvas.MovesChangeNothing | src/components/OverlayCanvas.jsx:186-195 | any number of pointer moves leave the state as it was |
| OverlayCanvas.RunAppend | src/components/OverlayCanvas.jsx:285-298 | running two event lists in turn is running their concatenation |
| OverlayCanvas.DragCommitsOneShape | src/components/OverlayCanvas.jsx:159-208 | press, any moves, release on a visible overlay with a drag tool commits exactly one shape from press to release point |
| OverlayCanvas.SaveTextKeepsInv | src/components/OverlayCanvas.jsx:214-227 | committing text keeps the invariant: hidden box is empty, no committed text is blank |
| OverlayCanvas.StepKeepsInv | src/components/OverlayCanvas.jsx:159-298 | every event keeps that invariant |
| OverlayCanvas.Overlay.constructor | src/components/OverlayCanvas.jsx:17-30 | no shapes, not drawing, tool "arrow", empty hidden text box |
| OverlayCanvas.Overlay.SaveCurrentText | src/components/OverlayCanvas.jsx:214-227 | the new state is `SaveText` of the old |
| OverlayCanvas.Overlay.HandleMouseDown | src/components/OverlayCanvas.jsx:159-183 | the new state is `MouseDown` of the old |
| OverlayCanvas.Overlay.HandleMouseUp | src/components/OverlayCanvas.jsx:197-211 | the new state is `MouseUp` of the old |
| OverlayCanvas.Overlay.HandleCanvasClick | src/components/OverlayCanvas.jsx:230-253 | the new state is `CanvasClick` of the old |
| OverlayCanvas.Overlay.RedrawAll | src/components/OverlayCanvas.jsx:144-155 | the loop issues exactly `Frame`: clear, the shapes in order, the preview when drawing |
| OverlayCanvas.Overlay.HandleMouseMove | src/components/OverlayCanvas.jsx:186-195 | nothing is drawn unless drawing; otherwise the shapes in order, then the preview to the pointer |
| OverlayCanvas.Overlay.Handle | src/components/OverlayCanvas.jsx:283-299 | each wired event updates the state as `Step` says |
| XactLayout.Toggle | src/layout/XactLayout.jsx:31-33 | the bar closes exactly when the toggled menu was the open one; otherwise that menu opens |
| XactLayout.ToggleTwice | src/layout/XactLayout.jsx:31-33 | toggling one menu twice from a closed bar closes it again; another menu takes over |
| XactLayout.ClickOutside | src/layout/XactLayout.jsx:35-39 | a press outside the menu bar closes the menu; one inside keeps it |
| XactLayout.RotationsAdd | src/layout/XactLayout.jsx:178-182 | rotations add up, and rotating back by the same angle restores the sprite |
| XactLayout.ZoomKeepsAspect | src/layout/XactLayout.jsx:183-188 | both scale axes are multiplied alike: equal scales stay equal, the aspect is kept, factors multiply |
| XactLayout.ResetForgetsHistory | src/layout/XactLayout.jsx:189-198 | the corrected reset forgets rotation and zoom: rotation 0, scale 1 on both axes, position at the screen centre |
| XactLayout.ResetAsWrittenDoesNotCentre | src/layout/XactLayout.jsx:189-198 | for every sprite and screen, the reset as written keeps the position, so it agrees with the intended reset exactly when the sprite is already at the screen centre |
| XactLayout.EnhanceToggles | src/layout/XactLayout.jsx:199-217 | enhance switches between no filters and the two enhancement filters, and twice from none is the identity |
| XactLayout.Layout.constructor | src/layout/XactLayout.jsx:22-28 | no menu open, no sprite, not dragging |
| XactLayout.Layout.ToggleMenu | src/layout/XactLayout.jsx:31-33 | the open menu becomes `Toggle` of the old |
| XactLayout.Layout.HandleClickOutside | src/layout/XactLayout.jsx:35-39 | the open menu becomes `ClickOutside` of the old |
| XactLayout.Layout.HandleImageLoad | src/layout/XactLayout.jsx:42-52 | keeps the sprite, anchors it at 0.5 and starts with no drag |
| XactLayout.Layout.OnRotate | src/layout/XactLayout.jsx:178-182 | with a sprite its view becomes `Rotated`; without one nothing happens |
| XactLayout.Layout.OnZoom | src/layout/XactLayout.jsx:183-188 | with a sprite its view becomes `Zoomed` |
| XactLayout.Layout.OnReset | src/layout/XactLayout.jsx:189-198 | with a sprite its view becomes the corrected `Reset` on the viewer's screen |
| XactLayout.Layout.OnEnhance | src/layout/XactLayout.jsx:199-217 | with a sprite its view becomes `Enhanced` |
| XactLayout.Layout.PointerDown | src/layout/XactLayout.jsx:54-60 | starts dragging and records the pointer's offset from the sprite |
| XactLayout.Layout.PointerMove | src/layout/XactLayout.jsx:62-67 | while dragging the pointer-to-sprite offset stays the recorded one; otherwise the sprite does not move |
| XactLayout.Layout.PointerUp | src/layout/XactLayout.jsx:69-75 | ends dragging |
| XrayControl.Clamp | src/components/XrayControl.jsx:94-97 | the result lies in [0, hi], equals the input inside it and the nearer bound outside it |
| XrayControl.SafeAlways | src/components/XrayControl.jsx:19-102 | however the panel as written is driven, voltage stays in [0,200], current in [0,500], focus in [0,3], and the tube is powered only while connected |
| XrayControl.WarmWhileOffAsWritten | src/components/XrayControl.jsx:58-77 | as written, connect, power on, confirm, power off, disconnect, then the timer, leaves the tube warm, "XR_IS_ON", unpowered and disconnected |
| XrayControl.StepInterlocked | src/components/XrayControl.jsx:19-102 | every event of the corrected panel keeps: warm or awaiting warm-up only while powered, dialog only while powered and cold |
| XrayControl.WarmImpliesPowered | src/components/XrayControl.jsx:58-87 | in the corrected panel a warm tube is always powered and connected, after any sequence of events |
| XrayControl.AdjustInRange | src/components/XrayControl.jsx:90-102 | adjusting keeps the chosen setting in range, changes no other field, and leaves the state alone for any other kind |
| XrayControl.AdjustIsNearest | src/components/XrayControl.jsx:90-102 | the adjusted setting is the in-range value nearest the requested one |
| XrayControl.Control.constructor | src/components/XrayControl.jsx:5-17 | disconnected, unpowered, cold, 130 kV, 300 uA, focus 0, "XR_NOT_READY", no dialogs |
| XrayControl.Control.HandleConnect | src/components/XrayControl.jsx:19-41 | the new panel is `Step` of the old on a connect click |
| XrayControl.Control.HandlePowerToggle | src/components/XrayControl.jsx:43-65 | the new panel is `Step` of the old on a power click (the corrected power-off) |
| XrayControl.Control.HandleWarmupConfirm | src/components/XrayControl.jsx:67-77 | closes the dialog and starts one warm-up |
| XrayControl.Control.HandleWarmupCancel | src/components/XrayControl.jsx:79-87 | closes the dialog and switches the tube off |
| XrayControl.Control.WarmupDone | src/components/XrayControl.jsx:70-76 | the timer's completion marks the tube warm and "XR_IS_ON" |
| XrayControl.Control.HandleAdjust | src/components/XrayControl.jsx:90-102 | the new panel is `Step` of the old on an adjustment |
| ManipulatorControl.Zeros | src/components/ManipulatorControl.jsx:33 | `count` positions, every one 0 |
| ManipulatorControl.SetAxisCount | src/components/ManipulatorControl.jsx:27-37 | a count `parseInt` reads in 1..12 sets that many zero positions and clears the field; anything else changes nothing |
| ManipulatorControl.MovedPositions | src/components/ManipulatorControl.jsx:56-60 | same length; only the selected axis changes, to the sum rounded to within half a thousandth |
| ManipulatorControl.EmptyValueMatches | src/components/ManipulatorControl.jsx:25-45 | the empty initial move value passes the pattern |
| ManipulatorControl.StepValid | src/components/ManipulatorControl.jsx:27-101 | every event keeps: at most 12 axes, one position per axis, a selection inside the list, a value the pattern accepts |
| ManipulatorControl.RunValid | src/components/ManipulatorControl.jsx:27-101 | every reachable panel keeps that invariant |
| ManipulatorControl.MoveTouchesSelectedAxis | src/components/ManipulatorControl.jsx:50-71 | a move adds the rounded value to the selected axis only, keeps the length, sets "CNC_REACHED" and clears the selection and value |
| ManipulatorControl.MoveNoOps | src/components/ManipulatorControl.jsx:51-54 | no selection, an empty value or a NaN value leaves the panel unchanged |
| ManipulatorControl.StopKeepsPositions | src/components/ManipulatorControl.jsx:73-80 | stop sets "CNC_IS_READY", clears selection and value, and keeps every position |
| ManipulatorControl.ReferenceCompletes | src/components/ManipulatorControl.jsx:89-101 | reference sets referencing and "CNC_DRIVING_REF"; its timer then clears referencing and sets "CNC_STAND_STILL" |
| ManipulatorControl.Control.constructor | src/components/ManipulatorControl.jsx:12-25 | "CNC_NOT_READY", no axes, empty fields |
| ManipulatorControl.Control.HandleSetAxisCount | src/components/ManipulatorControl.jsx:27-37 | the new panel is `Step` of the old on the configure click |
| ManipulatorControl.Control.HandleMoveValueChange | src/components/ManipulatorControl.jsx:44-48 | the value is taken only when it matches the pattern |
| ManipulatorControl.Control.HandleMove | src/components/ManipulatorControl.jsx:50-71 | the new panel is `Step` of the old on the move click |
| ManipulatorControl.Control.HandleStop | src/components/ManipulatorControl.jsx:73-80 | the new panel is `Step` of the old on the stop click |
| ManipulatorControl.Control.HandleReference | src/components/ManipulatorControl.jsx:89-95 | starts referencing and one completion timer |
| ManipulatorControl.Control.ReferenceDone | src/components/ManipulatorControl.jsx:95-101 | the timer's completion stops referencing with "CNC_STAND_STILL" |
| JsText.TrimEmptyIffBlank | src/components/OverlayCanvas.jsx:215 | `trim()` is empty exactly when every character is white space |
| JsText.ParseInt | src/components/ManipulatorControl.jsx:28 | a number exactly when, after leading white space and one sign, a digit follows |
| JsText.PatternAcceptsDecimals | src/components/ManipulatorControl.jsx:45 | every optional minus, digits, optional point, digits text passes the pattern and splits back into its pieces |
| JsText.ParseMoveValue | src/components/ManipulatorControl.jsx:53-54 | NaN exactly when the text holds no digit before or right after the point |
| JsText.MatchedTextReadInFull | src/components/ManipulatorControl.jsx:45-53 | text the pattern accepts is read in full, and is NaN only when it has no digit at all |
| JsText.ReadsAsSplit | src/components/ManipulatorControl.jsx:53 | text whose sign, whole digits and fraction digits are all digits reads as the signed number `whole.fraction` they spell |
| JsText.DecimalValue | src/components/ManipulatorControl.jsx:45-53 | a value built from a minus, digits, a point and digits reads back as exactly that number |
| JsText.BareSignIsNaN | src/components/ManipulatorControl.jsx:45-53 | a sign alone or a sign and a point (such as "+.") passes the pattern but reads as NaN, so the move does nothing |
| JsText.Round3 | src/components/ManipulatorControl.jsx:58-60 | within half a thousandth of the input below 1e21 in magnitude |
| JsText.Round3Idempotent | src/components/ManipulatorControl.jsx:58-60 | rounding twice is rounding once |
| Bytes.ToUint8 | src/services/ImageDataService.js:63 | the stored byte is the value modulo 256 |
| CncHeader.Unsigned | backend/Cnc.h:51 | the unsigned reading of an `int` is below 2^32, unchanged when non-negative and at least 2^31 when negative |
| CncHeader.AxisValid | backend/Cnc.h:49-51 | `AXIS_VALID(ax)` holds exactly for 0 <= ax < 6, so negative indices are invalid |
| CncHeader.AllAxisIsNoAxis | backend/Cnc.h:51-53 | `ALL_AXIS` (-1) is never a valid single axis |
| CncHeader.FlagOf | backend/Cnc.h:101-129 | every predicate tests exactly one bit |
| CncHeader.ReadsOneBit | backend/Cnc.h:121-129 | two types that agree on a predicate's bit give the same answer |
| CncHeader.SetAndClearBit | backend/Cnc.h:121-129 | setting a predicate's bit makes it true and clearing it makes it false, except `IsOptional`, the negation of `AXIS_NOTOPTIONAL` |
| CncHeader.UnusedAxis | backend/Cnc.h:102-129 | an unused axis satisfies only `IsOptional` |
| CncHeader.IsSlaveAxis | backend/Cnc.h:115-131 | a slave exactly when the master index is not negative |
| CncHeader.DigOutQueryDecodes | backend/Cnc.h:255-258 | the query word keeps the axis index in its low 16 bits and the kind of query in bit 16; a state query is the bare index |
| CncHeader.SyncWord | backend/Cnc.h:464-467 | a word built from the four flags uses only the low four bits |
| CncHeader.SyncRoundTrip | backend/Cnc.h:464-467 | the four `CncSync_Is*` tests read back any combination of the four bits |
| CncHeader.SyncIgnoresHigherBits | backend/Cnc.h:464-467 | bits above 0x08 do not affect the tests |
| CncHeader.MoveBitsIndependent | backend/Cnc.h:66-69 | direction and step size occupy separate bits and read back independently |
| XrayHeader.PredU | backend/Xray.h:245 | `u - 1` on `UINT` is the predecessor, and 0 wraps to 2^32 - 1 |
| XrayHeader.IndexAssertedRange | backend/Xray.h:245-279 | the unsigned `ASSERT((u-1) <= (last-first))` accepts exactly 1 <= u <= last - first + 1, rejecting 0 |
| XrayHeader.CodeFor | backend/Xray.h:246-253 | an accepted index names a code inside its range |
| XrayHeader.WedgeFactorCode | backend/Xray.h:245-274 | wedge 1 names code 5 and wedge 2 names code 6, and only they |
| XrayHeader.WedgeKvCode | backend/Xray.h:250-276 | wedge 1 names 21 and wedge 2 names 22 |
| XrayHeader.WedgeUaCode | backend/Xray.h:252-278 | wedge 1 names 23 and wedge 2 names 24 |
| XrayHeader.GrayLevelCode | backend/Xray.h:279-280 | steps 1..4 (two per wedge) name codes 11..14 |
| XrayHeader.CodeRangesDisjoint | backend/Xray.h:213-228 | the helpers' code ranges lie above the scalar codes and do not overlap |
| XrayHeader.UncheckedCode | backend/Xray.h:246 | without the debug assertion the code is `first - 1 + u` modulo 2^32 |
| XrayHeader.WedgeZeroAliasesUaOffset | backend/Xray.h:216-246 | wedge 0 fails the assertion, and unchecked it addresses `NUA_UAOFFSET` |
| XrayHeader.FamilyQuery | backend/Xray.h:287-302 | `FamilyID(i)` queries a code in `FAM_ID1..FAM_ID9`, never the count or the active id |
| XrayHeader.FamilyQueryInjective | backend/Xray.h:302 | the index can be read back from the family code |
| XrayHandler.Initialize | backend/XrayHandler.cpp:42-55 | the handler holds a tube, and answers `S_OK`, exactly when the DLL loads and `Open` succeeds |
| XrayHandler.StatusName | backend/XrayHandler.cpp:101-107 | NOT_INIT_YET reads "XR_NOT_READY"; COLD, OFF and ON read as themselves; every other state, and only those, reads "UNKNOWN" |
| XrayHandler.StatusJsonFields | backend/XrayHandler.cpp:110-113 | the status text parses back to the fields isPowered, isWarmedUp, status, in that order |
| XrayHandler.GetStatus | backend/XrayHandler.cpp:93-121 | `S_OK` exactly with a tube and a result pointer, and then the status text; `E_FAIL` and no result otherwise |
| XrayHandler.NullTubeGuards | backend/XrayHandler.cpp:58-94 | without a tube every control call answers `E_FAIL` and issues no library call |
| XrayHandler.WarmUpBeforeTurnOn | backend/XrayHandler.cpp:75-85 | `TurnOn` ends with the library's `TurnOn`, preceded by `StartWarmUp` exactly when the tube is cold |
| XrayHandler.SettersKeepTheOtherValue | backend/XrayHandler.cpp:57-67 | each setter passes 0, "keep", for the value it does not set |
| XrayHandler.GetIDsOfNames | backend/XrayHandler.cpp:133-158 | `E_INVALIDARG` on null pointers; `S_OK` exactly for one name in the table of six, with its id; `DISP_E_UNKNOWNNAME` otherwise |
| XrayHandler.MethodIds | backend/XrayHandler.cpp:147-157 | every one of the six names of the table resolves to its own id, and the lookup is case-sensitive (`turnoff` is unknown) |
| XrayHandler.Invoke | backend/XrayHandler.cpp:160-192 | null params give `E_INVALIDARG` for every id; unknown ids `DISP_E_MEMBERNOTFOUND`; the setters need exactly one argument; getStatus needs a result pointer; success needs a tube |
| XrayHandler.GetStatusByName | backend/XrayHandler.cpp:133-192 | the name "getStatus" reaches id 6, which answers the status text |
| Com.Code | backend/Webview2.cpp:82-110 | each result code has its 32-bit value, and only `S_OK` has the sign bit clear |
| Com.SucceededOnlyOk | backend/Webview2.cpp:82-110 | `SUCCEEDED`/`FAILED` agree with the codes: among the modelled results only `S_OK` succeeds |
| Com.FirstMatch | backend/DeviceHandler.cpp:566-571 | the index of the first row with that name, or none exactly when no row has it |
| Com.Lookup | backend/DeviceHandler.cpp:566-573 | an id exactly when some row has the name, and then the id of such a row |
| Com.LookupDistinct | backend/DeviceHandler.cpp:529-564 | in a table of distinct names every row's name finds that row's id |
| Com.FindId | backend/DeviceHandler.cpp:566-573 | the loop returns `Lookup`: the id of the first matching row, or nothing when no row matches |
| Com.IndexOf | backend/DeviceHandler.cpp:258 | the first position of the character, or none exactly when it does not occur |
| Com.SplitAtComma | backend/DeviceHandler.cpp:258-266 | none exactly when there is no comma; otherwise the text before the first comma (comma-free) and the text after it |
| Com.SplitAtCommaInverse | backend/DeviceHandler.cpp:258-266 | cutting `a,b` gives back `a` and `b` when `a` has no comma |
| Com.SplitConcat | backend/DeviceHandler.cpp:697-698 | splitting `a,b` splits `a` and `b` separately |
| Com.SplitJoin | backend/DeviceHandler.cpp:697-698 | a comma-joined list of comma-free items splits back into the same items |
| Com.JsonArray | backend/DeviceHandler.cpp:695-701 | the loop emits `[`, the items with a comma before all but the first, then `]` |
| Com.NatText | backend/DeviceHandler.cpp:839-840 | the streamed decimal digits read back as the number |
| Com.BoolText | backend/DeviceHandler.cpp:798-803 | "true" exactly for true and "false" exactly for false |
| Com.Members | backend/DeviceHandler.cpp:796-805 | one `"key":value` member per field, in order |
| Com.ParseMemberInverse | backend/DeviceHandler.cpp:796-805 | a member reads back as its key and value when the key has no quote |
| Com.ParseMembersInverse | backend/DeviceHandler.cpp:796-805 | the members read back as the fields, in order |
| Com.MemberCommaFree | backend/DeviceHandler.cpp:796-805 | a member of a comma-free key and value has no comma |
| Com.ObjectRoundTrip | backend/DeviceHandler.cpp:796-805 | a flat object of plain fields reads back as exactly its fields, in order |
| CncHandler.StateName | backend/CncHandler.cpp:256-273 | driving-ref, started and stand-still have their own names (started reads `CNC_MOVING`); every other state, and only those, reads `CNC_NOT_READY` |
| CncHandler.StateNamesAreFour | backend/CncHandler.cpp:256-273 | the status field takes one of exactly four values |
| CncHandler.AllAxesTargets | backend/CncHandler.cpp:79-87 | six targets: the script's value for each existing axis, 0 for every slot beyond `NrAxis()` |
| CncHandler.FillTargets | backend/CncHandler.cpp:79-87 | the zero-initialised array after the fill loop equals `AllAxesTargets` |
| CncHandler.StatusReadsBack | backend/CncHandler.cpp:113-121 | the `getStatus` object parses back to its seven fields; `isDoorOpen` is true exactly when the interlock is not closed, `isJoyEnabled` exactly when not all joysticks are disabled |
| CncHandler.AxisObjects | backend/CncHandler.cpp:140-145 | one `{"name":…}` object per axis, in axis order |
| CncHandler.AxesInfoListsEveryAxis | backend/CncHandler.cpp:140-145 | with comma-free names the `axes` list splits back into exactly one object per axis, in order |
| CncHandler.PositionTexts | backend/CncHandler.cpp:163-169 | one formatted position per axis, in axis order |
| CncHandler.PositionsReadBack | backend/CncHandler.cpp:163-169 | the position list splits back into one text per axis |
| CncHandler.Invoke | backend/CncHandler.cpp:49-188 | no controller gives `E_FAIL`; an unknown id `DISP_E_MEMBERNOTFOUND`; a wrong argument count or a missing result pointer `E_INVALIDARG`; a result only on success; at most one library call |
| CncHandler.ArgumentOrder | backend/CncHandler.cpp:68-103 | `moveAxis` and `enableJoy` take the axis from `rgvarg[1]` and the position or flag from `rgvarg[0]`; the flag chooses enable or disable |
| CncHandler.MoveAllAxesTargets | backend/CncHandler.cpp:74-88 | `moveAllAxes` makes one `StartTo` call with the script's values for the existing axes and 0 beyond, and answers with the call's outcome |
| CncHandler.GetIDsOfNames | backend/CncHandler.cpp:190-219 | `E_INVALIDARG` for null pointers; otherwise the first name's id from the table, or `DISP_E_UNKNOWNNAME`; ids lie in 1..9 |
| CncHandler.EveryIdHasAName | backend/CncHandler.cpp:199-209 | every table name resolves to its own id, so all nine operations are reachable by name |
| DeviceHandler.XrayStateName | backend/DeviceHandler.cpp:634-645 | one of four names; `XR_IS_ON` exactly for on and ramping up, `XR_IS_COLD` and `XR_IS_OFF` exactly for their states, `XR_NOT_READY` for the rest |
| DeviceHandler.XrayNamesDisagree | backend/XrayHandler.cpp:100-106 | the stand-alone tube host agrees on not-initialised, cold, off and on, and differs on every other state (it says `UNKNOWN`) |
| DeviceHandler.CncStateName | backend/DeviceHandler.cpp:647-657 | one of four names; driving-ref, moving and stand-still each exactly for their own state |
| DeviceHandler.CncNamesAgree | backend/DeviceHandler.cpp:647-657 | both hosts give every CNC state the same name |
| DeviceHandler.DerivedCncStatus | backend/DeviceHandler.cpp:781-789 | standing still exactly in stand-still or when a started move has stopped on target; moving exactly when started and still moving or not on target; other states keep their name |
| DeviceHandler.XrayStatusReadsBack | backend/DeviceHandler.cpp:834-841 | the tube status object parses back to its six fields, and voltage and current read back as the set values |
| DeviceHandler.CncStatusReadsBack | backend/DeviceHandler.cpp:796-805 | the CNC status object parses back to its eight fields; `isCollisionDetected` reports that hardware collision detection is disabled, `isDoorOpen` that the interlock is open |
| DeviceHandler.GetXrayStatus | backend/DeviceHandler.cpp:819-855 | success exactly with a result pointer and a tube, then the status object; otherwise `E_INVALIDARG` and no result |
| DeviceHandler.GetCncStatus | backend/DeviceHandler.cpp:768-817 | success exactly with a result pointer and a CNC, then the status object; otherwise `E_INVALIDARG` and no result |
| DeviceHandler.PositionTexts | backend/DeviceHandler.cpp:695-701 | one fixed-precision text per axis, in axis order |
| DeviceHandler.GetPositions | backend/DeviceHandler.cpp:671-723 | `E_INVALIDARG` without a result pointer, `E_FAIL` without a CNC, otherwise the bracketed position list |
| DeviceHandler.PositionsOnePerAxis | backend/DeviceHandler.cpp:695-701 | the position list splits back into exactly `axisCount` texts, in order |
| DeviceHandler.AxisObjects | backend/DeviceHandler.cpp:736-744 | one object per axis with its id, name and limits, in axis order |
| DeviceHandler.GetAxesInfo | backend/DeviceHandler.cpp:725-764 | `E_INVALIDARG` without a result pointer, otherwise the axis count and the axis objects |
| DeviceHandler.AxisObjectReadsBack | backend/DeviceHandler.cpp:736-744 | each axis object parses back to its four fields, and the `i`-th object's id is `i` |
| DeviceHandler.ViewSize | backend/DeviceHandler.cpp:956-962 | a view spans its size rounded up to whole 4096-byte pages: a multiple of the page, at least the size and less than a page more |
| DeviceHandler.View | backend/DeviceHandler.cpp:940-962 | what the mapped address exposes: the mapping's bytes, then zeros up to a whole number of 4096-byte pages |
| DeviceHandler.ReadSharedMemoryAsWritten | backend/DeviceHandler.cpp:1239-1315 | as written: once the mapping exists, a positive size inside the view's pages succeeds and copies that many bytes from the mapped address on; a larger one faults in `memcpy` |
| DeviceHandler.ReadPastTheMapping | backend/DeviceHandler.cpp:1264-1282 | every size past the mapping but inside its last page succeeds and returns the mapping followed by bytes it does not hold |
| DeviceHandler.ReadPastTheFrame | backend/DeviceHandler.cpp:1264-1282 | an 8-byte (2x2) frame read with size 4096 succeeds as written, returning 4088 bytes past the frame, while the bounded read rejects it |
| DeviceHandler.ReadSharedMemory | backend/DeviceHandler.cpp:1239-1315 | the bounded read: success exactly for a positive size within the mapping (given allocation and access succeed), and then the first `size` bytes of the mapping |
| DeviceHandler.ReadSharedMemoryBounded | backend/DeviceHandler.cpp:1239-1315 | within the mapping the written read answers exactly what the bounded one does, and reading the whole mapping returns it |
| DeviceHandler.PropertyPut | backend/DeviceHandler.cpp:225-379 | the corrected put dispatch: unknown ids are not found; each put needs its device and its exact argument count or gets `E_INVALIDARG`; at most one library call; `ReadSharedMemory` (301) goes through the bounded read |
| DeviceHandler.PropertyPutAsWritten | backend/DeviceHandler.cpp:225-379 | the put dispatch as the host runs it: `ReadSharedMemory` (301) with two arguments is the unbounded read (`ReadSharedMemoryAsWritten`); every other put answers as `PropertyPut` does |
| DeviceHandler.PutsAgreeWithinTheMapping | backend/DeviceHandler.cpp:366-375 | whenever a shared-memory put's size stays within the mapping, the host's dispatch and the corrected one answer alike |
| DeviceHandler.PutPastTheFrame | backend/DeviceHandler.cpp:366-375 | a put of 301 with size 4096 on an 8-byte (2x2) frame: the host answers `S_OK` with the frame and 4088 more bytes, the corrected put answers `E_INVALIDARG` |
| DeviceHandler.TargetPosition | backend/DeviceHandler.cpp:239-293 | rejected with `E_INVALIDARG` exactly when the text has no comma; otherwise one move of one axis |
| DeviceHandler.TargetPositionSplits | backend/DeviceHandler.cpp:258-283 | `axis,position` moves the axis `_wtoi(axis)` to `_wtof(position)` and answers with the library's outcome |
| DeviceHandler.MethodCall | backend/DeviceHandler.cpp:386-516 | unknown ids are not found; an asynchronous call returns `S_OK` at once without a result pointer, or waits and returns the library's answer and stores it as a bool; the detector calls always return `S_OK` |
| DeviceHandler.Invoke | backend/DeviceHandler.cpp:224-516 | the corrected dispatch: a property put goes to `PropertyPut`, everything else to the method table |
| DeviceHandler.InvokeAsWritten | backend/DeviceHandler.cpp:224-516 | `Invoke` as the host runs it: puts go to `PropertyPutAsWritten`, calls to the method table; it answers as the corrected `Invoke` does except for a put of 301 |
| DeviceHandler.PutAndCallAreSeparate | backend/DeviceHandler.cpp:225-502 | calling `voltage` as a method or assigning `initializeXray` is not found |
| DeviceHandler.StartReferenceIgnoresAxis | backend/DeviceHandler.cpp:429-436 | `startReference` makes the same all-axes call whatever axis it is given |
| DeviceHandler.SharedMemoryNameIgnored | backend/DeviceHandler.cpp:366-375 | the shared-memory put depends on the size in `rgvarg[0]` and not on the name in `rgvarg[1]`; as the host runs it, it is the unbounded read, and in the corrected dispatch the bounded one |
| DeviceHandler.GetIDsOfNames | backend/DeviceHandler.cpp:524-574 | `E_INVALIDARG` for null pointers; otherwise the first name's id from the table, or `DISP_E_UNKNOWNNAME` |
| DeviceHandler.EveryNameResolves | backend/DeviceHandler.cpp:529-564 | every name of the table resolves to its own id |
| DeviceHandler.AxisCurrentResolves | backend/DeviceHandler.cpp:529-564 | the name `axisCurrent` resolves to id 14 |
| DeviceHandler.AxisCurrentIsNotHandled | backend/DeviceHandler.cpp:225-502 | yet both tables of `Invoke` answer 14 with `DISP_E_MEMBERNOTFOUND` |
| DeviceHandler.Start | backend/DeviceHandler.cpp:902-908 | afterwards monitoring is on; a second start changes nothing |
| DeviceHandler.Stop | backend/DeviceHandler.cpp:910-924 | afterwards monitoring is off and the view is dropped |
| DeviceHandler.MonitorKeepsOneThread | backend/DeviceHandler.cpp:902-924 | start and stop keep exactly one monitor thread while monitoring and none otherwise; a second start keeps the first view |
| DeviceHandler.Monitor.constructor | backend/DeviceHandler.cpp:15 | a new handler is not monitoring, has no view and no thread |
| DeviceHandler.Monitor.StartMonitoring | backend/DeviceHandler.cpp:902-908 | the fields change as `Start` says |
| DeviceHandler.Monitor.StopMonitoring | backend/DeviceHandler.cpp:910-924 | the fields change as `Stop` says |
| Gradient.Scale | backend/Webview2.cpp:51-53 | `(BYTE)(255 * n / d)` is 0 at `n = 0` and 255 at `n = d` |
| Gradient.ScaleIsFloor | backend/Webview2.cpp:51-53 | the byte is the largest whole number of 255ths not above `n / d` |
| Gradient.ScaleMonotone | backend/Webview2.cpp:51-53 | a larger numerator never gives a smaller byte |
| Gradient.GradientImage | backend/Webview2.cpp:20-26 | the image has `w*h*4` bytes |
| Gradient.PixelIndex | backend/Webview2.cpp:46 | the first byte of pixel (x, y) is a multiple of 4 and its four bytes lie inside the buffer |
| Gradient.PixelLayout | backend/Webview2.cpp:44-57 | the four bytes from `(y*w+x)*4` on are the R, G, B and A of pixel (x, y) |
| Gradient.AlphaOpaque | backend/Webview2.cpp:54 | every pixel's alpha is 255 |
| Gradient.RedRises | backend/Webview2.cpp:51 | along a row red never falls |
| Gradient.BlueFalls | backend/Webview2.cpp:53 | along a row blue never rises |
| Gradient.FirstColumn | backend/Webview2.cpp:51-53 | the first column has red 0 and blue 255 |
| Gradient.GreenByRow | backend/Webview2.cpp:52 | green is constant along a row and never falls down the image |
| Gradient.FillGradient | backend/Webview2.cpp:44-57 | after the nested loop the buffer is exactly `GradientImage(w, h)` |
| Gradient.FillRow | backend/Webview2.cpp:45-56 | the inner loop adds row `y` to the filled prefix |
| ImageDispatch.GetIDsOfNames | backend/Webview2.cpp:136-146 | null pointers give `E_INVALIDARG`; success exactly for the single name `getImageData`, with id 1; otherwise `DISP_E_UNKNOWNNAME` |
| ImageDispatch.OnlyOneName | backend/Webview2.cpp:139-142 | `getImageData` with a second name is refused; alone it resolves to 1 |
| ImageDispatch.Pack | backend/Webview2.cpp:79-120 | success exactly when encoding, allocation and all three puts succeed, then `[text, width, height]`; otherwise the first failure's code (`E_FAIL`, `E_OUTOFMEMORY`, the put's code) and no result |
| ImageDispatch.Invoke | backend/Webview2.cpp:148-157 | ids other than 1 are not found; id 1 without a result pointer is `E_POINTER`; otherwise `Pack` |
| ImageDispatch.ResultHasThreeSlots | backend/Webview2.cpp:84-114 | a successful result has three slots: a text, the width and the height |
| ImageDispatch.PageReceivesTheImage | src/services/ImageDataService.js:47-78 | when `atob` inverts the encoder, the page's `getImageData()` yields exactly the handler's bytes, width and height |
| WebviewBackend.ImageHandler.constructor | backend/Webview2.cpp:20-26 | a new handler is 640 by 480 and holds the gradient |
| WebviewBackend.ImageHandler.GenerateGradientImage | backend/Webview2.cpp:44-57 | the buffer becomes the gradient of the current size |
| WebviewBackend.ImageHandler.CreateSafeArray | backend/Webview2.cpp:79-120 | agrees with `Pack` on the handler's own buffer and size |
| WebviewBackend.ImageHandler.Invoke | backend/Webview2.cpp:148-157 | agrees with the shared `Invoke` on the handler's own buffer and size |
| WebviewBackend.FreshHandlerSendsGradient | backend/Webview2.cpp:123-125 | a fresh handler's `getImageData` answers `[text, 640, 480]` for the gradient, whose every alpha is 255 |
| WebviewRoot.ImageHandler.constructor | Webview2.cpp:142-144 | a new handler is 640 by 480 and holds the gradient |
| WebviewRoot.ImageHandler.InitializeImageData | Webview2.cpp:48-67 | the size becomes 640 by 480, the buffer `w*h*4` bytes holding the gradient |
| WebviewRoot.ImageHandler.CreateSafeArray | Webview2.cpp:90-139 | agrees with `Pack` on its arguments |
| WebviewRoot.ImageHandler.Invoke | Webview2.cpp:169-178 | agrees with the shared `Invoke` on the handler's own buffer and size |

## Left out

- Rendering: canvas 2D drawing, PIXI textures, filters and render calls; only the order of what is drawn and the rectangle's extents are modelled.
- Arrow-head and circle geometry (`atan2`, `cos`, `sin`, `sqrt`): floating-point trigonometry.
- Floating point in general: reals are exact; the gradient's `(BYTE)(255 * float)` is taken as the exact floor; `_wtoi`, `_wtof` and stream formatting of a double are parameters.
- Round3: `toFixed(3)` is modelled on exact reals (half away from zero on the magnitude, unchanged from 1e21 on), whereas the program rounds the nearest double, so a value such as 1.0005, stored just below it, prints as "1.000" in the program but rounds to 1.001 in the model.
- Timers, promises and `async`/`await`: the warm-up and reference timers, `initialize()` and `loadImage` have their resumptions as separate events; the other awaits (the image-handler polling, the host calls of the panels) are taken as completing in order.
- InitializeAtMostOnce: holds only for calls that do not overlap; two overlapping `initialize()` calls both answer true and both ask the host to initialise the detector (`DetectorService.OverlappingCallsBothAnswerTrue`).
- LoadImage: `ImageViewer.Viewer.LoadImage` models a load that completes before the next one starts; loads that overlap across its awaits (the grid page starts one per viewer on each selection change) can leave several sprites on the stage (`ImageViewer.OverlappingLoadsLeaveTwo`).
- Concurrency: the monitor thread's body, the mutexes and the `std::async` futures; `DeviceHandler.Monitor` keeps only the flag, the view and the number of threads.
- Every call into the tube, CNC and detector libraries, DLL loading and unloading: oracles whose answers are parameters; `SetGain`, `SetFPS`, `StartLive`, `StopLive` and `InitializeDetector` are such calls.
- Base64 encoding (ATL `Base64Encode`) and the page's `atob` (section 4 of RFC 4648): an encoder parameter that may fail; the end-to-end lemma assumes `atob` inverts it.
- `SysAllocString`, `ConvertToWString` and the freeing of VARIANTs, SAFEARRAYs and BSTRs: text is handed over unchanged.
- The `vt` tag of a VARIANT argument is never checked by the host, so each read sees the member it asks for.
- The `catch (...)` paths that turn an exception into `E_FAIL` are not modelled, except the one `GetPositions` takes without a CNC.
- Debug output, min/max/mean statistics and the `DeviceHandler` constructor's acquisition self-test.
- Shared-memory creation (`CreateFileMapping`, `MapViewOfFile`) and the page's `SharedArrayBuffer`; the mapping is a byte sequence, and its view is that sequence padded with zeros to whole pages.
- ReadPastTheMapping: a copy that runs past the view's pages faults in `memcpy`; the model ends such a read in `AccessViolation` and does not model what follows (the `catch (...)` does not see it under the usual `/EHsc` build), nor memory beyond the view that happens to be mapped.
- `ImageViewer`: `saveImage`, `getCurrentImageData` and URL revocation are browser plumbing.
- `DetectorService`: `startLive`, `stopLive`, `setGain` and `setFPS` only forward to the host object.
- `ImageDataService.loadImage` calls a host method the image handler does not define; it is not modelled.
- `DetectorControl`: exposure, delay and the other acquisition fields without setters are left as they are.
- `OverlayCanvas`: the branch of the pointer-down handler for the text tool cannot be reached, because the canvas wires `onMouseDown` as `currentTool !== "text" && handleMouseDown(e)` and so never calls the handler with the text tool; text is placed by the click handler.
- `ManipulatorControl`: the move handler's out-of-range axis branch cannot be reached from the panel.
- `DeviceHandler.MethodCall`: requires the tube for ids 1, 2, 5 and 6 and the CNC for 101 and 102, which the host dereferences without a check (undefined behaviour when absent).
- `DeviceHandler.GetAxesInfo`: requires the CNC, which the host dereferences without a check.
- `CncHandler.Invoke`: requires the `moveAllAxes` array to hold a value for every axis; a shorter array makes `SafeArrayGetElement` fail and the host reads an uninitialised VARIANT.
- `CncHandler.GetIDsOfNames`, `DeviceHandler.GetIDsOfNames`: require at least one name, since the host reads `rgszNames[0]` whatever `cNames` says.
- `DeviceHandler.StartReferenceIgnoresAxis`: the axis argument is captured and ignored by the host, so nothing about it is modelled.
- The reset of the layout: the code scales to 1 where a fit scale might be expected; the model follows the code in this, except the centring, for which see "## Findings".
- Presentational files (toolbar, menus, image controls, grid page, app shell, image context, image-processing panel), the MIDL-generated `DeviceHandler_i.h` and the declaration-only handler headers.

## Findings

| source | as written | input that shows it | evidently intended | confidence | as-written member | corrected member |
|---|---|---|---|---|---|---|
| src/layout/XactLayout.jsx:189-198 | `pixiAppRef` is declared but never assigned, so reset reads the screen size through a null reference and throws after rotation and scale are reset, before the sprite is centred | a sprite dragged away from the centre, then reset | reset also centres the sprite on the screen | not executed | `XactLayout.ResetAsWritten` (`XactLayout.ResetAsWrittenDoesNotCentre`) | `XactLayout.Reset` (`XactLayout.ResetForgetsHistory`) |
| src/components/XrayControl.jsx:58-77 | the warm-up timer is not cancelled at power-off and its completion does not check power | connect, power on, confirm warm-up, power off, disconnect, then the timer fires | a warm tube is always powered | not executed | `XrayControl.StepAsWritten` (`XrayControl.WarmWhileOffAsWritten`) | `XrayControl.Step` (`XrayControl.WarmImpliesPowered`) |
| backend/DeviceHandler.cpp:1245-1282 | the requested size is not compared with the mapping's size before `memcpy` | an 8-byte (2x2) frame read with size 4096 | sizes beyond the mapping are rejected with `E_INVALIDARG` | not executed | `DeviceHandler.PropertyPutAsWritten` (`DeviceHandler.PutPastTheFrame`) | `DeviceHandler.PropertyPut` (`DeviceHandler.PutsAgreeWithinTheMapping`) |
