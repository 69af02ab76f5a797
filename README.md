# screenshort — a Dafny model of its capture and selection logic

screenshort is a macOS menu-bar app. It takes a full-screen, single-window or dragged-area screenshot and saves it as PNG or JPEG. This project models the decision logic around that work. The pixels and the operating-system calls are left out.

- **Screenshot** (`screenshot_manager.dfy`) is the capture bridge of `ScreenshotManager`. A class holds the source's `stream` field and its continuation slot, each stored continuation identified by a number. It also keeps, as ghost state, what the outside world can observe: every resumption in order, and how many streams were created, started and told to stop. Each system callback is one method:
  - `Capture` is permission, setup and attaching the output;
  - `OnStartCaptureCompleted` is the start-capture completion;
  - `OnFrame` is a delivered sample buffer;
  - `OnStopCaptureCompleted` is the stop completion.

  The operating system's answers are parameters of these methods. The same module holds the pure decisions of the file: the stream configuration chosen for the content, the window lookup by exact frame, the three capture triggers with their selection handlers, the extension-to-encoding choice and the save outcome.
- **Selection** (`selection_view.dfy`) is the drag overlay `SelectionView`. It is a class with `startPoint` and `endPoint` and a ghost history of drag locations. The invariant is: the start point is the first location ever seen, and the end point is the latest. The rectangle is normalised with min/abs. The same normalisation is used for the stroked rectangle (`Drawn`) and for the reported one (`OnEnded`).
- **WindowSelection** (`window_selection_view.dfy`) is `WindowSelectionView`. Window-info records have optional fields, one per dictionary lookup and `as?` cast. `VisibleRects` is the compactMap of `loadWindows`. The view class stores the result and handles the two kinds of tap.
- **Hotkey** (`hotkey_manager.dfy`) is `HotkeyManager`. Two installed-monitor flags are set only when the process is trusted for accessibility. The key-down match predicates are command+shift plus key code 20 or 21.
- **Geometry** and **Wrappers** hold points, rectangles, truncation toward zero (Swift's `Int(_:)`), `Option` and `Result`.

Coordinates are exact reals, standing in for CGFloat. The state classes are driven by sequential method calls, one event at a time.

Two things the source really does are stated in the contracts:
- The permission-denied path and the unsupported-content path resume the new continuation but do not empty the slot. Afterwards the slot holds a continuation that was already resumed (`Capture` ensures `Resumed(c) && !Pending()`). `OnFrame` and `OnStartCaptureCompleted` keep `ResumedAtMostOnce()` only when the slot is empty or pending.
- `SelectionView` never clears `startPoint` when a drag ends, so a second drag in the same view keeps the first drag's start point.

## Model

| member | source | states |
|---|---|---|
| Geometry.Truncate | screenshort/ScreenshotManager.swift:118-119 | Converting a coordinate to an integer truncates toward zero: the result is within one of the value, on the side of zero |
| Screenshot.StreamFor | screenshort/ScreenshotManager.swift:112-133 | A display is filtered with no excluded windows; its configured size is the truncated rect size and its source rect is the rect. A window's size comes from its frame and its source rect is zero. Other content fails with error code 2. Every stream caps at 1/60 s, has queue depth 5 and no audio |
| Screenshot.ScreenshotManager.constructor | screenshort/ScreenshotManager.swift:8-13 | A new manager has no stream, an empty slot and no resumptions |
| Screenshot.ScreenshotManager.Capture | screenshort/ScreenshotManager.swift:103-151 | A new continuation goes into the slot. Without permission it is resumed with code 1; unsupported content resumes it with code 2. Both leave the slot holding it, create no stream and start nothing. Otherwise the configured stream is created. An attach error resumes the continuation with that error and empties the slot; else a start is requested and the slot stays pending. Capture itself never resumes a continuation a second time: if none had been resumed twice before, none has after |
| Screenshot.ScreenshotManager.OnStartCaptureCompleted | screenshort/ScreenshotManager.swift:144-149 | No error changes nothing. An error resumes the slot's continuation with it only if the slot is full, then empties the slot |
| Screenshot.ScreenshotManager.OnFrame | screenshort/ScreenshotManager.swift:154-170 | A frame that is not screen output, is invalid, or has no image buffer changes nothing. A usable frame resumes the slot's continuation with its image if the slot is full, empties the slot, and issues one stop even when the slot was already empty. A later usable frame therefore resumes nothing |
| Screenshot.ScreenshotManager.OnStopCaptureCompleted | screenshort/ScreenshotManager.swift:165-169 | A stop error is only logged; the method can change no field, so it never reaches the slot |
| Screenshot.FirstFrameWins | screenshort/ScreenshotManager.swift:136-169 | For a permitted display capture, after an invalid frame, two usable frames and a late start error, there is exactly one resumption, with the first usable frame's image. Two stops were issued, and the configuration has the rect's truncated size |
| Screenshot.DeniedCreatesNoStream | screenshort/ScreenshotManager.swift:105-110 | Without permission the only resumption is error code 1, no stream is created, and the slot still holds the continuation |
| Screenshot.FirstWindowWithFrame | screenshort/ScreenshotManager.swift:50 | Returns the first window whose frame equals the rect exactly; returns nothing exactly when no window's frame equals it |
| Screenshot.FullScreen | screenshort/ScreenshotManager.swift:15-28 | The first display's whole frame is captured. A thrown error or having no display captures nothing. The image is saved only if one came back |
| Screenshot.WindowSelectedAsWritten | screenshort/ScreenshotManager.swift:44-63 | Captures the same as the corrected handler. It leaves the panel open exactly when there is a selection, the content is available and no window matches |
| Screenshot.WindowSelected | screenshort/ScreenshotManager.swift:44-63 | A capture happens exactly when there is a selection, the content is available and some window's frame equals the selection. That first window is then captured with the selected rect. The panel is always closed |
| Screenshot.AreaSelectedAsWritten | screenshort/ScreenshotManager.swift:80-98 | Captures the same as the corrected handler. It leaves the panel open exactly when there is a selection, the content is available and there is no display |
| Screenshot.AreaSelected | screenshort/ScreenshotManager.swift:80-98 | A capture happens exactly when there is a selection, the content is available and there is a display. The first display is captured at the selected rect. The panel is always closed |
| Screenshot.WindowNotFoundLeavesPanelOpen | screenshort/ScreenshotManager.swift:50-60 | A selection that matches no window leaves the panel open as written; the corrected handler closes it |
| Screenshot.NoDisplayLeavesPanelOpen | screenshort/ScreenshotManager.swift:85-95 | An area selection with no display leaves the panel open as written; the corrected handler closes it |
| Screenshot.CancelCapturesNothing | screenshort/ScreenshotManager.swift:46-61 | A nil selection captures nothing and saves nothing, but still closes the panel, in both handlers |
| Screenshot.Lowercase | screenshort/ScreenshotManager.swift:182 | Each character is lower-cased and the length is kept |
| Screenshot.LowercaseIdempotent | screenshort/ScreenshotManager.swift:182 | Lower-casing an already lower-cased extension changes nothing |
| Screenshot.EncodingFor | screenshort/ScreenshotManager.swift:192-196 | "png" (in any case) gives PNG; "jpg" or "jpeg" gives JPEG at compression factor 0.9; every other extension gives nothing |
| Screenshot.EncodingIgnoresCase | screenshort/ScreenshotManager.swift:182-196 | Extensions equal up to case choose the same encoding; "PNG" is PNG and "JPEG" is JPEG |
| Screenshot.DefaultFileName | screenshort/ScreenshotManager.swift:176 | The proposed name is "Screenshot-", then the date, then ".png"; its extension chooses PNG |
| Screenshot.Save | screenshort/ScreenshotManager.swift:178-203 | A file is written, in the extension's encoding, exactly when the panel answered OK, there is a URL, the TIFF data and the encoded data exist, the extension is supported and the write succeeds. The preview is shown exactly when the file was written |
| Selection.Normalize | screenshort/SelectionView.swift:33-36 | The rect has non-negative size, contains both points, and has them as opposite corners |
| Selection.NormalizeSymmetric | screenshort/SelectionView.swift:33-36 | Swapping start and end gives the same rect |
| Selection.NormalizeIsBoundingBox | screenshort/SelectionView.swift:33-36 | Any rect holding both points encloses the normalised rect |
| Selection.SelectionView.constructor | screenshort/SelectionView.swift:6-7 | A new view has neither point and has seen no drag location |
| Selection.SelectionView.Drawn | screenshort/SelectionView.swift:12-17 | A rect is stroked exactly when both points are set; it has non-negative size and contains both points |
| Selection.SelectionView.OnChanged | screenshort/SelectionView.swift:24-29 | The start point is set only when it was unset; the end point becomes the new location. The invariant is kept: the start is the first location ever seen, the end the latest |
| Selection.SelectionView.OnEnded | screenshort/SelectionView.swift:30-40 | The reported rect is the drawn rect. It is nil exactly when no drag location was seen, and otherwise the normalisation of the first and the latest location |
| WindowSelection.RectOf | screenshort/WindowSelectionView.swift:47-55 | The rect is built from exactly the X, Y, Width and Height bounds values |
| WindowSelection.VisibleRects | screenshort/WindowSelectionView.swift:40-58 | The output is never longer than the window list |
| WindowSelection.KeptFromIncreasing | screenshort/WindowSelectionView.swift:40-58 | The positions of kept entries are in range and strictly increasing |
| WindowSelection.KeptFromExact | screenshort/WindowSelectionView.swift:47-54 | A position is kept exactly when its entry passes the filter |
| WindowSelection.VisibleRectsAt | screenshort/WindowSelectionView.swift:40-58 | The k-th rect is the rect of the k-th kept entry |
| WindowSelection.VisibleRectsSelectsInOrder | screenshort/WindowSelectionView.swift:40-58 | loadWindows is an in-order selection of the list. Each kept entry yields one rect and each rect comes from a kept entry. An entry is kept exactly when it has all four bounds keys, an on-screen flag that is true (missing counts as false) and a layer of 0 (missing counts as 0). Its owner name must also differ from the app's bundle name, compared as optionals |
| WindowSelection.VisibleRectsAllKept | screenshort/WindowSelectionView.swift:40-58 | When every entry passes the filter, no rect is lost |
| WindowSelection.WindowSelectionView.constructor | screenshort/WindowSelectionView.swift:7-8 | A new view has no rects and no selection |
| WindowSelection.WindowSelectionView.LoadWindows | screenshort/WindowSelectionView.swift:34-59 | An unavailable window list leaves windowRects unchanged; otherwise windowRects becomes the filtered rects |
| WindowSelection.WindowSelectionView.TapBackground | screenshort/WindowSelectionView.swift:14-15 | Tapping the background reports nil |
| WindowSelection.WindowSelectionView.TapWindow | screenshort/WindowSelectionView.swift:25-27 | Tapping a highlighted rect selects that rect and reports it |
| Hotkey.MatchesAreExclusive | screenshort/HotkeyManager.swift:25-33 | No key event matches both hotkeys |
| Hotkey.ExtraModifiersStillMatch | screenshort/HotkeyManager.swift:25-33 | Extra modifier flags never stop a match, because the test is containment |
| Hotkey.HotkeyManager.constructor | screenshort/HotkeyManager.swift:8-20 | Both monitors are installed exactly when the process is trusted |
| Hotkey.HotkeyManager.OnKeyDown | screenshort/HotkeyManager.swift:23-36 | Full-screen capture fires exactly when its monitor is installed, the flags contain command and shift, and the key code is 20. Area capture fires likewise with key code 21. At most one action fires per event |
| Hotkey.HotkeyManager.Deinit | screenshort/HotkeyManager.swift:39-46 | Every installed monitor is removed, and the count removed matches |
| Hotkey.UntrustedIgnoresKeys | screenshort/HotkeyManager.swift:15-20 | Without accessibility trust, no key event triggers anything |

## Findings

| source | as written | input that shows it | evidently intended | confidence | as-written member | corrected member |
|---|---|---|---|---|---|---|
| screenshort/ScreenshotManager.swift:50-53 | The `guard … else { return }` inside the selection task returns before `panel.close()` and before the app's windows are brought back | A window selection whose rect equals no shareable window's frame | Close the panel and restore the windows on every path, as the nil-selection and error paths do | medium (not executed) | Screenshot.WindowSelectedAsWritten | Screenshot.WindowSelected |
| screenshort/ScreenshotManager.swift:85-88 | The same early `return` skips `panel.close()` when shareable content lists no display | An area selection while no display is listed | Close the panel on every path | medium (not executed) | Screenshot.AreaSelectedAsWritten | Screenshot.AreaSelected |

## Left out

- ScreenCaptureKit, CoreGraphics and accessibility calls (`SCShareableContent.current`, `SCStream`, `SCContentFilter`, `CGPreflightScreenCaptureAccess`, `CGWindowListCopyWindowInfo`, `AXIsProcessTrustedWithOptions`): foreign system APIs. Only their outcomes appear, as parameters.
- Image conversion and encoding (CIImage, NSImage, TIFF, `NSBitmapImageRep`) and the file write: opaque codecs and I/O. Only the encoding decision and the success flags are modelled; a frame's image is named by the frame.
- The NSPanel, NSSavePanel, NSAlert and NSWorkspace plumbing, the SwiftUI layout, and the hiding and re-showing of `NSApp.windows`: UI plumbing. Closing the panel is a flag.
- The Swift concurrency runtime: `Task` scheduling, `CheckedContinuation` suspension, and races between overlapping captures or late callbacks from an earlier stream. Events are sequential method calls on one object.
- Geometry.Truncate: coordinates are exact reals. CGFloat rounding, and the trap of `Int(_:)` on NaN, infinity or out-of-range values, are not modelled.
- Screenshot.Lowercase: lower-cases ASCII letters only; Swift's Unicode `lowercased()` is not modelled.
- Screenshot.FirstWindowWithFrame: compares frames as stored; CGRect equality on non-standardised (negative-size) rectangles is not modelled.
- The console messages of the capture triggers, the save step and the hotkey trust check (ScreenshotManager.swift lines 20, 26, 51, 57, 86, 92, 185, 201, 205; HotkeyManager.swift line 17) are console output only and are not modelled; only the stop-error log line is, as the `logged` result of `OnStopCaptureCompleted`.
- Hotkey.HotkeyManager.constructor: the accessibility prompt that the trust check may show is not modelled; trust is a parameter.
- MenuBarManager.swift, screenshortApp.swift, ContentView.swift and PermissionsManager.swift are not part of this model: they are a static menu, app-delegate wiring, a static view and two system calls.
