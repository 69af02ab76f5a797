/**
 * ScreenshotManager: the one-shot capture bridge over a screen-capture
 * stream, the three capture triggers that feed it, and the save step.
 *
 * The operating system's answers (permission, shareable content, stream
 * errors, delivered frames) are parameters; each callback the system makes
 * is a method call on the manager.
 */
module Screenshot {
  import opened Wrappers
  import opened Geometry

  datatype Display = Display(displayId: nat, frame: Rect)
  datatype Window = Window(windowId: nat, frame: Rect)

  /** What a capture is asked to record. Other kinds of content exist and are not supported. */
  datatype Content = DisplayContent(display: Display) | WindowContent(window: Window) | OtherContent

  datatype ContentFilter =
    | DisplayFilter(display: Display, excludingWindows: seq<Window>)
    | WindowFilter(window: Window)

  /** A CMTime: value / timescale seconds. */
  datatype Duration = Duration(value: int, timescale: int)

  datatype StreamConfiguration = StreamConfiguration(
    width: int,
    height: int,
    sourceRect: Rect,
    minimumFrameInterval: Duration,
    queueDepth: int,
    capturesAudio: bool)

  datatype Stream = Stream(filter: ContentFilter, configuration: StreamConfiguration)

  /** An error raised by the capture framework, known only by identity. */
  type SystemError = nat

  datatype CaptureError =
    | AppError(domain: string, code: int, description: string)
    | FrameworkError(error: SystemError)

  const ErrorDomain := "ScreenshotApp"
  const PermissionDenied := AppError(ErrorDomain, 1, "Screen recording permission not granted.")
  const UnsupportedContent := AppError(ErrorDomain, 2, "Unsupported content type.")

  /** A delivered sample buffer, known only by identity; the image made from it is named by it. */
  type Frame = nat

  /** What an awaiting capture receives: an image or a thrown error. */
  datatype Outcome = Image(frame: Frame) | Failed(error: CaptureError)

  /** One resumption of a continuation: which continuation, and with what. */
  datatype Resumption = Resumption(continuation: nat, outcome: Outcome)

  /**
   * The filter and configuration capture builds for its content: a display
   * is captured at the rectangle's (truncated) size with that rectangle as
   * source, a window at its frame's size with a zero source rectangle, and
   * any other content is refused with error code 2.
   */
  function StreamFor(content: Content, rect: Rect): (r: Result<Stream, CaptureError>)
    ensures r.Failure? <==> content.OtherContent?
    ensures r.Failure? ==> r.error == UnsupportedContent && r.error.code == 2
    ensures content.DisplayContent? ==>
      && r.Success?
      && r.value.filter == DisplayFilter(content.display, [])
      && r.value.configuration.width == Truncate(rect.width)
      && r.value.configuration.height == Truncate(rect.height)
      && r.value.configuration.sourceRect == rect
    ensures content.WindowContent? ==>
      && r.Success?
      && r.value.filter == WindowFilter(content.window)
      && r.value.configuration.width == Truncate(content.window.frame.width)
      && r.value.configuration.height == Truncate(content.window.frame.height)
      && r.value.configuration.sourceRect == ZeroRect
    ensures r.Success? ==>
      r.value.configuration.minimumFrameInterval == Duration(1, 60) &&
      r.value.configuration.queueDepth == 5 &&
      !r.value.configuration.capturesAudio
  {
    match content
    case DisplayContent(display) =>
      Success(Stream(DisplayFilter(display, []), Configure(Truncate(rect.width), Truncate(rect.height), rect)))
    case WindowContent(window) =>
      Success(Stream(WindowFilter(window), Configure(Truncate(window.frame.width), Truncate(window.frame.height), ZeroRect)))
    case OtherContent =>
      Failure(UnsupportedContent)
  }

  /** A configuration of the given size and source, at most 60 frames a second, queue depth 5, no audio. */
  function Configure(width: int, height: int, sourceRect: Rect): (c: StreamConfiguration)
  {
    StreamConfiguration(width, height, sourceRect, Duration(1, 60), 5, false)
  }

  /** A frame is used only if it is screen output, valid, and carries an image buffer. */
  predicate UsableFrame(isScreen: bool, isValid: bool, hasImageBuffer: bool)
  {
    isScreen && isValid && hasImageBuffer
  }

  /**
   * The manager's capture state: the stream and the continuation slot of
   * the source, the number of continuations handed out, and (ghost) what
   * the outside world sees of them: every resumption in order, and how many
   * streams were created, started and told to stop.
   */
  class ScreenshotManager {
    var stream: Option<Stream>
    var continuation: Option<nat>
    var nextContinuation: nat
    ghost var resumptions: seq<Resumption>
    ghost var streamsCreated: nat
    ghost var startRequests: nat
    ghost var stopRequests: nat

    /** Every continuation named in the slot or in a resumption was handed out before. */
    ghost predicate Valid()
      reads this
    {
      (continuation.Some? ==> continuation.value < nextContinuation) &&
      (forall i :: 0 <= i < |resumptions| ==> resumptions[i].continuation < nextContinuation)
    }

    /** The continuation has been resumed at least once. */
    ghost predicate Resumed(c: nat)
      reads this
    {
      exists i :: 0 <= i < |resumptions| && resumptions[i].continuation == c
    }

    /** No continuation has been resumed twice. */
    ghost predicate ResumedAtMostOnce()
      reads this
    {
      forall i, j :: 0 <= i < j < |resumptions| ==> resumptions[i].continuation != resumptions[j].continuation
    }

    /** The slot holds a continuation still waiting for its result. */
    ghost predicate Pending()
      reads this
    {
      continuation.Some? && !Resumed(continuation.value)
    }

    constructor ()
      ensures Valid() && ResumedAtMostOnce() && !Pending()
      ensures stream == None && continuation == None && nextContinuation == 0 && resumptions == []
      ensures streamsCreated == 0 && startRequests == 0 && stopRequests == 0
    {
      stream, continuation, nextContinuation, resumptions := None, None, 0, [];
      streamsCreated, startRequests, stopRequests := 0, 0, 0;
    }

    /**
     * capture(content:rect:), up to the point where it waits: store a new
     * continuation c in the slot, then fail it at once (permission missing,
     * unsupported content, attaching the output failed) or create a stream,
     * attach this manager as its output and ask it to start.
     * `permitted` is the screen-capture permission check and
     * `addOutputError` the error, if any, that attaching the output throws.
     */
    method Capture(content: Content, rect: Rect, permitted: bool, addOutputError: Option<SystemError>) returns (c: nat)
      requires Valid()
      modifies this
      ensures Valid()
      ensures c == old(nextContinuation) && nextContinuation == c + 1
      ensures stopRequests == old(stopRequests)
      ensures !permitted ==>
        continuation == Some(c) && resumptions == old(resumptions) + [Resumption(c, Failed(PermissionDenied))] &&
        stream == old(stream) && streamsCreated == old(streamsCreated) && startRequests == old(startRequests)
      ensures permitted && content.OtherContent? ==>
        continuation == Some(c) && resumptions == old(resumptions) + [Resumption(c, Failed(UnsupportedContent))] &&
        stream == old(stream) && streamsCreated == old(streamsCreated) && startRequests == old(startRequests)
      ensures permitted && !content.OtherContent? ==>
        stream == Some(StreamFor(content, rect).value) && streamsCreated == old(streamsCreated) + 1
      ensures permitted && !content.OtherContent? && addOutputError.Some? ==>
        continuation == None && resumptions == old(resumptions) + [Resumption(c, Failed(FrameworkError(addOutputError.value)))] &&
        startRequests == old(startRequests)
      ensures permitted && !content.OtherContent? && addOutputError.None? ==>
        continuation == Some(c) && resumptions == old(resumptions) && startRequests == old(startRequests) + 1 && Pending()
      ensures (!permitted || content.OtherContent?) ==> Resumed(c) && !Pending()
      ensures old(ResumedAtMostOnce()) ==> ResumedAtMostOnce()
    {
      c := nextContinuation;
      nextContinuation := nextContinuation + 1;
      continuation := Some(c);

      if !permitted {
        resumptions := resumptions + [Resumption(c, Failed(PermissionDenied))];
        assert resumptions[|resumptions| - 1].continuation == c;
        return;
      }

      var setup := StreamFor(content, rect);
      if setup.Failure? {
        resumptions := resumptions + [Resumption(c, Failed(setup.error))];
        assert resumptions[|resumptions| - 1].continuation == c;
        return;
      }

      stream := Some(setup.value);
      streamsCreated := streamsCreated + 1;
      if addOutputError.Some? {
        resumptions := resumptions + [Resumption(c, Failed(FrameworkError(addOutputError.value)))];
        continuation := None;
        return;
      }

      startRequests := startRequests + 1;
    }

    /** The completion handler of startCapture; `error` is the error it reports, if any. */
    method OnStartCaptureCompleted(error: Option<SystemError>)
      requires Valid()
      modifies this
      ensures Valid()
      ensures stream == old(stream) && nextContinuation == old(nextContinuation)
      ensures streamsCreated == old(streamsCreated) && startRequests == old(startRequests) && stopRequests == old(stopRequests)
      ensures error.None? ==> continuation == old(continuation) && resumptions == old(resumptions)
      ensures error.Some? ==> continuation == None
      ensures error.Some? && old(continuation).Some? ==>
        resumptions == old(resumptions) + [Resumption(old(continuation).value, Failed(FrameworkError(error.value)))]
      ensures error.Some? && old(continuation).None? ==> resumptions == old(resumptions)
      ensures old(ResumedAtMostOnce()) && (old(continuation).None? || old(Pending())) ==> ResumedAtMostOnce()
    {
      if error.Some? {
        if continuation.Some? {
          resumptions := resumptions + [Resumption(continuation.value, Failed(FrameworkError(error.value)))];
        }
        continuation := None;
      }
    }

    /**
     * stream(_:didOutputSampleBuffer:of:): a frame is delivered. An unusable
     * frame changes nothing. A usable one resumes the continuation in the
     * slot (if any) with its image, empties the slot and asks the stream to
     * stop, whether or not the slot was full.
     */
    method OnFrame(isScreen: bool, isValid: bool, hasImageBuffer: bool, frame: Frame)
      requires Valid()
      modifies this
      ensures Valid()
      ensures stream == old(stream) && nextContinuation == old(nextContinuation)
      ensures streamsCreated == old(streamsCreated) && startRequests == old(startRequests)
      ensures !UsableFrame(isScreen, isValid, hasImageBuffer) ==>
        continuation == old(continuation) && resumptions == old(resumptions) && stopRequests == old(stopRequests)
      ensures UsableFrame(isScreen, isValid, hasImageBuffer) ==>
        continuation == None && stopRequests == old(stopRequests) + 1
      ensures UsableFrame(isScreen, isValid, hasImageBuffer) && old(continuation).Some? ==>
        resumptions == old(resumptions) + [Resumption(old(continuation).value, Image(frame))]
      ensures old(continuation).None? ==> resumptions == old(resumptions)
      ensures old(ResumedAtMostOnce()) && (old(continuation).None? || old(Pending())) ==> ResumedAtMostOnce()
    {
      if !isScreen { return; }
      if !isValid { return; }
      if !hasImageBuffer { return; }

      if continuation.Some? {
        resumptions := resumptions + [Resumption(continuation.value, Image(frame))];
      }
      continuation := None;
      stopRequests := stopRequests + 1;
    }

    /** The completion handler of stopCapture: an error is only logged. Returns whether a log line is written. */
    method OnStopCaptureCompleted(error: Option<SystemError>) returns (logged: bool)
      ensures logged <==> error.Some?
    {
      logged := error.Some?;
    }
  }

  /**
   * With permission granted, a display capture whose stream starts and
   * whose first delivered frame is usable resolves exactly once, with that
   * frame's image; a second usable frame resolves nothing more, and both
   * frames ask the stream to stop.
   */
  method FirstFrameWins(display: Display, rect: Rect, first: Frame, second: Frame)
    returns (ghost resumptions: seq<Resumption>, ghost stops: nat, config: StreamConfiguration)
    ensures resumptions == [Resumption(0, Image(first))]
    ensures stops == 2
    ensures config.width == Truncate(rect.width) && config.height == Truncate(rect.height) && config.sourceRect == rect
  {
    var m := new ScreenshotManager();
    var c := m.Capture(DisplayContent(display), rect, true, None);
    m.OnStartCaptureCompleted(None);
    m.OnFrame(true, false, true, second);
    m.OnFrame(true, true, true, first);
    m.OnFrame(true, true, true, second);
    m.OnStartCaptureCompleted(Some(7));
    resumptions, stops, config := m.resumptions, m.stopRequests, m.stream.value.configuration;
  }

  /**
   * Without permission, a capture fails with error code 1, creates no
   * stream, and leaves its continuation in the slot.
   */
  method DeniedCreatesNoStream(content: Content, rect: Rect, addOutputError: Option<SystemError>)
    returns (ghost resumptions: seq<Resumption>, ghost streams: nat, stream: Option<Stream>, slot: Option<nat>)
    ensures resumptions == [Resumption(0, Failed(PermissionDenied))] && resumptions[0].outcome.error.code == 1
    ensures streams == 0 && stream == None
    ensures slot == Some(0)
  {
    var m := new ScreenshotManager();
    var c := m.Capture(content, rect, false, addOutputError);
    resumptions, streams, stream, slot := m.resumptions, m.streamsCreated, m.stream, m.continuation;
  }

  // ----- Window lookup and the three capture triggers -----

  datatype ShareableContent = ShareableContent(displays: seq<Display>, windows: seq<Window>)

  /** The first window whose frame equals the rectangle exactly (`first(where:)`). */
  function FirstWindowWithFrame(windows: seq<Window>, rect: Rect): (r: Option<Window>)
    ensures r.None? <==> forall i :: 0 <= i < |windows| ==> windows[i].frame != rect
    ensures r.Some? ==> exists i :: 0 <= i < |windows| && windows[i] == r.value && r.value.frame == rect &&
                                (forall j :: 0 <= j < i ==> windows[j].frame != rect)
  {
    if windows == [] then None
    else if windows[0].frame == rect then Some(windows[0])
    else
      var r := FirstWindowWithFrame(windows[1..], rect);
      assert forall i :: 1 <= i < |windows| ==> windows[i] == windows[1..][i - 1];
      assert r.Some? ==> exists i :: 1 <= i < |windows| && windows[i] == r.value && r.value.frame == rect &&
                                   (forall j :: 0 <= j < i ==> windows[j].frame != rect) by {
        if r.Some? {
          var i :| 0 <= i < |windows[1..]| && windows[1..][i] == r.value && r.value.frame == rect &&
            forall j :: 0 <= j < i ==> windows[1..][j].frame != rect;
          assert windows[i + 1] == r.value;
          assert forall j :: 0 <= j < i + 1 ==> windows[j].frame != rect by {
            forall j | 0 <= j < i + 1 ensures windows[j].frame != rect {
              if j > 0 { assert windows[j] == windows[1..][j - 1]; }
            }
          }
        }
      }
      r
  }

  /** A capture the trigger awaits. */
  datatype Request = Request(content: Content, rect: Rect)

  /** What one trigger does: the capture it awaits, if any, and whether it then saves an image. */
  datatype Effect = Effect(request: Option<Request>, saves: bool)

  /** What a selection handler does, and whether it closes its overlay panel afterwards. */
  datatype PanelEffect = PanelEffect(effect: Effect, closesPanel: bool)

  /** Await the capture of the request; save the image if one comes back. */
  function CaptureAndSave(request: Request, captured: Outcome): Effect
  {
    Effect(Some(request), captured.Image?)
  }

  const NoCapture := Effect(None, false)

  /**
   * captureFullScreen. `content` is what asking for shareable content
   * returns or throws; `captured` is what the awaited capture returns. The
   * first display is captured at its whole frame; with no display, or a
   * thrown error, nothing is captured.
   */
  function FullScreen(content: Result<ShareableContent, SystemError>, captured: Outcome): (e: Effect)
    ensures e.request.Some? <==> content.Success? && content.value.displays != []
    ensures e.request.Some? ==>
      e.request.value == Request(DisplayContent(content.value.displays[0]), content.value.displays[0].frame)
    ensures e.saves <==> e.request.Some? && captured.Image?
  {
    if content.Failure? then NoCapture
    else if content.value.displays == [] then NoCapture
    else
      var display := content.value.displays[0];
      CaptureAndSave(Request(DisplayContent(display), display.frame), captured)
  }

  /**
   * The selection handler of captureWindow as written: a guard that finds
   * no matching window returns from the task before the panel is closed.
   */
  function WindowSelectedAsWritten(selected: Option<Rect>, content: Result<ShareableContent, SystemError>, captured: Outcome): (r: PanelEffect)
    ensures r.effect == WindowSelected(selected, content, captured).effect
    ensures !r.closesPanel <==>
      selected.Some? && content.Success? && FirstWindowWithFrame(content.value.windows, selected.value).None?
  {
    if selected.None? then PanelEffect(NoCapture, true)
    else if content.Failure? then PanelEffect(NoCapture, true)
    else
      var window := FirstWindowWithFrame(content.value.windows, selected.value);
      if window.None? then PanelEffect(NoCapture, false)
      else PanelEffect(CaptureAndSave(Request(WindowContent(window.value), selected.value), captured), true)
  }

  /**
   * The selection handler of captureWindow as intended: with no selection,
   * a thrown error or no window whose frame equals the selection, nothing is
   * captured; otherwise the first such window is captured with the selected
   * rectangle. The panel is closed on every path.
   */
  function WindowSelected(selected: Option<Rect>, content: Result<ShareableContent, SystemError>, captured: Outcome): (r: PanelEffect)
    ensures r.closesPanel
    ensures r.effect.request.Some? <==>
      selected.Some? && content.Success? && FirstWindowWithFrame(content.value.windows, selected.value).Some?
    ensures r.effect.request.Some? ==>
      r.effect.request.value == Request(WindowContent(FirstWindowWithFrame(content.value.windows, selected.value).value), selected.value) &&
      r.effect.request.value.content.window.frame == selected.value
    ensures r.effect.saves <==> r.effect.request.Some? && captured.Image?
  {
    var effect :=
      if selected.None? || content.Failure? then NoCapture
      else
        var window := FirstWindowWithFrame(content.value.windows, selected.value);
        if window.None? then NoCapture
        else CaptureAndSave(Request(WindowContent(window.value), selected.value), captured);
    PanelEffect(effect, true)
  }

  /**
   * The selection handler of captureArea as written: a guard that finds no
   * display returns from the task before the panel is closed.
   */
  function AreaSelectedAsWritten(selected: Option<Rect>, content: Result<ShareableContent, SystemError>, captured: Outcome): (r: PanelEffect)
    ensures r.effect == AreaSelected(selected, content, captured).effect
    ensures !r.closesPanel <==> selected.Some? && content.Success? && content.value.displays == []
  {
    if selected.None? then PanelEffect(NoCapture, true)
    else if content.Failure? then PanelEffect(NoCapture, true)
    else if content.value.displays == [] then PanelEffect(NoCapture, false)
    else PanelEffect(CaptureAndSave(Request(DisplayContent(content.value.displays[0]), selected.value), captured), true)
  }

  /**
   * The selection handler of captureArea as intended: the selected
   * rectangle of the first display is captured when there is a selection and
   * a display; the panel is closed on every path.
   */
  function AreaSelected(selected: Option<Rect>, content: Result<ShareableContent, SystemError>, captured: Outcome): (r: PanelEffect)
    ensures r.closesPanel
    ensures r.effect.request.Some? <==> selected.Some? && content.Success? && content.value.displays != []
    ensures r.effect.request.Some? ==>
      r.effect.request.value == Request(DisplayContent(content.value.displays[0]), selected.value)
    ensures r.effect.saves <==> r.effect.request.Some? && captured.Image?
  {
    var effect :=
      if selected.None? || content.Failure? || content.value.displays == [] then NoCapture
      else CaptureAndSave(Request(DisplayContent(content.value.displays[0]), selected.value), captured);
    PanelEffect(effect, true)
  }

  /** A selection that matches no shareable window leaves the window-selection panel open. */
  lemma WindowNotFoundLeavesPanelOpen(w: Window, selected: Rect)
    requires w.frame != selected
    ensures !WindowSelectedAsWritten(Some(selected), Success(ShareableContent([], [w])), Image(0)).closesPanel
    ensures WindowSelected(Some(selected), Success(ShareableContent([], [w])), Image(0)).closesPanel
  {
  }

  /** An area selection with no display leaves the area-selection panel open. */
  lemma NoDisplayLeavesPanelOpen(selected: Rect)
    ensures !AreaSelectedAsWritten(Some(selected), Success(ShareableContent([], [])), Image(0)).closesPanel
    ensures AreaSelected(Some(selected), Success(ShareableContent([], [])), Image(0)).closesPanel
  {
  }

  /** Cancelling a selection captures nothing and saves nothing, on both handlers. */
  lemma CancelCapturesNothing(content: Result<ShareableContent, SystemError>, captured: Outcome)
    ensures WindowSelected(None, content, captured) == PanelEffect(NoCapture, true)
    ensures AreaSelected(None, content, captured) == PanelEffect(NoCapture, true)
    ensures WindowSelectedAsWritten(None, content, captured).closesPanel
    ensures AreaSelectedAsWritten(None, content, captured).closesPanel
  {
  }

  // ----- Saving -----

  /** The encoding written for a chosen file. */
  datatype Encoding = Png | Jpeg(compressionFactor: real)

  /** ASCII lower-casing of one character. */
  function LowerChar(c: char): (d: char)
    ensures 'A' <= c <= 'Z' ==> d as int == c as int + 32
    ensures !('A' <= c <= 'Z') ==> d == c
  {
    if 'A' <= c <= 'Z' then (c as int + 32) as char else c
  }

  function Lowercase(s: string): (r: string)
    ensures |r| == |s|
    ensures forall i :: 0 <= i < |s| ==> r[i] == LowerChar(s[i])
  {
    if s == [] then [] else [LowerChar(s[0])] + Lowercase(s[1..])
  }

  /**
   * The encoding chosen from the file's extension, ignoring case: png gives
   * PNG, jpg and jpeg give JPEG at compression factor 0.9, and any other
   * extension gives nothing to write.
   */
  function EncodingFor(pathExtension: string): (r: Option<Encoding>)
    ensures r == Some(Png) <==> Lowercase(pathExtension) == "png"
    ensures r == Some(Jpeg(0.9)) <==> Lowercase(pathExtension) == "jpg" || Lowercase(pathExtension) == "jpeg"
    ensures r == None <==> Lowercase(pathExtension) !in {"png", "jpg", "jpeg"}
  {
    var ext := Lowercase(pathExtension);
    if ext == "png" then Some(Png)
    else if ext == "jpg" || ext == "jpeg" then Some(Jpeg(0.9))
    else None
  }

  /** Lower-casing twice is lower-casing once. */
  lemma {:induction false} LowercaseIdempotent(s: string)
    ensures Lowercase(Lowercase(s)) == Lowercase(s)
  {
    if s != [] {
      LowercaseIdempotent(s[1..]);
      assert Lowercase(s)[1..] == Lowercase(s[1..]);
    }
  }

  /** Extensions that differ only in case choose the same encoding; an upper-case "JPEG" is JPEG. */
  lemma EncodingIgnoresCase(a: string, b: string)
    requires Lowercase(a) == Lowercase(b)
    ensures EncodingFor(a) == EncodingFor(b)
    ensures EncodingFor("PNG") == Some(Png) && EncodingFor("JPEG") == Some(Jpeg(0.9))
  {
    assert Lowercase("PNG") == "png";
    assert Lowercase("JPEG") == "jpeg";
  }

  /** The file name the save panel proposes, after the current date's description. */
  function DefaultFileName(dateDescription: string): (name: string)
    ensures |name| == |dateDescription| + 15 && name[|name| - 4..] == ".png"
    ensures name[..11] == "Screenshot-"
    ensures EncodingFor(name[|name| - 3..]) == Some(Png)
  {
    var name := "Screenshot-" + dateDescription + ".png";
    assert name[|name| - 3..] == "png";
    name
  }

  /** The response of the save panel. */
  datatype PanelResponse = OK | Cancel

  /** What saving did: the encoding written, if any, and whether the preview alert was shown. */
  datatype SaveResult = SaveResult(written: Option<Encoding>, previewShown: bool)

  /**
   * save(image:), after the user has answered the save panel. `extension`
   * is the chosen URL's path extension (None when there is no URL);
   * `hasTiff`, `encoded` and `writeSucceeded` are what the image codecs and
   * the file write report. A file is written and previewed only when every
   * step succeeds and the extension names a supported encoding.
   */
  function Save(response: PanelResponse, extension: Option<string>, hasTiff: bool, encoded: bool, writeSucceeded: bool): (r: SaveResult)
    ensures r.previewShown <==> r.written.Some?
    ensures r.written.Some? <==>
      response == OK && extension.Some? && hasTiff && EncodingFor(extension.value).Some? && encoded && writeSucceeded
    ensures r.written.Some? ==> r.written == EncodingFor(extension.value)
  {
    if response != OK then SaveResult(None, false)
    else if extension.None? then SaveResult(None, false)
    else if !hasTiff then SaveResult(None, false)
    else
      var finalData := if encoded then EncodingFor(extension.value) else None;
      if finalData.None? then SaveResult(None, false)
      else if !writeSucceeded then SaveResult(None, false)
      else SaveResult(finalData, true)
  }
}
