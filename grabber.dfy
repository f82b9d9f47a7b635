/**
 * The screen colour grabber: the `isGrabbing` flag and the temporary file of
 * one capture, driven by start, stop and cancel, and the two signals it emits.
 *
 * The screenshot tool, the temporary-file calls and the image decoder are
 * replaced by inputs: the path the temporary file got, the tool's outcome,
 * and whether deleting the file succeeds. The set `onDisk` stands for the
 * temporary files that exist on disk.
 */
module Grabber {
  import opened Wrappers
  import opened Colors
  import opened Sampler

  /** How the interactive screenshot tool ended. */
  datatype CaptureOutcome =
      /** A non-empty file was written; `decoded` is the decoded image, `None` if it could not be read. */
    | ImageWritten(decoded: Option<Image>)
      /** The file is there but empty: the user cancelled the selection. */
    | EmptyFile
      /** The file is no longer there. */
    | MissingFile
      /** The tool ran and failed (a `SubprocessError`). The temporary file is still there. */
    | ToolFailed(message: string)
      /** The tool could not be started (an `OSError`, such as the tool not being installed). */
    | LaunchFailed(message: string)

  /** A signal emission: `color_grabbed(color)` or `grabbing_finished()`. */
  datatype Event = ColorGrabbed(color: Color) | GrabbingFinished

  /** The grabber's fields, with the temporary files on disk and the log of emitted signals. */
  datatype GrabberState = GrabberState(
    isGrabbing: bool,
    tempFile: Option<string>,
    onDisk: set<string>,
    events: seq<Event>)

  /** The grabber holds a (non-empty) temporary path whose file still exists. */
  predicate HasFile(s: GrabberState)
  {
    s.tempFile.Some? && s.tempFile.value != "" && s.tempFile.value in s.onDisk
  }

  /**
   * `stop_grabbing`: when grabbing, clear the flag, delete the temporary file
   * if it still exists (forgetting its path even if deletion fails) and emit
   * `grabbing_finished`; when not grabbing, do nothing.
   */
  function Stop(s: GrabberState, unlinkOk: bool): (r: GrabberState)
    ensures !r.isGrabbing
    ensures !s.isGrabbing ==> r == s
    ensures s.isGrabbing ==> r.events == s.events + [GrabbingFinished]
    ensures s.isGrabbing && HasFile(s) ==> r.tempFile.None?
    ensures s.isGrabbing && HasFile(s) ==>
              r.onDisk == if unlinkOk then s.onDisk - {s.tempFile.value} else s.onDisk
    ensures !HasFile(s) ==> r.tempFile == s.tempFile && r.onDisk == s.onDisk
  {
    if !s.isGrabbing then s
    else
      var cleaned :=
        if HasFile(s) then
          s.(tempFile := None,
             onDisk := if unlinkOk then s.onDisk - {s.tempFile.value} else s.onDisk)
        else s;
      cleaned.(isGrabbing := false, events := s.events + [GrabbingFinished])
  }

  /**
   * `_get_color_from_screenshot`: when the temporary file exists and decodes
   * to an image with pixels, emit `color_grabbed` with its centre pixel;
   * otherwise do nothing. Nothing but the event log changes.
   */
  function Sample(s: GrabberState, decoded: Option<Image>): (r: GrabberState)
    ensures r.(events := s.events) == s
    ensures r.events == s.events ||
            exists c :: r.events == s.events + [ColorGrabbed(c)] && decoded.Some? && Some(c) == SampleCenter(decoded.value)
  {
    if !HasFile(s) || decoded.None? then s
    else
      match SampleCenter(decoded.value)
      case None => s
      case Some(c) => s.(events := s.events + [ColorGrabbed(c)])
  }

  /**
   * The state once the temporary file was made at `path` and the tool ran:
   * grabbing, holding `path`, and the file there unless the tool left none.
   */
  function Captured(s: GrabberState, path: string, outcome: CaptureOutcome): (r: GrabberState)
  {
    s.(isGrabbing := true,
       tempFile := Some(path),
       onDisk := if outcome.MissingFile? then s.onDisk - {path} else s.onDisk + {path})
  }

  /**
   * `start_grabbing` as written. A call while grabbing does nothing. A
   * non-empty file is sampled, an empty or missing one cancels, a tool
   * failure cancels; each path then reaches `stop_grabbing` once more. A
   * failure to start the tool is not caught: the call ends by raising,
   * before any stop.
   */
  function StartAsWritten(s: GrabberState, path: string, outcome: CaptureOutcome, unlinkOk: bool): (r: GrabberState)
    ensures s.isGrabbing ==> r == s
    ensures !s.isGrabbing ==> (r.isGrabbing <==> outcome.LaunchFailed?)
    ensures !s.isGrabbing && outcome.LaunchFailed? ==> r.events == s.events
  {
    if s.isGrabbing then s
    else
      var c := Captured(s, path, outcome);
      match outcome
      case LaunchFailed(_) => c
      case ImageWritten(decoded) => Stop(Sample(c, decoded), unlinkOk)
      case _ => Stop(Stop(c, unlinkOk), unlinkOk)
  }

  /**
   * `start_grabbing` as evidently intended: a failure to start the tool is
   * handled like a tool failure (cancel, then stop).
   */
  function Start(s: GrabberState, path: string, outcome: CaptureOutcome, unlinkOk: bool): (r: GrabberState)
    ensures !r.isGrabbing || s.isGrabbing
    ensures s.isGrabbing ==> r == s
    ensures !s.isGrabbing && outcome.LaunchFailed? ==> r.events == s.events + [GrabbingFinished]
  {
    if !s.isGrabbing && outcome.LaunchFailed? then
      Stop(Stop(Captured(s, path, outcome), unlinkOk), unlinkOk)
    else
      StartAsWritten(s, path, outcome, unlinkOk)
  }

  /** The `color_grabbed` emission a capture outcome calls for: the centre pixel of a decoded image with pixels. */
  function GrabbedEvents(outcome: CaptureOutcome): (emitted: seq<Event>)
  {
    if outcome.ImageWritten? && outcome.decoded.Some? then
      match SampleCenter(outcome.decoded.value)
      case Some(c) => [ColorGrabbed(c)]
      case None => []
    else []
  }

  /** How many `grabbing_finished` emissions a log holds. */
  function FinishedCount(events: seq<Event>): (n: nat)
  {
    if events == [] then 0
    else FinishedCount(events[..|events| - 1]) + if events[|events| - 1] == GrabbingFinished then 1 else 0
  }

  /** The colours of the `color_grabbed` emissions in a log, in order. */
  function GrabbedColors(events: seq<Event>): (colors: seq<Color>)
  {
    if events == [] then []
    else GrabbedColors(events[..|events| - 1]) +
         match events[|events| - 1] case ColorGrabbed(c) => [c] case GrabbingFinished => []
  }

  lemma {:induction false} LogAppend(a: seq<Event>, b: seq<Event>)
    ensures FinishedCount(a + b) == FinishedCount(a) + FinishedCount(b)
    ensures GrabbedColors(a + b) == GrabbedColors(a) + GrabbedColors(b)
    decreases |b|
  {
    if b == [] {
      assert a + b == a;
    } else {
      var b' := b[..|b| - 1];
      assert (a + b)[..|a + b| - 1] == a + b';
      assert (a + b)[|a + b| - 1] == b[|b| - 1];
      LogAppend(a, b');
    }
  }

  /** Starting while a grab is in progress changes nothing. */
  lemma StartWhileGrabbing(s: GrabberState, path: string, outcome: CaptureOutcome, unlinkOk: bool)
    requires s.isGrabbing
    ensures StartAsWritten(s, path, outcome, unlinkOk) == s
    ensures Start(s, path, outcome, unlinkOk) == s
  {
  }

  /**
   * A handled start (any outcome but a failure to launch the tool) ends not
   * grabbing, with the temporary file deleted and its path forgotten, except
   * that a file that had already vanished leaves its path behind. When
   * deletion fails the file stays on disk.
   */
  lemma HandledStartCleansUp(s: GrabberState, path: string, outcome: CaptureOutcome, unlinkOk: bool)
    requires !s.isGrabbing && !outcome.LaunchFailed? && path != ""
    ensures var r := StartAsWritten(s, path, outcome, unlinkOk);
      && !r.isGrabbing
      && (r.tempFile.None? <==> !outcome.MissingFile?)
      && (r.tempFile.Some? ==> r.tempFile.value == path)
      && (r.onDisk == if unlinkOk || outcome.MissingFile? then s.onDisk - {path} else s.onDisk + {path})
  {
    var c := Captured(s, path, outcome);
    if outcome.ImageWritten? {
      assert Sample(c, outcome.decoded).(events := c.events) == c;
    }
  }

  /**
   * A handled start emits, in order, `color_grabbed` exactly when a decoded
   * image with pixels was captured, then `grabbing_finished` exactly once,
   * although the cancel paths reach `stop_grabbing` twice.
   */
  lemma HandledStartSignals(s: GrabberState, path: string, outcome: CaptureOutcome, unlinkOk: bool)
    requires !s.isGrabbing && !outcome.LaunchFailed? && path != ""
    ensures StartAsWritten(s, path, outcome, unlinkOk).events == s.events + GrabbedEvents(outcome) + [GrabbingFinished]
  {
  }

  /**
   * Counted over the log: one more `grabbing_finished`, at most one more
   * `color_grabbed`, and none at all unless an image was captured.
   */
  lemma HandledStartSignalCounts(s: GrabberState, path: string, outcome: CaptureOutcome, unlinkOk: bool)
    requires !s.isGrabbing && !outcome.LaunchFailed? && path != ""
    ensures var r := StartAsWritten(s, path, outcome, unlinkOk);
      && FinishedCount(r.events) == FinishedCount(s.events) + 1
      && |GrabbedColors(r.events)| <= |GrabbedColors(s.events)| + 1
      && (!outcome.ImageWritten? ==> GrabbedColors(r.events) == GrabbedColors(s.events))
  {
    HandledStartSignals(s, path, outcome, unlinkOk);
    EmissionCounts(s.events, outcome);
  }

  lemma EmissionCounts(events: seq<Event>, outcome: CaptureOutcome)
    ensures var after := events + GrabbedEvents(outcome) + [GrabbingFinished];
      && FinishedCount(after) == FinishedCount(events) + 1
      && |GrabbedColors(after)| <= |GrabbedColors(events)| + 1
      && (!outcome.ImageWritten? ==> GrabbedColors(after) == GrabbedColors(events))
  {
    var g := GrabbedEvents(outcome);
    LogAppend(events, g);
    LogAppend(events + g, [GrabbingFinished]);
    assert FinishedCount([GrabbingFinished]) == 1 by {
      assert [GrabbingFinished][..0] == [];
    }
    assert GrabbedColors([GrabbingFinished]) == [] by {
      assert [GrabbingFinished][..0] == [];
    }
    if g != [] {
      assert g[..0] == [];
    }
  }

  /**
   * As written, a failure to start the tool leaves the grabber grabbing, with
   * its temporary file on disk and no `grabbing_finished` emitted, and every
   * later start is then ignored.
   */
  lemma LaunchFailureLeavesGrabberBusy(s: GrabberState, path: string, message: string, unlinkOk: bool)
    requires !s.isGrabbing
    ensures var r := StartAsWritten(s, path, LaunchFailed(message), unlinkOk);
      && r.isGrabbing && r.tempFile == Some(path) && path in r.onDisk
      && r.events == s.events
      && forall p, o, u :: StartAsWritten(r, p, o, u) == r
  {
  }

  /** The corrected start differs from the code as written only on a failure to start the tool. */
  lemma StartAgreesWithWritten(s: GrabberState, path: string, outcome: CaptureOutcome, unlinkOk: bool)
    requires s.isGrabbing || !outcome.LaunchFailed?
    ensures Start(s, path, outcome, unlinkOk) == StartAsWritten(s, path, outcome, unlinkOk)
  {
  }

  /**
   * With the correction, every start from idle ends idle, with the temporary
   * file deleted (when deletion works), and emits `grabbing_finished` exactly
   * once, a failure to start the tool included.
   */
  lemma StartReturnsToIdle(s: GrabberState, path: string, outcome: CaptureOutcome, unlinkOk: bool)
    requires !s.isGrabbing && path != ""
    ensures var r := Start(s, path, outcome, unlinkOk);
      && !r.isGrabbing
      && (unlinkOk ==> r.onDisk == s.onDisk - {path})
      && r.events == s.events + GrabbedEvents(outcome) + [GrabbingFinished]
      && FinishedCount(r.events) == FinishedCount(s.events) + 1
  {
    if outcome.LaunchFailed? {
      EmissionCounts(s.events, outcome);
    } else {
      HandledStartCleansUp(s, path, outcome, unlinkOk);
      HandledStartSignalCounts(s, path, outcome, unlinkOk);
      HandledStartSignals(s, path, outcome, unlinkOk);
    }
  }

  /** One grab request: the temporary path, the tool's outcome and whether deletion works. */
  datatype Attempt = Attempt(path: string, outcome: CaptureOutcome, unlinkOk: bool)

  /** A series of grab requests, each started with the corrected start. */
  function Session(s: GrabberState, attempts: seq<Attempt>): (r: GrabberState)
    decreases |attempts|
  {
    if attempts == [] then s
    else
      var a := attempts[|attempts| - 1];
      Start(Session(s, attempts[..|attempts| - 1]), a.path, a.outcome, a.unlinkOk)
  }

  /**
   * Over any series of requests from idle, the grabber is idle after each
   * one, `grabbing_finished` is emitted once per request and `color_grabbed`
   * at most once per request.
   */
  lemma {:induction false} SessionSignals(s: GrabberState, attempts: seq<Attempt>)
    requires !s.isGrabbing
    requires forall i :: 0 <= i < |attempts| ==> attempts[i].path != ""
    ensures var r := Session(s, attempts);
      && !r.isGrabbing
      && FinishedCount(r.events) == FinishedCount(s.events) + |attempts|
      && |GrabbedColors(r.events)| <= |GrabbedColors(s.events)| + |attempts|
    decreases |attempts|
  {
    if attempts != [] {
      var before := attempts[..|attempts| - 1];
      var a := attempts[|attempts| - 1];
      SessionSignals(s, before);
      var m := Session(s, before);
      StartReturnsToIdle(m, a.path, a.outcome, a.unlinkOk);
      EmissionCounts(m.events, a.outcome);
    }
  }

  class ScreenColorGrabber {
    var isGrabbing: bool
    var tempFile: Option<string>
    /** The temporary files that exist on disk. */
    var onDisk: set<string>
    /** The signals emitted so far, oldest first. */
    var events: seq<Event>

    function State(): GrabberState
      reads this
    {
      GrabberState(isGrabbing, tempFile, onDisk, events)
    }

    constructor ()
      ensures State() == GrabberState(false, None, {}, [])
    {
      isGrabbing := false;
      tempFile := None;
      onDisk := {};
      events := [];
    }

    /**
     * `start_grabbing` as written. `path` is the file `mkstemp` made,
     * `outcome` how the screenshot tool ended and `unlinkOk` whether deleting
     * the file succeeds. `raised` is the exception that escapes the call: the
     * `OSError` of a tool that could not be started.
     */
    method StartGrabbing(path: string, outcome: CaptureOutcome, unlinkOk: bool) returns (raised: Option<string>)
      modifies this
      ensures State() == StartAsWritten(old(State()), path, outcome, unlinkOk)
      ensures raised == if !old(isGrabbing) && outcome.LaunchFailed? then Some(outcome.message) else None
    {
      if isGrabbing {
        return None;
      }
      isGrabbing := true;
      tempFile := Some(path);
      onDisk := onDisk + {path};
      if outcome.LaunchFailed? {
        return Some(outcome.message);
      }
      if outcome.ToolFailed? {
        CancelGrabbing("Error capturing screenshot: " + outcome.message, unlinkOk);
      } else {
        if outcome.MissingFile? {
          onDisk := onDisk - {path};
        }
        if outcome.ImageWritten? {
          GetColorFromScreenshot(outcome.decoded);
        } else {
          CancelGrabbing("Screenshot cancelled", unlinkOk);
        }
      }
      StopGrabbing(unlinkOk);
      raised := None;
    }

    /** `_get_color_from_screenshot`, given what decoding the temporary file yields. */
    method GetColorFromScreenshot(decoded: Option<Image>)
      modifies this
      ensures State() == Sample(old(State()), decoded)
    {
      if tempFile.None? || tempFile.value == "" || tempFile.value !in onDisk {
        return;
      }
      if decoded.None? {
        return;
      }
      var image := decoded.value;
      if image.width <= 0 || image.height <= 0 {
        return;
      }
      var (centerX, centerY) := Center(image.width, image.height);
      events := events + [ColorGrabbed(image.pixel(centerX, centerY))];
    }

    /** `stop_grabbing`. */
    method StopGrabbing(unlinkOk: bool)
      modifies this
      ensures State() == Stop(old(State()), unlinkOk)
    {
      if !isGrabbing {
        return;
      }
      isGrabbing := false;
      if tempFile.Some? && tempFile.value != "" && tempFile.value in onDisk {
        if unlinkOk {
          onDisk := onDisk - {tempFile.value};
        }
        tempFile := None;
      }
      events := events + [GrabbingFinished];
    }

    /** `_cancel_grabbing`: the message is only printed; then stop. */
    method CancelGrabbing(message: string, unlinkOk: bool)
      modifies this
      ensures State() == Stop(old(State()), unlinkOk)
    {
      StopGrabbing(unlinkOk);
    }
  }
}
