/** The decision logic of the MediaPipe Holistic hook: delivering converted
    frames, the scoped console filter, and the camera start/stop guards.
    The library objects themselves are replaced by flags and counters. */
module Holistic {
  import opened Wrappers
  import opened Strings
  import opened Landmarks

  // ---------------------------------------------------------------------
  // onResults

  /** What the hook keeps of the frames it has processed: the last converted
      frame and, in order, the frames handed to the `onLandmarks` callback. */
  datatype FrameSink = FrameSink(lastLandmarks: Option<LandmarksData>, delivered: seq<LandmarksData>)

  /** The `onResults` callback: converts the frame, remembers it, and hands
      it to the callback when one was given. */
  function OnResults(s: FrameSink, results: HolisticResults, hasCallback: bool): (r: FrameSink)
    ensures r.lastLandmarks.Some? && r.lastLandmarks.value == ConvertResults(results)
    ensures hasCallback ==> r.delivered == s.delivered + [ConvertResults(results)]
    ensures !hasCallback ==> r.delivered == s.delivered
  {
    var frame := ConvertResults(results);
    FrameSink(Some(frame), if hasCallback then s.delivered + [frame] else s.delivered)
  }

  /** A stream of frames through `onResults`. */
  function ProcessFrames(s: FrameSink, frames: seq<HolisticResults>, hasCallback: bool): FrameSink
    decreases |frames|
  {
    if |frames| == 0 then s else ProcessFrames(OnResults(s, frames[0], hasCallback), frames[1..], hasCallback)
  }

  /** With a callback every frame is delivered, converted, once and in
      order, after what was delivered before; without one nothing is. */
  lemma {:induction false} ProcessFramesDelivers(s: FrameSink, frames: seq<HolisticResults>, hasCallback: bool)
    ensures var r := ProcessFrames(s, frames, hasCallback);
      && (!hasCallback ==> r.delivered == s.delivered)
      && (hasCallback ==>
            && |r.delivered| == |s.delivered| + |frames|
            && r.delivered[..|s.delivered|] == s.delivered
            && forall i :: 0 <= i < |frames| ==> r.delivered[|s.delivered| + i] == ConvertResults(frames[i]))
    decreases |frames|
  {
    if |frames| > 0 {
      var s1 := OnResults(s, frames[0], hasCallback);
      ProcessFramesDelivers(s1, frames[1..], hasCallback);
      if hasCallback {
        var r := ProcessFrames(s, frames, hasCallback);
        assert r == ProcessFrames(s1, frames[1..], hasCallback);
        assert r.delivered[..|s.delivered|] == r.delivered[..|s1.delivered|][..|s.delivered|];
        forall i | 0 <= i < |frames|
          ensures r.delivered[|s.delivered| + i] == ConvertResults(frames[i])
        {
          if i == 0 {
            assert r.delivered[|s.delivered|] == r.delivered[..|s1.delivered|][|s.delivered|];
          } else {
            assert frames[i] == frames[1..][i - 1];
          }
        }
      }
    }
  }

  /** Every delivered frame decodes back to the detected parts of the
      frame it came from. */
  lemma DeliveredFramesDecode(s: FrameSink, frames: seq<HolisticResults>, i: nat)
    requires i < |frames|
    ensures var delivered := ProcessFrames(s, frames, true).delivered;
      && |s.delivered| + i < |delivered|
      && var d := delivered[|s.delivered| + i];
      && (d.pose.Some? ==> DecodeList(d.pose.value) == frames[i].poseLandmarks)
      && (d.leftHand.Some? ==> DecodeList(d.leftHand.value) == frames[i].leftHandLandmarks)
      && (d.rightHand.Some? ==> DecodeList(d.rightHand.value) == frames[i].rightHandLandmarks)
  {
    ProcessFramesDelivers(s, frames, true);
    DecodeConvertResults(frames[i]);
  }

  // ---------------------------------------------------------------------
  // filterConsoleLogs

  /** A console function: either one of the environment's own functions
      (identified by a number) or a filtering wrapper installed around the
      function that was in place before it. */
  datatype Handler = Native(id: nat) | Filtering(markers: seq<string>, inner: Handler)

  datatype Console = Console(log: Handler, warn: Handler, error: Handler, info: Handler)

  /** The cleanup function `filterConsoleLogs` returns. */
  datatype Cleanup = NoOp | Restore(saved: Console)

  /** Messages `console.log` hides while the filter is installed. */
  const LogMarkers: seq<string> := [
    "GL version:", "gl_context.cc:", "I0000", "overrideMethod", "put_char",
    "write", "doWritev", "_fd_write", "$func", "holistic_solution_simd_wasm_bin"]

  /** Messages `console.warn` hides while the filter is installed. */
  const WarnMarkers: seq<string> := ["GL version:", "gl_context.cc:", "I0000"]

  predicate Suppressed(message: string, markers: seq<string>) {
    exists k | 0 <= k < |markers| :: Contains(message, markers[k])
  }

  /** Calls handler `h` with `args`: the environment function that finally
      receives the call and the arguments it receives, or `None` when a
      filter swallowed the call. A filter tests the arguments joined by a
      space. */
  function Deliver(h: Handler, args: seq<string>): (r: Option<(nat, seq<string>)>)
    ensures r.Some? ==> r.value.1 == args
    ensures r.Some? && h.Native? ==> r.value.0 == h.id
  {
    match h
    case Native(id) => Some((id, args))
    case Filtering(markers, inner) =>
      if Suppressed(Join(args, " "), markers) then None else Deliver(inner, args)
  }

  /** `filterConsoleLogs`: with logging disabled it wraps `log` and `warn`
      around the functions in place, re-assigns `error` and `info` to
      themselves, and returns a cleanup that puts all four back; with logging
      enabled it patches nothing and returns a no-op cleanup. */
  function FilterConsoleLogs(c: Console, enableLogging: bool): (r: (Console, Cleanup))
    ensures enableLogging ==> r.0 == c && r.1 == NoOp
    ensures !enableLogging ==>
      && r.0.error == c.error && r.0.info == c.info
      && r.1 == Restore(c)
  {
    if enableLogging then (c, NoOp)
    else
      (Console(Filtering(LogMarkers, c.log), Filtering(WarnMarkers, c.warn), c.error, c.info),
       Restore(c))
  }

  /** Runs a cleanup against whatever the console holds at that moment. */
  function ApplyCleanup(cleanup: Cleanup, current: Console): Console {
    match cleanup
    case NoOp => current
    case Restore(saved) => saved
  }

  /** With the filter installed, `console.log` drops a call exactly when the
      joined message contains one of the ten log markers, and forwards every
      other call, arguments unchanged, to the function it replaced (so, over
      the environment's own `console.log`, it drops a call iff a marker
      occurs). */
  lemma FilteredLogBehaviour(c: Console, args: seq<string>)
    ensures var patched := FilterConsoleLogs(c, false).0;
      && (Suppressed(Join(args, " "), LogMarkers) ==> Deliver(patched.log, args).None?)
      && (!Suppressed(Join(args, " "), LogMarkers) ==> Deliver(patched.log, args) == Deliver(c.log, args))
      && (c.log.Native? ==>
            (Deliver(patched.log, args).None? <==> Suppressed(Join(args, " "), LogMarkers)))
  {
  }

  /** The same for `console.warn` with its three markers. */
  lemma FilteredWarnBehaviour(c: Console, args: seq<string>)
    ensures var patched := FilterConsoleLogs(c, false).0;
      && (Suppressed(Join(args, " "), WarnMarkers) ==> Deliver(patched.warn, args).None?)
      && (!Suppressed(Join(args, " "), WarnMarkers) ==> Deliver(patched.warn, args) == Deliver(c.warn, args))
      && (c.warn.Native? ==>
            (Deliver(patched.warn, args).None? <==> Suppressed(Join(args, " "), WarnMarkers)))
  {
  }

  /** Every warning the filter hides would also be hidden from `console.log`:
      the warn markers are the first three log markers. */
  lemma WarnMarkersAreLogMarkers(message: string)
    requires Suppressed(message, WarnMarkers)
    ensures Suppressed(message, LogMarkers)
  {
    var k :| 0 <= k < |WarnMarkers| && Contains(message, WarnMarkers[k]);
    assert LogMarkers[k] == WarnMarkers[k];
  }

  /** The cleanup undoes the patch whatever was installed in the meantime,
      and with logging enabled the console is never touched. */
  lemma CleanupRestoresConsole(c: Console, enableLogging: bool, meanwhile: Console)
    ensures var (patched, cleanup) := FilterConsoleLogs(c, enableLogging);
      && ApplyCleanup(cleanup, patched) == c
      && (!enableLogging ==> ApplyCleanup(cleanup, meanwhile) == c)
      && (enableLogging ==> ApplyCleanup(cleanup, meanwhile) == meanwhile)
  {
  }

  // ---------------------------------------------------------------------
  // startCamera / stopCamera

  /** The refs `startCamera` and `stopCamera` look at: whether the video
      element is mounted, whether initialisation finished, whether a Holistic
      instance exists, the running camera (numbered), how many camera objects
      were constructed and how many were stopped. */
  datatype CameraHost = CameraHost(
    hasVideo: bool,
    isInitialized: bool,
    hasHolistic: bool,
    camera: Option<nat>,
    constructed: nat,
    stops: nat)

  /** `startCamera`: refuses unless the video element, initialisation and the
      Holistic instance are all there; otherwise constructs a camera and
      keeps it when `camera.start()` succeeds. */
  function StartCamera(h: CameraHost, startSucceeds: bool): (r: (CameraHost, bool))
    ensures !(h.hasVideo && h.isInitialized && h.hasHolistic) ==> r == (h, false)
    ensures r.1 <==> h.hasVideo && h.isInitialized && h.hasHolistic && startSucceeds
    ensures r.1 ==> r.0.camera == Some(h.constructed)
    ensures !r.1 ==> r.0.camera == h.camera
    ensures r.0.stops == h.stops
  {
    if !h.hasVideo || !h.isInitialized || !h.hasHolistic then (h, false)
    else if !startSucceeds then (h.(constructed := h.constructed + 1), false)
    else (h.(camera := Some(h.constructed), constructed := h.constructed + 1), true)
  }

  /** `stopCamera`: stops and forgets the running camera, if any. */
  function StopCamera(h: CameraHost): (r: CameraHost)
    ensures r.camera.None?
    ensures r.stops == if h.camera.Some? then h.stops + 1 else h.stops
  {
    if h.camera.Some? then h.(camera := None, stops := h.stops + 1) else h
  }

  /** Stopping twice is stopping once: a later call finds no camera. */
  lemma StopCameraIdempotent(h: CameraHost)
    ensures StopCamera(StopCamera(h)) == StopCamera(h)
  {
  }

  /** Starting a camera and stopping it again leaves no camera behind, and
      the one that started is stopped exactly once. */
  lemma StartThenStop(h: CameraHost, startSucceeds: bool)
    requires h.camera.None?
    ensures var (started, ok) := StartCamera(h, startSucceeds);
      && StopCamera(started).camera.None?
      && StopCamera(started).stops == h.stops + (if ok then 1 else 0)
  {
  }

  /** Starting over a running camera replaces the reference without
      stopping the old camera: a later stop reaches only the new one, so the
      old camera is never stopped. */
  lemma RestartDropsRunningCamera(h: CameraHost)
    requires h.hasVideo && h.isInitialized && h.hasHolistic
    requires h.camera.Some? && h.camera.value < h.constructed
    ensures var restarted := StartCamera(h, true).0;
      && restarted.camera.Some? && restarted.camera != h.camera
      && restarted.stops == h.stops
      && StopCamera(restarted).stops == h.stops + 1
  {
  }
}
