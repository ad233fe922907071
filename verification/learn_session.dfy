/** The learning page's landmark pipeline: frames are buffered while
    recording and connected; every tick drains the buffer into one
    `landmarks_sequence` message, asks the motion gate whether the motion was
    too fast, and then sends the message, starts the cool-down, or counts the
    cool-down down. Also the stop/clear branch, the buffer reset on a sign
    change, and moving to the next sign. The motion gate is a parameter, the
    clock is a parameter, and sending appends to an outbox. */
module LearnSession {
  import opened Wrappers
  import opened Domain
  import opened Landmarks
  import opened ClassifierHook

  const BufferDuration: int := 1000
  const PauseCooldown: int := 3000
  const SlowDownText: string := "천천히 동작해주세요"

  /** The `data` of a `landmarks_sequence` message. */
  datatype LandmarksSequence = LandmarksSequence(
    sequence: seq<LandmarksData>,
    timestamp: int,
    frameCount: nat)

  /** One message handed to `sendMessage`, with the connection it goes to. */
  datatype Outbound = Outbound(message: LandmarksSequence, connectionId: string)

  /** The page state next to the hook's. `bufferingPauseTime` is the
      remaining cool-down in milliseconds. */
  datatype LearnState = LearnState(
    hook: HookState,
    isRecording: bool,
    buffer: seq<LandmarksData>,
    bufferingPauseTime: int,
    transmissionCount: nat,
    sent: seq<Outbound>,
    lessons: seq<Sign>,
    currentSignIndex: nat,
    sessionComplete: bool)

  /** The page when it mounts with its chapter's lessons: recording is
      switched on by the mount effect, everything else is empty. */
  function MountedLearnState(lessons: seq<Sign>): (s: LearnState)
    ensures s.isRecording && s.buffer == [] && s.sent == [] && s.currentSignIndex == 0
  {
    LearnState(InitialHookState(), true, [], 0, 0, [], lessons, 0, false)
  }

  /** `handleLandmarksDetected`: appends the frame at the end of the buffer
      while recording and connected; otherwise drops it. Nothing else
      changes. */
  function OnLandmarks(s: LearnState, frame: LandmarksData): (r: LearnState)
    ensures s.isRecording && s.hook.isConnected ==> r.buffer == s.buffer + [frame]
    ensures !(s.isRecording && s.hook.isConnected) ==> r.buffer == s.buffer
    ensures r.(buffer := s.buffer) == s
  {
    if s.isRecording && s.hook.isConnected then s.(buffer := s.buffer + [frame]) else s
  }

  /** The message a tick builds from the buffer. */
  function SequenceMessage(buffer: seq<LandmarksData>, now: int): (m: LandmarksSequence)
    ensures m.sequence == buffer && m.frameCount == |m.sequence|
  {
    LandmarksSequence(buffer, now, |buffer|)
  }

  /** One firing of the buffer interval at time `now`. */
  function Tick(s: LearnState, isFast: LandmarksSequence -> bool, now: int): (r: LearnState)
    // an empty buffer: nothing at all happens
    ensures |s.buffer| == 0 ==> r == s
    // a non-empty buffer is always drained and always counted
    ensures |s.buffer| > 0 ==> r.buffer == [] && r.transmissionCount == s.transmissionCount + |s.buffer|
    // at most one message goes out, built from the whole buffer, on the current connection
    ensures |s.buffer| > 0 ==>
      var m := SequenceMessage(s.buffer, now);
      if !isFast(m) && !s.hook.isBufferingPaused
      then r.sent == s.sent + [Outbound(m, s.hook.currentConnectionId)]
      else r.sent == s.sent
    // the page's other state and the recording/connection flags are untouched
    ensures r.isRecording == s.isRecording && r.hook.isConnected == s.hook.isConnected
    ensures r.lessons == s.lessons && r.currentSignIndex == s.currentSignIndex
    ensures r.sessionComplete == s.sessionComplete
    ensures r.hook.feedback == s.hook.feedback && r.hook.studyList == s.hook.studyList
  {
    if |s.buffer| == 0 then s
    else
      var m := SequenceMessage(s.buffer, now);
      var gated :=
        if !isFast(m) then
          var paused :=
            if s.hook.isBufferingPaused && s.bufferingPauseTime > 0 then
              var remaining := s.bufferingPauseTime - BufferDuration;
              if remaining <= 0 then s.(hook := s.hook.(isBufferingPaused := false), bufferingPauseTime := 0)
              else s.(bufferingPauseTime := remaining)
            else s;
          if !s.hook.isBufferingPaused
          then paused.(sent := s.sent + [Outbound(m, s.hook.currentConnectionId)])
          else paused
        else
          s.(hook := s.hook.(displayConfidence := Text(SlowDownText), isBufferingPaused := true),
             bufferingPauseTime := PauseCooldown);
      gated.(transmissionCount := s.transmissionCount + |s.buffer|, buffer := [])
  }

  /** A too-fast tick sends nothing, starts the 3000 ms cool-down and shows
      the slow-down text. */
  lemma FastTickStartsCooldown(s: LearnState, isFast: LandmarksSequence -> bool, now: int)
    requires |s.buffer| > 0 && isFast(SequenceMessage(s.buffer, now))
    ensures var r := Tick(s, isFast, now);
      && r.sent == s.sent
      && r.hook.isBufferingPaused && r.bufferingPauseTime == PauseCooldown
      && r.hook.displayConfidence == Text(SlowDownText)
      && r.buffer == []
  {
  }

  /** A calm tick during the cool-down sends nothing and takes one tick off
      the remaining time; reaching zero or below clamps it to 0 and lifts the
      pause on that same tick, and not before. */
  lemma CalmTickCountsDown(s: LearnState, isFast: LandmarksSequence -> bool, now: int)
    requires |s.buffer| > 0 && !isFast(SequenceMessage(s.buffer, now))
    requires s.hook.isBufferingPaused && s.bufferingPauseTime > 0
    ensures var r := Tick(s, isFast, now);
      && r.sent == s.sent
      && (s.bufferingPauseTime - BufferDuration <= 0 ==>
            r.bufferingPauseTime == 0 && !r.hook.isBufferingPaused)
      && (s.bufferingPauseTime - BufferDuration > 0 ==>
            r.bufferingPauseTime == s.bufferingPauseTime - BufferDuration && r.hook.isBufferingPaused)
  {
  }

  /** A calm tick outside the cool-down sends exactly one message holding
      the whole buffer, in order, with a matching frame count, and changes
      no pause state. */
  lemma CalmTickSends(s: LearnState, isFast: LandmarksSequence -> bool, now: int)
    requires |s.buffer| > 0 && !isFast(SequenceMessage(s.buffer, now)) && !s.hook.isBufferingPaused
    ensures var r := Tick(s, isFast, now);
      && |r.sent| == |s.sent| + 1
      && r.sent[|s.sent|].message.sequence == s.buffer
      && r.sent[|s.sent|].message.frameCount == |s.buffer|
      && r.sent[|s.sent|].connectionId == s.hook.currentConnectionId
      && r.hook.isBufferingPaused == s.hook.isBufferingPaused
      && r.bufferingPauseTime == s.bufferingPauseTime
  {
  }

  // ---------------------------------------------------------------------
  // runs of frames and ticks

  datatype Event = FrameArrived(frame: LandmarksData) | TickFired(now: int)

  function Step(s: LearnState, e: Event, isFast: LandmarksSequence -> bool): LearnState {
    match e
    case FrameArrived(f) => OnLandmarks(s, f)
    case TickFired(now) => Tick(s, isFast, now)
  }

  function Run(s: LearnState, events: seq<Event>, isFast: LandmarksSequence -> bool): LearnState
    decreases |events|
  {
    if |events| == 0 then s else Run(Step(s, events[0], isFast), events[1..], isFast)
  }

  /** The frames of a run, in arrival order. */
  function Frames(events: seq<Event>): seq<LandmarksData>
    decreases |events|
  {
    if |events| == 0 then []
    else (if events[0].FrameArrived? then [events[0].frame] else []) + Frames(events[1..])
  }

  /** What the ticks of a run took out of the buffer, in order. */
  function Drained(s: LearnState, events: seq<Event>, isFast: LandmarksSequence -> bool): seq<LandmarksData>
    decreases |events|
  {
    if |events| == 0 then []
    else
      (if events[0].TickFired? then s.buffer else [])
      + Drained(Step(s, events[0], isFast), events[1..], isFast)
  }

  /** One step of a run while recording and connected: what a tick takes
      followed by the new buffer is the old buffer followed by what arrived,
      and the counter grows by what was taken. */
  lemma StepConservesFrames(s: LearnState, e: Event, isFast: LandmarksSequence -> bool)
    requires s.isRecording && s.hook.isConnected
    ensures var s1 := Step(s, e, isFast);
      && s1.isRecording && s1.hook.isConnected
      && (if e.TickFired? then s.buffer else []) + s1.buffer
         == s.buffer + (if e.FrameArrived? then [e.frame] else [])
      && s1.transmissionCount == s.transmissionCount + |if e.TickFired? then s.buffer else []|
  {
  }

  lemma AppendAssociates<T>(a: seq<T>, b: seq<T>, c: seq<T>, d: seq<T>)
    requires a + b == c + d
    ensures forall x: seq<T> :: a + (b + x) == c + (d + x)
  {
    forall x: seq<T> ensures a + (b + x) == c + (d + x) {
      assert a + (b + x) == (a + b) + x;
      assert c + (d + x) == (c + d) + x;
    }
  }

  /** While recording and connected, no frame is lost or taken twice: what
      the ticks drained followed by what is still buffered is exactly the
      initial buffer followed by every frame that arrived, in order. The
      transmission counter grows by exactly the number drained. */
  lemma {:induction false} FramesConserved(s: LearnState, events: seq<Event>, isFast: LandmarksSequence -> bool)
    requires s.isRecording && s.hook.isConnected
    ensures Drained(s, events, isFast) + Run(s, events, isFast).buffer == s.buffer + Frames(events)
    ensures Run(s, events, isFast).transmissionCount == s.transmissionCount + |Drained(s, events, isFast)|
    decreases |events|
  {
    if |events| > 0 {
      var e := events[0];
      var s1 := Step(s, e, isFast);
      var rest := events[1..];
      StepConservesFrames(s, e, isFast);
      FramesConserved(s1, rest, isFast);
      var taken := if e.TickFired? then s.buffer else [];
      var first := if e.FrameArrived? then [e.frame] else [];
      var drainedRest := Drained(s1, rest, isFast);
      var final := Run(s1, rest, isFast);
      assert Drained(s, events, isFast) == taken + drainedRest;
      assert Frames(events) == first + Frames(rest);
      assert Run(s, events, isFast) == final;
      assert drainedRest + final.buffer == s1.buffer + Frames(rest);
      AppendAssociates(taken, s1.buffer, s.buffer, first);
      assert taken + (s1.buffer + Frames(rest)) == s.buffer + (first + Frames(rest));
      assert (taken + drainedRest) + final.buffer == taken + (drainedRest + final.buffer);
    }
  }

  /** Every message a run sends is non-empty and carries its own length as
      frame count, and the run only appends to the outbox. */
  lemma {:induction false} SentMessagesWellFormed(s: LearnState, events: seq<Event>, isFast: LandmarksSequence -> bool)
    requires forall i :: 0 <= i < |s.sent| ==>
      s.sent[i].message.frameCount == |s.sent[i].message.sequence| > 0
    ensures var r := Run(s, events, isFast);
      && |s.sent| <= |r.sent| && r.sent[..|s.sent|] == s.sent
      && forall i :: 0 <= i < |r.sent| ==>
           r.sent[i].message.frameCount == |r.sent[i].message.sequence| > 0
    decreases |events|
  {
    if |events| > 0 {
      var s1 := Step(s, events[0], isFast);
      SentMessagesWellFormed(s1, events[1..], isFast);
      var r := Run(s1, events[1..], isFast);
      assert s1.sent[..|s.sent|] == s.sent;
      assert r.sent[..|s.sent|] == r.sent[..|s1.sent|][..|s.sent|];
    }
  }

  // ---------------------------------------------------------------------
  // stop/clear, sign change, next sign

  /** The buffering effect after the recording or connection flag changed:
      while both hold the interval is (re)armed and the buffer kept;
      otherwise the interval is cleared and the buffer emptied. */
  function BufferingEffect(s: LearnState): (r: LearnState)
    ensures !(s.isRecording && s.hook.isConnected) ==> r.buffer == []
    ensures s.isRecording && s.hook.isConnected ==> r == s
    ensures r.(buffer := s.buffer) == s
  {
    if s.isRecording && s.hook.isConnected then s else s.(buffer := [])
  }

  /** `setIsRecording(recording)` followed by the buffering effect. */
  function SetRecording(s: LearnState, recording: bool): (r: LearnState)
    ensures r.isRecording == recording
    ensures recording && s.hook.isConnected ==> r.buffer == s.buffer
    ensures !(recording && s.hook.isConnected) ==> r.buffer == []
    ensures r.(isRecording := s.isRecording, buffer := s.buffer) == s
  {
    BufferingEffect(s.(isRecording := recording))
  }

  /** The connection-monitoring effect of the hook followed by the buffering
      effect: the flag follows the status and the socket count, and the
      buffer survives only while recording over a live connection. */
  function ConnectionChanged(s: LearnState, connectionStatus: string, socketCount: nat): (r: LearnState)
    ensures r.hook.isConnected <==> connectionStatus == "connected" && socketCount > 0
    ensures r.hook.isConnected && s.isRecording ==> r.buffer == s.buffer
    ensures !(r.hook.isConnected && s.isRecording) ==> r.buffer == []
    ensures r.hook.(isConnected := s.hook.isConnected) == s.hook
    ensures r.(hook := s.hook, buffer := s.buffer) == s
  {
    BufferingEffect(s.(hook := SyncConnection(s.hook, connectionStatus, socketCount)))
  }

  /** Running the buffering effect twice is running it once. */
  lemma BufferingEffectIdempotent(s: LearnState)
    ensures BufferingEffect(BufferingEffect(s)) == BufferingEffect(s)
  {
  }

  /** A page that is not buffering, with an empty buffer, is left exactly
      as it is by any run of frames and ticks: frames are dropped and ticks
      find nothing to send. */
  lemma {:induction false} IdlePageStaysIdle(s: LearnState, events: seq<Event>, isFast: LandmarksSequence -> bool)
    requires !(s.isRecording && s.hook.isConnected) && s.buffer == []
    ensures Run(s, events, isFast) == s
    decreases |events|
  {
    if |events| > 0 {
      assert Step(s, events[0], isFast) == s;
      IdlePageStaysIdle(s, events[1..], isFast);
    }
  }

  /** After recording is switched off nothing is buffered or sent again
      until it is switched back on. */
  lemma StoppedPageSendsNothing(s: LearnState, events: seq<Event>, isFast: LandmarksSequence -> bool)
    ensures Run(SetRecording(s, false), events, isFast) == SetRecording(s, false)
  {
    IdlePageStaysIdle(SetRecording(s, false), events, isFast);
  }

  /** After the connection is lost nothing is buffered or sent until it
      comes back. */
  lemma DisconnectedPageSendsNothing(s: LearnState, connectionStatus: string, socketCount: nat,
                                     events: seq<Event>, isFast: LandmarksSequence -> bool)
    requires !(connectionStatus == "connected" && socketCount > 0)
    ensures var r := ConnectionChanged(s, connectionStatus, socketCount);
      Run(r, events, isFast) == r
  {
    IdlePageStaysIdle(ConnectionChanged(s, connectionStatus, socketCount), events, isFast);
  }

  /** The effect on `currentSignIndex`: a new sign starts with an empty buffer. */
  function SignIndexChanged(s: LearnState): (r: LearnState)
    ensures r.buffer == [] && r.(buffer := s.buffer) == s
  {
    s.(buffer := [])
  }

  /** The effect that copies the current lesson into the hook. */
  function SyncCurrentSign(s: LearnState): (r: LearnState)
    ensures s.currentSignIndex < |s.lessons| ==>
      r.hook.currentSign == Some(s.lessons[s.currentSignIndex])
      && r.hook.currentSignId == s.lessons[s.currentSignIndex].id
    ensures s.currentSignIndex >= |s.lessons| ==> r == s
  {
    if s.currentSignIndex < |s.lessons| then
      var lesson := s.lessons[s.currentSignIndex];
      s.(hook := s.hook.(currentSign := Some(lesson), currentSignId := lesson.id))
    else s
  }

  /** `handleNextSign`, followed by the buffer reset its index change
      triggers: before the last lesson it moves one lesson on and clears
      feedback; on the last (or with no lessons) it completes the session and
      keeps the index. */
  function NextSign(s: LearnState): (r: LearnState)
    ensures s.currentSignIndex < |s.lessons| - 1 ==>
      && r.currentSignIndex == s.currentSignIndex + 1
      && r.hook.feedback.None?
      && r.buffer == []
      && r.sessionComplete == s.sessionComplete
    ensures s.currentSignIndex >= |s.lessons| - 1 ==>
      && r.currentSignIndex == s.currentSignIndex
      && r.sessionComplete
      && r.hook == s.hook && r.buffer == s.buffer
    ensures r.lessons == s.lessons && r.sent == s.sent
  {
    if s.currentSignIndex < |s.lessons| - 1 then
      SignIndexChanged(s.(currentSignIndex := s.currentSignIndex + 1, hook := s.hook.(feedback := None)))
    else s.(sessionComplete := true)
  }

  /** `handleFeedbackComplete`: marks `'correct'`, then moves on. */
  function FeedbackComplete(s: LearnState): (r: LearnState)
    ensures s.currentSignIndex < |s.lessons| - 1 ==> r.hook.feedback.None?
    ensures s.currentSignIndex >= |s.lessons| - 1 ==> r.hook.feedback == Some(Correct) && r.sessionComplete
  {
    NextSign(s.(hook := s.hook.(feedback := Some(Correct))))
  }

  /** Moving on keeps the index on a lesson: it never passes the last one. */
  lemma NextSignStaysInRange(s: LearnState)
    requires s.currentSignIndex < |s.lessons|
    ensures NextSign(s).currentSignIndex < |s.lessons|
  {
  }
}
