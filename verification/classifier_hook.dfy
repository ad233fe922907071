/** The classification-client hook of the learning page: the two retry
    tracks (lesson mapper, WebSocket connection), the connection flag, the
    sign-to-URL resolution effect and the interpreter of
    `classification_result` messages. React state is one immutable record;
    each handler, effect and timer callback is a function on it. Timers are
    explicit: arming one stores its delay, and firing it is its own step. */
module ClassifierHook {
  import opened Wrappers
  import opened Arith
  import opened Domain

  // ---------------------------------------------------------------------
  // RETRY_CONFIG

  const MaxAttempts: nat := 3
  const InitialDelay: nat := 1000
  const MaxDelay: nat := 5000

  const LessonMapperAlert: string := "데이터를 불러오는데 실패했습니다. 페이지를 새로고침하거나 다시 시도해주세요."
  const ConnectionAlert: string := "서버 연결에 실패했습니다. 잠시 후 다시 시도해주세요."
  const HomeRoute: string := "/"
  const FastMotionText: string := "빠른 동작 감지"
  const PassThreshold: real := 80.0

  /** What the page shows as the current confidence: a status phrase, or a
      percentage (rendered with one decimal place, which is not modelled). */
  datatype Display = Text(text: string) | Percent(percent: real)

  /** A pending WebSocket retry: the URL it will look up and its delay. */
  datatype WsTimer = WsTimer(targetUrl: string, delay: nat)

  datatype HookState = HookState(
    // retry tracks
    lessonMapperAttempts: nat,
    wsAttempts: nat,
    isRetrying: bool,
    lessonMapperTimer: Option<nat>,
    wsTimer: Option<WsTimer>,
    alerts: seq<string>,
    navigations: seq<string>,
    // connection and resolution
    isConnected: bool,
    currentConnectionId: string,
    currentWsUrl: string,
    lessonMapper: map<string, string>,
    currentSignId: string,
    currentSign: Option<Sign>,
    // result interpretation
    currentResult: Option<ClassificationResult>,
    feedback: Option<Feedback>,
    displayConfidence: Display,
    isBufferingPaused: bool,
    studyList: seq<string>)

  /** The state on mount. */
  function InitialHookState(): (h: HookState)
    ensures h.lessonMapperAttempts == 0 && h.wsAttempts == 0 && !h.isRetrying
    ensures h.lessonMapperTimer.None? && h.wsTimer.None?
    ensures !h.isConnected && h.feedback.None? && h.studyList == []
  {
    HookState(0, 0, false, None, None, [], [], false, "", "", map[], "", None,
              None, None, Text(""), false, [])
  }

  /** The back-off before a retry when `attempts` earlier retries failed:
      `min(1000 * 2^attempts, 5000)`. */
  function RetryDelay(attempts: nat): (d: nat)
    ensures InitialDelay <= d <= MaxDelay
    ensures d == MaxDelay || d == InitialDelay * Pow2(attempts)
  {
    Min(InitialDelay * Pow2(attempts), MaxDelay)
  }

  /** The schedule: 1000, 2000 and 4000 ms for the three retries, and the
      5000 ms cap for every count from 3 on. */
  lemma RetryDelaySchedule(n: nat)
    ensures RetryDelay(0) == 1000 && RetryDelay(1) == 2000 && RetryDelay(2) == 4000
    ensures n >= 3 ==> RetryDelay(n) == MaxDelay
  {
    assert Pow2(3) == 8;
    if n >= 3 {
      Pow2Monotone(3, n);
    }
  }

  /** Later retries never wait less. */
  lemma RetryDelayMonotone(m: nat, n: nat)
    requires m <= n
    ensures RetryDelay(m) <= RetryDelay(n)
  {
    Pow2Monotone(m, n);
  }

  /** The parts of the state a retry track or resolution step owns; the
      result interpreter leaves all of them alone. */
  predicate SameRetryState(a: HookState, b: HookState) {
    && a.lessonMapperAttempts == b.lessonMapperAttempts
    && a.wsAttempts == b.wsAttempts
    && a.isRetrying == b.isRetrying
    && a.lessonMapperTimer == b.lessonMapperTimer
    && a.wsTimer == b.wsTimer
    && a.alerts == b.alerts
    && a.navigations == b.navigations
    && a.currentConnectionId == b.currentConnectionId
    && a.currentWsUrl == b.currentWsUrl
    && a.lessonMapper == b.lessonMapper
  }

  // ---------------------------------------------------------------------
  // retryLessonMapper

  /** `retryLessonMapper`: at the cap, alerts, clears `isRetrying` and arms
      nothing; below it, marks the hook as retrying and arms the track's
      timer with the back-off for the current count. */
  function RetryLessonMapper(h: HookState): (r: HookState)
    ensures r.lessonMapperAttempts == h.lessonMapperAttempts
    ensures r.wsAttempts == h.wsAttempts && r.wsTimer == h.wsTimer
    ensures r.navigations == h.navigations && r.lessonMapper == h.lessonMapper
    ensures h.lessonMapperAttempts >= MaxAttempts ==>
      && r.alerts == h.alerts + [LessonMapperAlert]
      && !r.isRetrying
      && r.lessonMapperTimer == h.lessonMapperTimer
    ensures h.lessonMapperAttempts < MaxAttempts ==>
      && r.alerts == h.alerts
      && r.isRetrying
      && r.lessonMapperTimer == Some(RetryDelay(h.lessonMapperAttempts))
  {
    if h.lessonMapperAttempts >= MaxAttempts then
      h.(alerts := h.alerts + [LessonMapperAlert], isRetrying := false)
    else
      h.(isRetrying := true, lessonMapperTimer := Some(RetryDelay(h.lessonMapperAttempts)))
  }

  /** The lesson-mapper timer fires. `navigationMapper` is the
      `lesson_mapper` of the navigation state at that moment. A non-empty one
      is adopted and resets the track; the hook stops retrying if the other
      track is also satisfied. Otherwise the count goes up and the track
      retries. With no timer pending nothing happens. */
  function FireLessonMapperTimer(h: HookState, navigationMapper: Option<map<string, string>>): (r: HookState)
    ensures r.wsAttempts == h.wsAttempts && r.wsTimer == h.wsTimer
    ensures r.navigations == h.navigations
    ensures h.lessonMapperTimer.None? ==> r == h
    ensures h.lessonMapperTimer.Some? && navigationMapper.Some? && |navigationMapper.value| > 0 ==>
      && r.lessonMapper == navigationMapper.value
      && r.lessonMapperAttempts == 0
      && r.lessonMapperTimer.None?
      && r.alerts == h.alerts
      && (!r.isRetrying <==> !h.isRetrying || (h.wsAttempts == 0 && h.currentConnectionId != ""))
    ensures h.lessonMapperTimer.Some? && !(navigationMapper.Some? && |navigationMapper.value| > 0) ==>
      && r.lessonMapperAttempts == h.lessonMapperAttempts + 1
      && r.lessonMapper == h.lessonMapper
      && (r.lessonMapperAttempts < MaxAttempts ==>
            r.isRetrying && r.alerts == h.alerts && r.lessonMapperTimer == Some(RetryDelay(r.lessonMapperAttempts)))
      && (r.lessonMapperAttempts >= MaxAttempts ==>
            !r.isRetrying && r.alerts == h.alerts + [LessonMapperAlert] && r.lessonMapperTimer.None?)
  {
    if h.lessonMapperTimer.None? then h
    else
      var fired := h.(lessonMapperTimer := None);
      if navigationMapper.Some? && |navigationMapper.value| > 0 then
        fired.(lessonMapper := navigationMapper.value,
               lessonMapperAttempts := 0,
               isRetrying := if h.wsAttempts == 0 && h.currentConnectionId != "" then false else h.isRetrying)
      else
        RetryLessonMapper(fired.(lessonMapperAttempts := h.lessonMapperAttempts + 1))
  }

  /** `k` firings of the lesson-mapper timer during which the navigation
      state never carries a mapper. */
  function LessonMapperFailures(h: HookState, k: nat): HookState
    decreases k
  {
    if k == 0 then h else LessonMapperFailures(FireLessonMapperTimer(h, None), k - 1)
  }

  /** A running lesson-mapper track whose lookups keep failing gives up
      after the third failed attempt: the count reaches 3, exactly one alert
      is raised, no timer is left and the hook stops retrying; further
      firings do nothing, so there is never a fourth attempt. The other track
      is untouched throughout. */
  lemma {:induction false} LessonMapperGivesUp(h: HookState, k: nat)
    requires h.lessonMapperTimer.Some? && h.lessonMapperAttempts < MaxAttempts
    requires k >= MaxAttempts - h.lessonMapperAttempts
    ensures var r := LessonMapperFailures(h, k);
      && r.lessonMapperAttempts == MaxAttempts
      && r.alerts == h.alerts + [LessonMapperAlert]
      && r.lessonMapperTimer.None?
      && !r.isRetrying
      && r.wsAttempts == h.wsAttempts && r.wsTimer == h.wsTimer
    decreases k
  {
    var h1 := FireLessonMapperTimer(h, None);
    if h.lessonMapperAttempts + 1 < MaxAttempts {
      LessonMapperGivesUp(h1, k - 1);
    } else {
      LessonMapperIdle(h1, k - 1);
    }
  }

  /** With no timer pending, failing firings change nothing. */
  lemma {:induction false} LessonMapperIdle(h: HookState, k: nat)
    requires h.lessonMapperTimer.None?
    ensures LessonMapperFailures(h, k) == h
    decreases k
  {
    if k > 0 {
      LessonMapperIdle(FireLessonMapperTimer(h, None), k - 1);
    }
  }

  /** The lesson-mapper timer as written: its callback calls the
      `retryLessonMapper` that armed it, whose cap test and delay read the
      count `captured` when that closure was made. A failed lookup still
      raises the state's count, but the retry decision uses `captured`, and
      the timer it arms carries the same closure. */
  function FireLessonMapperTimerAsWritten(h: HookState, captured: nat, navigationMapper: Option<map<string, string>>): (r: HookState)
    ensures r.wsAttempts == h.wsAttempts && r.wsTimer == h.wsTimer
    ensures h.lessonMapperTimer.None? ==> r == h
    ensures h.lessonMapperTimer.Some? && !(navigationMapper.Some? && |navigationMapper.value| > 0) ==>
      && r.lessonMapperAttempts == h.lessonMapperAttempts + 1
      && (captured < MaxAttempts <==> r.lessonMapperTimer.Some?)
      && (captured < MaxAttempts ==> r.alerts == h.alerts && r.lessonMapperTimer == Some(RetryDelay(captured)))
  {
    if h.lessonMapperTimer.None? then h
    else
      var fired := h.(lessonMapperTimer := None);
      if navigationMapper.Some? && |navigationMapper.value| > 0 then
        fired.(lessonMapper := navigationMapper.value,
               lessonMapperAttempts := 0,
               isRetrying := if h.wsAttempts == 0 && h.currentConnectionId != "" then false else h.isRetrying)
      else
        var counted := fired.(lessonMapperAttempts := h.lessonMapperAttempts + 1);
        if captured >= MaxAttempts then
          counted.(alerts := counted.alerts + [LessonMapperAlert], isRetrying := false)
        else
          counted.(isRetrying := true, lessonMapperTimer := Some(RetryDelay(captured)))
  }

  /** `k` failed firings of one as-written closure chain. */
  function LessonMapperFailuresAsWritten(h: HookState, captured: nat, k: nat): HookState
    decreases k
  {
    if k == 0 then h else LessonMapperFailuresAsWritten(FireLessonMapperTimerAsWritten(h, captured, None), captured, k - 1)
  }

  /** As written, a chain started below the cap never gives up: after any
      number of failed lookups its timer is still armed with the same
      back-off and it has raised no alert, while the state's count runs past
      the cap. */
  lemma {:induction false} StaleChainNeverGivesUp(h: HookState, captured: nat, k: nat)
    requires h.lessonMapperTimer.Some? && captured < MaxAttempts
    ensures var r := LessonMapperFailuresAsWritten(h, captured, k);
      && r.lessonMapperAttempts == h.lessonMapperAttempts + k
      && (k > 0 ==> r.lessonMapperTimer == Some(RetryDelay(captured)))
      && r.alerts == h.alerts
    decreases k
  {
    if k > 0 {
      StaleChainNeverGivesUp(FireLessonMapperTimerAsWritten(h, captured, None), captured, k - 1);
    }
  }

  /** The input that shows it: a fresh track armed from count 0 is still
      retrying every second after its third failed lookup, where the
      intended track has given up with an alert. */
  lemma StaleChainOutlivesCap(h: HookState)
    requires h.lessonMapperAttempts == 0
    ensures var r := LessonMapperFailuresAsWritten(RetryLessonMapper(h), 0, MaxAttempts);
      && r.lessonMapperAttempts == MaxAttempts
      && r.lessonMapperTimer == Some(1000)
      && r.alerts == h.alerts
    ensures var r := LessonMapperFailures(RetryLessonMapper(h), MaxAttempts);
      && r.lessonMapperTimer.None?
      && r.alerts == h.alerts + [LessonMapperAlert]
  {
    var h1 := RetryLessonMapper(h);
    StaleChainNeverGivesUp(h1, 0, MaxAttempts);
    LessonMapperGivesUp(h1, MaxAttempts);
  }

  /** From a fresh track the armed back-offs are 1000, 2000 and 4000 ms. */
  lemma LessonMapperBackoffs(h: HookState)
    requires h.lessonMapperAttempts == 0
    ensures var h1 := RetryLessonMapper(h);
      var h2 := FireLessonMapperTimer(h1, None);
      var h3 := FireLessonMapperTimer(h2, None);
      && h1.lessonMapperTimer == Some(1000)
      && h2.lessonMapperTimer == Some(2000)
      && h3.lessonMapperTimer == Some(4000)
  {
    RetryDelaySchedule(0);
  }

  // ---------------------------------------------------------------------
  // retryWsConnection

  /** `retryWsConnection(targetUrl)`: at the cap, alerts, navigates home,
      clears `isRetrying` and arms nothing; below it, marks the hook as
      retrying and arms the track's timer for `targetUrl`. */
  function RetryWsConnection(h: HookState, targetUrl: string): (r: HookState)
    ensures r.wsAttempts == h.wsAttempts
    ensures r.lessonMapperAttempts == h.lessonMapperAttempts && r.lessonMapperTimer == h.lessonMapperTimer
    ensures r.currentConnectionId == h.currentConnectionId
    ensures h.wsAttempts >= MaxAttempts ==>
      && r.alerts == h.alerts + [ConnectionAlert]
      && r.navigations == h.navigations + [HomeRoute]
      && !r.isRetrying
      && r.wsTimer == h.wsTimer
    ensures h.wsAttempts < MaxAttempts ==>
      && r.alerts == h.alerts && r.navigations == h.navigations
      && r.isRetrying
      && r.wsTimer == Some(WsTimer(targetUrl, RetryDelay(h.wsAttempts)))
  {
    if h.wsAttempts >= MaxAttempts then
      h.(alerts := h.alerts + [ConnectionAlert], navigations := h.navigations + [HomeRoute], isRetrying := false)
    else
      h.(isRetrying := true, wsTimer := Some(WsTimer(targetUrl, RetryDelay(h.wsAttempts))))
  }

  /** The WebSocket timer fires; `lookup` is `getConnectionByUrl` at that
      moment. A connection found becomes the current one and resets the
      track; the hook stops retrying if the lesson-mapper track is also
      satisfied. Otherwise the count goes up and the track retries for the
      same URL. */
  function FireWsTimer(h: HookState, lookup: string -> Option<string>): (r: HookState)
    ensures r.lessonMapperAttempts == h.lessonMapperAttempts && r.lessonMapperTimer == h.lessonMapperTimer
    ensures r.lessonMapper == h.lessonMapper
    ensures h.wsTimer.None? ==> r == h
    ensures h.wsTimer.Some? && lookup(h.wsTimer.value.targetUrl).Some? ==>
      && r.currentConnectionId == lookup(h.wsTimer.value.targetUrl).value
      && r.wsAttempts == 0
      && r.wsTimer.None?
      && r.navigations == h.navigations
      && (!r.isRetrying <==> !h.isRetrying || (h.lessonMapperAttempts == 0 && |h.lessonMapper| > 0))
    ensures h.wsTimer.Some? && lookup(h.wsTimer.value.targetUrl).None? ==>
      && r.wsAttempts == h.wsAttempts + 1
      && r.currentConnectionId == h.currentConnectionId
      && (r.wsAttempts < MaxAttempts ==>
            r.isRetrying && r.wsTimer == Some(WsTimer(h.wsTimer.value.targetUrl, RetryDelay(r.wsAttempts))))
      && (r.wsAttempts >= MaxAttempts ==>
            !r.isRetrying && r.navigations == h.navigations + [HomeRoute] && r.wsTimer.None?)
  {
    match h.wsTimer
    case None => h
    case Some(timer) =>
      var fired := h.(wsTimer := None);
      match lookup(timer.targetUrl)
      case Some(id) =>
        fired.(currentConnectionId := id,
               wsAttempts := 0,
               isRetrying := if h.lessonMapperAttempts == 0 && |h.lessonMapper| > 0 then false else h.isRetrying)
      case None =>
        RetryWsConnection(fired.(wsAttempts := h.wsAttempts + 1), timer.targetUrl)
  }

  function WsFailures(h: HookState, k: nat): HookState
    decreases k
  {
    if k == 0 then h else WsFailures(FireWsTimer(h, _ => None), k - 1)
  }

  /** A running connection track whose lookups keep failing gives up after
      the third failed attempt: one alert, one navigation to "/", no timer,
      not retrying, never a fourth attempt; the lesson-mapper track is
      untouched. */
  lemma {:induction false} WsConnectionGivesUp(h: HookState, k: nat)
    requires h.wsTimer.Some? && h.wsAttempts < MaxAttempts
    requires k >= MaxAttempts - h.wsAttempts
    ensures var r := WsFailures(h, k);
      && r.wsAttempts == MaxAttempts
      && r.alerts == h.alerts + [ConnectionAlert]
      && r.navigations == h.navigations + [HomeRoute]
      && r.wsTimer.None?
      && !r.isRetrying
      && r.lessonMapperAttempts == h.lessonMapperAttempts
      && r.lessonMapperTimer == h.lessonMapperTimer
    decreases k
  {
    var h1 := FireWsTimer(h, _ => None);
    if h.wsAttempts + 1 < MaxAttempts {
      WsConnectionGivesUp(h1, k - 1);
    } else {
      WsIdle(h1, k - 1);
    }
  }

  lemma {:induction false} WsIdle(h: HookState, k: nat)
    requires h.wsTimer.None?
    ensures WsFailures(h, k) == h
    decreases k
  {
    if k > 0 {
      WsIdle(FireWsTimer(h, _ => None), k - 1);
    }
  }

  // ---------------------------------------------------------------------
  // connection flag and sign -> URL resolution

  /** The connection-monitoring effect: connected iff the shared status is
      `'connected'` and at least one socket exists. */
  function SyncConnection(h: HookState, connectionStatus: string, socketCount: nat): (r: HookState)
    ensures r.isConnected <==> connectionStatus == "connected" && socketCount > 0
    ensures r.(isConnected := h.isConnected) == h
  {
    h.(isConnected := connectionStatus == "connected" && socketCount > 0)
  }

  /** The effect only keeps the latest status: running it again, with the
      same or new inputs, gives what running it once with the latest inputs
      gives. */
  lemma SyncConnectionLatestWins(h: HookState, status1: string, count1: nat, status2: string, count2: nat)
    ensures SyncConnection(SyncConnection(h, status1, count1), status2, count2) == SyncConnection(h, status2, count2)
    ensures SameRetryState(SyncConnection(h, status1, count1), h)
  {
  }

  /** The URL the mapper gives a sign, `''` when it has none. */
  function MappedUrl(mapper: map<string, string>, signId: string): (url: string)
    ensures url != "" ==> signId in mapper && mapper[signId] == url
    ensures signId in mapper ==> url == mapper[signId]
  {
    if signId in mapper then mapper[signId] else ""
  }

  /** The effect that resolves the current sign to a connection. With no
      current sign it does nothing. Otherwise it records the sign's URL; a
      URL with a live connection makes that connection current and resets
      the connection track, a URL without one starts the connection track,
      and a sign without a URL starts the lesson-mapper track, but only when
      the mapper is empty. */
  function ResolveSign(h: HookState, lookup: string -> Option<string>): (r: HookState)
    ensures h.currentSignId == "" ==> r == h
    ensures h.currentSignId != "" ==> r.currentWsUrl == MappedUrl(h.lessonMapper, h.currentSignId)
    ensures r.lessonMapper == h.lessonMapper
  {
    if h.currentSignId == "" then h
    else
      var url := MappedUrl(h.lessonMapper, h.currentSignId);
      var h1 := h.(currentWsUrl := url);
      if url != "" then
        match lookup(url)
        case Some(id) => h1.(currentConnectionId := id, wsAttempts := 0)
        case None => RetryWsConnection(h1, url)
      else if |h.lessonMapper| == 0 then RetryLessonMapper(h1)
      else h1
  }

  /** How resolution touches the two tracks: a found connection resets only
      the connection track; a missing connection retries only the connection
      track; a missing URL retries only the lesson-mapper track (empty
      mapper) or neither. */
  lemma ResolveSignTracks(h: HookState, lookup: string -> Option<string>)
    requires h.currentSignId != ""
    ensures var url := MappedUrl(h.lessonMapper, h.currentSignId);
      var r := ResolveSign(h, lookup);
      && (url != "" && lookup(url).Some? ==>
            && r.currentConnectionId == lookup(url).value && r.wsAttempts == 0
            && r.lessonMapperAttempts == h.lessonMapperAttempts && r.lessonMapperTimer == h.lessonMapperTimer)
      && (url != "" && lookup(url).None? ==>
            r == RetryWsConnection(h.(currentWsUrl := url), url))
      && (url == "" && |h.lessonMapper| == 0 ==>
            r == RetryLessonMapper(h.(currentWsUrl := "")))
      && (url == "" && |h.lessonMapper| > 0 ==>
            r == h.(currentWsUrl := ""))
  {
  }

  // ---------------------------------------------------------------------
  // classification_result interpretation

  /** The target-relative percentage: the confidence when the prediction is
      the current sign's word, else the probability the server gives that
      word, else none. Without a current sign there is no target and so no
      percentage. */
  function TargetPercent(d: ClassificationResult, sign: Option<Sign>): (p: Option<real>)
    ensures p.Some? ==> sign.Some?
  {
    match sign
    case None => None
    case Some(s) =>
      if d.prediction == s.word then Some(d.confidence * 100.0)
      else if s.word != "" && d.probabilities.Some? && s.word in d.probabilities.value then
        Some(d.probabilities.value[s.word] * 100.0)
      else None
  }

  /** The three cases of the percentage. */
  lemma TargetPercentCases(d: ClassificationResult, s: Sign)
    ensures d.prediction == s.word ==> TargetPercent(d, Some(s)) == Some(d.confidence * 100.0)
    ensures d.prediction != s.word && s.word != "" && d.probabilities.Some? && s.word in d.probabilities.value ==>
      TargetPercent(d, Some(s)) == Some(d.probabilities.value[s.word] * 100.0)
    ensures d.prediction != s.word && (s.word == "" || d.probabilities.None? || s.word !in d.probabilities.value) ==>
      TargetPercent(d, Some(s)).None?
  {
  }

  /** Whether a result passes: a percentage exists and is at least 80. */
  predicate Passes(d: ClassificationResult, sign: Option<Sign>) {
    var p := TargetPercent(d, sign);
    p.Some? && p.value >= PassThreshold
  }

  /** One `classification_result` with data `d`. While buffering is paused
      a real prediction only shows the fast-motion notice and a `"None"`
      prediction only lifts the pause. Once feedback exists a `"None"`
      prediction is only cached. Otherwise the result is cached, the
      percentage (if any) displayed, and a passing result sets `'correct'`
      and appends the sign's id to the study list. */
  function HandleClassification(h: HookState, d: ClassificationResult): (r: HookState)
    ensures SameRetryState(r, h)
    ensures r.currentSign == h.currentSign && r.isConnected == h.isConnected
  {
    if h.isBufferingPaused then
      if d.prediction != NoPrediction then h.(displayConfidence := Text(FastMotionText))
      else h.(isBufferingPaused := false)
    else if h.feedback.Some? && d.prediction == NoPrediction then
      h.(currentResult := Some(d))
    else
      var p := TargetPercent(d, h.currentSign);
      var scored := h.(displayConfidence := if p.Some? then Percent(p.value) else h.displayConfidence,
                       currentResult := Some(d));
      if p.Some? && p.value >= PassThreshold then
        scored.(feedback := Some(Correct), studyList := h.studyList + [h.currentSign.value.id])
      else scored
  }

  /** The socket message handler: only a `classification_result` carrying
      data is interpreted; a message without data fails inside the handler
      and, like any other message type or a parse failure, changes nothing. */
  function HandleInbound(h: HookState, msg: Inbound): (r: HookState)
    ensures !(msg.ClassificationResultMsg? && msg.data.Some?) ==> r == h
    ensures SameRetryState(r, h)
  {
    match msg
    case ClassificationResultMsg(Some(d)) => HandleClassification(h, d)
    case _ => h
  }

  /** While paused nothing is scored: a real prediction changes only the
      display to the fast-motion notice, a `"None"` prediction only lifts the
      pause. */
  lemma PausedResultsAreNotScored(h: HookState, d: ClassificationResult)
    requires h.isBufferingPaused
    ensures d.prediction != NoPrediction ==>
      HandleClassification(h, d) == h.(displayConfidence := Text(FastMotionText))
    ensures d.prediction == NoPrediction ==>
      HandleClassification(h, d) == h.(isBufferingPaused := false)
  {
  }

  /** After feedback, a `"None"` prediction changes only the cached result. */
  lemma NoneAfterFeedbackOnlyCaches(h: HookState, d: ClassificationResult)
    requires !h.isBufferingPaused && h.feedback.Some? && d.prediction == NoPrediction
    ensures HandleClassification(h, d) == h.(currentResult := Some(d))
  {
  }

  /** When a result is scored, feedback becomes `'correct'` and the id is
      appended (once, without deduplication) exactly when it passes; a
      failing result leaves feedback and the study list alone; the display
      changes only when there is a percentage. */
  lemma ScoringPassesAtEighty(h: HookState, d: ClassificationResult)
    requires !h.isBufferingPaused && !(h.feedback.Some? && d.prediction == NoPrediction)
    ensures var r := HandleClassification(h, d);
      && r.currentResult == Some(d)
      && (Passes(d, h.currentSign) ==>
            r.feedback == Some(Correct) && r.studyList == h.studyList + [h.currentSign.value.id])
      && (!Passes(d, h.currentSign) ==>
            r.feedback == h.feedback && r.studyList == h.studyList)
      && (TargetPercent(d, h.currentSign).None? ==> r.displayConfidence == h.displayConfidence)
      && (TargetPercent(d, h.currentSign).Some? ==>
            r.displayConfidence == Percent(TargetPercent(d, h.currentSign).value))
  {
  }

  /** Over any message the study list only grows, by at most one id, and
      feedback never moves away from `'correct'` nor to `'incorrect'`. */
  lemma InterpreterMonotone(h: HookState, msg: Inbound)
    ensures var r := HandleInbound(h, msg);
      && r.studyList[..|h.studyList|] == h.studyList
      && |h.studyList| <= |r.studyList| <= |h.studyList| + 1
      && (h.feedback == Some(Correct) ==> r.feedback == Some(Correct))
      && (r.feedback == Some(Incorrect) ==> h.feedback == Some(Incorrect))
  {
  }

  /** A prediction matching the word with confidence 0.85 shows 85 % and
      passes; a mismatch whose probability for the word is 0.92 passes. */
  lemma PassExamples(h: HookState)
    requires !h.isBufferingPaused && h.currentSign == Some(Sign("s1", "hello"))
    ensures var r := HandleClassification(h, ClassificationResult("hello", 0.85, None));
      r.displayConfidence == Percent(85.0) && r.feedback == Some(Correct)
      && r.studyList == h.studyList + ["s1"]
    ensures HandleClassification(h, ClassificationResult("bye", 0.5, Some(map["hello" := 0.92]))).feedback
      == Some(Correct)
  {
  }

  /** A `"None"` prediction with no feedback yet and no `"None"` entry for
      the word is cached without a score. */
  lemma NoneBeforeFeedbackIsUnscored(h: HookState, d: ClassificationResult)
    requires !h.isBufferingPaused && h.feedback.None? && d.prediction == NoPrediction
    requires h.currentSign.Some? && h.currentSign.value.word != NoPrediction
    requires d.probabilities.None?
    ensures HandleClassification(h, d) == h.(currentResult := Some(d))
  {
  }
}
