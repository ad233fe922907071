/** The quiz page's per-item state machine: the 15-second countdown, the
    time-up handler, moving to the next sign (with chapter and category
    completion), retrying, and the shape of the submitted results. The
    learning-data store is replaced by a progress function and by lists of
    what was marked complete or queued for review. */
module QuizSession {
  import opened Wrappers
  import opened Domain

  /** Seconds allowed per sign. */
  const QuizTimeLimit: nat := 15
  /** Delay before the automatic move to the next sign after a time-up. */
  const AdvanceDelay: nat := 3000
  const FullProgress: nat := 100

  datatype Chapter = Chapter(id: string, signs: seq<Sign>)
  datatype Category = Category(id: string, chapters: seq<Chapter>)

  /** One recorded answer, as kept on the page. */
  datatype QuizResult = QuizResult(signId: string, correct: bool, timeSpent: nat)
  /** One answer as submitted to the server. */
  datatype Submission = Submission(signId: string, correct: bool)

  /** `countdownArmed` is the pending 15-second timer of the arming effect;
      `pendingAdvances` counts the 3-second advance timers not yet fired. */
  datatype QuizState = QuizState(
    isRecording: bool,
    timerActive: bool,
    quizStarted: bool,
    feedback: Option<Feedback>,
    currentResult: Option<ClassificationResult>,
    currentSignIndex: nat,
    chapter: Option<Chapter>,
    quizResults: seq<QuizResult>,
    review: seq<Sign>,
    sessionComplete: bool,
    completedChapters: seq<string>,
    completedCategories: seq<string>,
    countdownArmed: bool,
    pendingAdvances: nat)

  function InitialQuizState(chapter: Option<Chapter>): (s: QuizState)
    ensures s.currentSignIndex == 0 && s.quizResults == [] && s.feedback.None? && !s.countdownArmed
  {
    QuizState(false, false, false, None, None, 0, chapter, [], [], false, [], [], false, 0)
  }

  /** `chapter?.signs[currentSignIndex]`: absent without a chapter or past
      the end of its signs. */
  function CurrentSign(s: QuizState): (r: Option<Sign>)
    ensures r.Some? <==> s.chapter.Some? && s.currentSignIndex < |s.chapter.value.signs|
    ensures r.Some? ==> r.value == s.chapter.value.signs[s.currentSignIndex]
  {
    if s.chapter.Some? && s.currentSignIndex < |s.chapter.value.signs| then
      Some(s.chapter.value.signs[s.currentSignIndex])
    else None
  }

  /** `handleTimeUp`: stops recording and the timer and marks the answer
      incorrect; when there is a current sign, records one failed result with
      the full time limit and queues the sign for review; in every case arms
      the 3-second advance. */
  function HandleTimeUp(s: QuizState): (r: QuizState)
    ensures !r.isRecording && !r.timerActive && r.feedback == Some(Incorrect)
    ensures CurrentSign(s).Some? ==>
      && r.quizResults == s.quizResults + [QuizResult(CurrentSign(s).value.id, false, QuizTimeLimit)]
      && r.review == s.review + [CurrentSign(s).value]
    ensures CurrentSign(s).None? ==> r.quizResults == s.quizResults && r.review == s.review
    ensures r.pendingAdvances == s.pendingAdvances + 1
    ensures r.currentSignIndex == s.currentSignIndex && r.chapter == s.chapter
    ensures r.sessionComplete == s.sessionComplete && r.countdownArmed == s.countdownArmed
  {
    var stopped := s.(isRecording := false, timerActive := false, feedback := Some(Incorrect),
                      pendingAdvances := s.pendingAdvances + 1);
    match CurrentSign(s)
    case Some(sign) =>
      stopped.(quizResults := s.quizResults + [QuizResult(sign.id, false, QuizTimeLimit)],
               review := s.review + [sign])
    case None => stopped
  }

  /** `chapters.every(ch => progress(ch) === 100)`. */
  function AllChaptersComplete(chapters: seq<Chapter>, progress: Chapter -> nat): (b: bool)
    ensures chapters == [] ==> b
    ensures b <==> forall ch :: ch in chapters ==> progress(ch) == FullProgress
  {
    forall i :: 0 <= i < |chapters| ==> progress(chapters[i]) == FullProgress
  }

  /** `handleNextSign`: before the last sign, moves to the next one and
      clears the feedback, the timer and the started flag. Otherwise the
      session is complete: the chapter is marked complete when its own
      progress is full, and the category when all of its chapters are. */
  function HandleNextSign(s: QuizState, progress: Chapter -> nat, category: Option<Category>): (r: QuizState)
    ensures r.quizResults == s.quizResults && r.review == s.review && r.chapter == s.chapter
    ensures r.pendingAdvances == s.pendingAdvances
    ensures s.chapter.Some? && s.currentSignIndex < |s.chapter.value.signs| - 1 ==>
      && r == s.(currentSignIndex := s.currentSignIndex + 1, feedback := None,
                 timerActive := false, quizStarted := false)
    ensures !(s.chapter.Some? && s.currentSignIndex < |s.chapter.value.signs| - 1) ==>
      && r.sessionComplete
      && r.currentSignIndex == s.currentSignIndex
      && r.quizResults == s.quizResults && r.feedback == s.feedback
      && r.completedChapters ==
           (if s.chapter.Some? && progress(s.chapter.value) == FullProgress
            then s.completedChapters + [s.chapter.value.id] else s.completedChapters)
      && r.completedCategories ==
           (if s.chapter.Some? && category.Some? && AllChaptersComplete(category.value.chapters, progress)
            then s.completedCategories + [category.value.id] else s.completedCategories)
  {
    if s.chapter.Some? && s.currentSignIndex < |s.chapter.value.signs| - 1 then
      s.(currentSignIndex := s.currentSignIndex + 1, feedback := None,
         timerActive := false, quizStarted := false)
    else
      var marked :=
        if s.chapter.None? then s
        else
          var withChapter :=
            if progress(s.chapter.value) == FullProgress
            then s.(completedChapters := s.completedChapters + [s.chapter.value.id]) else s;
          if category.Some? && AllChaptersComplete(category.value.chapters, progress)
          then withChapter.(completedCategories := s.completedCategories + [category.value.id])
          else withChapter;
      marked.(sessionComplete := true)
  }

  /** What the page's `category` is, as written: the route's category id
      is looked up with the chapter lookup. With no (or an empty) id it is
      `null`; otherwise it is a chapter record, or the promise of one,
      neither of which has a `chapters` list. */
  datatype PageCategory = NoCategory | ChapterInPlaceOfCategory

  function PageCategoryOf(categoryId: Option<string>): (c: PageCategory)
    ensures c.NoCategory? <==> categoryId.None? || categoryId.value == ""
  {
    if categoryId.None? || categoryId.value == "" then NoCategory else ChapterInPlaceOfCategory
  }

  /** `handleNextSign` as written, with the category of `PageCategoryOf`.
      Before the last sign it is the intended handler. On the last sign of
      a chapter, a category id in the route makes `category.chapters.every`
      throw after the chapter mark: the handler stops before the session
      is completed. Without a category id no category is ever marked. */
  function HandleNextSignAsWritten(s: QuizState, progress: Chapter -> nat, categoryId: Option<string>): (r: QuizState)
    ensures PageCategoryOf(categoryId).NoCategory? ==> r == HandleNextSign(s, progress, None)
    ensures PageCategoryOf(categoryId).ChapterInPlaceOfCategory? && s.chapter.Some?
              && s.currentSignIndex >= |s.chapter.value.signs| - 1 ==>
      && r.sessionComplete == s.sessionComplete
      && r.completedCategories == s.completedCategories
      && r.completedChapters == HandleNextSign(s, progress, None).completedChapters
  {
    match PageCategoryOf(categoryId)
    case NoCategory => HandleNextSign(s, progress, None)
    case ChapterInPlaceOfCategory =>
      if s.chapter.Some? && s.currentSignIndex >= |s.chapter.value.signs| - 1 then
        if progress(s.chapter.value) == FullProgress
        then s.(completedChapters := s.completedChapters + [s.chapter.value.id])
        else s
      else HandleNextSign(s, progress, None)
  }

  /** As written, the route `SessionBegin` builds, which has no category
      id, never marks a category, even one whose chapters are all done. */
  lemma RouteWithoutCategoryMarksNone(s: QuizState, progress: Chapter -> nat)
    ensures HandleNextSignAsWritten(s, progress, None).completedCategories == s.completedCategories
  {
  }

  /** As written, with a category id in the route the last sign of a
      chapter never completes the session, whereas the intended handler
      completes it with any category. */
  lemma CategoryRouteNeverCompletes(s: QuizState, progress: Chapter -> nat, categoryId: string, category: Option<Category>)
    requires categoryId != "" && !s.sessionComplete
    requires s.chapter.Some? && s.currentSignIndex >= |s.chapter.value.signs| - 1
    ensures !HandleNextSignAsWritten(s, progress, Some(categoryId)).sessionComplete
    ensures HandleNextSign(s, progress, category).sessionComplete
  {
  }

  /** `handleRetry`: clears the feedback, recording, timer, started flag and
      current result; the sign stays the same. */
  function HandleRetry(s: QuizState): (r: QuizState)
    ensures r.feedback.None? && !r.isRecording && !r.timerActive && !r.quizStarted && r.currentResult.None?
    ensures r.currentSignIndex == s.currentSignIndex && r.quizResults == s.quizResults
    ensures r.review == s.review && r.chapter == s.chapter
    ensures r.(feedback := s.feedback, isRecording := s.isRecording, timerActive := s.timerActive,
               quizStarted := s.quizStarted, currentResult := s.currentResult) == s
  {
    s.(feedback := None, isRecording := false, timerActive := false, quizStarted := false, currentResult := None)
  }

  /** The countdown effect, run when the index, the current sign or the
      feedback changes: the previous countdown is cleared, and a new one is
      armed (with recording, timer and started flag on) exactly when there is
      a current sign and no feedback yet. */
  function ArmCountdown(s: QuizState): (r: QuizState)
    ensures r.countdownArmed <==> CurrentSign(s).Some? && s.feedback.None?
    ensures r.countdownArmed ==> r.isRecording && r.timerActive && r.quizStarted
    ensures !r.countdownArmed ==> r == s.(countdownArmed := false)
    ensures r.quizResults == s.quizResults && r.feedback == s.feedback
    ensures r.review == s.review && r.chapter == s.chapter
  {
    if CurrentSign(s).Some? && s.feedback.None? then
      s.(quizStarted := true, timerActive := true, isRecording := true, countdownArmed := true)
    else s.(countdownArmed := false)
  }

  /** The countdown expires. Time is up only when the countdown was armed
      and recording and the timer are still on: then the answer is marked
      incorrect, the advance is armed, and a current sign gets exactly one
      failed 15-second result and one review entry. Otherwise only the
      pending countdown is dropped. Either way no countdown stays armed. */
  function FireCountdown(s: QuizState): (r: QuizState)
    ensures !r.countdownArmed
    ensures var timesUp := s.countdownArmed && s.isRecording && s.timerActive;
      && (timesUp && CurrentSign(s).Some? ==>
            && r.quizResults == s.quizResults + [QuizResult(CurrentSign(s).value.id, false, QuizTimeLimit)]
            && r.review == s.review + [CurrentSign(s).value])
      && (!(timesUp && CurrentSign(s).Some?) ==> r.quizResults == s.quizResults && r.review == s.review)
      && r.feedback == (if timesUp then Some(Incorrect) else s.feedback)
      && r.pendingAdvances == s.pendingAdvances + (if timesUp then 1 else 0)
      && (timesUp ==> !r.isRecording && !r.timerActive)
      && (!timesUp ==> r == s.(countdownArmed := false))
    ensures r.currentSignIndex == s.currentSignIndex && r.chapter == s.chapter
  {
    if !s.countdownArmed then s
    else
      var fired := s.(countdownArmed := false);
      if s.isRecording && s.timerActive then HandleTimeUp(fired) else fired
  }

  /** One 3-second advance timer fires: one pending advance is used up and
      the page moves on as `handleNextSign` does, to the next sign with the
      feedback cleared, or, on the last sign, to the end of the session.
      With none pending nothing happens. The records are never touched. */
  function FireAdvance(s: QuizState, progress: Chapter -> nat, category: Option<Category>): (r: QuizState)
    ensures s.pendingAdvances == 0 ==> r == s
    ensures s.pendingAdvances > 0 ==> r.pendingAdvances == s.pendingAdvances - 1
    ensures r.quizResults == s.quizResults && r.review == s.review && r.chapter == s.chapter
    ensures s.pendingAdvances > 0 && s.chapter.Some? && s.currentSignIndex < |s.chapter.value.signs| - 1 ==>
      && r.currentSignIndex == s.currentSignIndex + 1
      && r.feedback.None? && !r.timerActive && !r.quizStarted
    ensures s.pendingAdvances > 0 && !(s.chapter.Some? && s.currentSignIndex < |s.chapter.value.signs| - 1) ==>
      r.sessionComplete && r.currentSignIndex == s.currentSignIndex
  {
    if s.pendingAdvances == 0 then s
    else HandleNextSign(s.(pendingAdvances := s.pendingAdvances - 1), progress, category)
  }

  /** A time-up before the last sign is followed, when its advance fires,
      by the next sign with fresh feedback, so the countdown effect can arm
      again; the failed result stays recorded. */
  lemma TimeUpThenAdvance(s: QuizState, progress: Chapter -> nat, category: Option<Category>)
    requires CurrentSign(s).Some? && s.currentSignIndex < |s.chapter.value.signs| - 1
    ensures var r := FireAdvance(HandleTimeUp(s), progress, category);
      && r.currentSignIndex == s.currentSignIndex + 1
      && r.feedback.None?
      && r.pendingAdvances == s.pendingAdvances
      && r.quizResults == s.quizResults + [QuizResult(CurrentSign(s).value.id, false, QuizTimeLimit)]
      && ArmCountdown(r).countdownArmed
  {
  }

  /** The `sendQuizResult` payload: no request for an empty list; otherwise
      each result in order, without its time. */
  function SubmissionPayload(results: seq<QuizResult>): (p: Option<seq<Submission>>)
    ensures p.None? <==> results == []
    ensures p.Some? ==> |p.value| == |results|
    ensures p.Some? ==> forall i :: 0 <= i < |results| ==>
      p.value[i] == Submission(results[i].signId, results[i].correct)
  {
    if results == [] then None
    else Some(seq(|results|, i requires 0 <= i < |results| => Submission(results[i].signId, results[i].correct)))
  }

  /** The payload loses only the times: restoring each result's time gives
      back the page's list. */
  lemma PayloadRoundTrip(results: seq<QuizResult>)
    requires results != []
    ensures var p := SubmissionPayload(results).value;
      seq(|p|, i requires 0 <= i < |p| => QuizResult(p[i].signId, p[i].correct, results[i].timeSpent)) == results
  {
  }

  /** Once time is up, the countdown cannot record a second failure for the
      same sign: re-running the effect arms nothing while the feedback is
      set, so a second expiry changes nothing. */
  lemma TimeUpOncePerCountdown(s: QuizState)
    requires |FireCountdown(s).quizResults| > |s.quizResults|
    ensures var s1 := FireCountdown(s);
      && s1.feedback == Some(Incorrect)
      && FireCountdown(ArmCountdown(s1)) == ArmCountdown(s1)
      && FireCountdown(s1) == s1
  {
  }

  // ---------------------------------------------------------------------
  // event runs

  /** The page's events: the countdown effect re-running, its timer
      expiring, the timer component's own `onTimeUp`, an advance timer
      firing, the feedback display finishing, and the retry button.
      `FeedbackCompleted` over-approximates the page: the display is given
      its `onComplete` only for `'correct'` feedback, which this page never
      sets, so the event is allowed here although it cannot occur. */
  datatype QuizEvent =
    | EffectRan
    | CountdownFired
    | TimedOut
    | AdvanceFired
    | FeedbackCompleted
    | Retried

  function QuizStep(s: QuizState, e: QuizEvent, progress: Chapter -> nat, category: Option<Category>): QuizState {
    match e
    case EffectRan => ArmCountdown(s)
    case CountdownFired => FireCountdown(s)
    case TimedOut => HandleTimeUp(s)
    case AdvanceFired => FireAdvance(s, progress, category)
    case FeedbackCompleted => HandleNextSign(s, progress, category)
    case Retried => HandleRetry(s)
  }

  function QuizRun(s: QuizState, events: seq<QuizEvent>, progress: Chapter -> nat, category: Option<Category>): QuizState
    decreases |events|
  {
    if |events| == 0 then s else QuizRun(QuizStep(s, events[0], progress, category), events[1..], progress, category)
  }

  /** Every recorded result is a time-out of a sign of the chapter, and the
      review queue holds exactly the recorded signs, in order. */
  ghost predicate ResultsMatchReview(s: QuizState) {
    && |s.quizResults| == |s.review|
    && forall i :: 0 <= i < |s.quizResults| ==>
         && s.quizResults[i] == QuizResult(s.review[i].id, false, QuizTimeLimit)
         && s.chapter.Some? && s.review[i] in s.chapter.value.signs
  }

  lemma QuizStepKeepsResults(s: QuizState, e: QuizEvent, progress: Chapter -> nat, category: Option<Category>)
    requires ResultsMatchReview(s)
    ensures ResultsMatchReview(QuizStep(s, e, progress, category))
    ensures s.quizResults <= QuizStep(s, e, progress, category).quizResults
    ensures s.review <= QuizStep(s, e, progress, category).review
  {
    var r := QuizStep(s, e, progress, category);
    match e
    case EffectRan => SameRecordsKeepResults(s, r);
    case CountdownFired => CountdownKeepsResults(s);
    case TimedOut => TimeUpKeepsResults(s);
    case AdvanceFired =>
      var a := if s.pendingAdvances == 0 then s else s.(pendingAdvances := s.pendingAdvances - 1);
      SameRecordsKeepResults(s, a);
      if s.pendingAdvances > 0 {
        SameRecordsKeepResults(a, r);
      }
    case FeedbackCompleted => SameRecordsKeepResults(s, r);
    case Retried => SameRecordsKeepResults(s, r);
  }

  /** The invariant only looks at the results, the review queue and the
      chapter. */
  lemma SameRecordsKeepResults(s: QuizState, r: QuizState)
    requires ResultsMatchReview(s)
    requires r.quizResults == s.quizResults && r.review == s.review && r.chapter == s.chapter
    ensures ResultsMatchReview(r)
  {
  }

  lemma CountdownKeepsResults(s: QuizState)
    requires ResultsMatchReview(s)
    ensures ResultsMatchReview(FireCountdown(s))
  {
    var f := s.(countdownArmed := false);
    assert ResultsMatchReview(f);
    if s.countdownArmed && s.isRecording && s.timerActive {
      TimeUpKeepsResults(f);
    }
  }

  lemma TimeUpKeepsResults(s: QuizState)
    requires ResultsMatchReview(s)
    ensures ResultsMatchReview(HandleTimeUp(s))
  {
    var r := HandleTimeUp(s);
    if CurrentSign(s).Some? {
      var sign := CurrentSign(s).value;
      assert sign in s.chapter.value.signs;
      assert forall i :: 0 <= i < |s.quizResults| ==> r.quizResults[i] == s.quizResults[i] && r.review[i] == s.review[i];
      assert r.quizResults[|s.quizResults|] == QuizResult(r.review[|s.quizResults|].id, false, QuizTimeLimit);
    }
  }

  /** Over any run of page events the results and the review queue stay in
      step, one failed entry per time-up paired with the sign it names, and
      both only ever grow at the end. */
  lemma {:induction false} QuizRunKeepsResults(s: QuizState, events: seq<QuizEvent>, progress: Chapter -> nat, category: Option<Category>)
    requires ResultsMatchReview(s)
    ensures ResultsMatchReview(QuizRun(s, events, progress, category))
    ensures s.quizResults <= QuizRun(s, events, progress, category).quizResults
    ensures s.review <= QuizRun(s, events, progress, category).review
    decreases |events|
  {
    if |events| > 0 {
      var s1 := QuizStep(s, events[0], progress, category);
      QuizStepKeepsResults(s, events[0], progress, category);
      QuizRunKeepsResults(s1, events[1..], progress, category);
    }
  }

  /** Moving on from the last sign never leaves it: the index stays on a
      sign of the chapter. */
  lemma NextSignStaysInChapter(s: QuizState, progress: Chapter -> nat, category: Option<Category>)
    requires CurrentSign(s).Some?
    ensures CurrentSign(HandleNextSign(s, progress, category)).Some?
  {
  }

  /** An empty category counts as complete: the last sign of a chapter at
      full progress marks both. */
  lemma EmptyCategoryCompletes(s: QuizState, progress: Chapter -> nat, id: string)
    requires s.chapter.Some? && s.currentSignIndex >= |s.chapter.value.signs| - 1
    requires progress(s.chapter.value) == FullProgress
    ensures var r := HandleNextSign(s, progress, Some(Category(id, [])));
      r.completedChapters == s.completedChapters + [s.chapter.value.id]
      && r.completedCategories == s.completedCategories + [id]
  {
  }
}
