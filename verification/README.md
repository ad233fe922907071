# Sign-language practice app: decision logic in Dafny

This project models the client-side decision logic of a web app for practising
Korean sign language. The app has three kinds of sessions: learning, quiz and
review. While the user signs in front of the webcam, the page buffers
hand-tracking landmarks and sends them to a classification server over a
WebSocket. It then scores the server's prediction against the current sign.

The model covers:

- the classifier hook: two bounded retry tracks, the connection flag, resolving
  the current sign to a server, and interpreting `classification_result`
  messages (`ClassifierHook`);
- the learning page: the landmark buffer, the once-per-second tick with its
  fast-motion cool-down, and moving between lessons (`LearnSession`);
- the quiz page: the 15-second countdown, the time-up handler, next sign and
  retry, chapter and category completion, and the submitted payload
  (`QuizSession`);
- the page before a session: routing, "back", not-found, and the start button
  (`SessionBegin`);
- the hand-tracking hook: converting landmarks to wire form, the console-log
  filter, and the camera guards (`Landmarks`, `Holistic`);
- the utilities: the `createRetryLogic` loop, the renderer and user-agent
  classification, the pipeline configuration and the CDN list (`RetryLogic`,
  `MediaPipeUtils`);
- the stand-alone WebSocket client: server-URL choice, reconnection, dispatch,
  send guards and `disconnect` (`SignClient`);
- the fallback panel's error classification (`Fallback`).

State is held in immutable records. Every event is a pure function:

- a frame, a tick, a message, a timer firing, a button press.

A timer is modelled as two steps:

- arming it records a pending delay;
- firing it is a separate step.

Browser and library calls are function parameters. This applies to:

- the motion gate `isFast` (the source's `inspect_sequence`);
- `getConnectionByUrl`;
- the chapter-progress lookup;
- whether a camera start, a socket constructor or a `send` throws;
- the operation given to `retry`.

The one loop is `RetryLogic.Retry`, the `while` loop of `createRetryLogic`. It
is proved equal to the recursive reference definition `RetryLogic.RunFrom`.

Where the code and its documentation disagree, the model follows the code:

- `createRetryLogic` only counts failed invocations. A retry object therefore
  fails at most `maxAttempts` times over its life, but can be invoked more
  often than that when calls succeed (`RetryLogic.SuccessesAreNotCounted`).
- On a calm tick during the cool-down, the pause time is counted down only
  while it is still positive. The pause flag is cleared in the same step that
  reaches zero.
- `SignClassifierClient.disconnect` does not stop automatic reconnection. The
  close event that `close()` causes still schedules a reconnect
  (`SignClient.DisconnectStillReconnects`).

One departure goes the other way, towards the intended behaviour: the retry
functions of the classifier hook arm a new timer without cancelling the
pending one, overwriting the ref (src/hooks/useClassifierClient.ts:60, :95;
`clearTimeout` runs only on unmount, :236-237), so as written both timers stay
armed and both fire. The model has one pending timer per track, and
re-arming replaces it (see "## Left out").

Shared vocabulary lives in `Domain`, `Wrappers` (Option/Result), `Strings`
(`includes`, `startsWith`, ASCII `toLowerCase`, `join`) and `Arith` (powers of
two, repeated doubling, minimum).

## Model

| member | source | states |
|---|---|---|
| ClassifierHook.InitialHookState | src/hooks/useClassifierClient.ts:21-41 | On mount both retry counters are 0, no timer is pending, nothing is connected and the study list is empty |
| ClassifierHook.RetryDelay | src/hooks/useClassifierClient.ts:53-56 | The back-off `min(1000·2^n, 5000)` lies between 1000 and 5000 ms and is either the cap or `1000·2^n` |
| ClassifierHook.RetryDelaySchedule | src/hooks/useClassifierClient.ts:10-14 | The back-offs are 1000, 2000 and 4000 ms for counts 0, 1, 2, and 5000 ms for every count from 3 on |
| ClassifierHook.RetryDelayMonotone | src/hooks/useClassifierClient.ts:88-91 | A higher failure count never gives a shorter wait |
| ClassifierHook.RetryLessonMapper | src/hooks/useClassifierClient.ts:44-60 | At 3 or more failures: one alert, `isRetrying` false, no timer. Below 3: retrying, and a timer with the back-off for the current count. The connection track is untouched |
| ClassifierHook.FireLessonMapperTimer | src/hooks/useClassifierClient.ts:60-74 | A non-empty mapper in the navigation state is adopted and resets only this track. `isRetrying` is cleared only if the other track is idle with a connection. Otherwise the count grows by one and the retry runs again. With no timer, nothing happens |
| ClassifierHook.LessonMapperGivesUp | src/hooks/useClassifierClient.ts:44-75 | Under repeated failed lookups the track stops at exactly 3 attempts, with one alert, no timer and `isRetrying` false. Further firings change nothing. The connection track is unchanged |
| ClassifierHook.LessonMapperIdle | src/hooks/useClassifierClient.ts:60-61 | With no timer pending, failing firings leave the state unchanged |
| ClassifierHook.LessonMapperBackoffs | src/hooks/useClassifierClient.ts:52-60 | A fresh track arms timers of 1000, 2000 and then 4000 ms |
| ClassifierHook.FireLessonMapperTimerAsWritten | src/hooks/useClassifierClient.ts:60-73 | As written, a failed lookup raises the state's count, but the retry that follows tests and times itself by the count its closure captured: it re-arms with that count's back-off iff the captured count is below 3 |
| ClassifierHook.StaleChainNeverGivesUp | src/hooks/useClassifierClient.ts:43-73 | As written, a closure chain started below the cap keeps its timer armed with the same back-off and raises no alert after any number of failed lookups, while the state's count passes the cap |
| ClassifierHook.StaleChainOutlivesCap | src/hooks/useClassifierClient.ts:43-73 | From a fresh track, after three failed lookups the as-written chain is still armed at 1000 ms without an alert, where the intended track has stopped with one alert |
| ClassifierHook.RetryWsConnection | src/hooks/useClassifierClient.ts:78-95 | At 3 or more failures: alert, navigate to "/", `isRetrying` false, no timer. Below 3: a timer for the target URL with the back-off. The lesson-mapper track is untouched |
| ClassifierHook.FireWsTimer | src/hooks/useClassifierClient.ts:95-109 | A found connection becomes current and resets only this track. `isRetrying` is cleared only if the lesson-mapper track is idle with a non-empty mapper. A missing one adds a failure and retries the same URL, or navigates home at the third failure |
| ClassifierHook.WsConnectionGivesUp | src/hooks/useClassifierClient.ts:78-110 | Under repeated failed lookups the connection track stops after the third failure, with one alert, one navigation home and no timer. The lesson-mapper track is unchanged |
| ClassifierHook.WsIdle | src/hooks/useClassifierClient.ts:95-96 | With no connection timer pending, failing firings change nothing |
| ClassifierHook.SyncConnection | src/hooks/useClassifierClient.ts:113-118 | `isConnected` holds iff the status is "connected" and at least one socket exists. Nothing else changes |
| ClassifierHook.SyncConnectionLatestWins | src/hooks/useClassifierClient.ts:113-118 | Re-running the effect keeps only the latest status and socket count, and never touches the retry tracks, the connection id or the mapper |
| ClassifierHook.MappedUrl | src/hooks/useClassifierClient.ts:141 | The sign's URL from the mapper, or "" when the sign has none |
| ClassifierHook.ResolveSign | src/hooks/useClassifierClient.ts:138-163 | No current sign means no change. Otherwise the current URL becomes the mapper's entry for the sign, and the mapper is kept |
| ClassifierHook.ResolveSignTracks | src/hooks/useClassifierClient.ts:145-160 | A found connection resets only the connection track. A missing connection starts the connection retry. A missing URL starts the lesson-mapper retry only when the mapper is empty |
| ClassifierHook.TargetPercent | src/hooks/useClassifierClient.ts:195-201 | A percentage exists only when there is a current sign |
| ClassifierHook.TargetPercentCases | src/hooks/useClassifierClient.ts:196-201 | The percentage is `confidence·100` on a matching prediction, else `probabilities[word]·100` when the word is non-empty and present, else absent (also for an empty word, which `target &&` rejects) |
| ClassifierHook.HandleClassification | src/hooks/useClassifierClient.ts:177-211 | Interpreting a result never touches either retry track, the connection, the mapper or the current sign |
| ClassifierHook.HandleInbound | src/hooks/useClassifierClient.ts:173-218 | Any message other than a `classification_result` with data, including a parse failure, changes nothing |
| ClassifierHook.PausedResultsAreNotScored | src/hooks/useClassifierClient.ts:180-186 | While paused, a real prediction changes only the display to "빠른 동작 감지", and "None" only clears the pause |
| ClassifierHook.NoneAfterFeedbackOnlyCaches | src/hooks/useClassifierClient.ts:190-193 | With feedback set, a "None" prediction only replaces the cached result |
| ClassifierHook.ScoringPassesAtEighty | src/hooks/useClassifierClient.ts:202-210 | A scored result sets `'correct'` and appends the sign id (without deduplication) iff its percentage is at least 80. The display changes iff there is a percentage |
| ClassifierHook.InterpreterMonotone | src/hooks/useClassifierClient.ts:205-208 | On any message the study list only grows, by at most one id. `'correct'` is never lost and `'incorrect'` is never produced |
| ClassifierHook.PassExamples | src/hooks/useClassifierClient.ts:197-200 | Confidence 0.85 on the right word shows 85 % and passes. A probability of 0.92 for the word on a mismatch also passes |
| ClassifierHook.NoneBeforeFeedbackIsUnscored | src/hooks/useClassifierClient.ts:194-205 | Before feedback, a "None" prediction with no probabilities is only cached |
| LearnSession.MountedLearnState | src/pages/LearnSession.tsx:221-222 | After mount, recording is on, with an empty buffer and outbox at lesson 0 |
| LearnSession.OnLandmarks | src/pages/LearnSession.tsx:105-116 | A frame is appended at the end of the buffer iff recording and connected. Nothing else changes |
| LearnSession.SequenceMessage | src/pages/LearnSession.tsx:144-151 | The message's sequence is the buffer in order, and its frame count is the buffer's length |
| LearnSession.Tick | src/pages/LearnSession.tsx:140-188 | On an empty buffer nothing happens. Otherwise the buffer is emptied and its length counted. One message on the current connection is sent iff the gate says calm and buffering is not paused |
| LearnSession.FastTickStartsCooldown | src/pages/LearnSession.tsx:174-180 | A fast tick sends nothing, pauses with 3000 ms left and shows "천천히 동작해주세요" |
| LearnSession.CalmTickCountsDown | src/pages/LearnSession.tsx:153-170 | A calm tick while paused sends nothing and subtracts 1000 ms. At or below 0 the time clamps to 0 and the pause lifts |
| LearnSession.CalmTickSends | src/pages/LearnSession.tsx:171-173 | A calm tick when not paused sends exactly one message: the whole buffer with its frame count, on the current connection |
| LearnSession.FramesConserved | src/pages/LearnSession.tsx:105-188 | Over any run of frames and ticks while recording and connected, with each tick taken as one atomic step, no frame is lost, duplicated or reordered. The counter grows by exactly the frames drained |
| LearnSession.SentMessagesWellFormed | src/pages/LearnSession.tsx:142-172 | A run only appends to the outbox, and every message sent is non-empty with a frame count equal to its length |
| LearnSession.BufferingEffect | src/pages/LearnSession.tsx:131-201 | Unless both recording and connected, the buffer is emptied. Otherwise nothing changes |
| LearnSession.SetRecording | src/pages/LearnSession.tsx:192-201 | The flag takes the new value. The buffer is kept iff recording is switched on over a live connection, else emptied. Nothing else changes |
| LearnSession.ConnectionChanged | src/pages/LearnSession.tsx:131-133 | The flag follows the status and the socket count. The buffer survives iff recording over a live connection. Only the flag and the buffer change |
| LearnSession.BufferingEffectIdempotent | src/pages/LearnSession.tsx:131-201 | Running the buffering effect again changes nothing |
| LearnSession.IdlePageStaysIdle | src/pages/LearnSession.tsx:105-201 | A page that is not recording over a live connection, with an empty buffer, is left unchanged by any run of frames and ticks: nothing is buffered, counted or sent |
| LearnSession.StoppedPageSendsNothing | src/pages/LearnSession.tsx:192-201 | After recording is switched off, no run of frames and ticks buffers or sends anything |
| LearnSession.DisconnectedPageSendsNothing | src/pages/LearnSession.tsx:131-201 | After the connection is lost, no run of frames and ticks buffers or sends anything |
| LearnSession.SignIndexChanged | src/pages/LearnSession.tsx:280-283 | A change of lesson empties the buffer and nothing else |
| LearnSession.SyncCurrentSign | src/pages/LearnSession.tsx:90-95 | The hook's current sign and id follow the current lesson when there is one |
| LearnSession.NextSign | src/pages/LearnSession.tsx:240-248 | Before the last lesson: index + 1, feedback cleared, buffer emptied. Otherwise: session complete and index kept |
| LearnSession.FeedbackComplete | src/pages/LearnSession.tsx:251-255 | Marks `'correct'` and then moves on. On the last lesson, the session completes with `'correct'` kept |
| LearnSession.NextSignStaysInRange | src/pages/LearnSession.tsx:242-247 | The index never moves past the last lesson |
| QuizSession.InitialQuizState | src/pages/QuizSession.tsx:55-72 | A quiz starts at sign 0 with no results, no feedback and no countdown |
| QuizSession.CurrentSign | src/pages/QuizSession.tsx:77 | A current sign exists iff there is a chapter and the index is inside its signs |
| QuizSession.HandleTimeUp | src/pages/QuizSession.tsx:99-117 | Recording and timer off, feedback `'incorrect'`. With a current sign, exactly one `{id, false, 15}` result and one review entry are added. An advance timer is armed in every case |
| QuizSession.HandleNextSign | src/pages/QuizSession.tsx:120-148 | The intended handler. Before the last sign: index + 1 and feedback, timer and started flag cleared. Otherwise: session complete; the chapter is marked iff its progress is 100 and the category iff all its chapters are. Results, review and pending advances unchanged |
| QuizSession.AllChaptersComplete | src/pages/QuizSession.tsx:137-140 | True iff every chapter of the list is at 100, so true for no chapters |
| QuizSession.PageCategoryOf | src/pages/QuizSession.tsx:74 | The page has no category iff the route has no (or an empty) category id; otherwise it holds the chapter lookup's result |
| QuizSession.HandleNextSignAsWritten | src/pages/QuizSession.tsx:120-148 | As written: without a category id, the intended handler with no category. With one, on the last sign the chapter mark happens and the session is not completed, and no category is marked |
| QuizSession.RouteWithoutCategoryMarksNone | src/pages/SessionBegin.tsx:89 | As written, the quiz route the begin page builds carries no category id, so no category is ever marked |
| QuizSession.CategoryRouteNeverCompletes | src/pages/QuizSession.tsx:74 | As written, a category id in the route stops the last sign from completing the session, while the intended handler completes it for any category |
| QuizSession.HandleRetry | src/pages/QuizSession.tsx:156-163 | Clears feedback, recording, timer, started flag and result. Keeps the index and everything else |
| QuizSession.ArmCountdown | src/pages/QuizSession.tsx:208-222 | A countdown is armed (recording, timer and started flag on) iff there is a current sign and no feedback. The previous countdown is cleared |
| QuizSession.FireCountdown | src/pages/QuizSession.tsx:215-219 | Time is up iff the countdown was armed with recording and timer on. Then feedback becomes `'incorrect'`, one advance is armed, and a current sign gets exactly one `{id, false, 15}` result and review entry. Otherwise only the pending countdown is dropped. No countdown stays armed |
| QuizSession.FireAdvance | src/pages/QuizSession.tsx:114-116 | A pending advance is used up. Before the last sign: index + 1 with feedback, timer and started flag cleared. On the last: session complete, index kept. With none pending nothing happens. Results, review and chapter never change |
| QuizSession.TimeUpThenAdvance | src/pages/QuizSession.tsx:99-125 | A time-up before the last sign, once its advance fires, leaves the failure recorded and the next sign current with no feedback, so the countdown arms again |
| QuizSession.SubmissionPayload | src/pages/QuizSession.tsx:85-92 | No request for an empty list. Otherwise one entry per result, in order, with id and correctness only |
| QuizSession.PayloadRoundTrip | src/pages/QuizSession.tsx:88-91 | Restoring each result's time to the payload gives back the page's list exactly |
| QuizSession.TimeUpOncePerCountdown | src/pages/QuizSession.tsx:209-218 | After a time-up has recorded a failure, neither a second expiry nor re-running the effect records another |
| QuizSession.QuizStepKeepsResults | src/pages/QuizSession.tsx:99-163 | Every page event, including the timer component's own `onTimeUp`, keeps the earlier results and review entries as a prefix and each result paired with a review entry for the same chapter sign |
| QuizSession.CountdownKeepsResults | src/pages/QuizSession.tsx:215-219 | A countdown expiry keeps results and review queue in step |
| QuizSession.TimeUpKeepsResults | src/pages/QuizSession.tsx:104-111 | A time-up appends a result and a review entry for the same sign of the chapter |
| QuizSession.QuizRunKeepsResults | src/pages/QuizSession.tsx:98-163 | Over any run of page events, the earlier results and review entries are kept as a prefix (both are only appended to), and each result is a 15-second time-out paired with its review entry |
| QuizSession.NextSignStaysInChapter | src/pages/QuizSession.tsx:122-147 | Moving on never leaves the chapter's signs |
| QuizSession.EmptyCategoryCompletes | src/pages/QuizSession.tsx:136-143 | In the intended handler, given the route's category record, a category without chapters counts as complete once its last chapter's sign is done (the page as written never supplies that record, see "## Findings") |
| SessionBegin.LessonMapperOf | src/pages/SessionBegin.tsx:32 | The navigation state's lesson map, or the empty map when there is none |
| SessionBegin.KindOf | src/pages/SessionBegin.tsx:85-93 | Learning iff mode 1, quiz iff mode 2, review otherwise (including a missing or unparsable mode) |
| SessionBegin.StartContents | src/pages/SessionBegin.tsx:84-94 | Routes to `/learn/chapter/{id}`, `/quiz/chapter/{id}` or `/review/chapter/{id}`. The lesson map is always carried |
| SessionBegin.ParseRoute | src/pages/QuizSession.tsx:65 | The reference reading of a session route, standing for the router that hands the session pages their `chapterId` (the route table is not part of this model): a parsed route is exactly its kind's prefix followed by the id |
| SessionBegin.StartContentsRoundTrip | src/pages/SessionBegin.tsx:84-94 | Parsing the start route gives back the mode's kind and the chapter id |
| SessionBegin.HandleBack | src/pages/SessionBegin.tsx:75-81 | Goes to a non-empty origin when there is one, else to "/category" |
| SessionBegin.BackStartsNoSession | src/pages/SessionBegin.tsx:75-81 | Going back opens no session route unless the recorded origin is one; the fallback "/category" is none |
| SessionBegin.Render | src/pages/SessionBegin.tsx:64-73 | Not found iff the chapter id is missing or empty, offering only "/home". Otherwise start is enabled iff connected == total, with exactly one of the two notices |
| SessionBegin.StartOnlyWhenConnected | src/pages/SessionBegin.tsx:259-261 | Starting is possible only when all sockets are connected, and leads to the same chapter |
| Fallback.KindOf | src/components/MediaPipeFallback.tsx:19-49 | "WebGL" wins. "MediaPipe" without "WebGL" is a load failure. Anything else is an initialisation error. Each is an iff |
| Fallback.DetailsFor | src/components/MediaPipeFallback.tsx:20-48 | Every kind of details lists exactly three solutions |
| Fallback.GetErrorDetails | src/components/MediaPipeFallback.tsx:18-50 | Three solutions always. The title is the WebGL one iff the message names WebGL, the load-failure one iff it names MediaPipe but not WebGL, the initialisation one iff it names neither |
| Fallback.PanelDetails | src/components/MediaPipeFallback.tsx:52 | No details iff the error is missing or empty |
| Fallback.TitlesDistinguishKinds | src/components/MediaPipeFallback.tsx:21-41 | Two kinds have the same title iff they are the same kind |
| Fallback.WebGLTakesPriority | src/components/MediaPipeFallback.tsx:19-29 | Every message naming both WebGL and MediaPipe, in either order, gets the WebGL details and not the load-failure ones |
| Fallback.WebGLThenMediaPipe | src/components/MediaPipeFallback.tsx:19-29 | Whatever text surrounds "WebGL" followed by "MediaPipe", the message names MediaPipe and still gets the WebGL details |
| Fallback.LoaderMessageIsLoadFailure | src/components/MediaPipeFallback.tsx:29-31 | "MediaPipe script failed" gets the title "MediaPipe 로드 실패" |
| Landmarks.ConvertList | src/hooks/useMediaPipeHolistic.ts:176 | Same length, and element i is `[x, y, z]` of landmark i |
| Landmarks.ConvertResults | src/hooks/useMediaPipeHolistic.ts:174-184 | Each of pose, left and right hand is null iff its list is absent, and is otherwise its wire conversion |
| Landmarks.DecodeConvertList | src/hooks/useMediaPipeHolistic.ts:176-182 | Decoding a converted list gives back the landmarks |
| Landmarks.DecodeConvertResults | src/hooks/useMediaPipeHolistic.ts:174-184 | Every present part of a frame decodes back to its landmarks |
| Holistic.OnResults | src/hooks/useMediaPipeHolistic.ts:169-203 | The converted frame is remembered, and is delivered to the callback iff one is set |
| Holistic.ProcessFramesDelivers | src/hooks/useMediaPipeHolistic.ts:169-191 | Over any stream of frames, with a callback each frame is delivered converted, once, in order, after the earlier deliveries; without one nothing is delivered |
| Holistic.DeliveredFramesDecode | src/hooks/useMediaPipeHolistic.ts:174-191 | Each delivered frame decodes back to the detected parts of the frame it came from |
| Holistic.Deliver | src/hooks/useMediaPipeHolistic.ts:66-84 | A delivered call reaches an environment function with its arguments unchanged |
| Holistic.FilterConsoleLogs | src/hooks/useMediaPipeHolistic.ts:57-112 | Logging enabled: nothing patched and a no-op cleanup. Disabled: `log` and `warn` wrapped, `error` and `info` kept |
| Holistic.FilteredLogBehaviour | src/hooks/useMediaPipeHolistic.ts:66-84 | `console.log` drops a call iff the joined message has one of the ten markers, and forwards all others unchanged |
| Holistic.FilteredWarnBehaviour | src/hooks/useMediaPipeHolistic.ts:86-97 | `console.warn` drops a call iff the message has one of its three markers |
| Holistic.WarnMarkersAreLogMarkers | src/hooks/useMediaPipeHolistic.ts:89-93 | The warn markers are among the log markers |
| Holistic.CleanupRestoresConsole | src/hooks/useMediaPipeHolistic.ts:104-111 | The cleanup restores all four console functions. With logging enabled it leaves the console alone |
| Holistic.StartCamera | src/hooks/useMediaPipeHolistic.ts:281-309 | Without a video element, initialisation or pipeline: false and no camera. Otherwise a camera is kept iff its start succeeds |
| Holistic.StopCamera | src/hooks/useMediaPipeHolistic.ts:312-318 | A running camera is stopped once and forgotten |
| Holistic.StopCameraIdempotent | src/hooks/useMediaPipeHolistic.ts:313 | Stopping twice is stopping once |
| Holistic.StartThenStop | src/hooks/useMediaPipeHolistic.ts:281-318 | From no camera, a start and a stop leave no camera, with one stop iff the start succeeded |
| Holistic.RestartDropsRunningCamera | src/hooks/useMediaPipeHolistic.ts:300-301 | A start over a running camera replaces the reference without stopping the old camera, so a later stop reaches only the new one |
| RetryLogic.CreateRetryLogic | src/utils/mediaPipeUtils.ts:154-159 | A new object starts with a zero counter and exactly the given cap, base delay and maximum delay |
| RetryLogic.DefaultRetryLogic | src/utils/mediaPipeUtils.ts:155-159 | The defaults are a cap of 3 attempts, 1000 ms base and 5000 ms maximum, with a zero counter |
| RetryLogic.BackoffDelay | src/utils/mediaPipeUtils.ts:176 | The wait never exceeds `maxDelay` |
| RetryLogic.BackoffDelayIsCappedProduct | src/utils/mediaPipeUtils.ts:176 | The wait is `min(baseDelay·2^(n-1), maxDelay)` for counter n |
| RetryLogic.RunFrom | src/utils/mediaPipeUtils.ts:165-187 | Only the counter of the object changes, and it never decreases |
| RetryLogic.RunFromCounter | src/utils/mediaPipeUtils.ts:165-174 | The counter stops at the cap and grows by the number of failed invocations. All invocations but the last failed |
| RetryLogic.RunFromOutcome | src/utils/mediaPipeUtils.ts:165-187 | Success returns the last invocation's value. The final failure rethrows its error. The generic error is thrown iff the counter was already at the cap, and then nothing is invoked |
| RetryLogic.RunFromDelayCount | src/utils/mediaPipeUtils.ts:176-183 | One wait per retry: as many waits as invocations minus one |
| RetryLogic.RunFromDelayAt | src/utils/mediaPipeUtils.ts:176-183 | The j-th wait is the back-off for counter `attempts + j + 1` |
| RetryLogic.RunFromDelays | src/utils/mediaPipeUtils.ts:176-183 | Every wait is `min(base·2^(n-1), max)` for the counter n it follows |
| RetryLogic.RunFromNotices | src/utils/mediaPipeUtils.ts:178-180 | `onRetry` is called once per wait, in order, with counters 1, 2, … and never on the final failure |
| RetryLogic.Retry | src/utils/mediaPipeUtils.ts:161-188 | The `while` loop computes exactly the reference run |
| RetryLogic.LifetimeFailuresBounded | src/utils/mediaPipeUtils.ts:159-174 | Because the counter is never reset, one object fails at most `maxAttempts` invocations over any series of calls made one after another |
| RetryLogic.ExhaustedObjectNeverInvokes | src/utils/mediaPipeUtils.ts:187 | An exhausted object invokes nothing and throws the generic error |
| RetryLogic.DefaultsAlwaysFailing | src/utils/mediaPipeUtils.ts:165-183 | With the defaults and an always failing operation: 3 invocations, `onRetry` told 1 then 2, waits of 1000 and 2000 ms |
| RetryLogic.FreshObjectAlwaysFailing | src/utils/mediaPipeUtils.ts:159-183 | A fresh object with cap n ≥ 1 and an always failing operation invokes it exactly n times, ends at the cap with n - 1 waits, and rethrows the last error |
| RetryLogic.SuccessesAreNotCounted | src/utils/mediaPipeUtils.ts:167 | Successful calls leave the counter alone, so a cap of 1 still allows 2 invocations |
| MediaPipeUtils.EC2CheckIsCaseInsensitive | src/utils/mediaPipeUtils.ts:34-36 | The check holds iff the lower-cased renderer has "llvmpipe", "swiftshader" or "software", and it ignores case |
| MediaPipeUtils.IsEC2Environment | src/utils/mediaPipeUtils.ts:34-36 | A missing renderer is never a software renderer (`undefined` is falsy); the iff over the names is EC2CheckIsCaseInsensitive |
| MediaPipeUtils.SwiftShaderIsEC2 | src/utils/mediaPipeUtils.ts:35 | A typical SwiftShader renderer string is recognised |
| MediaPipeUtils.FlagsOf | src/utils/mediaPipeUtils.ts:110-114 | Mobile iff the lower-cased agent has one of the eight tokens. Safari iff "Safari" and not "Chrome". Chrome iff "Chrome" and not "Edge". Firefox and Edge by their names |
| MediaPipeUtils.MobileTestIgnoresCase | src/utils/mediaPipeUtils.ts:110 | The mobile test gives the same answer for the agent and its lower-cased form |
| MediaPipeUtils.IPhoneIsMobile | src/utils/mediaPipeUtils.ts:110 | An agent naming "iPhone" is mobile |
| MediaPipeUtils.BrowserFlagsExclusive | src/utils/mediaPipeUtils.ts:111-114 | No user agent is both Chrome and Safari, or both Chrome and Edge |
| MediaPipeUtils.ChromeUserAgent | src/utils/mediaPipeUtils.ts:111-113 | A Chrome user agent, which also names Safari, is Chrome and not Safari |
| MediaPipeUtils.ConfigProfiles | src/utils/mediaPipeUtils.ts:121-149 | Software rendering: complexity 0, 1 hand, 0 faces, thresholds 0.3. Otherwise: complexity 1, 2 hands, 1 face, thresholds 0.5 |
| MediaPipeUtils.OptimizedConfig | src/utils/mediaPipeUtils.ts:121-149 | Neither profile enables segmentation or face refinement, and complexity 0 marks exactly the software-rendering profile |
| MediaPipeUtils.EC2ConfigIsLighter | src/utils/mediaPipeUtils.ts:124-148 | The software-rendering configuration asks for no more than the normal one in any field |
| MediaPipeUtils.MediaPipeCdnUrls | src/utils/mediaPipeUtils.ts:196-201 | Four distinct URLs whose hosts read back, in order, as cdn.jsdelivr.net, unpkg.com, cdn.skypack.dev and esm.sh |
| MediaPipeUtils.HostOf | src/utils/mediaPipeUtils.ts:196-201 | A host is read exactly from HTTPS URLs and never contains "/" |
| MediaPipeUtils.HostOfBuilt | src/utils/mediaPipeUtils.ts:196-201 | Reading back `https://` + host + path, for a host without "/" and a path starting with one, gives the host |
| MediaPipeUtils.CdnUrlsAreHttps | src/utils/mediaPipeUtils.ts:197-200 | Every CDN URL starts with `https://` |
| SignClient.ServerUrl | src/services/SignClassifierClient.ts:38-53 | An empty URL gives `{wss on https, else ws}://{host or localhost:8765}/ws/9002/`. `ws://` becomes `wss://` only on https. Every other URL is kept verbatim |
| SignClient.ServerUrlIdempotent | src/services/SignClassifierClient.ts:47-51 | Choosing the URL again from a chosen URL changes nothing |
| SignClient.DerivedUrlScheme | src/services/SignClassifierClient.ts:41-44 | A URL derived from the page is `wss://` on https and `ws://` otherwise |
| SignClient.NewClient | src/services/SignClassifierClient.ts:30-36 | A new client has no socket, no callback, is disconnected and has 0 reconnects |
| SignClient.Connect | src/services/SignClassifierClient.ts:55-111 | A new socket is opened, or, when the constructor throws, the client is marked disconnected. The reconnect counter is untouched |
| SignClient.OnOpen | src/services/SignClassifierClient.ts:62-66 | Connected, with the reconnect counter reset to 0. Nothing else changes |
| SignClient.OnClose | src/services/SignClassifierClient.ts:85-99 | Disconnected. Below 5 attempts, the counter grows by one and a reconnect after `2000·count` ms is scheduled. At 5 nothing is scheduled |
| SignClient.OnError | src/services/SignClassifierClient.ts:101-105 | Disconnected and nothing else |
| SignClient.OnMessage | src/services/SignClassifierClient.ts:69-83 | Only a `classification_result` with a registered callback is delivered. A pong, another type or a parse failure changes nothing |
| SignClient.ReceiveAllDelivers | src/services/SignClassifierClient.ts:69-83 | Over any stream of frames, a registered callback receives exactly the classification results, in order; without one nothing is delivered; nothing else changes |
| SignClient.OnResult | src/services/SignClassifierClient.ts:162-164 | Registers the callback and nothing else |
| SignClient.SendVideoChunk | src/services/SignClassifierClient.ts:115-142 | Returns true iff connected with a socket. Otherwise nothing happens |
| SignClient.SendPing | src/services/SignClassifierClient.ts:144-160 | Returns true iff connected with a socket and the send does not throw. A ping is counted only then |
| SignClient.Disconnect | src/services/SignClassifierClient.ts:170-178 | No socket, disconnected, no callback. A socket that exists is closed once |
| SignClient.DisconnectIdempotent | src/services/SignClassifierClient.ts:171-176 | Disconnecting twice is disconnecting once, and a disconnected client refuses both sends |
| SignClient.DisconnectStillReconnects | src/services/SignClassifierClient.ts:90-95 | The close event after `disconnect` still schedules a reconnect while fewer than 5 were tried |
| SignClient.ReconnectsBounded | src/services/SignClassifierClient.ts:90-98 | Over any event run without an open, at most 5 reconnects are scheduled in all, waiting 2000, 4000, … ms |

## Left out

- QuizSession.HandleNextSign: the category it is given is the one the page
  evidently means, the record of the route's category. As written the page
  looks the category id up with the chapter lookup
  (src/pages/QuizSession.tsx:74), and the quiz route built at
  src/pages/SessionBegin.tsx:89 has no category id at all. Both behaviours
  are modelled, see "## Findings".
- RetryLogic.LifetimeFailuresBounded: holds for `retry` calls that run one
  after another. `retry` is asynchronous and tests the counter before each
  `await`, so two overlapping calls on an object one failure short of its
  cap can both invoke and both fail, ending one failure past the cap.
  Overlapping calls are not modelled.
- MediaPipeUtils.MediaPipeCdnUrls: the URLs are built from the host and path
  tables, which hold the source's text; their equality with the four
  literal strings is not stated as a separate lemma.

- React effect scheduling and stale closures. Retry steps, ticks and the quiz
  countdown read the current state rather than the values captured when they
  were created. As written, for example, the quiz countdown's
  `isRecording && timerActive` test sees the flags from before arming; the
  lesson-mapper chain is the one stale closure modelled both ways (see
  "## Findings"). A tick is also taken as one atomic step: the fast branch's
  `setLandmarksBuffer([])` inside the buffer's own updater
  (src/pages/LearnSession.tsx:179) is queued behind the frames added in the
  same batch and so would drop them, which `LearnSession.FramesConserved`
  does not cover.
- The single `retryTimeoutRef` shared by both retry tracks, and timers that
  stay armed after the ref is overwritten. Each track is given its own
  pending timer, and re-arming replaces it.
- Real timers and their delays as time: a timer is a recorded delay plus a
  separate firing step. This covers the 3000 ms quiz advance, the buffer
  interval and the 2000 ms release of the log filter.
- `toFixed(1)` formatting of the displayed percentage: the display holds the
  number. Progress ratios are also left out
  (src/pages/LearnSession.tsx:364, src/pages/QuizSession.tsx:201).
- The `setMaxConfidence(0)` at handler registration and `isMovingNextSign`,
  which is set but never read.
- `LearnSession`'s navigation to the completion page when the session
  completes, which is a render-time side effect.
- The hook return values that LearnSession expects but the hooks do not
  provide (`bufferingPauseTime`, `inspect_sequence`, `initializeSession`). The
  pause time is page state and the motion gate is a parameter.
- `handleStartRecording`, which the quiz page passes on but does not define.
  The quiz page also has no path that sets `'correct'`.
- `initializeMediaPipe`, the WebGL probe, `checkMediaPipeModule`'s dynamic
  import, canvas drawing and `processFrame`: these are browser and library
  calls.
- `getBrowserInfo`'s navigator reads other than the user-agent flags, and
  `diagnoseEnvironment`: environment I/O.
- The WebSocket transport, the `FileReader` encoding of video chunks and the
  order in which timers fire. The client counts sends and records the
  scheduled reconnect delays. `getConnectionStatus` is a plain read.
- REST calls (`API.post` of quiz results and lesson events; chapter loading),
  the learning-data store (progress, review list and completion marks become
  parameters or lists), and `useStreakData`: network I/O.
- JSX, layout, the resize-driven height syncing of the session-begin page,
  and `StreamingControls`: presentation only.
- `parseInt` of the mode parameter: the mode is given as an optional integer,
  absent when missing or not a number.
- Unicode case mapping: `toLowerCase` is modelled on ASCII letters only, which
  covers the renderer names it looks for.
- The landmarks' `visibility` field and the segmentation mask, which the
  conversion drops.

## Findings

| source | as written | input that shows it | evidently intended | confidence | as-written member | corrected member |
|---|---|---|---|---|---|---|
| src/pages/QuizSession.tsx:74 | `category` is `findChapterById(categoryId)`, and `category.chapters.every` runs on it at :137 | the last sign of a chapter reached on a route with a category id: a chapter record, or the promise of one, has no `chapters`, so the call throws before `setSessionComplete(true)`; on the route the begin page builds there is no category id and no category is ever marked | `findCategoryById(categoryId)`, so that the category's chapters are checked and the session completes | medium, not executed; it assumes the chapter lookup's result has no `chapters` list (the learning-data store is not part of this model) | QuizSession.CategoryRouteNeverCompletes | QuizSession.EmptyCategoryCompletes |
| src/hooks/useClassifierClient.ts:71-72 | the timer's callback calls the `retryLessonMapper` that armed it, whose cap test (:44) and delay (:52-55) read the count captured when it was made | a lesson mapper that stays missing: from count 0 the chain re-arms at 1000 ms after every failed lookup, also after the third, and never alerts | each retry reads the current count, so the track stops after the third failure with one alert | low, not executed; effect re-runs with the new callback (:163) also start fresh chains, which are not modelled | ClassifierHook.StaleChainOutlivesCap | ClassifierHook.LessonMapperGivesUp |
