/** The page shown before a learning, quiz or review session: which route
    the start button opens, where "back" goes, when the page is not found,
    and when the start button is enabled. */
module SessionBegin {
  import opened Wrappers
  import opened Strings

  const HomePath: string := "/home"
  const CategoryPath: string := "/category"
  const LearnPrefix: string := "/learn/chapter/"
  const QuizPrefix: string := "/quiz/chapter/"
  const ReviewPrefix: string := "/review/chapter/"

  /** The router's `location.state`: where the user came from and the
      lesson-to-server map, each possibly absent. */
  datatype NavState = NavState(origin: Option<string>, lessonMapper: Option<map<string, string>>)

  /** A navigation: the path and the `lesson_mapper` carried in its state. */
  datatype Navigation = Navigation(path: string, lessonMapper: Option<map<string, string>>)

  datatype ContentKind = Learn | Quiz | Review

  /** The map handed on to the session, empty when the state has none. */
  function LessonMapperOf(state: Option<NavState>): (m: map<string, string>)
    ensures state.Some? && state.value.lessonMapper.Some? ==> m == state.value.lessonMapper.value
    ensures state.None? || state.value.lessonMapper.None? ==> m == map[]
  {
    if state.Some? && state.value.lessonMapper.Some? then state.value.lessonMapper.value else map[]
  }

  /** Mode 1 is learning, mode 2 the quiz; any other number, a mode that is
      missing and one that does not parse all mean review. */
  function KindOf(modeNum: Option<int>): (k: ContentKind)
    ensures k == Learn <==> modeNum == Some(1)
    ensures k == Quiz <==> modeNum == Some(2)
  {
    if modeNum == Some(1) then Learn
    else if modeNum == Some(2) then Quiz
    else Review
  }

  function PrefixOf(k: ContentKind): string {
    match k
    case Learn => LearnPrefix
    case Quiz => QuizPrefix
    case Review => ReviewPrefix
  }

  /** `startContents`: the chapter's page for the chosen mode, carrying the
      lesson map. */
  function StartContents(modeNum: Option<int>, chapterId: string, state: Option<NavState>): (n: Navigation)
    ensures n.lessonMapper == Some(LessonMapperOf(state))
    ensures modeNum == Some(1) ==> n.path == LearnPrefix + chapterId
    ensures modeNum == Some(2) ==> n.path == QuizPrefix + chapterId
    ensures modeNum != Some(1) && modeNum != Some(2) ==> n.path == ReviewPrefix + chapterId
  {
    Navigation(PrefixOf(KindOf(modeNum)) + chapterId, Some(LessonMapperOf(state)))
  }

  /** Reads a session route back into its kind and chapter id. */
  function ParseRoute(path: string): (r: Option<(ContentKind, string)>)
    ensures r.Some? ==> path == PrefixOf(r.value.0) + r.value.1
  {
    if StartsWith(path, LearnPrefix) then Some((Learn, path[|LearnPrefix|..]))
    else if StartsWith(path, QuizPrefix) then Some((Quiz, path[|QuizPrefix|..]))
    else if StartsWith(path, ReviewPrefix) then Some((Review, path[|ReviewPrefix|..]))
    else None
  }

  /** The start route determines the mode's kind and the chapter: reading it
      back gives both. */
  lemma StartContentsRoundTrip(modeNum: Option<int>, chapterId: string, state: Option<NavState>)
    ensures ParseRoute(StartContents(modeNum, chapterId, state).path) == Some((KindOf(modeNum), chapterId))
  {
    var k := KindOf(modeNum);
    var path := PrefixOf(k) + chapterId;
    assert path[..|PrefixOf(k)|] == PrefixOf(k);
    match k
    case Learn =>
    case Quiz =>
      assert path[1] == 'q';
    case Review =>
      assert path[1] == 'r';
  }

  /** `handleBack`: the recorded origin when it is a non-empty string,
      otherwise the category list. */
  function HandleBack(state: Option<NavState>): (path: string)
    ensures state.Some? && state.value.origin.Some? && state.value.origin.value != "" ==>
      path == state.value.origin.value
    ensures !(state.Some? && state.value.origin.Some? && state.value.origin.value != "") ==>
      path == CategoryPath
    ensures path != ""
  {
    if state.Some? && state.value.origin.Some? && state.value.origin.value != "" then state.value.origin.value
    else CategoryPath
  }

  /** Going back never opens a session unless the recorded origin is one:
      the fallback, the category list, is no session route. */
  lemma BackStartsNoSession(state: Option<NavState>)
    requires state.Some? && state.value.origin.Some? ==> ParseRoute(state.value.origin.value).None?
    ensures ParseRoute(HandleBack(state)).None?
  {
    if HandleBack(state) == CategoryPath {
      assert CategoryPath[1] == 'c';
      assert !StartsWith(CategoryPath, LearnPrefix) by { assert LearnPrefix[1] == 'l'; }
      assert !StartsWith(CategoryPath, QuizPrefix) by { assert QuizPrefix[1] == 'q'; }
      assert !StartsWith(CategoryPath, ReviewPrefix) by { assert ReviewPrefix[1] == 'r'; }
    }
  }

  /** What the page renders: the not-found view with its single way out,
      or the session start view. */
  datatype View =
    | NotFound(exits: seq<string>)
    | Begin(chapterId: string, startEnabled: bool, connectingNotice: bool, connectedNotice: bool)

  /** The start button is usable once every classification server socket is
      connected. */
  predicate StartEnabled(connectedCount: nat, totalCount: nat) {
    connectedCount == totalCount
  }

  /** A missing or empty chapter id gives the not-found view, whose only
      action goes home; otherwise the start view, whose button is enabled
      exactly when all sockets are connected, and which shows exactly one of
      the "connecting" and "connected" notices. */
  function Render(chapterId: Option<string>, connectedCount: nat, totalCount: nat): (v: View)
    ensures v.NotFound? <==> chapterId.None? || chapterId.value == ""
    ensures v.NotFound? ==> v.exits == [HomePath]
    ensures v.Begin? ==> v.chapterId == chapterId.value
    ensures v.Begin? ==> (v.startEnabled <==> connectedCount == totalCount)
    ensures v.Begin? ==> (v.connectingNotice <==> !v.connectedNotice)
    ensures v.Begin? ==> (v.connectedNotice <==> v.startEnabled)
  {
    if chapterId.None? || chapterId.value == "" then NotFound([HomePath])
    else
      var enabled := StartEnabled(connectedCount, totalCount);
      Begin(chapterId.value, enabled, connectedCount != totalCount, connectedCount == totalCount)
  }

  /** Starting is only possible from the start view with its button
      enabled, and then leads to the chapter's session. */
  lemma StartOnlyWhenConnected(chapterId: Option<string>, connectedCount: nat, totalCount: nat,
                               modeNum: Option<int>, state: Option<NavState>)
    requires Render(chapterId, connectedCount, totalCount).Begin?
    requires Render(chapterId, connectedCount, totalCount).startEnabled
    ensures connectedCount == totalCount
    ensures ParseRoute(StartContents(modeNum, chapterId.value, state).path).value.1 == chapterId.value
  {
    StartContentsRoundTrip(modeNum, chapterId.value, state);
  }
}
