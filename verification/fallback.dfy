/** The fallback panel shown when the hand-tracking pipeline cannot start:
    which explanation and which three suggestions it gives for an error
    message. */
module Fallback {
  import opened Wrappers
  import opened Strings

  datatype ErrorDetails = ErrorDetails(title: string, description: string, solutions: seq<string>)

  /** The three explanations the panel knows. */
  datatype ErrorKind = WebGLProblem | LoadFailure | InitError

  /** The message's kind: a mention of WebGL wins over a mention of
      MediaPipe; anything else is a generic initialisation error. */
  function KindOf(error: string): (k: ErrorKind)
    ensures k == WebGLProblem <==> Contains(error, "WebGL")
    ensures k == LoadFailure <==> !Contains(error, "WebGL") && Contains(error, "MediaPipe")
    ensures k == InitError <==> !Contains(error, "WebGL") && !Contains(error, "MediaPipe")
  {
    if Contains(error, "WebGL") then WebGLProblem
    else if Contains(error, "MediaPipe") then LoadFailure
    else InitError
  }

  function DetailsFor(k: ErrorKind): (d: ErrorDetails)
    ensures |d.solutions| == 3
  {
    match k
    case WebGLProblem =>
      ErrorDetails(
        "WebGL 지원 문제",
        "브라우저가 WebGL을 지원하지 않거나 GPU 가속이 비활성화되어 있습니다.",
        ["브라우저를 최신 버전으로 업데이트하세요",
         "GPU 가속을 활성화하세요",
         "다른 브라우저를 시도해보세요 (Chrome, Firefox, Edge)"])
    case LoadFailure =>
      ErrorDetails(
        "MediaPipe 로드 실패",
        "MediaPipe 라이브러리를 로드하는데 실패했습니다.",
        ["인터넷 연결을 확인하세요",
         "페이지를 새로고침하세요",
         "브라우저 캐시를 지우고 다시 시도하세요"])
    case InitError =>
      ErrorDetails(
        "초기화 오류",
        "MediaPipe 초기화 중 오류가 발생했습니다.",
        ["페이지를 새로고침하세요",
         "브라우저를 재시작하세요",
         "다른 브라우저를 시도해보세요"])
  }

  /** `getErrorDetails`: the details of the message's kind, always with
      exactly three suggestions; the title says which test matched first. */
  function GetErrorDetails(error: string): (d: ErrorDetails)
    ensures |d.solutions| == 3
    ensures d.title == DetailsFor(WebGLProblem).title <==> Contains(error, "WebGL")
    ensures d.title == DetailsFor(LoadFailure).title <==> !Contains(error, "WebGL") && Contains(error, "MediaPipe")
    ensures d.title == DetailsFor(InitError).title <==> !Contains(error, "WebGL") && !Contains(error, "MediaPipe")
  {
    var k := KindOf(error);
    TitlesDistinguishKinds(k, WebGLProblem);
    TitlesDistinguishKinds(k, LoadFailure);
    TitlesDistinguishKinds(k, InitError);
    DetailsFor(k)
  }

  /** The panel's details: none for a missing or empty error. */
  function PanelDetails(error: Option<string>): (d: Option<ErrorDetails>)
    ensures d.None? <==> error.None? || error.value == ""
    ensures d.Some? ==> d.value == GetErrorDetails(error.value)
  {
    if error.None? || error.value == "" then None else Some(GetErrorDetails(error.value))
  }

  /** The three kinds give three different titles, so the title tells
      which case was taken. */
  lemma TitlesDistinguishKinds(a: ErrorKind, b: ErrorKind)
    ensures DetailsFor(a).title == DetailsFor(b).title <==> a == b
  {
    match a
    case WebGLProblem => assert DetailsFor(a).title[0] == 'W';
    case LoadFailure => assert DetailsFor(a).title[0] == 'M';
    case InitError => assert DetailsFor(a).title[0] == '초';
  }

  /** A message naming both WebGL and MediaPipe gets the WebGL details. */
  lemma WebGLTakesPriority(error: string)
    requires Contains(error, "WebGL") && Contains(error, "MediaPipe")
    ensures GetErrorDetails(error) == DetailsFor(WebGLProblem)
    ensures GetErrorDetails(error) != DetailsFor(LoadFailure)
  {
    TitlesDistinguishKinds(WebGLProblem, LoadFailure);
  }

  /** Such messages exist whatever text surrounds the two mentions. */
  lemma WebGLThenMediaPipe(before: string, middle: string, after: string)
    ensures var error := before + "WebGL" + middle + "MediaPipe" + after;
      && Contains(error, "MediaPipe")
      && GetErrorDetails(error) == DetailsFor(WebGLProblem)
  {
    var error := before + "WebGL" + middle + "MediaPipe" + after;
    assert OccursAt(error, "WebGL", |before|) by {
      assert error[|before|..|before| + 5] == "WebGL";
    }
    var j := |before| + 5 + |middle|;
    assert OccursAt(error, "MediaPipe", j) by {
      assert error[j..j + 9] == "MediaPipe";
    }
  }

  /** A typical loader message is classified as a load failure. */
  lemma LoaderMessageIsLoadFailure()
    ensures GetErrorDetails("MediaPipe script failed").title == "MediaPipe 로드 실패"
  {
    var error := "MediaPipe script failed";
    assert OccursAt(error, "MediaPipe", 0);
    assert !Contains(error, "WebGL") by {
      forall i: nat | i <= |error|
        ensures !OccursAt(error, "WebGL", i)
      {
        if i + 5 <= |error| {
          assert error[i..i + 5][0] == error[i];
        }
      }
    }
  }
}
