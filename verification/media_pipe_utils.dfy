/** The pure parts of the MediaPipe utilities: the software-renderer
    (EC2) check on a WebGL renderer string, the user-agent flags, the
    initialisation config for each environment, and the CDN list. The
    renderer and the user agent are parameters. */
module MediaPipeUtils {
  import opened Wrappers
  import opened Strings

  // ---------------------------------------------------------------------
  // renderer check

  /** Renderer names of software rasterisers. */
  const SoftwareRenderers: seq<string> := ["llvmpipe", "swiftshader", "software"]

  /** `isEC2Environment`: the lower-cased renderer names a software
      rasteriser. A missing renderer gives `undefined`, which is falsy. */
  function IsEC2Environment(renderer: Option<string>): (b: bool)
    ensures renderer.None? ==> !b
  {
    match renderer
    case None => false
    case Some(name) =>
      var lower := ToLower(name);
      Contains(lower, "llvmpipe") || Contains(lower, "swiftshader") || Contains(lower, "software")
  }

  /** The check holds iff one of the three names occurs, and ignores case. */
  lemma EC2CheckIsCaseInsensitive(name: string)
    ensures IsEC2Environment(Some(name)) <==>
      exists k | 0 <= k < |SoftwareRenderers| :: Contains(ToLower(name), SoftwareRenderers[k])
    ensures IsEC2Environment(Some(name)) == IsEC2Environment(Some(ToLower(name)))
  {
    ToLowerIdempotent(name);
    var lower := ToLower(name);
    if Contains(lower, "llvmpipe") { assert Contains(lower, SoftwareRenderers[0]); }
    if Contains(lower, "swiftshader") { assert Contains(lower, SoftwareRenderers[1]); }
    if Contains(lower, "software") { assert Contains(lower, SoftwareRenderers[2]); }
  }

  /** A typical software-rendered WebGL string is recognised, whatever its case. */
  lemma SwiftShaderIsEC2()
    ensures IsEC2Environment(Some("Google SwiftShader"))
  {
    assert ToLower("SwiftShader") == "swiftshader";
    assert "Google SwiftShader" == "Google " + "SwiftShader" + "";
    ContainsLowered("Google ", "SwiftShader", "", "swiftshader");
  }

  // ---------------------------------------------------------------------
  // user-agent flags

  datatype BrowserFlags = BrowserFlags(
    isMobile: bool, isChrome: bool, isFirefox: bool, isSafari: bool, isEdge: bool)

  /** Tokens of the case-insensitive mobile test, in lower case. */
  const MobileTokens: seq<string> :=
    ["android", "webos", "iphone", "ipad", "ipod", "blackberry", "iemobile", "opera mini"]

  /** The flags `getBrowserInfo` derives from the user agent. */
  function FlagsOf(userAgent: string): (f: BrowserFlags)
    ensures f.isSafari <==> Contains(userAgent, "Safari") && !Contains(userAgent, "Chrome")
    ensures f.isChrome <==> Contains(userAgent, "Chrome") && !Contains(userAgent, "Edge")
    ensures f.isEdge <==> Contains(userAgent, "Edge")
    ensures f.isFirefox <==> Contains(userAgent, "Firefox")
    ensures f.isMobile <==> exists k | 0 <= k < |MobileTokens| :: Contains(ToLower(userAgent), MobileTokens[k])
  {
    BrowserFlags(
      exists k | 0 <= k < |MobileTokens| :: Contains(ToLower(userAgent), MobileTokens[k]),
      Contains(userAgent, "Chrome") && !Contains(userAgent, "Edge"),
      Contains(userAgent, "Firefox"),
      Contains(userAgent, "Safari") && !Contains(userAgent, "Chrome"),
      Contains(userAgent, "Edge"))
  }

  /** The mobile test ignores case; the other four tests do not. */
  lemma MobileTestIgnoresCase(userAgent: string)
    ensures FlagsOf(userAgent).isMobile == FlagsOf(ToLower(userAgent)).isMobile
  {
    ToLowerIdempotent(userAgent);
  }

  /** An iPhone user agent, written in any case, is mobile. */
  lemma IPhoneIsMobile()
    ensures FlagsOf("Mozilla/5.0 (iPhone)").isMobile
  {
    assert ToLower("iPhone") == "iphone" == MobileTokens[2];
    assert "Mozilla/5.0 (iPhone)" == "Mozilla/5.0 (" + "iPhone" + ")";
    ContainsLowered("Mozilla/5.0 (", "iPhone", ")", "iphone");
  }

  /** No user agent is classified both Chrome and Safari, nor both Chrome
      and Edge. */
  lemma BrowserFlagsExclusive(userAgent: string)
    ensures !(FlagsOf(userAgent).isChrome && FlagsOf(userAgent).isSafari)
    ensures !(FlagsOf(userAgent).isChrome && FlagsOf(userAgent).isEdge)
  {
  }

  /** A Chrome user agent, which also names Safari, is Chrome and not Safari. */
  lemma ChromeUserAgent()
    ensures var f := FlagsOf("Chrome/120 Safari/537");
      f.isChrome && !f.isSafari
  {
    var ua := "Chrome/120 Safari/537";
    assert OccursAt(ua, "Chrome", 0);
    assert OccursAt(ua, "Safari", 11);
    assert !Contains(ua, "Edge") by {
      forall i: nat | i <= |ua| ensures !OccursAt(ua, "Edge", i) {
        if i + 4 <= |ua| {
          assert ua[i..i + 4][0] == ua[i];
          assert ua[i] != 'E';
        }
      }
    }
  }

  // ---------------------------------------------------------------------
  // initialisation config

  datatype MediaPipeConfig = MediaPipeConfig(
    modelComplexity: nat,
    smoothLandmarks: bool,
    enableSegmentation: bool,
    smoothSegmentation: bool,
    refineFaceLandmarks: bool,
    minDetectionConfidence: real,
    minTrackingConfidence: real,
    maxNumHands: nat,
    maxNumFaces: nat)

  /** `getOptimizedMediaPipeConfig`. */
  function OptimizedConfig(isEC2Environment: bool): (c: MediaPipeConfig)
    ensures !c.enableSegmentation && !c.refineFaceLandmarks
    ensures isEC2Environment <==> c.modelComplexity == 0
  {
    if isEC2Environment then
      MediaPipeConfig(0, false, false, false, false, 0.3, 0.3, 1, 0)
    else
      MediaPipeConfig(1, true, false, true, false, 0.5, 0.5, 2, 1)
  }

  /** The software-renderer config is the lightest one: lowest complexity,
      one hand, no face, 0.3 thresholds and no smoothing; the normal config
      uses complexity 1, two hands, one face and 0.5 thresholds. Neither
      enables segmentation or face refinement. */
  lemma ConfigProfiles()
    ensures var ec2 := OptimizedConfig(true);
      && ec2.modelComplexity == 0 && ec2.maxNumHands == 1 && ec2.maxNumFaces == 0
      && ec2.minDetectionConfidence == 0.3 && ec2.minTrackingConfidence == 0.3
      && !ec2.smoothLandmarks && !ec2.smoothSegmentation
    ensures var normal := OptimizedConfig(false);
      && normal.modelComplexity == 1 && normal.maxNumHands == 2 && normal.maxNumFaces == 1
      && normal.minDetectionConfidence == 0.5 && normal.minTrackingConfidence == 0.5
      && normal.smoothLandmarks && normal.smoothSegmentation
    ensures forall b: bool :: !OptimizedConfig(b).enableSegmentation && !OptimizedConfig(b).refineFaceLandmarks
  {
  }

  /** The software-renderer config never asks for more than the normal one. */
  lemma EC2ConfigIsLighter()
    ensures var ec2 := OptimizedConfig(true);
      var normal := OptimizedConfig(false);
      && ec2.modelComplexity < normal.modelComplexity
      && ec2.maxNumHands < normal.maxNumHands
      && ec2.maxNumFaces < normal.maxNumFaces
      && ec2.minDetectionConfidence < normal.minDetectionConfidence
      && ec2.minTrackingConfidence < normal.minTrackingConfidence
  {
  }

  // ---------------------------------------------------------------------
  // CDN list

  const Https: string := "https://"

  /** The CDN hosts, in the order they are tried. */
  const CdnHosts: seq<string> := ["cdn.jsdelivr.net", "unpkg.com", "cdn.skypack.dev", "esm.sh"]

  /** The host of an HTTPS URL: the text between the scheme and the first
      `/`; `None` for any other scheme. */
  function HostOf(url: string): (h: Option<string>)
    ensures h.Some? <==> StartsWith(url, Https)
    ensures h.Some? ==> '/' !in h.value
  {
    if StartsWith(url, Https) then Some(PrefixBefore(url[|Https|..], '/')) else None
  }

  /** Reading the host back from `https://` + host + path, where the host
      has no `/` and the path starts with one, gives the host. */
  lemma HostOfBuilt(host: string, path: string)
    requires '/' !in host && |path| > 0 && path[0] == '/'
    ensures HostOf(Https + host + path) == Some(host)
  {
    var url := Https + host + path;
    assert url[..|Https|] == Https;
    assert url[|Https|..] == host + path;
    PrefixBeforeConcat(host, path, '/');
  }

  /** The package path on each host, in the same order. */
  const CdnPaths: seq<string> :=
    ["/npm/@mediapipe/holistic", "/@mediapipe/holistic", "/@mediapipe/holistic", "/@mediapipe/holistic"]

  /** The hosts are distinct and none contains a `/`; every path starts
      with one. */
  lemma CdnTablesWellFormed()
    ensures |CdnPaths| == |CdnHosts|
    ensures forall i :: 0 <= i < |CdnHosts| ==> '/' !in CdnHosts[i] && |CdnPaths[i]| > 0 && CdnPaths[i][0] == '/'
    ensures forall i, j :: 0 <= i < j < |CdnHosts| ==> CdnHosts[i] != CdnHosts[j]
  {
    assert |CdnHosts[0]| == 16 && |CdnHosts[1]| == 9 && |CdnHosts[2]| == 15 && |CdnHosts[3]| == 6;
  }

  /** `getMediaPipeCDNUrls`: four HTTPS URLs of the holistic package on the
      hosts of `CdnHosts`, in that order, all distinct. */
  function MediaPipeCdnUrls(): (urls: seq<string>)
    ensures |urls| == |CdnHosts|
    ensures forall i :: 0 <= i < |urls| ==> HostOf(urls[i]) == Some(CdnHosts[i])
    ensures forall i, j :: 0 <= i < j < |urls| ==> urls[i] != urls[j]
  {
    CdnTablesWellFormed();
    CdnUrlsReadBack();
    seq(|CdnHosts|, i requires 0 <= i < |CdnHosts| => Https + CdnHosts[i] + CdnPaths[i])
  }

  lemma CdnUrlsReadBack()
    ensures forall i :: 0 <= i < |CdnHosts| ==> HostOf(Https + CdnHosts[i] + CdnPaths[i]) == Some(CdnHosts[i])
  {
    CdnTablesWellFormed();
    forall i | 0 <= i < |CdnHosts| ensures HostOf(Https + CdnHosts[i] + CdnPaths[i]) == Some(CdnHosts[i]) {
      HostOfBuilt(CdnHosts[i], CdnPaths[i]);
    }
  }

  /** Every CDN URL is an HTTPS URL. */
  lemma CdnUrlsAreHttps()
    ensures forall i :: 0 <= i < |MediaPipeCdnUrls()| ==> StartsWith(MediaPipeCdnUrls()[i], Https)
  {
    var urls := MediaPipeCdnUrls();
    forall i | 0 <= i < |urls| ensures StartsWith(urls[i], Https) {
      assert HostOf(urls[i]).Some?;
    }
  }
}
