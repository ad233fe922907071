/** Landmark frames: what MediaPipe Holistic reports for one video frame,
    and the `LandmarksData` wire form it is converted to. */
module Landmarks {
  import opened Wrappers

  /** One normalized landmark as the library reports it. */
  datatype NormalizedLandmark = NormalizedLandmark(x: real, y: real, z: real)

  /** The landmark lists of one processed frame; a list is `None` when that
      body part was not detected. */
  datatype HolisticResults = HolisticResults(
    poseLandmarks: Option<seq<NormalizedLandmark>>,
    leftHandLandmarks: Option<seq<NormalizedLandmark>>,
    rightHandLandmarks: Option<seq<NormalizedLandmark>>)

  /** A landmark in wire form: the array `[x, y, z]`. */
  type Triple = seq<real>

  /** One frame as it is buffered and sent; `None` is JSON `null`. */
  datatype LandmarksData = LandmarksData(
    pose: Option<seq<Triple>>,
    leftHand: Option<seq<Triple>>,
    rightHand: Option<seq<Triple>>)

  function ToTriple(l: NormalizedLandmark): Triple {
    [l.x, l.y, l.z]
  }

  /** `landmarks.map(l => [l.x, l.y, l.z])`. */
  function ConvertList(ls: seq<NormalizedLandmark>): (r: seq<Triple>)
    ensures |r| == |ls|
    ensures forall i :: 0 <= i < |ls| ==> |r[i]| == 3
    ensures forall i :: 0 <= i < |ls| ==> r[i] == [ls[i].x, ls[i].y, ls[i].z]
  {
    if |ls| == 0 then [] else [ToTriple(ls[0])] + ConvertList(ls[1..])
  }

  function ConvertPart(part: Option<seq<NormalizedLandmark>>): Option<seq<Triple>> {
    match part
    case None => None
    case Some(ls) => Some(ConvertList(ls))
  }

  /** `converted` is the wire form of `part`: absent exactly when `part` is,
      and otherwise of the same length with element `i` being `[x, y, z]` of
      landmark `i`. */
  ghost predicate Converts(part: Option<seq<NormalizedLandmark>>, converted: Option<seq<Triple>>) {
    && (converted.None? <==> part.None?)
    && (part.Some? ==>
          && |converted.value| == |part.value|
          && forall i :: 0 <= i < |part.value| ==>
               converted.value[i] == [part.value[i].x, part.value[i].y, part.value[i].z])
  }

  /** The conversion done at the start of the `onResults` callback. */
  function ConvertResults(results: HolisticResults): (r: LandmarksData)
    ensures Converts(results.poseLandmarks, r.pose)
    ensures Converts(results.leftHandLandmarks, r.leftHand)
    ensures Converts(results.rightHandLandmarks, r.rightHand)
  {
    LandmarksData(
      ConvertPart(results.poseLandmarks),
      ConvertPart(results.leftHandLandmarks),
      ConvertPart(results.rightHandLandmarks))
  }

  /** Reads a wire triple back; `None` unless it has exactly three coordinates. */
  function FromTriple(t: Triple): Option<NormalizedLandmark> {
    if |t| == 3 then Some(NormalizedLandmark(t[0], t[1], t[2])) else None
  }

  function DecodeList(ts: seq<Triple>): Option<seq<NormalizedLandmark>> {
    if |ts| == 0 then Some([])
    else
      match (FromTriple(ts[0]), DecodeList(ts[1..]))
      case (Some(l), Some(rest)) => Some([l] + rest)
      case _ => None
  }

  /** The wire form loses nothing: decoding a converted list gives the list back. */
  lemma {:induction false} DecodeConvertList(ls: seq<NormalizedLandmark>)
    ensures DecodeList(ConvertList(ls)) == Some(ls)
  {
    if |ls| > 0 {
      var ts := ConvertList(ls);
      assert ts[1..] == ConvertList(ls[1..]);
      DecodeConvertList(ls[1..]);
      assert [ls[0]] + ls[1..] == ls;
    }
  }

  /** The same for a whole frame: each detected part decodes back to its
      landmark list and each missing part stays missing. */
  lemma DecodeConvertResults(results: HolisticResults)
    ensures var d := ConvertResults(results);
      && (d.pose.Some? ==> DecodeList(d.pose.value) == results.poseLandmarks)
      && (d.leftHand.Some? ==> DecodeList(d.leftHand.value) == results.leftHandLandmarks)
      && (d.rightHand.Some? ==> DecodeList(d.rightHand.value) == results.rightHandLandmarks)
  {
    if results.poseLandmarks.Some? { DecodeConvertList(results.poseLandmarks.value); }
    if results.leftHandLandmarks.Some? { DecodeConvertList(results.leftHandLandmarks.value); }
    if results.rightHandLandmarks.Some? { DecodeConvertList(results.rightHandLandmarks.value); }
  }
}
