/**
  What the face-landmarks detector hands back, and the fixed table that says how
  each landmark region is drawn.
*/
module Landmarks {
  import opened Wrappers
  import opened Geometry

  /** Stroke and fill colours used by the overlay. */
  datatype Color = White | Green | Blue | Yellow | Clear

  /** The nine landmark regions the overlay draws. */
  datatype RegionName =
    | FaceContour | LeftEye | RightEye | Nose | NoseCrest
    | InnerLips | OuterLips | LeftEyebrow | RightEyebrow

  /** How a region is drawn: closed back to its first point or not, and in which colour. */
  datatype RegionStyle = RegionStyle(closed: bool, color: Color)

  /**
    The region-to-style table of the completion callback: eyes, nose and lips are
    closed, contour, nose crest and eyebrows open; the contour is white, the eyes
    green, the lips yellow and the rest blue.
  */
  function StyleOf(name: RegionName): (r: RegionStyle)
    ensures r.closed <==> name in {LeftEye, RightEye, Nose, InnerLips, OuterLips}
    ensures r.color == White <==> name == FaceContour
    ensures r.color == Green <==> name in {LeftEye, RightEye}
    ensures r.color == Blue <==> name in {Nose, NoseCrest, LeftEyebrow, RightEyebrow}
    ensures r.color == Yellow <==> name in {InnerLips, OuterLips}
    ensures r.color != Clear
  {
    match name
    case FaceContour => RegionStyle(false, White)
    case LeftEye => RegionStyle(true, Green)
    case RightEye => RegionStyle(true, Green)
    case Nose => RegionStyle(true, Blue)
    case NoseCrest => RegionStyle(false, Blue)
    case InnerLips => RegionStyle(true, Yellow)
    case OuterLips => RegionStyle(true, Yellow)
    case LeftEyebrow => RegionStyle(false, Blue)
    case RightEyebrow => RegionStyle(false, Blue)
  }

  /** The order in which the callback draws the regions of one face. */
  const DRAW_ORDER: seq<RegionName> :=
    [FaceContour, LeftEye, RightEye, Nose, NoseCrest, InnerLips, OuterLips, LeftEyebrow, RightEyebrow]

  /**
    `VNFaceLandmarks2D`: each region is an optional sequence of points, normalized
    to the face's bounding box.
  */
  datatype FaceLandmarks = FaceLandmarks(
    faceContour: Option<seq<Point>>,
    leftEye: Option<seq<Point>>,
    rightEye: Option<seq<Point>>,
    nose: Option<seq<Point>>,
    noseCrest: Option<seq<Point>>,
    innerLips: Option<seq<Point>>,
    outerLips: Option<seq<Point>>,
    leftEyebrow: Option<seq<Point>>,
    rightEyebrow: Option<seq<Point>>)

  /** The region of `landmarks` called `name`. */
  function Region(landmarks: FaceLandmarks, name: RegionName): Option<seq<Point>>
  {
    match name
    case FaceContour => landmarks.faceContour
    case LeftEye => landmarks.leftEye
    case RightEye => landmarks.rightEye
    case Nose => landmarks.nose
    case NoseCrest => landmarks.noseCrest
    case InnerLips => landmarks.innerLips
    case OuterLips => landmarks.outerLips
    case LeftEyebrow => landmarks.leftEyebrow
    case RightEyebrow => landmarks.rightEyebrow
  }

  /** `VNFaceObservation`: a normalized bounding box and landmarks that may be missing. */
  datatype FaceObservation = FaceObservation(boundingBox: Rect, landmarks: Option<FaceLandmarks>)

  /** A region that is missing, or has a first point, which drawing it needs. */
  predicate HasStart(region: Option<seq<Point>>)
  {
    region.Some? ==> |region.value| >= 1
  }

  /** Every present region of `landmarks` has a first point. */
  predicate Drawable(landmarks: FaceLandmarks)
  {
    && HasStart(landmarks.faceContour) && HasStart(landmarks.leftEye) && HasStart(landmarks.rightEye)
    && HasStart(landmarks.nose) && HasStart(landmarks.noseCrest)
    && HasStart(landmarks.innerLips) && HasStart(landmarks.outerLips)
    && HasStart(landmarks.leftEyebrow) && HasStart(landmarks.rightEyebrow)
  }

  /** `Region`, name by name. */
  lemma RegionFields(landmarks: FaceLandmarks)
    ensures Region(landmarks, FaceContour) == landmarks.faceContour
    ensures Region(landmarks, LeftEye) == landmarks.leftEye
    ensures Region(landmarks, RightEye) == landmarks.rightEye
    ensures Region(landmarks, Nose) == landmarks.nose
    ensures Region(landmarks, NoseCrest) == landmarks.noseCrest
    ensures Region(landmarks, InnerLips) == landmarks.innerLips
    ensures Region(landmarks, OuterLips) == landmarks.outerLips
    ensures Region(landmarks, LeftEyebrow) == landmarks.leftEyebrow
    ensures Region(landmarks, RightEyebrow) == landmarks.rightEyebrow
  {
  }

  /** `Drawable` holds of a face exactly when each of its regions, by name, has a start. */
  lemma DrawableRegions(landmarks: FaceLandmarks)
    ensures Drawable(landmarks) <==> forall name :: HasStart(Region(landmarks, name))
  {
    RegionFields(landmarks);
  }

  /** Every observation that has landmarks can be drawn. */
  predicate AllDrawable(observations: seq<FaceObservation>)
  {
    forall i :: 0 <= i < |observations| && observations[i].landmarks.Some? ==>
      Drawable(observations[i].landmarks.value)
  }

  /** The names, in drawing order, of the regions `landmarks` has. */
  function PresentRegions(landmarks: FaceLandmarks, names: seq<RegionName>): (r: seq<RegionName>)
    ensures |r| <= |names|
    ensures forall n :: n in r <==> n in names && Region(landmarks, n).Some?
  {
    if names == [] then []
    else (if Region(landmarks, names[0]).Some? then [names[0]] else [])
         + PresentRegions(landmarks, names[1..])
  }

  /**
    Filtering keeps the order of the names: the names kept from `a + b` are those
    kept from `a` followed by those kept from `b`.
  */
  lemma {:induction false} PresentRegionsAppend(landmarks: FaceLandmarks, a: seq<RegionName>, b: seq<RegionName>)
    ensures PresentRegions(landmarks, a + b) == PresentRegions(landmarks, a) + PresentRegions(landmarks, b)
  {
    if a == [] {
      assert a + b == b;
    } else {
      assert (a + b)[0] == a[0];
      assert (a + b)[1..] == a[1..] + b;
      PresentRegionsAppend(landmarks, a[1..], b);
    }
  }

  /** One name is kept, once, exactly when its region is present. */
  lemma PresentRegionsSingle(landmarks: FaceLandmarks, name: RegionName)
    ensures PresentRegions(landmarks, [name]) == if Region(landmarks, name).Some? then [name] else []
  {
    assert [name][1..] == [];
  }

  /** The drawing order and the table, position by position. */
  lemma DrawOrderTable()
    ensures DRAW_ORDER[0] == FaceContour && StyleOf(FaceContour) == RegionStyle(false, White)
    ensures DRAW_ORDER[1] == LeftEye && StyleOf(LeftEye) == RegionStyle(true, Green)
    ensures DRAW_ORDER[2] == RightEye && StyleOf(RightEye) == RegionStyle(true, Green)
    ensures DRAW_ORDER[3] == Nose && StyleOf(Nose) == RegionStyle(true, Blue)
    ensures DRAW_ORDER[4] == NoseCrest && StyleOf(NoseCrest) == RegionStyle(false, Blue)
    ensures DRAW_ORDER[5] == InnerLips && StyleOf(InnerLips) == RegionStyle(true, Yellow)
    ensures DRAW_ORDER[6] == OuterLips && StyleOf(OuterLips) == RegionStyle(true, Yellow)
    ensures DRAW_ORDER[7] == LeftEyebrow && StyleOf(LeftEyebrow) == RegionStyle(false, Blue)
    ensures DRAW_ORDER[8] == RightEyebrow && StyleOf(RightEyebrow) == RegionStyle(false, Blue)
  {
  }

  /** The drawing order names each region exactly once. */
  lemma DrawOrderIsComplete(name: RegionName)
    ensures name in DRAW_ORDER
    ensures |DRAW_ORDER| == 9
    ensures forall i, j :: 0 <= i < j < |DRAW_ORDER| ==> DRAW_ORDER[i] != DRAW_ORDER[j]
  {
  }
}
