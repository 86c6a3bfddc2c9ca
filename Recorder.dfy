/**
  `OutputRecorder`: per captured frame, runs the face-landmarks request and, in
  its completion handler, replaces the overlay's shapes with those of the new
  observations.

  The detector itself is not modelled: what it does with an image is given to
  `DetectFaceLandmarks` as a `PerformOutcome`. Drawing, which the source posts to
  the main thread, runs here right after the clear.
*/
module Recorder {
  import opened Wrappers
  import opened Geometry
  import opened Paths
  import opened Landmarks
  import opened Overlay
  import opened Rendering

  /** `VNDetectFaceLandmarksRequest`: only its identity matters here. */
  class LandmarksRequest {
    constructor ()
    {
    }
  }

  /** What the completion handler receives: the request's error, or its results in order. */
  datatype DetectionResult = DetectionFailed(error: string) | Detected(observations: seq<FaceObservation>)

  /**
    What `Perform` does with the request: the handler rejects it (`requestHandlerError`)
    without completing it, or performs it and completes it with a result.
  */
  datatype PerformOutcome = Rejected(error: string) | Performed(result: DetectionResult)

  /** The detector output the overlay can be drawn from: every present region has a point. */
  predicate CanDraw(perform: PerformOutcome)
  {
    perform.Performed? && perform.result.Detected? ==> AllDrawable(perform.result.observations)
  }

  class OutputRecorder {
    /** `_view.Bounds.Size`, the size bounding boxes are scaled to. */
    const viewBounds: Size
    /** `_view.Frame`, given to every new shape. */
    const viewFrame: Rect
    /** `_shapeLayer`, the overlay. */
    const shapeLayer: ShapeLayer
    /** `_detectFaceLandmarksRequest`, created on the first frame. */
    var request: LandmarksRequest?
    /** The requests submitted so far, one per frame. */
    ghost var submitted: seq<LandmarksRequest>

    /** Every frame so far was submitted with the one request this recorder holds. */
    ghost predicate Valid()
      reads this
    {
      forall i :: 0 <= i < |submitted| ==> submitted[i] == request
    }

    constructor (viewBounds: Size, viewFrame: Rect, shapeLayer: ShapeLayer)
      ensures this.viewBounds == viewBounds && this.viewFrame == viewFrame
      ensures this.shapeLayer == shapeLayer
      ensures request == null && submitted == []
      ensures Valid()
    {
      this.viewBounds := viewBounds;
      this.viewFrame := viewFrame;
      this.shapeLayer := shapeLayer;
      request := null;
      submitted := [];
    }

    /**
      `DrawLandmark`: nothing for a missing region; otherwise one new shape last in
      the overlay, stroked in `color`, two units wide, unfilled, along the region's
      points mapped into `scaledBoundingBox`.
    */
    method DrawLandmark(feature: Option<seq<Point>>, scaledBoundingBox: Rect, closed: bool, color: Color)
      requires feature.Some? ==> |feature.value| >= 1
      modifies shapeLayer
      ensures shapeLayer.sublayers
           == old(shapeLayer.sublayers) + RegionShapes(feature, scaledBoundingBox, RegionStyle(closed, color), viewFrame)
    {
      if feature.None? {
        return;
      }
      var mappedPoints := MapPoints(feature.value, scaledBoundingBox);
      var path := BuildPath(mappedPoints, closed);
      var newLayer := Shape(path, color, LINE_WIDTH, Clear, viewFrame);
      shapeLayer.AddSublayer(newLayer);
    }

    /**
      The nine `DrawLandmark` calls for one face. The overlay gains exactly the
      face's shapes, after what it held.
    */
    method DrawFace(landmarks: FaceLandmarks, scaledBoundingBox: Rect)
      requires Drawable(landmarks)
      modifies shapeLayer
      ensures shapeLayer.sublayers == old(shapeLayer.sublayers) + FaceShapes(landmarks, scaledBoundingBox, viewFrame)
    {
      ghost var s0 := shapeLayer.sublayers;

      DrawLandmark(landmarks.faceContour, scaledBoundingBox, false, White);
      ghost var s1 := shapeLayer.sublayers;
      DrawLandmark(landmarks.leftEye, scaledBoundingBox, true, Green);
      ghost var s2 := shapeLayer.sublayers;
      DrawLandmark(landmarks.rightEye, scaledBoundingBox, true, Green);
      ghost var s3 := shapeLayer.sublayers;

      DrawLandmark(landmarks.nose, scaledBoundingBox, true, Blue);
      ghost var s4 := shapeLayer.sublayers;
      DrawLandmark(landmarks.noseCrest, scaledBoundingBox, false, Blue);
      ghost var s5 := shapeLayer.sublayers;

      DrawLandmark(landmarks.innerLips, scaledBoundingBox, true, Yellow);
      ghost var s6 := shapeLayer.sublayers;
      DrawLandmark(landmarks.outerLips, scaledBoundingBox, true, Yellow);
      ghost var s7 := shapeLayer.sublayers;

      DrawLandmark(landmarks.leftEyebrow, scaledBoundingBox, false, Blue);
      ghost var s8 := shapeLayer.sublayers;
      DrawLandmark(landmarks.rightEyebrow, scaledBoundingBox, false, Blue);
      ghost var s9 := shapeLayer.sublayers;

      FaceDrawn(landmarks, scaledBoundingBox, viewFrame, s0, s1, s2, s3, s4, s5, s6, s7, s8, s9);
    }

    /**
      The request's completion handler. The overlay is cleared first, then the
      error checked: on an error the overlay is left empty and the error raised.
      Otherwise the overlay holds exactly the shapes of the observations, in result
      order, those without landmarks contributing none.
    */
    method Complete(result: DetectionResult) returns (outcome: Outcome<string>)
      requires result.Detected? ==> AllDrawable(result.observations)
      modifies shapeLayer
      ensures outcome == (if result.DetectionFailed? then Fail(result.error) else Pass)
      ensures shapeLayer.sublayers
           == if result.DetectionFailed? then [] else FrameShapes(result.observations, viewBounds, viewFrame)
    {
      RemoveSublayers(shapeLayer);

      if result.DetectionFailed? {
        return Fail(result.error);
      }

      var results := result.observations;
      for i := 0 to |results|
        invariant shapeLayer.sublayers == FrameShapes(results[..i], viewBounds, viewFrame)
      {
        FrameShapesPrefix(results, i, viewBounds, viewFrame);

        if results[i].landmarks.None? {
          continue;
        }

        var boundingBox := results[i].boundingBox;
        var scaledBoundingBox := Scale(boundingBox, viewBounds);
        DrawFace(results[i].landmarks.value, scaledBoundingBox);
      }
      assert results[..|results|] == results;
      outcome := Pass;
    }

    /**
      `DetectFaceLandmarks`: creates the request on the first frame and reuses it
      on every later one, then performs it. A rejected request leaves the overlay
      as it was and raises the handler's error; a performed one runs the
      completion handler.
    */
    method DetectFaceLandmarks(perform: PerformOutcome) returns (outcome: Outcome<string>)
      requires Valid()
      requires CanDraw(perform)
      modifies this, shapeLayer
      ensures Valid()
      ensures request != null
      ensures old(request) != null ==> request == old(request)
      ensures old(request) == null ==> fresh(request)
      ensures submitted == old(submitted) + [request]
      ensures perform.Rejected? ==>
        outcome == Fail(perform.error) && shapeLayer.sublayers == old(shapeLayer.sublayers)
      ensures perform.Performed? && perform.result.DetectionFailed? ==>
        outcome == Fail(perform.result.error) && shapeLayer.sublayers == []
      ensures perform.Performed? && perform.result.Detected? ==>
        outcome == Pass
        && shapeLayer.sublayers == FrameShapes(perform.result.observations, viewBounds, viewFrame)
    {
      if request == null {
        request := new LandmarksRequest();
      }
      submitted := submitted + [request];

      match perform
      case Rejected(requestHandlerError) =>
        outcome := Fail(requestHandlerError);
      case Performed(result) =>
        outcome := Complete(result);
    }
  }
}
