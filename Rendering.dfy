/**
  What the overlay holds after a frame: the shapes of every present region of
  every observation that has landmarks, in result order and, within a face, in
  the fixed drawing order, each styled by the region table.
*/
module Rendering {
  import opened Wrappers
  import opened Geometry
  import opened Paths
  import opened Landmarks
  import opened Overlay

  /** The shape drawn for one region: its mapped polyline, stroked in the region's style, unfilled. */
  function StyledShape(points: seq<Point>, box: Rect, style: RegionStyle, frame: Rect): Shape
    requires |points| >= 1
  {
    Shape(Polyline(MapPoints(points, box), style.closed), style.color, LINE_WIDTH, Clear, frame)
  }

  /** No shape for a missing region, one for a present one. */
  function RegionShapes(region: Option<seq<Point>>, box: Rect, style: RegionStyle, frame: Rect): seq<Shape>
    requires region.Some? ==> |region.value| >= 1
  {
    if region.None? then [] else [StyledShape(region.value, box, style, frame)]
  }

  /**
    What drawing one region adds: nothing when it is missing; otherwise one shape
    stroked in the style's colour, two units wide, unfilled, framed like the view,
    whose path has a command per point (one more when closed) and passes through
    the region's points mapped into the box, in order, then back to the first
    when closed.
  */
  lemma RegionShapesContents(region: Option<seq<Point>>, box: Rect, style: RegionStyle, frame: Rect)
    requires region.Some? ==> |region.value| >= 1
    ensures region.None? ==> RegionShapes(region, box, style, frame) == []
    ensures region.Some? ==>
      var shapes, mapped := RegionShapes(region, box, style, frame), MapPoints(region.value, box);
      && |shapes| == 1
      && shapes[0].strokeColor == style.color && shapes[0].lineWidth == 2.0
      && shapes[0].fillColor == Clear && shapes[0].frame == frame
      && |shapes[0].path| == |region.value| + (if style.closed then 1 else 0)
      && shapes[0].path[0] == MoveTo(MapPoint(region.value[0], box))
      && Vertices(shapes[0].path) == mapped + (if style.closed then [mapped[0]] else [])
  {
    if region.Some? {
      var mapped := MapPoints(region.value, box);
      PolylineCommands(mapped, style.closed);
      PolylineVertices(mapped, style.closed);
    }
  }

  /** The shapes of the regions `names`, in that order. */
  function RegionsShapes(landmarks: FaceLandmarks, names: seq<RegionName>, box: Rect, frame: Rect): (r: seq<Shape>)
    requires Drawable(landmarks)
    ensures |r| <= |names|
  {
    if names == [] then []
    else RegionShapes(Region(landmarks, names[0]), box, StyleOf(names[0]), frame)
         + RegionsShapes(landmarks, names[1..], box, frame)
  }

  /** The shapes of one face, with its bounding box already scaled to the view. */
  function FaceShapes(landmarks: FaceLandmarks, box: Rect, frame: Rect): (r: seq<Shape>)
    requires Drawable(landmarks)
    ensures |r| <= 9
  {
    RegionsShapes(landmarks, DRAW_ORDER, box, frame)
  }

  /** The shapes of one observation: none when it has no landmarks. */
  function ObservationShapes(observation: FaceObservation, viewSize: Size, frame: Rect): seq<Shape>
    requires observation.landmarks.Some? ==> Drawable(observation.landmarks.value)
  {
    match observation.landmarks
    case None => []
    case Some(landmarks) => FaceShapes(landmarks, Scale(observation.boundingBox, viewSize), frame)
  }

  /** The overlay after a successful detection: every observation's shapes, in result order; at most nine per observation. */
  function FrameShapes(observations: seq<FaceObservation>, viewSize: Size, frame: Rect): (r: seq<Shape>)
    requires AllDrawable(observations)
    ensures |r| <= 9 * |observations|
  {
    if observations == [] then []
    else ObservationShapes(observations[0], viewSize, frame)
         + FrameShapes(observations[1..], viewSize, frame)
  }

  /** The observations that have landmarks, in order. */
  function WithLandmarks(observations: seq<FaceObservation>): (r: seq<FaceObservation>)
    ensures |r| <= |observations|
    ensures forall o :: o in r <==> o in observations && o.landmarks.Some?
  {
    if observations == [] then []
    else (if observations[0].landmarks.Some? then [observations[0]] else [])
         + WithLandmarks(observations[1..])
  }

  /**
    Filtering keeps the result order: the observations kept from `a + b` are those
    kept from `a` followed by those kept from `b`.
  */
  lemma {:induction false} WithLandmarksAppend(a: seq<FaceObservation>, b: seq<FaceObservation>)
    ensures WithLandmarks(a + b) == WithLandmarks(a) + WithLandmarks(b)
  {
    if a == [] {
      assert a + b == b;
    } else {
      assert (a + b)[0] == a[0];
      assert (a + b)[1..] == a[1..] + b;
      WithLandmarksAppend(a[1..], b);
    }
  }

  /** One observation is kept, once, exactly when it has landmarks. */
  lemma WithLandmarksSingle(observation: FaceObservation)
    ensures WithLandmarks([observation]) == if observation.landmarks.Some? then [observation] else []
  {
    assert [observation][1..] == [];
  }

  /** Draw k of `names` took the overlay from `states[k]` to `states[k + 1]` by appending region k's shapes. */
  predicate DrawnStep(landmarks: FaceLandmarks, names: seq<RegionName>, states: seq<seq<Shape>>,
                      k: nat, box: Rect, frame: Rect)
    requires Drawable(landmarks)
    requires k < |names| && |states| == |names| + 1
  {
    DrawableRegions(landmarks);
    states[k + 1] == states[k] + RegionShapes(Region(landmarks, names[k]), box, StyleOf(names[k]), frame)
  }

  /**
    Drawing the regions `names` one at a time, each draw appending its region's
    shapes, appends the shapes of all of them in that order.
  */
  lemma {:induction false} RegionsDrawn(landmarks: FaceLandmarks, names: seq<RegionName>, states: seq<seq<Shape>>,
                                        box: Rect, frame: Rect)
    requires Drawable(landmarks)
    requires |states| == |names| + 1
    requires forall k :: 0 <= k < |names| ==> DrawnStep(landmarks, names, states, k, box, frame)
    ensures states[|names|] == states[0] + RegionsShapes(landmarks, names, box, frame)
  {
    if names != [] {
      assert DrawnStep(landmarks, names, states, 0, box, frame);
      forall k | 0 <= k < |names| - 1
        ensures DrawnStep(landmarks, names[1..], states[1..], k, box, frame)
      {
        assert DrawnStep(landmarks, names, states, k + 1, box, frame);
      }
      RegionsDrawn(landmarks, names[1..], states[1..], box, frame);
      var first := RegionShapes(Region(landmarks, names[0]), box, StyleOf(names[0]), frame);
      var rest := RegionsShapes(landmarks, names[1..], box, frame);
      assert states[|names|] == states[1..][|names[1..]|] == states[1] + rest;
      assert (states[0] + first) + rest == states[0] + (first + rest);
    }
  }

  /**
    Nine region draws in the callback's order and styles, one after another,
    append exactly the face's shapes.
  */
  lemma FaceDrawn(landmarks: FaceLandmarks, box: Rect, frame: Rect,
                  s0: seq<Shape>, s1: seq<Shape>, s2: seq<Shape>, s3: seq<Shape>, s4: seq<Shape>,
                  s5: seq<Shape>, s6: seq<Shape>, s7: seq<Shape>, s8: seq<Shape>, s9: seq<Shape>)
    requires Drawable(landmarks)
    requires s1 == s0 + RegionShapes(landmarks.faceContour, box, RegionStyle(false, White), frame)
    requires s2 == s1 + RegionShapes(landmarks.leftEye, box, RegionStyle(true, Green), frame)
    requires s3 == s2 + RegionShapes(landmarks.rightEye, box, RegionStyle(true, Green), frame)
    requires s4 == s3 + RegionShapes(landmarks.nose, box, RegionStyle(true, Blue), frame)
    requires s5 == s4 + RegionShapes(landmarks.noseCrest, box, RegionStyle(false, Blue), frame)
    requires s6 == s5 + RegionShapes(landmarks.innerLips, box, RegionStyle(true, Yellow), frame)
    requires s7 == s6 + RegionShapes(landmarks.outerLips, box, RegionStyle(true, Yellow), frame)
    requires s8 == s7 + RegionShapes(landmarks.leftEyebrow, box, RegionStyle(false, Blue), frame)
    requires s9 == s8 + RegionShapes(landmarks.rightEyebrow, box, RegionStyle(false, Blue), frame)
    ensures s9 == s0 + FaceShapes(landmarks, box, frame)
  {
    var states := [s0, s1, s2, s3, s4, s5, s6, s7, s8, s9];
    DrawOrderTable();
    RegionFields(landmarks);
    forall k | 0 <= k < |DRAW_ORDER|
      ensures DrawnStep(landmarks, DRAW_ORDER, states, k, box, frame)
    {
      if k == 0 {} else if k == 1 {} else if k == 2 {} else if k == 3 {} else if k == 4 {}
      else if k == 5 {} else if k == 6 {} else if k == 7 {} else {}
    }
    RegionsDrawn(landmarks, DRAW_ORDER, states, box, frame);
  }

  /**
    Shape k of a face is the region present k-th in drawing order, mapped into the
    scaled box and styled by the table: one shape per present region, none for a
    missing one, in order.
  */
  lemma {:induction false} RegionsShapesStyled(landmarks: FaceLandmarks, names: seq<RegionName>, box: Rect, frame: Rect)
    requires Drawable(landmarks)
    ensures var shapes, present := RegionsShapes(landmarks, names, box, frame), PresentRegions(landmarks, names);
      && |shapes| == |present|
      && forall k :: 0 <= k < |shapes| ==>
           shapes[k] == StyledShape(Region(landmarks, present[k]).value, box, StyleOf(present[k]), frame)
  {
    DrawableRegions(landmarks);
    if names != [] {
      RegionsShapesStyled(landmarks, names[1..], box, frame);
      var name := names[0];
      var head := RegionShapes(Region(landmarks, name), box, StyleOf(name), frame);
      var tail := RegionsShapes(landmarks, names[1..], box, frame);
      var kept := if Region(landmarks, name).Some? then [name] else [];
      var rest := PresentRegions(landmarks, names[1..]);
      assert RegionsShapes(landmarks, names, box, frame) == head + tail;
      assert PresentRegions(landmarks, names) == kept + rest;
      assert |head| == |kept|;
      forall k | 0 <= k < |head + tail|
        ensures (head + tail)[k] == StyledShape(Region(landmarks, (kept + rest)[k]).value, box, StyleOf((kept + rest)[k]), frame)
      {
        if k >= |head| {
          assert (head + tail)[k] == tail[k - |head|];
          assert (kept + rest)[k] == rest[k - |kept|];
        }
      }
    }
  }

  /** When every region is present, every name is kept. */
  lemma {:induction false} AllRegionsPresent(landmarks: FaceLandmarks, names: seq<RegionName>)
    requires forall name :: Region(landmarks, name).Some?
    ensures PresentRegions(landmarks, names) == names
  {
    if names != [] {
      assert Region(landmarks, names[0]).Some?;
      AllRegionsPresent(landmarks, names[1..]);
      assert [names[0]] + names[1..] == names;
    }
  }

  /**
    A face with all nine regions gets nine shapes, one per region in drawing order,
    each drawn with that region's style (colour and closing as `DrawOrderTable` lists).
  */
  lemma FullFace(landmarks: FaceLandmarks, box: Rect, frame: Rect)
    requires forall name :: Region(landmarks, name).Some?
    requires Drawable(landmarks)
    ensures var shapes := FaceShapes(landmarks, box, frame);
      && |shapes| == 9
      && forall k :: 0 <= k < 9 ==>
           shapes[k] == StyledShape(Region(landmarks, DRAW_ORDER[k]).value, box, StyleOf(DRAW_ORDER[k]), frame)
  {
    AllRegionsPresent(landmarks, DRAW_ORDER);
    RegionsShapesStyled(landmarks, DRAW_ORDER, box, frame);
  }

  /** The frame's shapes split along the result list: order is kept across observations. */
  lemma {:induction false} FrameShapesAppend(a: seq<FaceObservation>, b: seq<FaceObservation>, viewSize: Size, frame: Rect)
    requires AllDrawable(a) && AllDrawable(b)
    ensures AllDrawable(a + b)
    ensures FrameShapes(a + b, viewSize, frame) == FrameShapes(a, viewSize, frame) + FrameShapes(b, viewSize, frame)
  {
    assert AllDrawable(a + b) by {
      forall i | 0 <= i < |a + b| && (a + b)[i].landmarks.Some?
        ensures Drawable((a + b)[i].landmarks.value)
      {
        if i >= |a| {
          assert (a + b)[i] == b[i - |a|];
        }
      }
    }
    if a == [] {
      assert a + b == b;
    } else {
      assert (a + b)[1..] == a[1..] + b;
      assert (a + b)[0] == a[0];
      FrameShapesAppend(a[1..], b, viewSize, frame);
    }
  }

  /**
    One more result drawn: the shapes of the first `i + 1` observations are those of
    the first `i` followed by the shapes of observation `i`, none when it has no landmarks.
  */
  lemma FrameShapesPrefix(observations: seq<FaceObservation>, i: nat, viewSize: Size, frame: Rect)
    requires AllDrawable(observations) && i < |observations|
    ensures AllDrawable(observations[..i]) && AllDrawable(observations[..i + 1])
    ensures observations[i].landmarks.Some? ==>
      Drawable(observations[i].landmarks.value)
      && FrameShapes(observations[..i + 1], viewSize, frame)
         == FrameShapes(observations[..i], viewSize, frame)
            + FaceShapes(observations[i].landmarks.value, Scale(observations[i].boundingBox, viewSize), frame)
    ensures observations[i].landmarks.None? ==>
      FrameShapes(observations[..i + 1], viewSize, frame) == FrameShapes(observations[..i], viewSize, frame)
  {
    var front, last := observations[..i], [observations[i]];
    assert observations[..i + 1] == front + last;
    assert AllDrawable(front) by {
      forall j | 0 <= j < |front| && front[j].landmarks.Some?
        ensures Drawable(front[j].landmarks.value)
      {
        assert front[j] == observations[j];
      }
    }
    assert AllDrawable(last) by {
      assert last[0] == observations[i];
    }
    FrameShapesAppend(front, last, viewSize, frame);
    assert last[1..] == [];
    assert FrameShapes(last, viewSize, frame) == ObservationShapes(observations[i], viewSize, frame);
  }

  /** Observations without landmarks contribute nothing: dropping them changes no shape. */
  lemma {:induction false} FrameShapesSkipMissing(observations: seq<FaceObservation>, viewSize: Size, frame: Rect)
    requires AllDrawable(observations)
    ensures AllDrawable(WithLandmarks(observations))
    ensures FrameShapes(WithLandmarks(observations), viewSize, frame) == FrameShapes(observations, viewSize, frame)
  {
    if observations != [] {
      var head := if observations[0].landmarks.Some? then [observations[0]] else [];
      FrameShapesSkipMissing(observations[1..], viewSize, frame);
      FrameShapesAppend(head, WithLandmarks(observations[1..]), viewSize, frame);
      if head != [] {
        assert head[1..] == [];
      }
    }
  }

  /** A frame whose observations all lack landmarks leaves the overlay empty. */
  lemma NoLandmarksNoShapes(observations: seq<FaceObservation>, viewSize: Size, frame: Rect)
    requires forall i :: 0 <= i < |observations| ==> observations[i].landmarks.None?
    ensures AllDrawable(observations)
    ensures FrameShapes(observations, viewSize, frame) == []
  {
    FrameShapesSkipMissing(observations, viewSize, frame);
  }

  /** Every overlay shape is two units wide, unfilled and framed like the view. */
  lemma {:induction false} FrameShapesUniformStroke(observations: seq<FaceObservation>, viewSize: Size, frame: Rect)
    requires AllDrawable(observations)
    ensures forall s :: s in FrameShapes(observations, viewSize, frame) ==>
      s.lineWidth == LINE_WIDTH && s.fillColor == Clear && s.frame == frame
  {
    if observations != [] {
      FrameShapesUniformStroke(observations[1..], viewSize, frame);
      var head := ObservationShapes(observations[0], viewSize, frame);
      var tail := FrameShapes(observations[1..], viewSize, frame);
      assert FrameShapes(observations, viewSize, frame) == head + tail;
      if observations[0].landmarks.Some? {
        FaceShapesUniformStroke(observations[0].landmarks.value, Scale(observations[0].boundingBox, viewSize), frame);
      }
      forall s: Shape | s in head + tail
        ensures s.lineWidth == LINE_WIDTH && s.fillColor == Clear && s.frame == frame
      {
        assert s in head || s in tail;
      }
    }
  }

  /** Every shape of a face is two units wide, unfilled and framed like the view. */
  lemma FaceShapesUniformStroke(landmarks: FaceLandmarks, box: Rect, frame: Rect)
    requires Drawable(landmarks)
    ensures forall s :: s in FaceShapes(landmarks, box, frame) ==>
      s.lineWidth == LINE_WIDTH && s.fillColor == Clear && s.frame == frame
  {
    var shapes := FaceShapes(landmarks, box, frame);
    RegionsShapesStyled(landmarks, DRAW_ORDER, box, frame);
    forall s: Shape | s in shapes
      ensures s.lineWidth == LINE_WIDTH && s.fillColor == Clear && s.frame == frame
    {
      var k :| 0 <= k < |shapes| && shapes[k] == s;
    }
  }

  /** A face whose only region is the left eye draws the left eye alone. */
  lemma OnlyLeftEye(landmarks: FaceLandmarks)
    requires forall name :: name != LeftEye ==> Region(landmarks, name).None?
    requires landmarks.leftEye.Some?
    ensures PresentRegions(landmarks, DRAW_ORDER) == [LeftEye]
  {
    var names := DRAW_ORDER;
    assert names[1..][1..] == [RightEye, Nose, NoseCrest, InnerLips, OuterLips, LeftEyebrow, RightEyebrow];
    NoRegionsPresent(landmarks, names[1..][1..]);
  }

  /** Names of missing regions are all dropped. */
  lemma {:induction false} NoRegionsPresent(landmarks: FaceLandmarks, names: seq<RegionName>)
    requires forall i :: 0 <= i < |names| ==> Region(landmarks, names[i]).None?
    ensures PresentRegions(landmarks, names) == []
  {
    if names != [] {
      NoRegionsPresent(landmarks, names[1..]);
    }
  }

  /** A face whose only region is the left eye gets one closed green shape for it. */
  lemma LeftEyeOnlyFace(landmarks: FaceLandmarks, box: Rect, frame: Rect)
    requires forall name :: name != LeftEye ==> Region(landmarks, name).None?
    requires landmarks.leftEye.Some? && |landmarks.leftEye.value| >= 1
    ensures Drawable(landmarks)
    ensures FaceShapes(landmarks, box, frame) == [StyledShape(landmarks.leftEye.value, box, RegionStyle(true, Green), frame)]
  {
    RegionFields(landmarks);
    OnlyLeftEye(landmarks);
    RegionsShapesStyled(landmarks, DRAW_ORDER, box, frame);
  }

  /**
    The worked scenario: one face with only a left eye at (0.1, 0.1), (0.2, 0.1),
    (0.15, 0.2) in box (0.4, 0.4, 0.2, 0.2), in a 400 by 400 view, gives one closed
    green polyline through (168, 168), (176, 168), (172, 176).
  */
  lemma LeftEyeScenario(frame: Rect)
    ensures var eye := [Point(0.1, 0.1), Point(0.2, 0.1), Point(0.15, 0.2)];
      var landmarks := FaceLandmarks(None, Some(eye), None, None, None, None, None, None, None);
      var observations := [FaceObservation(Rect(0.4, 0.4, 0.2, 0.2), Some(landmarks))];
      && AllDrawable(observations)
      && FrameShapes(observations, Size(400.0, 400.0), frame)
         == [Shape([MoveTo(Point(168.0, 168.0)), LineTo(Point(176.0, 168.0)),
                    LineTo(Point(172.0, 176.0)), LineTo(Point(168.0, 168.0))],
                   Green, 2.0, Clear, frame)]
  {
    var eye := [Point(0.1, 0.1), Point(0.2, 0.1), Point(0.15, 0.2)];
    var landmarks := FaceLandmarks(None, Some(eye), None, None, None, None, None, None, None);
    var observations := [FaceObservation(Rect(0.4, 0.4, 0.2, 0.2), Some(landmarks))];
    var box := Rect(160.0, 160.0, 80.0, 80.0);
    WorkedExample();
    assert Scale(observations[0].boundingBox, Size(400.0, 400.0)) == box;
    var shape := StyledShape(eye, box, RegionStyle(true, Green), frame);
    LeftEyeOnlyFace(landmarks, box, frame);
    LeftEyePath();
    assert observations[1..] == [];
    assert FrameShapes(observations, Size(400.0, 400.0), frame) == [shape] + [];
  }

  /** The closed path through the three mapped eye points of the worked scenario. */
  lemma LeftEyePath()
    ensures Polyline(MapPoints([Point(0.1, 0.1), Point(0.2, 0.1), Point(0.15, 0.2)], Rect(160.0, 160.0, 80.0, 80.0)), true)
         == [MoveTo(Point(168.0, 168.0)), LineTo(Point(176.0, 168.0)),
             LineTo(Point(172.0, 176.0)), LineTo(Point(168.0, 168.0))]
  {
    WorkedExample();
    var mapped := [Point(168.0, 168.0), Point(176.0, 168.0), Point(172.0, 176.0)];
    assert mapped[1..] == [Point(176.0, 168.0), Point(172.0, 176.0)];
    assert LinesTo(mapped[1..]) == [LineTo(Point(176.0, 168.0)), LineTo(Point(172.0, 176.0))];
  }
}
