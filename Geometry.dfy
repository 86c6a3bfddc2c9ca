/**
  Coordinate mapping of `OutputRecorder`: a detector's normalized bounding box is
  scaled to the view (`Scale`), and each landmark point, given relative to that box,
  is placed in view coordinates (the `Select` in `DrawLandmark`).
  Coordinates are exact reals; `CGFloat` rounding is not modelled.
*/
module Geometry {

  datatype Point = Point(x: real, y: real)

  datatype Size = Size(width: real, height: real)

  datatype Rect = Rect(x: real, y: real, width: real, height: real)

  /** The unit box: mapping into it leaves a point where it is. */
  const UNIT_BOX: Rect := Rect(0.0, 0.0, 1.0, 1.0)

  /** `Scale(source, dest)`: x and width by the destination width, y and height by its height. */
  function Scale(source: Rect, dest: Size): Rect
  {
    Rect(source.x * dest.width, source.y * dest.height,
         source.width * dest.width, source.height * dest.height)
  }

  /**
    The far edges of the box scale like its origin, so the scaled box is the
    source box stretched, not shifted; a unit destination changes nothing.
  */
  lemma ScaleFarEdges(source: Rect, dest: Size)
    ensures Scale(source, dest).x + Scale(source, dest).width == (source.x + source.width) * dest.width
    ensures Scale(source, dest).y + Scale(source, dest).height == (source.y + source.height) * dest.height
    ensures dest == Size(1.0, 1.0) ==> Scale(source, dest) == source
  {
    Distribute(source.x, 1.0, source.width, dest.width);
    Distribute(source.y, 1.0, source.height, dest.height);
  }

  /** The inverse of `Scale` for a destination with no zero dimension. */
  function Unscale(scaled: Rect, dest: Size): (r: Rect)
    requires dest.width != 0.0 && dest.height != 0.0
    ensures Scale(r, dest) == scaled
  {
    DivideThenMultiply(scaled.x, dest.width);
    DivideThenMultiply(scaled.y, dest.height);
    DivideThenMultiply(scaled.width, dest.width);
    DivideThenMultiply(scaled.height, dest.height);
    Rect(scaled.x / dest.width, scaled.y / dest.height,
         scaled.width / dest.width, scaled.height / dest.height)
  }

  /** Scaling a single point the way `Scale` scales a box origin. */
  function ScalePoint(p: Point, dest: Size): Point
  {
    Point(p.x * dest.width, p.y * dest.height)
  }

  /** One point of a region, relative to `box`, placed in the coordinates `box` is given in. */
  function MapPoint(p: Point, box: Rect): Point
  {
    Point(p.x * box.width + box.x, p.y * box.height + box.y)
  }

  /** The inverse of `MapPoint` for a box with no zero dimension. */
  function UnmapPoint(q: Point, box: Rect): (p: Point)
    requires box.width != 0.0 && box.height != 0.0
    ensures MapPoint(p, box) == q
  {
    var u, v := (q.x - box.x) / box.width, (q.y - box.y) / box.height;
    DivideThenMultiply(q.x - box.x, box.width);
    DivideThenMultiply(q.y - box.y, box.height);
    assert u * box.width + box.x == q.x;
    assert v * box.height + box.y == q.y;
    assert MapPoint(Point(u, v), box) == Point(u * box.width + box.x, v * box.height + box.y);
    assert q == Point(q.x, q.y);
    Point(u, v)
  }

  /** Division by a non-zero length is undone by multiplying back. */
  lemma DivideThenMultiply(a: real, w: real)
    requires w != 0.0
    ensures (a / w) * w == a
  {
  }

  /** The lazy `Select` over a region's normalized points: same length, same order. */
  function MapPoints(points: seq<Point>, box: Rect): (r: seq<Point>)
    ensures |r| == |points|
    ensures forall i :: 0 <= i < |points| ==> r[i] == MapPoint(points[i], box)
  {
    if points == [] then [] else [MapPoint(points[0], box)] + MapPoints(points[1..], box)
  }

  function UnmapPoints(points: seq<Point>, box: Rect): (r: seq<Point>)
    requires box.width != 0.0 && box.height != 0.0
    ensures |r| == |points|
    ensures forall i :: 0 <= i < |points| ==> r[i] == UnmapPoint(points[i], box)
  {
    if points == [] then [] else [UnmapPoint(points[0], box)] + UnmapPoints(points[1..], box)
  }

  /** Scaling then unscaling gives the box back. */
  lemma ScaleRoundTrip(box: Rect, dest: Size)
    requires dest.width != 0.0 && dest.height != 0.0
    ensures Unscale(Scale(box, dest), dest) == box
  {
  }

  /**
    `Scale` does not clamp: for a view of positive size, each edge of the box is
    outside the unit square exactly when the scaled edge is outside the view.
  */
  lemma ScaleDoesNotClamp(box: Rect, dest: Size)
    requires dest.width > 0.0 && dest.height > 0.0
    ensures var s := Scale(box, dest);
      && (box.x < 0.0 <==> s.x < 0.0)
      && (box.y < 0.0 <==> s.y < 0.0)
      && (box.x + box.width > 1.0 <==> s.x + s.width > dest.width)
      && (box.y + box.height > 1.0 <==> s.y + s.height > dest.height)
  {
    var s := Scale(box, dest);
    AxisDoesNotClamp(box.x, box.width, dest.width, s.x, s.width);
    AxisDoesNotClamp(box.y, box.height, dest.height, s.y, s.height);
  }

  /** One axis of `ScaleDoesNotClamp`, with the scaled origin and extent given. */
  lemma AxisDoesNotClamp(origin: real, extent: real, w: real, scaledOrigin: real, scaledExtent: real)
    requires w > 0.0 && scaledOrigin == origin * w && scaledExtent == extent * w
    ensures origin < 0.0 <==> scaledOrigin < 0.0
    ensures origin + extent > 1.0 <==> scaledOrigin + scaledExtent > w
  {
    assert scaledOrigin + scaledExtent - w == (origin + extent - 1.0) * w;
    PositiveFactorKeepsSign(origin + extent - 1.0, w);
  }

  /** Multiplying by a positive length keeps the sign. */
  lemma PositiveFactorKeepsSign(a: real, w: real)
    requires w > 0.0
    ensures a < 0.0 <==> a * w < 0.0
    ensures a > 0.0 <==> a * w > 0.0
  {
  }

  /** `Scale` is linear in the box, axis by axis. */
  lemma ScaleIsLinear(a: Rect, b: Rect, k: real, dest: Size)
    ensures Scale(Rect(a.x + k * b.x, a.y + k * b.y, a.width + k * b.width, a.height + k * b.height), dest)
         == var sa, sb := Scale(a, dest), Scale(b, dest);
            Rect(sa.x + k * sb.x, sa.y + k * sb.y, sa.width + k * sb.width, sa.height + k * sb.height)
  {
    Distribute(a.x, k, b.x, dest.width);
    Distribute(a.y, k, b.y, dest.height);
    Distribute(a.width, k, b.width, dest.width);
    Distribute(a.height, k, b.height, dest.height);
  }

  lemma Distribute(a: real, k: real, b: real, w: real)
    ensures (a + k * b) * w == a * w + k * (b * w)
  {
  }

  /**
    Mapping a point into the scaled box is the same as mapping it into the
    normalized box and then scaling the result to the view: the three coordinate
    systems (box-relative, frame-normalized, view) compose.
  */
  lemma MapIntoScaledBox(p: Point, box: Rect, dest: Size)
    ensures MapPoint(p, Scale(box, dest)) == ScalePoint(MapPoint(p, box), dest)
  {
    assert (p.x * box.width + box.x) * dest.width == p.x * (box.width * dest.width) + box.x * dest.width;
    assert (p.y * box.height + box.y) * dest.height == p.y * (box.height * dest.height) + box.y * dest.height;
  }

  /** Mapping a whole region into the scaled box commutes with scaling, point by point. */
  lemma {:induction false} MapPointsIntoScaledBox(points: seq<Point>, box: Rect, dest: Size, i: nat)
    requires i < |points|
    ensures MapPoints(points, Scale(box, dest))[i] == ScalePoint(MapPoints(points, box)[i], dest)
  {
    MapIntoScaledBox(points[i], box, dest);
  }

  /** The corners of the unit square land on the corners of the box. */
  lemma MapPointCorners(box: Rect)
    ensures MapPoint(Point(0.0, 0.0), box) == Point(box.x, box.y)
    ensures MapPoint(Point(1.0, 1.0), box) == Point(box.x + box.width, box.y + box.height)
    ensures MapPoint(Point(1.0, 0.0), box) == Point(box.x + box.width, box.y)
    ensures MapPoint(Point(0.0, 1.0), box) == Point(box.x, box.y + box.height)
  {
  }

  /** The unit box is the identity mapping. */
  lemma MapPointsUnitBox(points: seq<Point>)
    ensures MapPoints(points, UNIT_BOX) == points
  {
  }

  /** Mapping a region and then unmapping it gives the region back. */
  lemma MapPointsRoundTrip(points: seq<Point>, box: Rect)
    requires box.width != 0.0 && box.height != 0.0
    ensures UnmapPoints(MapPoints(points, box), box) == points
  {
    var back := UnmapPoints(MapPoints(points, box), box);
    forall i | 0 <= i < |points|
      ensures back[i] == points[i]
    {
      MapPointRoundTrip(points[i], box);
    }
  }

  /** Mapping one point and then unmapping it gives the point back. */
  lemma MapPointRoundTrip(p: Point, box: Rect)
    requires box.width != 0.0 && box.height != 0.0
    ensures UnmapPoint(MapPoint(p, box), box) == p
  {
    var q := MapPoint(p, box);
    assert q.x - box.x == p.x * box.width && q.y - box.y == p.y * box.height;
    MultiplyThenDivide(p.x, box.width);
    MultiplyThenDivide(p.y, box.height);
  }

  /** Multiplication by a non-zero length is undone by dividing back. */
  lemma MultiplyThenDivide(a: real, w: real)
    requires w != 0.0
    ensures (a * w) / w == a
  {
  }

  /** Mapping distributes over concatenation: order is kept across the split. */
  lemma {:induction false} MapPointsAppend(a: seq<Point>, b: seq<Point>, box: Rect)
    ensures MapPoints(a + b, box) == MapPoints(a, box) + MapPoints(b, box)
  {
    if a != [] {
      assert (a + b)[1..] == a[1..] + b;
      MapPointsAppend(a[1..], b, box);
    }
  }

  /**
    The worked example: box (0.4, 0.4, 0.2, 0.2) in a 400 by 400 view scales to
    (160, 160, 80, 80), and the three eye points land at (168, 168), (176, 168), (172, 176).
  */
  lemma WorkedExample()
    ensures Scale(Rect(0.4, 0.4, 0.2, 0.2), Size(400.0, 400.0)) == Rect(160.0, 160.0, 80.0, 80.0)
    ensures MapPoints([Point(0.1, 0.1), Point(0.2, 0.1), Point(0.15, 0.2)], Rect(160.0, 160.0, 80.0, 80.0))
         == [Point(168.0, 168.0), Point(176.0, 168.0), Point(172.0, 176.0)]
  {
  }
}
