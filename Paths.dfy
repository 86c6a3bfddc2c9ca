/**
  The path `DrawLandmark` builds for one region: a move-to the first mapped point,
  a line-to each later point in order, and, for a closed region, one more line-to
  back to the first point. The `UIBezierPath` is modelled as the list of commands
  it receives.
*/
module Paths {
  import opened Geometry

  datatype PathCmd = MoveTo(to: Point) | LineTo(to: Point)

  /** A line-to for every point, in order. */
  function LinesTo(points: seq<Point>): (r: seq<PathCmd>)
    ensures |r| == |points|
    ensures forall i :: 0 <= i < |points| ==> r[i] == LineTo(points[i])
  {
    if points == [] then [] else [LineTo(points[0])] + LinesTo(points[1..])
  }

  /** The command list of the polyline through `points`, closed back to the start when asked. */
  function Polyline(points: seq<Point>, closed: bool): seq<PathCmd>
    requires |points| >= 1
  {
    [MoveTo(points[0])] + LinesTo(points[1..]) + (if closed then [LineTo(points[0])] else [])
  }

  /** The points a path passes through, in order. */
  function Vertices(path: seq<PathCmd>): (r: seq<Point>)
    ensures |r| == |path|
    ensures forall i :: 0 <= i < |path| ==> r[i] == path[i].to
  {
    if path == [] then [] else [path[0].to] + Vertices(path[1..])
  }

  /**
    The path-building loop of `DrawLandmark`: `MoveTo(First())`, then `AddLineTo`
    for every point of `Skip(1)`, then the closing `AddLineTo(First())`.
  */
  method BuildPath(points: seq<Point>, closed: bool) returns (path: seq<PathCmd>)
    requires |points| >= 1
    ensures path == Polyline(points, closed)
  {
    path := [MoveTo(points[0])];
    var i := 1;
    while i < |points|
      invariant 1 <= i <= |points|
      invariant path == [MoveTo(points[0])] + LinesTo(points[1..i])
    {
      LinesToSnoc(points[1..i], points[i]);
      assert points[1..i + 1] == points[1..i] + [points[i]];
      path := path + [LineTo(points[i])];
      i := i + 1;
    }
    if closed {
      path := path + [LineTo(points[0])];
    }
  }

  /** Appending a point appends its line-to. */
  lemma LinesToSnoc(points: seq<Point>, p: Point)
    ensures LinesTo(points + [p]) == LinesTo(points) + [LineTo(p)]
  {
  }

  /**
    The shape of a polyline: n commands for n points when open, n + 1 when closed;
    the only move-to is the first command; command i draws to point i; a closed
    path ends with a line back to the first point.
  */
  lemma PolylineCommands(points: seq<Point>, closed: bool)
    requires |points| >= 1
    ensures var path := Polyline(points, closed);
      && |path| == |points| + (if closed then 1 else 0)
      && path[0] == MoveTo(points[0])
      && (forall i :: 1 <= i < |points| ==> path[i] == LineTo(points[i]))
      && (forall i :: 1 <= i < |path| ==> path[i].LineTo?)
      && (closed ==> path[|path| - 1] == LineTo(points[0]))
  {
    var path := Polyline(points, closed);
    forall i | 1 <= i < |points|
      ensures path[i] == LineTo(points[i])
    {
      assert path[i] == LinesTo(points[1..])[i - 1];
    }
  }

  /** The path passes through exactly the region's points, plus the start again when closed. */
  lemma PolylineVertices(points: seq<Point>, closed: bool)
    requires |points| >= 1
    ensures Vertices(Polyline(points, closed)) == points + (if closed then [points[0]] else [])
  {
    var path := Polyline(points, closed);
    var expected := points + (if closed then [points[0]] else []);
    PolylineCommands(points, closed);
    forall i | 0 <= i < |path|
      ensures Vertices(path)[i] == expected[i]
    {
    }
  }

  /** A closed polyline ends where it starts; an open one ends at the last point. */
  lemma PolylineEnd(points: seq<Point>, closed: bool)
    requires |points| >= 1
    ensures var v := Vertices(Polyline(points, closed));
      && v[0] == points[0]
      && v[|v| - 1] == (if closed then points[0] else points[|points| - 1])
  {
    PolylineVertices(points, closed);
  }
}
