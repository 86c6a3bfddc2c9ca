/**
  The overlay: one `CAShapeLayer` whose children are the shapes drawn for the
  latest frame. Children are never changed after they are added, so each child is
  a value; the parent layer, whose list of children changes, is an object.
*/
module Overlay {
  import opened Geometry
  import opened Paths
  import opened Landmarks

  /** Every overlay shape is stroked two units wide. */
  const LINE_WIDTH: real := 2.0

  /** One child `CAShapeLayer`: its path, stroke colour, line width, fill colour and frame. */
  datatype Shape = Shape(path: seq<PathCmd>, strokeColor: Color, lineWidth: real, fillColor: Color, frame: Rect)

  /** The position of the first child equal to `x`. */
  function FirstIndex(s: seq<Shape>, x: Shape): (k: nat)
    requires x in s
    ensures k < |s| && s[k] == x && x !in s[..k]
  {
    if s[0] == x then 0
    else
      assert x in s[1..];
      var j := FirstIndex(s[1..], x);
      assert s[..j + 1] == [s[0]] + s[1..][..j];
      j + 1
  }

  /**
    `s` with its first child equal to `x` taken out; `s` itself when there is none.
    `RemoveFirstSplit` and `RemoveFirstCount` say what is left when there is one.
  */
  function RemoveFirst(s: seq<Shape>, x: Shape): (r: seq<Shape>)
    ensures x !in s ==> r == s
    ensures |s| > 0 && s[0] == x ==> r == s[1..]
  {
    if s == [] then []
    else if s[0] == x then s[1..]
    else
      assert s == [s[0]] + s[1..];
      [s[0]] + RemoveFirst(s[1..], x)
  }

  /** Removing a child that is there keeps the children before and after it, in order. */
  lemma {:induction false} RemoveFirstSplit(s: seq<Shape>, x: Shape)
    requires x in s
    ensures RemoveFirst(s, x) == s[..FirstIndex(s, x)] + s[FirstIndex(s, x) + 1..]
  {
    if s[0] != x {
      var head, tail := s[0], s[1..];
      assert x in tail;
      var j := FirstIndex(tail, x);
      RemoveFirstSplit(tail, x);
      var front, back := tail[..j], tail[j + 1..];
      assert FirstIndex(s, x) == j + 1;
      assert RemoveFirst(s, x) == [head] + (front + back);
      assert s[..j + 1] == [head] + front;
      assert s[j + 2..] == back;
    }
  }

  /** Removing a child that is there takes out exactly one occurrence of it. */
  lemma {:induction false} RemoveFirstCount(s: seq<Shape>, x: Shape)
    requires x in s
    ensures |RemoveFirst(s, x)| == |s| - 1
    ensures multiset(RemoveFirst(s, x)) == multiset(s) - multiset{x}
  {
    assert s == [s[0]] + s[1..];
    assert multiset(s) == multiset{s[0]} + multiset(s[1..]);
    if s[0] != x {
      assert x in s[1..];
      RemoveFirstCount(s[1..], x);
      assert multiset(RemoveFirst(s, x)) == multiset{s[0]} + (multiset(s[1..]) - multiset{x});
    }
  }

  /** The shape layer the overlay is drawn into. */
  class ShapeLayer {
    /** `Sublayers`, in drawing order; an absent list is the empty one. */
    var sublayers: seq<Shape>

    constructor ()
      ensures sublayers == []
    {
      sublayers := [];
    }

    /** `AddSublayer`: the new child goes last; earlier children stay as they were. */
    method AddSublayer(child: Shape)
      modifies this
      ensures sublayers == old(sublayers) + [child]
    {
      sublayers := sublayers + [child];
    }

    /** `child.RemoveFromSuperLayer()`: the child leaves this layer. */
    method RemoveSublayer(child: Shape)
      modifies this
      ensures sublayers == RemoveFirst(old(sublayers), child)
    {
      sublayers := RemoveFirst(sublayers, child);
    }
  }

  /**
    `RemoveSublayers`: when the layer has children, takes a copy of the list and
    removes each child of the copy from the layer. Going over the copy, each
    removal takes out the layer's current first child, so the layer ends empty.
  */
  method RemoveSublayers(layer: ShapeLayer)
    modifies layer
    ensures layer.sublayers == []
  {
    if |layer.sublayers| > 0 {
      var snapshot := layer.sublayers;
      for i := 0 to |snapshot|
        invariant layer.sublayers == snapshot[i..]
      {
        layer.RemoveSublayer(snapshot[i]);
      }
    }
  }
}
