/** Axis-aligned bounding boxes and the strict overlap test between the player and an object. */
module Collision {
  import opened Reals

  /** A bounding rectangle as the browser reports it: left and top edges, width and height. */
  datatype Rect = Rect(left: real, top: real, width: real, height: real) {
    function Right(): real { left + width }
    function Bottom(): real { top + height }
  }

  /** Strict overlap on both axes: the player's rectangle p against the object's rectangle o. */
  predicate Overlaps(p: Rect, o: Rect): (hit: bool)
    ensures hit ==> p.width + o.width > 0.0 && p.height + o.height > 0.0
  {
    p.left < o.left + o.width &&
    p.left + p.width > o.left &&
    p.top < o.top + o.height &&
    p.top + p.height > o.top
  }

  /** (x, y) lies strictly inside r. */
  predicate Inside(r: Rect, x: real, y: real) {
    r.left < x < r.Right() && r.top < y < r.Bottom()
  }

  /** For rectangles of positive size, the test fires exactly when the two interiors share a point. */
  lemma OverlapsIffSharedPoint(p: Rect, o: Rect)
    requires p.width > 0.0 && p.height > 0.0 && o.width > 0.0 && o.height > 0.0
    ensures Overlaps(p, o) <==> exists x, y :: Inside(p, x, y) && Inside(o, x, y)
  {
    if Overlaps(p, o) {
      var x := (RMax(p.left, o.left) + RMin(p.Right(), o.Right())) / 2.0;
      var y := (RMax(p.top, o.top) + RMin(p.Bottom(), o.Bottom())) / 2.0;
      assert Inside(p, x, y) && Inside(o, x, y);
    }
    if exists x, y :: Inside(p, x, y) && Inside(o, x, y) {
      var x, y :| Inside(p, x, y) && Inside(o, x, y);
      assert Overlaps(p, o);
    }
  }

  /** The test does not depend on which rectangle is the player's. */
  lemma OverlapsSymmetric(p: Rect, o: Rect)
    ensures Overlaps(p, o) == Overlaps(o, p)
  {
  }

  /** Rectangles that only touch along an edge do not collide. */
  lemma EdgeContactIsNoCollision(p: Rect, o: Rect)
    requires p.Right() == o.left || o.Right() == p.left || p.Bottom() == o.top || o.Bottom() == p.top
    ensures !Overlaps(p, o)
  {
  }

  /** A player spanning [10,90] x [80,100] and an object spanning [50,60] x [95,110] collide. */
  lemma SampleCollision()
    ensures Overlaps(Rect(10.0, 80.0, 80.0, 20.0), Rect(50.0, 95.0, 10.0, 15.0))
  {
  }
}
