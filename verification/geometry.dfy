/** Plane geometry of utils.js: squared distance, clamping, the orientation test for segment
    intersection and the wall line-of-sight check. Coordinates are exact reals. */
module Geometry {
  import opened Entities

  datatype Point = Point(x: real, y: real)

  /** distanceSq (utils.js:4-8). */
  function DistanceSq(x1: real, y1: real, x2: real, y2: real): (d: real)
    ensures d >= 0.0
    ensures x1 == x2 && y1 == y2 ==> d == 0.0
  {
    var dx := x1 - x2;
    var dy := y1 - y2;
    SquareNonNegative(dx);
    SquareNonNegative(dy);
    dx * dx + dy * dy
  }

  lemma SquareNonNegative(a: real)
    ensures a * a >= 0.0
  {
    if a < 0.0 {
      assert a * a == (-a) * (-a);
    }
  }

  lemma DistanceSqSymmetric(x1: real, y1: real, x2: real, y2: real)
    ensures DistanceSq(x1, y1, x2, y2) == DistanceSq(x2, y2, x1, y1)
  {
    assert (x1 - x2) * (x1 - x2) == (x2 - x1) * (x2 - x1);
    assert (y1 - y2) * (y1 - y2) == (y2 - y1) * (y2 - y1);
  }

  /** clamp (utils.js:20-22): `Math.max(min, Math.min(max, value))`. When the bounds are crossed
      the lower bound wins, as the outer `max` does. */
  function Clamp(value: real, lo: real, hi: real): (r: real)
    ensures lo <= hi ==> lo <= r <= hi
    ensures lo <= value <= hi ==> r == value
    ensures value < lo ==> r == lo
    ensures value > hi ==> r == (if lo > hi then lo else hi)
    ensures lo > hi ==> r == lo
  {
    var inner := if hi < value then hi else value;
    if lo > inner then lo else inner
  }

  // ---------------------------------------------------------------- segment intersection

  /** The quantity whose sign `orientation` reports: twice the signed area of p, q, r, negated. */
  function Turn(p: Point, q: Point, r: Point): real {
    (q.y - p.y) * (r.x - q.x) - (q.x - p.x) * (r.y - q.y)
  }

  /** orientation (utils.js:56-60): 0 for collinear points, 1 and 2 for the two turning senses. */
  function Orientation(p: Point, q: Point, r: Point): (o: int)
    ensures 0 <= o <= 2
    ensures o == 0 <==> Turn(p, q, r) == 0.0
  {
    var v := Turn(p, q, r);
    if v == 0.0 then 0 else if v > 0.0 then 1 else 2
  }

  /** onSegment (utils.js:62-65): q lies in the bounding box of p and r. */
  predicate OnSegment(p: Point, q: Point, r: Point) {
    && q.x <= Max(p.x, r.x) && q.x >= Min(p.x, r.x)
    && q.y <= Max(p.y, r.y) && q.y >= Min(p.y, r.y)
  }

  function Max(a: real, b: real): real { if a >= b then a else b }
  function Min(a: real, b: real): real { if a <= b then a else b }

  /** segmentsIntersect (utils.js:55-82): does segment p1-p2 meet segment p3-p4? */
  predicate SegmentsIntersect(p1: Point, p2: Point, p3: Point, p4: Point) {
    var o1 := Orientation(p1, p2, p3);
    var o2 := Orientation(p1, p2, p4);
    var o3 := Orientation(p3, p4, p1);
    var o4 := Orientation(p3, p4, p2);
    || (o1 != o2 && o3 != o4)
    || (o1 == 0 && OnSegment(p1, p3, p2))
    || (o2 == 0 && OnSegment(p1, p4, p2))
    || (o3 == 0 && OnSegment(p3, p1, p4))
    || (o4 == 0 && OnSegment(p3, p2, p4))
  }

  /** Swapping the two segments does not change the answer. */
  lemma SegmentsIntersectSymmetric(p1: Point, p2: Point, p3: Point, p4: Point)
    ensures SegmentsIntersect(p1, p2, p3, p4) == SegmentsIntersect(p3, p4, p1, p2)
  {
  }

  /** Exchanging the first two points reverses the turning sense. */
  lemma {:induction false} TurnSwap(p: Point, q: Point, r: Point)
    ensures Turn(q, p, r) == -Turn(p, q, r)
  {
    calc {
      Turn(q, p, r);
      (p.y - q.y) * (r.x - p.x) - (p.x - q.x) * (r.y - p.y);
      { assert (p.y - q.y) * (r.x - p.x) == (p.y - q.y) * (r.x - q.x) + (p.y - q.y) * (q.x - p.x);
        assert (p.x - q.x) * (r.y - p.y) == (p.x - q.x) * (r.y - q.y) + (p.x - q.x) * (q.y - p.y); }
      -((q.y - p.y) * (r.x - q.x) - (q.x - p.x) * (r.y - q.y));
    }
  }

  /** A reversed segment reports the mirrored orientation: 1 and 2 trade places, 0 stays. */
  lemma OrientationSwap(p: Point, q: Point, r: Point)
    ensures Orientation(q, p, r) == (if Orientation(p, q, r) == 0 then 0 else 3 - Orientation(p, q, r))
  {
    TurnSwap(p, q, r);
  }

  /** Walking either segment in the opposite direction does not change the answer. */
  lemma SegmentsIntersectReversed(p1: Point, p2: Point, p3: Point, p4: Point)
    ensures SegmentsIntersect(p2, p1, p3, p4) == SegmentsIntersect(p1, p2, p3, p4)
    ensures SegmentsIntersect(p1, p2, p4, p3) == SegmentsIntersect(p1, p2, p3, p4)
  {
    OrientationSwap(p1, p2, p3);
    OrientationSwap(p1, p2, p4);
    OrientationSwap(p3, p4, p1);
    OrientationSwap(p3, p4, p2);
  }

  /** Two segments that share an endpoint always intersect. */
  lemma SharedEndpointIntersects(p1: Point, p2: Point, p3: Point, p4: Point)
    requires p1 == p3 || p1 == p4 || p2 == p3 || p2 == p4
    ensures SegmentsIntersect(p1, p2, p3, p4)
  {
    if p1 == p3 {
      assert Turn(p1, p2, p3) == 0.0;
    } else if p1 == p4 {
      assert Turn(p1, p2, p4) == 0.0;
    } else if p2 == p3 {
      assert Turn(p1, p2, p3) == 0.0;
    } else {
      assert Turn(p1, p2, p4) == 0.0;
    }
  }

  // ---------------------------------------------------------------- line of sight

  /** The four edges of a wall hit by the sight line, tested top, bottom, left, right. */
  predicate CrossesWall(p1: Point, p2: Point, w: Body) {
    var tl := Point(w.x, w.y);
    var tr := Point(w.x + w.width, w.y);
    var bl := Point(w.x, w.y + w.height);
    var br := Point(w.x + w.width, w.y + w.height);
    || SegmentsIntersect(p1, p2, tl, tr)
    || SegmentsIntersect(p1, p2, bl, br)
    || SegmentsIntersect(p1, p2, tl, bl)
    || SegmentsIntersect(p1, p2, tr, br)
  }

  /** isLineObstructed (utils.js:85-107): scans the array, skipping entries that are not walls,
      and reports the first wall an edge of which the line p1-p2 crosses. */
  function IsLineObstructed(p1: Point, p2: Point, wallArray: seq<Body>): (blocked: bool)
    ensures blocked <==> exists k :: 0 <= k < |wallArray| && wallArray[k].IsWall() && CrossesWall(p1, p2, wallArray[k])
  {
    if wallArray == [] then false
    else if !wallArray[0].IsWall() then
      var rest := IsLineObstructed(p1, p2, wallArray[1..]);
      assert forall k :: 1 <= k < |wallArray| ==> wallArray[k] == wallArray[1..][k - 1];
      rest
    else if CrossesWall(p1, p2, wallArray[0]) then true
    else
      var rest := IsLineObstructed(p1, p2, wallArray[1..]);
      assert forall k :: 1 <= k < |wallArray| ==> wallArray[k] == wallArray[1..][k - 1];
      rest
  }

  /** An array with no walls in it never blocks the view. */
  lemma NoWallsNeverObstruct(p1: Point, p2: Point, wallArray: seq<Body>)
    requires forall k :: 0 <= k < |wallArray| ==> !wallArray[k].IsWall()
    ensures !IsLineObstructed(p1, p2, wallArray)
  {
  }

  /** Removing objects from the array (as the boss-death wall removal does) can only clear a
      blocked view, never block a clear one. */
  lemma FewerWallsObstructLess(p1: Point, p2: Point, fewer: seq<Body>, more: seq<Body>)
    requires forall b :: b in fewer ==> b in more
    ensures IsLineObstructed(p1, p2, fewer) ==> IsLineObstructed(p1, p2, more)
  {
    if IsLineObstructed(p1, p2, fewer) {
      var k :| 0 <= k < |fewer| && fewer[k].IsWall() && CrossesWall(p1, p2, fewer[k]);
      assert fewer[k] in more;
      var j :| 0 <= j < |more| && more[j] == fewer[k];
    }
  }
}
