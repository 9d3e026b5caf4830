/** Points of the world frame and the distance comparisons the lidar path code makes.
    The source compares Euclidean distances (`dist` from donkeycar.utils); every such
    comparison is stated here on squared distances, which avoids square roots and is
    exact for non-negative distances (see LessIffSquareLess and FarIffDistanceExceeds). */
module Geometry {

  /** A position or waypoint in world-frame millimetres: the source's `(x, y)` tuple. */
  datatype Point = Point(x: real, y: real)

  const Origin: Point := Point(0.0, 0.0)

  /** Square of the Euclidean distance between a and b. */
  function SqDist(a: Point, b: Point): (s: real)
    ensures s >= 0.0
    ensures a == b ==> s == 0.0
  {
    var dx, dy := a.x - b.x, a.y - b.y;
    SquareNonNegative(dx);
    SquareNonNegative(dy);
    dx * dx + dy * dy
  }

  /** A square is never negative. */
  lemma SquareNonNegative(r: real)
    ensures r * r >= 0.0
  {
    if r < 0.0 {
      var n := -r;
      assert n * n > 0.0;
      assert r * r == n * n;
    }
  }

  /** `dist(a, b) > m`, without the square root. */
  predicate Far(a: Point, b: Point, m: real)
  {
    m < 0.0 || SqDist(a, b) > m * m
  }

  /** Squaring is strictly monotone on non-negative reals, so comparing two distances
      is the same as comparing their squares. */
  lemma LessIffSquareLess(a: real, b: real)
    requires a >= 0.0 && b >= 0.0
    ensures a < b <==> a * a < b * b
  {
    if a < b {
      var d := b - a;
      assert b * b == a * a + 2.0 * a * d + d * d;
      assert d * d > 0.0;
      assert a * d >= 0.0;
    } else {
      assert b * b <= a * a;
    }
  }

  /** Far is exactly "the Euclidean distance exceeds m", for any threshold m. */
  lemma FarIffDistanceExceeds(a: Point, b: Point, m: real, d: real)
    requires d >= 0.0 && d * d == SqDist(a, b)
    ensures Far(a, b, m) <==> d > m
  {
    if m >= 0.0 {
      LessIffSquareLess(m, d);
    }
  }
}
