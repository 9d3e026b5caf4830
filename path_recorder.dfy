/** The path recorder (`Path` in donkeycar/parts/lidar.py): a sparse trace of visited
    positions, where a position is recorded only when it lies farther than `min_dist`
    from the last recorded one (initially the origin). */
module PathRecorder {
  import opened Geometry

  /** Every waypoint of `path` is farther than m from the one before it, and the first
      one is farther than m from `from`. */
  predicate Spaced(from: Point, path: seq<Point>, m: real)
    decreases |path|
  {
    path == [] || (Far(path[0], from, m) && Spaced(path[0], path[1..], m))
  }

  /** The last waypoint of `path`, or `start` when there is none. */
  function LastOr(path: seq<Point>, start: Point): (last: Point)
  {
    if path == [] then start else path[|path| - 1]
  }

  /** The point waypoint i was admitted against: its predecessor, or `from` for the first. */
  function Before(from: Point, path: seq<Point>, i: nat): (prev: Point)
    requires i < |path|
  {
    if i == 0 then from else path[i - 1]
  }

  /** Appending p to a well-spaced path keeps it well spaced exactly when p is far
      from the last waypoint. */
  lemma {:induction false} SpacedAppend(from: Point, path: seq<Point>, m: real, p: Point)
    requires Spaced(from, path, m)
    ensures Spaced(from, path + [p], m) <==> Far(p, LastOr(path, from), m)
    decreases |path|
  {
    if path == [] {
      assert [p][1..] == [];
    } else {
      assert (path + [p])[0] == path[0];
      assert (path + [p])[1..] == path[1..] + [p];
      SpacedAppend(path[0], path[1..], m, p);
      assert LastOr(path[1..], path[0]) == LastOr(path, from);
    }
  }

  /** The recursive spacing predicate agrees with the pairwise statement: each
      waypoint is far from the one before it. */
  lemma {:induction false} SpacedIffPairwise(from: Point, path: seq<Point>, m: real)
    ensures Spaced(from, path, m) <==>
            forall i :: 0 <= i < |path| ==> Far(path[i], Before(from, path, i), m)
    decreases |path|
  {
    if path != [] {
      var rest := path[1..];
      SpacedIffPairwise(path[0], rest, m);
      forall i | 1 <= i < |path|
        ensures path[i] == rest[i - 1] && Before(from, path, i) == Before(path[0], rest, i - 1)
      {
      }
      if forall i :: 0 <= i < |path| ==> Far(path[i], Before(from, path, i), m) {
        assert Far(path[0], Before(from, path, 0), m);
        forall j | 0 <= j < |rest| ensures Far(rest[j], Before(path[0], rest, j), m) {
          assert Far(path[j + 1], Before(from, path, j + 1), m);
        }
      }
    }
  }

  /** With a non-negative spacing, no waypoint repeats its predecessor (or the start). */
  lemma SpacedHasNoRepeats(from: Point, path: seq<Point>, m: real)
    requires m >= 0.0 && Spaced(from, path, m)
    ensures forall i :: 0 <= i < |path| ==> path[i] != Before(from, path, i)
  {
    SpacedIffPairwise(from, path, m);
    forall i | 0 <= i < |path| ensures path[i] != Before(from, path, i) {
      assert Far(path[i], Before(from, path, i), m);
      assert SqDist(path[i], Before(from, path, i)) > 0.0;
    }
  }

  /** The recorder object: its waypoint list and the reference point a new position
      is measured against. */
  class Path {
    var path: seq<Point>
    const minDist: real
    var x: real
    var y: real

    /** The reference point `(self.x, self.y)`. */
    function Reference(): Point
      reads this
    {
      Point(x, y)
    }

    /** The recorder's invariant: the waypoints are well spaced from the origin on, and
        the reference point is the last waypoint (the origin while none is recorded). */
    ghost predicate Valid()
      reads this
    {
      Spaced(Origin, path, minDist) && Reference() == LastOr(path, Origin)
    }

    constructor (minDistRecMm: real := 100.0)
      ensures path == [] && minDist == minDistRecMm
      ensures Reference() == Origin
      ensures Valid()
    {
      path := [];
      minDist := minDistRecMm;
      x := 0.0;
      y := 0.0;
    }

    /** Records (x, y) when it is farther than minDist from the reference point, and
        returns the whole path. */
    method Run(x: real, y: real) returns (recorded: seq<Point>)
      modifies this
      ensures Far(Point(x, y), old(Reference()), minDist) ==>
                path == old(path) + [Point(x, y)] && Reference() == Point(x, y)
      ensures !Far(Point(x, y), old(Reference()), minDist) ==>
                path == old(path) && Reference() == old(Reference())
      ensures recorded == path
      ensures old(Valid()) ==> Valid()
    {
      ghost var wasValid := Valid();
      if Far(Point(x, y), Point(this.x, this.y), minDist) {
        if wasValid {
          SpacedAppend(Origin, path, minDist, Point(x, y));
        }
        path := path + [Point(x, y)];
        this.x := x;
        this.y := y;
      }
      recorded := path;
    }
  }

  /** Feeding the positions (0,0), (50,0), (150,0), (151,0), (400,0) to a recorder with
      100 mm spacing records (150,0) and (400,0): (0,0) is at distance 0 from the
      initial reference point and is rejected. */
  method SpacingScenario() returns (recorded: seq<Point>)
    ensures recorded == [Point(150.0, 0.0), Point(400.0, 0.0)]
  {
    var recorder := new Path(100.0);
    recorded := recorder.Run(0.0, 0.0);
    recorded := recorder.Run(50.0, 0.0);
    recorded := recorder.Run(150.0, 0.0);
    recorded := recorder.Run(151.0, 0.0);
    recorded := recorder.Run(400.0, 0.0);
  }
}
