/** The cross-track-error calculator (`PathCTE` in donkeycar/parts/lidar.py): a linear
    search for the waypoint nearest the car, the choice of the neighbouring waypoint
    that closes the reference segment, and the value the calculator returns. */
module PathCte {
  import opened Geometry
  import PathRecorder

  /** The search's initial `closest_dist` of 1000000 mm, squared. */
  const SentinelSq: real := 1000000.0 * 1000000.0

  /** Some waypoint lies closer to q than the search's initial bound. */
  ghost predicate AnyWithinSentinel(path: seq<Point>, q: Point)
  {
    exists k :: 0 <= k < |path| && SqDist(q, path[k]) < SentinelSq
  }

  /** Waypoint i is nearest to q, and strictly nearer than every waypoint before it:
      the first index with the minimum distance. */
  ghost predicate FirstNearest(path: seq<Point>, q: Point, i: nat)
  {
    i < |path| &&
    (forall k :: 0 <= k < |path| ==> SqDist(q, path[i]) <= SqDist(q, path[k])) &&
    (forall k :: 0 <= k < i ==> SqDist(q, path[i]) < SqDist(q, path[k]))
  }

  /** There is at most one first-nearest index, so the search's answer is determined
      by the path and the position alone. */
  lemma FirstNearestUnique(path: seq<Point>, q: Point, i: nat, j: nat)
    requires FirstNearest(path, q, i) && FirstNearest(path, q, j)
    ensures i == j
  {
    var di, dj := SqDist(q, path[i]), SqDist(q, path[j]);
    assert di <= dj && dj <= di;
  }

  /** The nearest-waypoint loop: keeps the first waypoint whose distance beats the
      best so far (strict `<`), starting from the 1000000 mm bound and index 0. */
  method NearestIndex(path: seq<Point>, q: Point) returns (iClosest: nat)
    ensures |path| > 0 ==> iClosest < |path|
    ensures AnyWithinSentinel(path, q) ==> FirstNearest(path, q, iClosest)
    ensures !AnyWithinSentinel(path, q) ==> iClosest == 0
  {
    var closest := SentinelSq;
    iClosest := 0;
    var iPath := 0;
    while iPath < |path|
      invariant 0 <= iPath <= |path|
      invariant closest <= SentinelSq
      invariant closest < SentinelSq ==> iClosest < iPath && closest == SqDist(q, path[iClosest])
      invariant closest == SentinelSq ==> iClosest == 0
      invariant forall k :: 0 <= k < iPath ==> closest <= SqDist(q, path[k])
      invariant forall k :: 0 <= k < iClosest ==> closest < SqDist(q, path[k])
    {
      var d := SqDist(q, path[iPath]);
      if d < closest {
        closest := d;
        iClosest := iPath;
      }
      iPath := iPath + 1;
    }
  }

  /** `(i + 1) % n`: the next index, wrapping from the last to the first. */
  function NextIndex(i: nat, n: nat): (r: nat)
    requires i < n
    ensures r < n
    ensures r == if i == n - 1 then 0 else i + 1
  {
    (i + 1) % n
  }

  /** `(i - 1) % n` with a non-negative remainder, as Python computes it: the previous
      index, wrapping from the first to the last. */
  function PrevIndex(i: nat, n: nat): (r: nat)
    requires i < n
    ensures r < n
    ensures r == if i == 0 then n - 1 else i - 1
  {
    (i - 1) % n
  }

  /** The second end of the reference segment: the next waypoint when it is strictly
      closer to q than the previous one, the previous waypoint otherwise. */
  function Neighbour(path: seq<Point>, q: Point, iClosest: nat): (iB: nat)
    requires iClosest < |path|
    ensures iB < |path|
    ensures iB == NextIndex(iClosest, |path|) || iB == PrevIndex(iClosest, |path|)
    ensures SqDist(q, path[iB]) <= SqDist(q, path[NextIndex(iClosest, |path|)])
    ensures SqDist(q, path[iB]) <= SqDist(q, path[PrevIndex(iClosest, |path|)])
    ensures (SqDist(q, path[NextIndex(iClosest, |path|)]) == SqDist(q, path[PrevIndex(iClosest, |path|)]))
            ==> iB == PrevIndex(iClosest, |path|)
  {
    var iNext := NextIndex(iClosest, |path|);
    var iPrev := PrevIndex(iClosest, |path|);
    if SqDist(q, path[iNext]) < SqDist(q, path[iPrev]) then iNext else iPrev
  }

  /** On a one-waypoint path both neighbours are the waypoint itself, so the segment
      collapses to a point; on a two-waypoint path both are the other waypoint. */
  lemma ShortPathNeighbour(path: seq<Point>, q: Point, iClosest: nat)
    requires iClosest < |path| <= 2
    ensures Neighbour(path, q, iClosest) == |path| - 1 - iClosest
  {
  }

  /** What `PathCTE.run` yields: the division by zero raised by `% len(path)` on an empty
      path, or the returned cross-track error. */
  datatype CteOutcome = Returned(cte: real) | ZeroDivisionError

  /** The calculator: the recorder whose waypoints it reads, and a span hint that no
      operation updates. */
  class PathCTE {
    const path: PathRecorder.Path
    var iSpan: int

    constructor (path: PathRecorder.Path)
      ensures this.path == path && iSpan == 0
    {
      this.path := path;
      iSpan := 0;
    }

    /** Finds the nearest waypoint and its closer neighbour, and returns a cross-track
        error of 0; an empty path raises at the modulo by its length. */
    method Run(x: real, y: real) returns (r: CteOutcome)
      ensures path.path == [] ==> r == ZeroDivisionError
      ensures path.path != [] ==> r == Returned(0.0)
    {
      var cte := 0.0;
      var waypoints := path.path;
      var q := Point(x, y);
      var iClosest := NearestIndex(waypoints, q);
      if |waypoints| == 0 {
        return ZeroDivisionError;
      }
      var iB := Neighbour(waypoints, q, iClosest);
      var a, b := waypoints[iClosest], waypoints[iB];
      // The projection of q onto the segment from a to b is not part of this model:
      // its result is never used.
      r := Returned(cte);
    }
  }

  /** Path (0,0), (100,0), (200,0) and position (50,10): the first two waypoints tie,
      the search keeps index 0, and the segment is closed by index 1. */
  lemma SegmentScenario()
    ensures FirstNearest([Point(0.0, 0.0), Point(100.0, 0.0), Point(200.0, 0.0)], Point(50.0, 10.0), 0)
    ensures Neighbour([Point(0.0, 0.0), Point(100.0, 0.0), Point(200.0, 0.0)], Point(50.0, 10.0), 0) == 1
  {
  }
}
