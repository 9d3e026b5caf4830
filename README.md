# Lidar path tracking: recorder, nearest-segment search and car-relative projection

This project models the path-tracking bookkeeping of the donkeycar lidar parts
(`donkeycar/parts/lidar.py`) in Dafny and proves properties of the model.

- **Path recorder** (`Path`, module `PathRecorder`). The recorder keeps an ordered list
  of waypoints and a reference point, which starts at the origin. `run(x, y)` appends
  `(x, y)` only when its distance to the reference point is strictly greater than
  `min_dist` (default 100 mm). The appended point then becomes the reference point.
  The class `PathRecorder.Path` has the same fields, and its `Run` method updates them
  in place. Its invariant `Valid()` says two things. First, every waypoint is farther
  than `min_dist` from the one before it, and the first waypoint is farther than
  `min_dist` from the origin. Second, the reference point is the last waypoint.
- **Cross-track-error calculator** (`PathCTE`, module `PathCte`). A linear search finds
  the waypoint nearest the car. It starts from a bound of 1000000 mm and uses a strict
  `<`, so ties go to the first index. The calculator then takes the closer of the two
  neighbouring waypoints, with wrap-around, and ties go to the previous one. An empty
  path divides by zero at the modulo by the path length. On a non-empty path the code
  then calls `closest_pt_on_line`, which the file neither defines nor imports, so
  Python raises `NameError` there; the model returns the 0 that `cte` holds at the
  final `return` instead (see `PathCte.PathCTE.Run` under "## Left out").
- **Car-relative projector** (`CarRelPathPlotter.transform_path`, module
  `CarRelPathPlotter`). Each waypoint is translated by the car position and rotated by
  the given cosine and sine. It is then scaled so that 5000 mm reaches the image edge,
  offset to the image centre, and truncated to whole pixels.

Coordinates are `real`. The source compares Euclidean distances computed by `dist`
from `donkeycar.utils`, which is not part of this model. The model compares squared
distances instead (`Geometry.SqDist`). `Geometry.Far(a, b, m)` is "the distance from
a to b exceeds m". `Geometry.FarIffDistanceExceeds` and `Geometry.LessIffSquareLess`
prove that, on exact reals, every such comparison means the same as the one on true
distances. Floating-point rounding of `dist` is not modelled.

Behaviour of the code that the model keeps, and that a reader might not expect:
- The reference point starts at the origin, so a first position at distance at most
  `min_dist` from the origin, (0,0) itself included, is rejected. Feeding (0,0),
  (50,0), (150,0), (151,0), (400,0) with 100 mm spacing records only (150,0) and
  (400,0) (`PathRecorder.SpacingScenario`).
- Admission needs a distance strictly greater than `min_dist`; a point at exactly
  `min_dist` is rejected.
- On a single-waypoint path both neighbours of the closest waypoint are that waypoint
  itself, so the reference segment collapses to a point (`PathCte.ShortPathNeighbour`).
- `transform_path` computes `tx = dx cos - dy sin`, `ty = dx sin + dy cos`: a rotation
  by +theta, not by -theta.

## Model

| member | source | states |
|---|---|---|
| `Geometry.SqDist` | donkeycar/parts/lidar.py:191 | the squared distance that stands in for `dist` is never negative and is 0 between equal points |
| `Geometry.LessIffSquareLess` | donkeycar/parts/lidar.py:274-275 | for non-negative distances, `d < closest_dist` holds exactly when the squares compare the same way |
| `Geometry.FarIffDistanceExceeds` | donkeycar/parts/lidar.py:191-192 | `Far(a, b, m)` holds exactly when the Euclidean distance d (any d >= 0 with d*d equal to the squared distance) satisfies `d > m`, for every m |
| `PathRecorder.SpacedAppend` | donkeycar/parts/lidar.py:191-195 | appending a point to a well-spaced path keeps it well spaced if and only if the point is farther than `min_dist` from the last waypoint (or from the start when there is none) |
| `PathRecorder.SpacedIffPairwise` | donkeycar/parts/lidar.py:191-196 | the spacing invariant holds if and only if every waypoint is farther than `min_dist` from its predecessor, the first one from the origin |
| `PathRecorder.SpacedHasNoRepeats` | donkeycar/parts/lidar.py:191-193 | with a non-negative spacing no recorded waypoint equals its predecessor, and the first does not equal the start |
| `PathRecorder.Path.constructor` | donkeycar/parts/lidar.py:184-188 | a fresh recorder has an empty path, the given minimum spacing (100 by default) and reference point (0, 0), and satisfies the invariant |
| `PathRecorder.Path.Run` | donkeycar/parts/lidar.py:190-196 | when (x, y) is strictly farther than `min_dist` from the reference point, it is appended and becomes the reference point; otherwise path and reference point are unchanged; the whole path is returned; the spacing invariant is preserved |
| `PathRecorder.SpacingScenario` | donkeycar/parts/lidar.py:184-196 | feeding (0,0), (50,0), (150,0), (151,0), (400,0) with 100 mm spacing records exactly (150,0), (400,0) |
| `PathCte.NearestIndex` | donkeycar/parts/lidar.py:270-277 | when some waypoint is within 1000000 mm, the result is the first index with the minimum distance; otherwise it stays 0; it is a valid index of any non-empty path |
| `PathCte.FirstNearestUnique` | donkeycar/parts/lidar.py:270-277 | at most one index is the first nearest, so the search result depends only on the path and the position |
| `PathCte.NextIndex` | donkeycar/parts/lidar.py:280 | `(i + 1) % n` is a valid index: i + 1, or 0 after the last waypoint |
| `PathCte.PrevIndex` | donkeycar/parts/lidar.py:281 | `(i - 1) % n`, with Python's non-negative remainder, is a valid index: i - 1, or n - 1 before the first waypoint |
| `PathCte.Neighbour` | donkeycar/parts/lidar.py:280-289 | the chosen index is the next or the previous neighbour, is at least as close as both, and is the previous one on a tie |
| `PathCte.ShortPathNeighbour` | donkeycar/parts/lidar.py:280-289 | on a one-waypoint path the segment ends at the closest waypoint itself; on a two-waypoint path it ends at the other waypoint |
| `PathCte.SegmentScenario` | donkeycar/parts/lidar.py:270-289 | for path (0,0), (100,0), (200,0) and position (50,10), index 0 wins the tie and index 1 closes the segment |
| `PathCte.PathCTE.constructor` | donkeycar/parts/lidar.py:264-266 | the calculator keeps a reference to the recorder and starts `i_span` at 0 |
| `PathCte.PathCTE.Run` | donkeycar/parts/lidar.py:268-297 | an empty path ends in a division by zero; any other path yields a cross-track error of 0 (the source raises `NameError` there instead; see "## Left out") |
| `CarRelPathPlotter.Trunc` | donkeycar/parts/lidar.py:233 | `int()` truncates toward zero: the result is within 1 of its argument, on the side of 0 |
| `CarRelPathPlotter.CarRelativeRoundTrip` | donkeycar/parts/lidar.py:225-229 | for cos² + sin² = 1 the world point is recovered from its car-relative coordinates |
| `CarRelPathPlotter.CarRelativeKeepsRange` | donkeycar/parts/lidar.py:225-229 | for cos² + sin² = 1 a waypoint's distance from the car is the same in the car's frame |
| `CarRelPathPlotter.ScaledOffsetInRange` | donkeycar/parts/lidar.py:221-233 | a car-relative coordinate in [-5000, 5000) mm maps to a pixel index in [0, n) along an axis of n > 0 pixels |
| `CarRelPathPlotter.OnImageWithinRange` | donkeycar/parts/lidar.py:221-233 | a car-relative point in [-5000, 5000) mm along both axes lands on a pixel of a non-empty image: column in [0, width), row in [0, height) |
| `CarRelPathPlotter.FarEdgeIsPastImage` | donkeycar/parts/lidar.py:221-233 | a car-relative point at exactly 5000 mm along both axes maps to column `width` and row `height`, one past the last pixel, so the bound of OnImageWithinRange is tight |
| `CarRelPathPlotter.TransformPath` | donkeycar/parts/lidar.py:217-235 | the result has one pixel per waypoint, in order, and pixel i depends only on waypoint i, the car position, the rotation and the image size |

## Left out

- `PathCte.PathCTE.Run`: line 294 calls `closest_pt_on_line`, which the file neither defines nor imports. As written, Python raises a `NameError` there for every non-empty path. The model treats that call as a computation whose result is discarded, as the code does with it, and returns the value of line 297.
- `CarRelPathPlotter.TransformPath`: takes the cosine and sine of `theta` as parameters. The computation of `math.cos`/`math.sin` and all floating-point rounding are not modelled.
- `PathRecorder.Path.Run`: returns the path as a value. Python returns the list object itself, so later appends are visible through it; that aliasing is not modelled.
- `Geometry.SqDist`: `dist` from `donkeycar.utils` is not part of this model, and its floating-point rounding (the square root and the float comparisons `d > self.min_dist`, `d < closest_dist`, `dist_next < dist_prev`) is not modelled. The model compares exact squared Euclidean distances; the bridging lemmas above show these comparisons match comparisons of distances on exact reals, while near a threshold the source's float comparison can differ.
- `Path.save`/`Path.load` (lines 198-204): pickle file I/O. Note that `load` replaces the path but leaves the reference point where it was, so the recorder invariant need not hold after a load.
- `RPLidar` (lines 13-48): a serial-port driver with a polling thread.
- `LidarPlot`, `CarRelPathPlotter.run` and `plot_line` (lines 51-126, 237-256): drawing with PIL.
- `BreezySLAM` (lines 129-153): a wrapper over an external SLAM engine.
- `BreezyMap` and `MapToImage` (lines 157-180): buffer allocation and image conversion.
- `shutdown` methods: they do nothing.
