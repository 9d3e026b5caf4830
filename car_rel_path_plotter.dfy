/** The car-relative path projection (`CarRelPathPlotter.transform_path` in
    donkeycar/parts/lidar.py): every waypoint is moved into the car's frame and scaled
    into the pixel space of an image that has the car at its centre. The cosine and
    sine of the heading are parameters here. */
module CarRelPathPlotter {
  import opened Geometry

  /** A pixel position `(int(px), int(py))`. */
  datatype Pixel = Pixel(col: int, row: int)

  /** The car-relative distance, in mm, that reaches the edge of the image. */
  const MaxDist: real := 5000.0

  /** Python's `int()` on a number: truncation toward zero. */
  function Trunc(r: real): (t: int)
    ensures 0.0 <= r ==> 0 <= t && t as real <= r < t as real + 1.0
    ensures r < 0.0 ==> t <= 0 && t as real - 1.0 < r <= t as real
  {
    if r >= 0.0 then r.Floor else -((-r).Floor)
  }

  /** Waypoint p in car-relative coordinates: translated by the car position (x, y),
      then rotated by the angle whose cosine and sine are cosTh and sinTh. */
  function CarRelative(p: Point, x: real, y: real, cosTh: real, sinTh: real): (t: Point)
  {
    var dx, dy := p.x - x, p.y - y;
    Point(dx * cosTh - dy * sinTh, dx * sinTh + dy * cosTh)
  }

  /** The inverse of CarRelative: back from the car's frame to the world frame. */
  function WorldPoint(t: Point, x: real, y: real, cosTh: real, sinTh: real): (p: Point)
  {
    Point(x + t.x * cosTh + t.y * sinTh, y - t.x * sinTh + t.y * cosTh)
  }

  /** Car-relative coordinates scaled so that MaxDist reaches the image edge, offset to
      the image centre (cx, cy), and truncated to whole pixels. */
  function ToPixel(t: Point, cx: real, cy: real): (px: Pixel)
  {
    Pixel(Trunc(t.x / MaxDist * cx + cx), Trunc(t.y / MaxDist * cy + cy))
  }

  /** The pixel that waypoint p is drawn at, for a car at (x, y) and an image of the
      given size. */
  function PixelOf(p: Point, x: real, y: real, cosTh: real, sinTh: real, width: nat, height: nat): (px: Pixel)
  {
    ToPixel(CarRelative(p, x, y, cosTh, sinTh), width as real / 2.0, height as real / 2.0)
  }

  /** For a true rotation (cos² + sin² = 1), moving into the car's frame can be undone. */
  lemma {:induction false} CarRelativeRoundTrip(p: Point, x: real, y: real, cosTh: real, sinTh: real)
    requires cosTh * cosTh + sinTh * sinTh == 1.0
    ensures WorldPoint(CarRelative(p, x, y, cosTh, sinTh), x, y, cosTh, sinTh) == p
  {
    var dx, dy := p.x - x, p.y - y;
    var t := CarRelative(p, x, y, cosTh, sinTh);
    calc {
      t.x * cosTh + t.y * sinTh;
      (dx * cosTh - dy * sinTh) * cosTh + (dx * sinTh + dy * cosTh) * sinTh;
      dx * (cosTh * cosTh + sinTh * sinTh);
      dx;
    }
    calc {
      t.y * cosTh - t.x * sinTh;
      (dx * sinTh + dy * cosTh) * cosTh - (dx * cosTh - dy * sinTh) * sinTh;
      dy * (cosTh * cosTh + sinTh * sinTh);
      dy;
    }
  }

  /** For a true rotation, a waypoint keeps its distance from the car in the car's frame. */
  lemma {:induction false} CarRelativeKeepsRange(p: Point, x: real, y: real, cosTh: real, sinTh: real)
    requires cosTh * cosTh + sinTh * sinTh == 1.0
    ensures SqDist(CarRelative(p, x, y, cosTh, sinTh), Origin) == SqDist(p, Point(x, y))
  {
    var dx, dy := p.x - x, p.y - y;
    var t := CarRelative(p, x, y, cosTh, sinTh);
    calc {
      t.x * t.x + t.y * t.y;
      (dx * cosTh - dy * sinTh) * (dx * cosTh - dy * sinTh) + (dx * sinTh + dy * cosTh) * (dx * sinTh + dy * cosTh);
      (dx * dx + dy * dy) * (cosTh * cosTh + sinTh * sinTh);
      dx * dx + dy * dy;
    }
  }

  /** A car-relative point less than MaxDist from the car along either axis (the far
      edge MaxDist itself excluded) is drawn on a pixel of the image: column in
      [0, width) and row in [0, height). */
  lemma OnImageWithinRange(t: Point, width: nat, height: nat)
    requires width > 0 && height > 0
    requires -MaxDist <= t.x < MaxDist && -MaxDist <= t.y < MaxDist
    ensures 0 <= ToPixel(t, width as real / 2.0, height as real / 2.0).col < width
    ensures 0 <= ToPixel(t, width as real / 2.0, height as real / 2.0).row < height
  {
    var px := ToPixel(t, width as real / 2.0, height as real / 2.0);
    ScaledOffsetInRange(t.x, width);
    assert 0 <= px.col < width;
    ScaledOffsetInRange(t.y, height);
    assert 0 <= px.row < height;
  }

  /** A car-relative point at exactly MaxDist along both axes is drawn at column
      `width` and row `height`, one past the last pixel of each axis. */
  lemma FarEdgeIsPastImage(width: nat, height: nat)
    ensures ToPixel(Point(MaxDist, MaxDist), width as real / 2.0, height as real / 2.0) == Pixel(width, height)
  {
    var cx, cy := width as real / 2.0, height as real / 2.0;
    assert MaxDist / MaxDist * cx + cx == width as real;
    assert MaxDist / MaxDist * cy + cy == height as real;
  }

  /** A coordinate in [-MaxDist, MaxDist) lands on a pixel index in [0, n) along an axis
      of n > 0 pixels. */
  lemma ScaledOffsetInRange(v: real, n: nat)
    requires n > 0
    requires -MaxDist <= v < MaxDist
    ensures 0 <= Trunc(v / MaxDist * (n as real / 2.0) + n as real / 2.0) < n
  {
    var c := n as real / 2.0;
    var s := v / MaxDist;
    assert -1.0 <= s < 1.0;
    var sc := s * c;
    assert -c <= sc < c by {
      assert (s + 1.0) * c >= 0.0;
      assert (1.0 - s) * c > 0.0;
    }
    var w := sc + c;
    assert 0.0 <= w < n as real;
    assert Trunc(w) as real < n as real;
  }

  /** Maps every waypoint of path to its pixel, in order (the `for` loop building
      `tm_path`). */
  method TransformPath(x: real, y: real, cosTh: real, sinTh: real, path: seq<Point>, width: nat, height: nat)
    returns (tmPath: seq<Pixel>)
    ensures |tmPath| == |path|
    ensures forall i :: 0 <= i < |path| ==> tmPath[i] == PixelOf(path[i], x, y, cosTh, sinTh, width, height)
  {
    tmPath := [];
    var cx := width as real / 2.0;
    var cy := height as real / 2.0;
    for i := 0 to |path|
      invariant |tmPath| == i
      invariant forall j :: 0 <= j < i ==> tmPath[j] == PixelOf(path[j], x, y, cosTh, sinTh, width, height)
    {
      var t := CarRelative(path[i], x, y, cosTh, sinTh);
      tmPath := tmPath + [ToPixel(t, cx, cy)];
    }
  }
}
