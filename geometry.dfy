/** Plain value types of the widget header: points, segments and the
    axis-aligned transform `Rect` that maps unit-square coordinates to
    pixels. Coordinates are `double` in the program; here they are exact
    reals, so the affine algebra below holds without rounding. */
module Geometry {

  /** Boost.Polygon's orientation selector for a point coordinate. */
  datatype Orientation = Horizontal | Vertical

  datatype Point = Point(x: real, y: real) {

    /** Coordinate selected by an orientation: `x` for horizontal, `y` otherwise. */
    function Get(orient: Orientation): (c: real)
      ensures orient == Horizontal ==> c == x
      ensures orient != Horizontal ==> c == y
    {
      if orient == Horizontal then x else y
    }
  }

  datatype Segment = Segment(p0: Point, p1: Point)

  /** The four-coordinate segment constructor: first pair is the start, second the end. */
  function SegmentOf(x1: real, y1: real, x2: real, y2: real): (s: Segment)
    ensures s.p0.Get(Horizontal) == x1 && s.p0.Get(Vertical) == y1
    ensures s.p1.Get(Horizontal) == x2 && s.p1.Get(Vertical) == y2
  {
    Segment(Point(x1, y1), Point(x2, y2))
  }

  /** Origin `(x0, y0)` and per-axis factors `dx`, `dy`. */
  datatype Rect = Rect(x0: real, y0: real, dx: real, dy: real) {

    /** Horizontal pixel coordinate; a non-zero factor makes it reversible. */
    function Px(x: real): (p: real)
      ensures dx != 0.0 ==> x0 + p / dx == x
    {
      (x - x0) * dx
    }

    /** Vertical pixel coordinate; a non-zero factor makes it reversible. */
    function Py(y: real): (p: real)
      ensures dy != 0.0 ==> y0 + p / dy == y
    {
      (y - y0) * dy
    }
  }

  /** The rectangle spanned by corner `(x0, y0)` and far corner `(x1, y1)`. */
  function RectOf(x0: real, y0: real, x1: real, y1: real): (r: Rect)
    ensures r.x0 == x0 && r.y0 == y0
    ensures r.x0 + r.dx == x1 && r.y0 + r.dy == y1
  {
    Rect(x0, y0, x1 - x0, y1 - y0)
  }

  /** The origin of a transform maps to pixel zero on both axes. */
  lemma OriginMapsToZero(r: Rect)
    ensures r.Px(r.x0) == 0.0 && r.Py(r.y0) == 0.0
  {
  }

  /** `Px` and `Py` are affine: differences scale by `dx` and `dy`. */
  lemma AffineDifferences(r: Rect, a: real, b: real)
    ensures r.Px(a) - r.Px(b) == (a - b) * r.dx
    ensures r.Py(a) - r.Py(b) == (a - b) * r.dy
  {
    assert r.Px(a) - r.Px(b) == (a - r.x0) * r.dx - (b - r.x0) * r.dx;
    assert r.Py(a) - r.Py(b) == (a - r.y0) * r.dy - (b - r.y0) * r.dy;
  }

  /** A positive horizontal factor keeps left-to-right order. */
  lemma PxStrictlyIncreasing(r: Rect, a: real, b: real)
    requires r.dx > 0.0 && a < b
    ensures r.Px(a) < r.Px(b)
  {
    AffineDifferences(r, b, a);
    assert (b - a) * r.dx > 0.0;
  }

  /** A negative vertical factor (as the viewport sets it) flips the Y axis. */
  lemma PyStrictlyDecreasing(r: Rect, a: real, b: real)
    requires r.dy < 0.0 && a < b
    ensures r.Py(a) > r.Py(b)
  {
    AffineDifferences(r, b, a);
    assert (b - a) * (-r.dy) > 0.0;
  }

  /** With non-zero factors the transform can be undone: it loses no information. */
  lemma TransformInvertible(r: Rect, x: real, y: real)
    requires r.dx != 0.0 && r.dy != 0.0
    ensures r.x0 + r.Px(x) / r.dx == x
    ensures r.y0 + r.Py(y) / r.dy == y
  {
  }

  /** Distinct unit-square points stay distinct in pixel space when both factors are non-zero. */
  lemma TransformInjective(r: Rect, p: Point, q: Point)
    requires r.dx != 0.0 && r.dy != 0.0 && p != q
    ensures Point(r.Px(p.x), r.Py(p.y)) != Point(r.Px(q.x), r.Py(q.y))
  {
    TransformInvertible(r, p.x, p.y);
    TransformInvertible(r, q.x, q.y);
  }
}
