/** The viewport transform that the rebuild step derives from the widget
    size: the unit square is scaled by 90% of the smaller side, centred in
    the widget, with the Y axis pointing up. */
module Viewport {
  import opened Geometry

  function Min(a: int, b: int): int
  {
    if a < b then a else b
  }

  /** Pixel span of the unit square: 0.9 of the smaller widget side. */
  function Span(width: int, height: int): (d: real)
    requires Min(width, height) > 0
    ensures d > 0.0
    ensures d <= 0.9 * width as real && d <= 0.9 * height as real
    ensures d == 0.9 * width as real || d == 0.9 * height as real
  {
    0.9 * Min(width, height) as real
  }

  /** The transform assigned to `scale` for a widget of the given size. */
  function ScaleFor(width: int, height: int): (r: Rect)
    requires Min(width, height) > 0
    ensures r.dx == Span(width, height) && r.dy == -r.dx
  {
    var dx := Span(width, height);
    Rect(-(width as real / dx - 1.0) / 2.0, 1.0 + (height as real / dx - 1.0) / 2.0, dx, -dx)
  }

  /** Site `p` mapped into pixel space by `scale`. */
  function ToPixel(scale: Rect, p: Point): (q: Point)
    ensures scale.dx != 0.0 && scale.dy != 0.0 ==>
      Point(scale.x0 + q.x / scale.dx, scale.y0 + q.y / scale.dy) == p
  {
    Point(scale.Px(p.x), scale.Py(p.y))
  }

  /** Every site mapped into pixel space, index by index. */
  function ToPixels(scale: Rect, ps: seq<Point>): (qs: seq<Point>)
    ensures |qs| == |ps|
    ensures forall i :: 0 <= i < |ps| ==> qs[i] == ToPixel(scale, ps[i])
  {
    seq(|ps|, i requires 0 <= i < |ps| => ToPixel(scale, ps[i]))
  }

  /** Pixel position of unit-square coordinates: a closed form with the offsets cancelled. */
  lemma ScaleForClosedForm(width: int, height: int, x: real, y: real)
    requires Min(width, height) > 0
    ensures ScaleFor(width, height).Px(x) == x * Span(width, height) + (width as real - Span(width, height)) / 2.0
    ensures ScaleFor(width, height).Py(y) == (height as real + Span(width, height)) / 2.0 - y * Span(width, height)
  {
    var dx := Span(width, height);
    var w, h := width as real, height as real;
    var r := ScaleFor(width, height);
    assert (w / dx) * dx == w;
    assert (h / dx) * dx == h;
    calc {
      r.Px(x);
      (x + (w / dx - 1.0) / 2.0) * dx;
      x * dx + ((w / dx) * dx - dx) / 2.0;
      x * dx + (w - dx) / 2.0;
    }
    calc {
      r.Py(y);
      (y - 1.0 - (h / dx - 1.0) / 2.0) * -dx;
      dx - y * dx + ((h / dx) * dx - dx) / 2.0;
      (h + dx) / 2.0 - y * dx;
    }
  }

  /** The unit square is centred: its left and right edges sit an equal
      margin from the widget's sides, and likewise top and bottom, with
      y = 1 at the top. */
  lemma UnitSquareCentred(width: int, height: int)
    requires Min(width, height) > 0
    ensures var r, dx := ScaleFor(width, height), Span(width, height);
      r.Px(0.0) == (width as real - dx) / 2.0 &&
      r.Px(1.0) == (width as real + dx) / 2.0 &&
      r.Py(1.0) == (height as real - dx) / 2.0 &&
      r.Py(0.0) == (height as real + dx) / 2.0 &&
      r.Px(0.0) - 0.0 == width as real - r.Px(1.0) &&
      r.Py(1.0) - 0.0 == height as real - r.Py(0.0)
  {
    ScaleForClosedForm(width, height, 0.0, 0.0);
    ScaleForClosedForm(width, height, 1.0, 1.0);
  }

  /** Every point of the closed unit square lands strictly inside the widget. */
  lemma UnitSquareInsideWidget(width: int, height: int, p: Point)
    requires Min(width, height) > 0
    requires 0.0 <= p.x <= 1.0 && 0.0 <= p.y <= 1.0
    ensures var q := ToPixel(ScaleFor(width, height), p);
      0.0 < q.x < width as real && 0.0 < q.y < height as real
  {
    ColumnInsideWidget(width, height, p.x);
    RowInsideWidget(width, height, p.y);
  }

  lemma ColumnInsideWidget(width: int, height: int, t: real)
    requires Min(width, height) > 0 && 0.0 <= t <= 1.0
    ensures 0.0 < ScaleFor(width, height).Px(t) < width as real
  {
    var dx := Span(width, height);
    ScaleForClosedForm(width, height, t, t);
    PixelOffsetBounds(t, dx);
    CentredOffsetInside(t * dx, dx, width as real);
  }

  lemma RowInsideWidget(width: int, height: int, t: real)
    requires Min(width, height) > 0 && 0.0 <= t <= 1.0
    ensures 0.0 < ScaleFor(width, height).Py(t) < height as real
  {
    var dx := Span(width, height);
    ScaleForClosedForm(width, height, t, t);
    PixelOffsetBounds(t, dx);
    CentredOffsetInside(t * dx, dx, height as real);
  }

  lemma PixelOffsetBounds(t: real, dx: real)
    requires 0.0 <= t <= 1.0 && dx > 0.0
    ensures 0.0 <= t * dx <= dx
  {
  }

  lemma CentredOffsetInside(a: real, dx: real, w: real)
    requires 0.0 <= a <= dx && 0.0 < dx <= 0.9 * w
    ensures 0.0 < a + (w - dx) / 2.0 < w
    ensures 0.0 < (w + dx) / 2.0 - a < w
  {
  }
}
