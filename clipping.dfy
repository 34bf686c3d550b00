/** The part of the paint pass that turns an unbounded Voronoi edge into a
    finite two-point polyline. The diagram comes from Boost.Polygon and is
    seen here only through what the widget reads of it: per edge, the cell
    on each side (its site index and category) and the two optional
    vertices. */
module Clipping {
  import opened Geometry

  datatype Option<T> = None | Some(value: T)

  /** Kind of input site a diagram cell was built from. Only single points
      occur, since the widget never passes segment sites. */
  datatype SourceCategory =
    | SinglePoint
    | SegmentStartPoint
    | SegmentEndPoint
    | InitialSegment
    | ReverseSegment

  datatype Cell = Cell(sourceIndex: nat, category: SourceCategory)

  /** A half-edge: its own cell, the cell of its twin, and its vertices
      (absent where the edge runs to infinity). */
  datatype Edge = Edge(cell: Cell, twinCell: Cell, vertex0: Option<Point>, vertex1: Option<Point>) {
    predicate IsFinite()
    {
      vertex0.Some? && vertex1.Some?
    }
  }

  /** A cell the site lookup accepts: built from a single point present in `points`. */
  predicate PointCell(points: seq<Point>, c: Cell)
  {
    c.category == SinglePoint && c.sourceIndex < |points|
  }

  /** The site of a point cell: the pixel site at the cell's source index. */
  function RetrievePoint(points: seq<Point>, c: Cell): (p: Point)
    requires PointCell(points, c)
    ensures p in points && p == points[c.sourceIndex]
  {
    points[c.sourceIndex]
  }

  /** What clipping needs of an edge: both bordering cells are point cells
      of distinct sites. */
  predicate Clippable(points: seq<Point>, e: Edge)
  {
    PointCell(points, e.cell) && PointCell(points, e.twinCell) &&
    RetrievePoint(points, e.cell) != RetrievePoint(points, e.twinCell)
  }

  /** Midpoint of two sites: the origin of their bisector. */
  function Midpoint(p1: Point, p2: Point): (m: Point)
    ensures m.x - p1.x == p2.x - m.x && m.y - p1.y == p2.y - m.y
  {
    Point((p1.x + p2.x) / 2.0, (p1.y + p2.y) / 2.0)
  }

  /** The difference `p2 - p1` turned by a quarter: the bisector's direction. */
  function Direction(p1: Point, p2: Point): (d: Point)
    ensures ChebyshevNorm(d) == ChebyshevDist(p2, p1)
    ensures d == Point(0.0, 0.0) <==> p1 == p2
  {
    Point(p1.y - p2.y, p2.x - p1.x)
  }

  function Abs(v: real): real
  {
    if v < 0.0 then -v else v
  }

  function Max(a: real, b: real): real
  {
    if a < b then b else a
  }

  /** The larger absolute coordinate of a vector (its Chebyshev length). */
  function ChebyshevNorm(v: Point): (n: real)
    ensures n >= 0.0
    ensures n == 0.0 <==> v == Point(0.0, 0.0)
  {
    Max(Abs(v.x), Abs(v.y))
  }

  function ChebyshevDist(a: Point, b: Point): real
  {
    ChebyshevNorm(Point(a.x - b.x, a.y - b.y))
  }

  function DistSq(a: Point, b: Point): real
  {
    (a.x - b.x) * (a.x - b.x) + (a.y - b.y) * (a.y - b.y)
  }

  /** Factor that stretches `direction` to Chebyshev length `side`. */
  function Koef(side: real, direction: Point): (k: real)
    requires direction != Point(0.0, 0.0)
    ensures k * ChebyshevNorm(direction) == side
  {
    side / ChebyshevNorm(direction)
  }

  /** Synthesized tail of an unbounded edge: back along the bisector, the
      mirror image of the head through the origin. */
  function Tail(origin: Point, direction: Point, k: real): (t: Point)
    ensures (t.x - origin.x) * direction.y == (t.y - origin.y) * direction.x
    ensures Midpoint(t, Head(origin, direction, k)) == origin
  {
    Point(origin.x - direction.x * k, origin.y - direction.y * k)
  }

  /** Synthesized head of an unbounded edge: forward along the bisector,
      on the line through the origin in the given direction. */
  function Head(origin: Point, direction: Point, k: real): (h: Point)
    ensures (h.x - origin.x) * direction.y == (h.y - origin.y) * direction.x
  {
    Point(origin.x + direction.x * k, origin.y + direction.y * k)
  }

  /** The two sites bordering an edge: its own cell's first, its twin's second. */
  function BorderingSites(points: seq<Point>, e: Edge): (s: (Point, Point))
    requires Clippable(points, e)
    ensures s.0 == points[e.cell.sourceIndex] && s.1 == points[e.twinCell.sourceIndex]
    ensures s.0 != s.1
  {
    (RetrievePoint(points, e.cell), RetrievePoint(points, e.twinCell))
  }

  /** Finite stand-in for an edge: stored vertices are kept, missing ones are
      placed on the bisector at Chebyshev distance `scale.dx` from the
      midpoint of the two sites. */
  function ClipInfiniteEdge(points: seq<Point>, scale: Rect, e: Edge): (r: seq<Point>)
    requires Clippable(points, e)
    ensures |r| == 2
    ensures e.vertex0.Some? ==> r[0] == e.vertex0.value
    ensures e.vertex1.Some? ==> r[1] == e.vertex1.value
  {
    var (p1, p2) := BorderingSites(points, e);
    var origin, direction := Midpoint(p1, p2), Direction(p1, p2);
    var k := Koef(scale.dx, direction);
    [ if e.vertex0.None? then Tail(origin, direction, k) else e.vertex0.value,
      if e.vertex1.None? then Head(origin, direction, k) else e.vertex1.value ]
  }

  /** The direction is perpendicular to the segment joining the sites, and
      non-zero when they differ. */
  lemma DirectionPerpendicular(p1: Point, p2: Point)
    ensures var d := Direction(p1, p2);
      d.x * (p2.x - p1.x) + d.y * (p2.y - p1.y) == 0.0
    ensures p1 != p2 ==> Direction(p1, p2) != Point(0.0, 0.0)
  {
    var d := Direction(p1, p2);
    assert d.x * (p2.x - p1.x) == (p1.y - p2.y) * (p2.x - p1.x);
    assert d.y * (p2.y - p1.y) == -((p1.y - p2.y) * (p2.x - p1.x));
  }

  /** Difference of squared distances from a point `m + c` to the two
      sites `m - a` and `m + a`: it is four times the product `a . c`. */
  lemma SquareDifference(a: Point, c: Point)
    ensures (a.x + c.x) * (a.x + c.x) + (a.y + c.y) * (a.y + c.y)
          - ((c.x - a.x) * (c.x - a.x) + (c.y - a.y) * (c.y - a.y))
         == 4.0 * (a.x * c.x + a.y * c.y)
  {
  }

  /** Every point reached from the midpoint along the direction is
      equidistant from the two sites: it lies on their perpendicular bisector. */
  lemma BisectorEquidistant(p1: Point, p2: Point, t: real)
    ensures var q := Head(Midpoint(p1, p2), Direction(p1, p2), t);
      DistSq(q, p1) == DistSq(q, p2)
  {
    var m, d := Midpoint(p1, p2), Direction(p1, p2);
    var q := Head(m, d, t);
    var a := Point((p2.x - p1.x) / 2.0, (p2.y - p1.y) / 2.0);
    var c := Point(d.x * t, d.y * t);
    assert q.x - p1.x == a.x + c.x && q.y - p1.y == a.y + c.y;
    assert q.x - p2.x == c.x - a.x && q.y - p2.y == c.y - a.y;
    SquareDifference(a, c);
    DirectionPerpendicular(p1, p2);
    calc {
      a.x * c.x + a.y * c.y;
      (t / 2.0) * (d.x * (p2.x - p1.x) + d.y * (p2.y - p1.y));
      0.0;
    }
  }

  lemma AbsMul(a: real, b: real)
    ensures Abs(a * b) == Abs(a) * Abs(b)
  {
    if a < 0.0 {
      if b < 0.0 { assert a * b == (-a) * (-b); } else { assert -(a * b) == (-a) * b; }
    } else if b < 0.0 {
      assert -(a * b) == a * (-b);
    }
  }

  lemma MulMonotone(c: real, a: real, b: real)
    requires c >= 0.0 && a <= b
    ensures a * c <= b * c
  {
    assert b * c - a * c == (b - a) * c;
  }

  /** Scaling a vector scales its Chebyshev length by the factor's magnitude. */
  lemma ChebyshevScale(v: Point, k: real)
    ensures ChebyshevNorm(Point(v.x * k, v.y * k)) == Abs(k) * ChebyshevNorm(v)
  {
    AbsMul(v.x, k);
    AbsMul(v.y, k);
    ScaledMax(Abs(v.x), Abs(v.y), Abs(k));
  }

  lemma ScaledMax(a: real, b: real, c: real)
    requires c >= 0.0
    ensures Max(a * c, b * c) == c * Max(a, b)
  {
    if a < b {
      MulMonotone(c, a, b);
    } else {
      MulMonotone(c, b, a);
    }
  }

  /** Euclidean distance dominates Chebyshev distance. */
  lemma EuclidAtLeastChebyshev(a: Point, b: Point)
    ensures DistSq(a, b) >= ChebyshevDist(a, b) * ChebyshevDist(a, b)
  {
    var u, v := a.x - b.x, a.y - b.y;
    AbsSquare(u);
    AbsSquare(v);
    if Abs(u) < Abs(v) {
      assert ChebyshevDist(a, b) == Abs(v);
    } else {
      assert ChebyshevDist(a, b) == Abs(u);
    }
  }

  lemma AbsSquare(a: real)
    ensures Abs(a) * Abs(a) == a * a
  {
    if a < 0.0 {
      assert (-a) * (-a) == a * a;
    }
  }

  /** Moving `s` times `direction` away from `origin` covers `|s|` times the
      direction's Chebyshev length. */
  lemma OffsetLength(origin: Point, direction: Point, s: real)
    ensures ChebyshevDist(Head(origin, direction, s), origin) == Abs(s) * ChebyshevNorm(direction)
  {
    var q := Head(origin, direction, s);
    var v := Point(direction.x * s, direction.y * s);
    assert Point(q.x - origin.x, q.y - origin.y) == v;
    ChebyshevScale(direction, s);
  }

  /** Both stretch factors `+-koef` have the magnitude that turns the
      direction's Chebyshev length into `|side|`. */
  lemma KoefMagnitude(side: real, direction: Point, s: real)
    requires direction != Point(0.0, 0.0)
    requires s == Koef(side, direction) || s == -Koef(side, direction)
    ensures Abs(s) * ChebyshevNorm(direction) == Abs(side)
  {
    var k, n := Koef(side, direction), ChebyshevNorm(direction);
    assert k * n == side;
    assert (-k) * n == -side;
  }

  /** What a synthesized endpoint `q` promises: equidistant from both sites,
      `|side|` from their midpoint in Chebyshev distance and at least that
      in Euclidean distance. */
  predicate OnClippedBisector(q: Point, p1: Point, p2: Point, side: real)
  {
    DistSq(q, p1) == DistSq(q, p2) &&
    ChebyshevDist(q, Midpoint(p1, p2)) == Abs(side) &&
    DistSq(q, Midpoint(p1, p2)) >= side * side
  }

  /** A point `origin + direction * s` with `s = +-koef` is `|side|` from the
      origin in Chebyshev distance. */
  lemma StretchedChebyshev(origin: Point, direction: Point, side: real, s: real)
    requires direction != Point(0.0, 0.0)
    requires s == Koef(side, direction) || s == -Koef(side, direction)
    ensures ChebyshevDist(Head(origin, direction, s), origin) == Abs(side)
  {
    KoefMagnitude(side, direction, s);
    OffsetLength(origin, direction, s);
  }

  /** A point at Chebyshev distance `|side|` is at least `|side|` away in
      Euclidean distance. */
  lemma ChebyshevToEuclid(q: Point, origin: Point, side: real)
    requires ChebyshevDist(q, origin) == Abs(side)
    ensures DistSq(q, origin) >= side * side
  {
    EuclidAtLeastChebyshev(q, origin);
    var c := ChebyshevDist(q, origin);
    assert c * c == Abs(side) * Abs(side);
    AbsSquare(side);
  }

  lemma TailIsHeadBackwards(origin: Point, direction: Point, k: real)
    ensures Tail(origin, direction, k) == Head(origin, direction, -k)
  {
    assert direction.x * -k == -(direction.x * k);
    assert direction.y * -k == -(direction.y * k);
  }

  /** Both synthesized candidates `origin -+ direction * koef` of two distinct
      sites satisfy the promise. */
  lemma StretchedEndpoint(p1: Point, p2: Point, side: real, s: real)
    requires p1 != p2
    requires s == Koef(side, Direction(p1, p2)) || s == -Koef(side, Direction(p1, p2))
    ensures OnClippedBisector(Head(Midpoint(p1, p2), Direction(p1, p2), s), p1, p2, side)
  {
    var m, d := Midpoint(p1, p2), Direction(p1, p2);
    var q := Head(m, d, s);
    BisectorEquidistant(p1, p2, s);
    DirectionPerpendicular(p1, p2);
    StretchedChebyshev(m, d, side, s);
    ChebyshevToEuclid(q, m, side);
  }

  /** Each synthesized endpoint of a clipped edge lies on the perpendicular
      bisector of the two bordering sites, at Chebyshev distance `|scale.dx|`
      and at least that Euclidean distance from their midpoint; when both
      ends are synthesized, the sites' midpoint is also the result's. */
  lemma ClippedEndpointsOnBisector(points: seq<Point>, scale: Rect, e: Edge)
    requires Clippable(points, e)
    ensures var r, p1, p2 := ClipInfiniteEdge(points, scale, e), BorderingSites(points, e).0, BorderingSites(points, e).1;
      (e.vertex0.None? ==> OnClippedBisector(r[0], p1, p2, scale.dx)) &&
      (e.vertex1.None? ==> OnClippedBisector(r[1], p1, p2, scale.dx)) &&
      (e.vertex0.None? && e.vertex1.None? ==> Midpoint(r[0], r[1]) == Midpoint(p1, p2))
  {
    var r, p1, p2 := ClipInfiniteEdge(points, scale, e), BorderingSites(points, e).0, BorderingSites(points, e).1;
    var m, d := Midpoint(p1, p2), Direction(p1, p2);
    DirectionPerpendicular(p1, p2);
    var k := Koef(scale.dx, d);
    if e.vertex0.None? {
      assert r[0] == Tail(m, d, k);
      TailIsHeadBackwards(m, d, k);
      StretchedEndpoint(p1, p2, scale.dx, -k);
    }
    if e.vertex1.None? {
      assert r[1] == Head(m, d, k);
      StretchedEndpoint(p1, p2, scale.dx, k);
    }
    if e.vertex0.None? && e.vertex1.None? {
      assert r[0] == Tail(m, d, k) && r[1] == Head(m, d, k);
      assert Midpoint(r[0], r[1]) == m;
    }
  }

  /** Cross product of `u` and `w`: positive when `w` points to the left of `u`. */
  function Cross(u: Point, w: Point): real
  {
    u.x * w.y - u.y * w.x
  }

  /** Seen from `p1` looking towards `p2`, the point `origin + direction * s`
      is off to the left by `s` times the squared distance of the sites. */
  lemma SideOfStretch(p1: Point, p2: Point, s: real)
    ensures var v, q := Point(p2.x - p1.x, p2.y - p1.y), Head(Midpoint(p1, p2), Direction(p1, p2), s);
      Cross(v, Point(q.x - p1.x, q.y - p1.y)) == s * Cross(v, Direction(p1, p2))
  {
    var v, q := Point(p2.x - p1.x, p2.y - p1.y), Head(Midpoint(p1, p2), Direction(p1, p2), s);
    var d := Direction(p1, p2);
    assert d.x == -v.y && d.y == v.x;
    assert q.x - p1.x == v.x / 2.0 + d.x * s;
    assert q.y - p1.y == v.y / 2.0 + d.y * s;
    calc {
      Cross(v, Point(q.x - p1.x, q.y - p1.y));
      v.x * (v.y / 2.0 + v.x * s) - v.y * (v.x / 2.0 - v.y * s);
      s * (v.x * v.x + v.y * v.y);
      s * Cross(v, d);
    }
  }

  lemma MulPositive(a: real, b: real)
    requires a > 0.0 && b > 0.0
    ensures a * b > 0.0
  {
  }

  lemma MulNegative(a: real, b: real)
    requires a < 0.0 && b < 0.0
    ensures a * b > 0.0
  {
    MulPositive(-a, -b);
  }

  /** A product of two equal factors is never negative, and positive when
      they are non-zero. */
  lemma EqualFactors(a: real, b: real)
    requires a == b
    ensures a * b >= 0.0
    ensures a != 0.0 ==> a * b > 0.0
  {
    if a > 0.0 {
      MulPositive(a, b);
    } else if a < 0.0 {
      MulNegative(a, b);
    }
  }

  /** For distinct sites the direction points to the left of the line from
      `p1` to `p2`: their cross product is the squared distance, positive. */
  lemma CrossDirectionPositive(p1: Point, p2: Point)
    requires p1 != p2
    ensures Cross(Point(p2.x - p1.x, p2.y - p1.y), Direction(p1, p2)) > 0.0
  {
    var v, d := Point(p2.x - p1.x, p2.y - p1.y), Direction(p1, p2);
    EqualFactors(v.x, d.y);
    EqualFactors(v.y, -d.x);
    assert v.y * d.x == -(v.y * -d.x);
  }

  /** A product with a positive factor has the sign of the other factor. */
  lemma ProductSign(s: real, n: real, c: real)
    requires n > 0.0 && c == s * n
    ensures s > 0.0 ==> c > 0.0
    ensures s < 0.0 ==> c < 0.0
  {
    if s < 0.0 {
      assert c == -((-s) * n);
    }
  }

  /** A positive side gives a positive stretch factor. */
  lemma KoefPositive(side: real, direction: Point)
    requires direction != Point(0.0, 0.0) && side > 0.0
    ensures Koef(side, direction) > 0.0
  {
    assert Koef(side, direction) * ChebyshevNorm(direction) == side;
  }

  /** For two distinct sites, `origin + direction * s` lies to the left of
      the line from `p1` to `p2` when `s` is positive and to its right when
      `s` is negative. */
  lemma StretchSide(p1: Point, p2: Point, s: real)
    requires p1 != p2
    ensures var v, q := Point(p2.x - p1.x, p2.y - p1.y), Head(Midpoint(p1, p2), Direction(p1, p2), s);
      (s > 0.0 ==> Cross(v, Point(q.x - p1.x, q.y - p1.y)) > 0.0) &&
      (s < 0.0 ==> Cross(v, Point(q.x - p1.x, q.y - p1.y)) < 0.0)
  {
    var v, q := Point(p2.x - p1.x, p2.y - p1.y), Head(Midpoint(p1, p2), Direction(p1, p2), s);
    CrossDirectionPositive(p1, p2);
    SideOfStretch(p1, p2, s);
    ProductSign(s, Cross(v, Direction(p1, p2)), Cross(v, Point(q.x - p1.x, q.y - p1.y)));
  }

  /** The side each synthesized end goes to. Seen from the edge's own site
      towards its twin's, a missing `vertex0` is placed to the right
      (`origin - direction * koef`) and a missing `vertex1` to the left
      (`origin + direction * koef`), so the clipped edge keeps its own cell
      on the same side as the diagram's half-edge. */
  lemma ClippedEndpointSides(points: seq<Point>, scale: Rect, e: Edge)
    requires Clippable(points, e) && scale.dx > 0.0
    ensures var r, p1, p2 := ClipInfiniteEdge(points, scale, e), points[e.cell.sourceIndex], points[e.twinCell.sourceIndex];
      var v := Point(p2.x - p1.x, p2.y - p1.y);
      (e.vertex0.None? ==> Cross(v, Point(r[0].x - p1.x, r[0].y - p1.y)) < 0.0) &&
      (e.vertex1.None? ==> Cross(v, Point(r[1].x - p1.x, r[1].y - p1.y)) > 0.0)
  {
    var p1, p2 := points[e.cell.sourceIndex], points[e.twinCell.sourceIndex];
    var m, d := Midpoint(p1, p2), Direction(p1, p2);
    var k := Koef(scale.dx, d);
    var r := ClipInfiniteEdge(points, scale, e);
    KoefPositive(scale.dx, d);
    if e.vertex0.None? {
      assert r[0] == Tail(m, d, k);
      TailIsHeadBackwards(m, d, k);
      StretchSide(p1, p2, -k);
    }
    if e.vertex1.None? {
      assert r[1] == Head(m, d, k);
      StretchSide(p1, p2, k);
    }
  }

  /** Edges whose unbounded members can all be clipped against `points`:
      the contract the diagram builder meets for point-only input. */
  predicate WellFormedDiagram(points: seq<Point>, edges: seq<Edge>)
  {
    forall i :: 0 <= i < |edges| && !edges[i].IsFinite() ==> Clippable(points, edges[i])
  }

  /** The line string drawn for one edge: its two vertices when finite, the
      clipped stand-in otherwise. */
  function EdgePolyline(points: seq<Point>, scale: Rect, e: Edge): (r: seq<Point>)
    requires e.IsFinite() || Clippable(points, e)
    ensures |r| == 2
    ensures e.vertex0.Some? ==> r[0] == e.vertex0.value
    ensures e.vertex1.Some? ==> r[1] == e.vertex1.value
  {
    if e.IsFinite() then [e.vertex0.value, e.vertex1.value]
    else ClipInfiniteEdge(points, scale, e)
  }
}
