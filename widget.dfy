/** The widget itself: the state it keeps between events and the gating
    that decides, on each paint, whether to draw the cached diagram or to
    queue a rebuild. The host's event loop is not modelled; what it
    delivers (the current widget size, key text, the queued rebuild) comes
    in as method arguments, and the rebuild queued through it is a counter
    of pending calls. */
module Widget {
  import opened Geometry
  import opened Sites
  import opened Viewport
  import opened Clipping

  /** The Voronoi construction of the geometry library, seen as a function
      from sites to the edges of their diagram. */
  type Builder = seq<Point> -> seq<Edge>

  /** The library's contract for point-only input: every unbounded edge
      separates two point cells of distinct sites of the input. */
  ghost predicate SoundBuilder(construct: Builder)
  {
    forall ps: seq<Point> :: WellFormedDiagram(ps, construct(ps))
  }

  /** What one paint pass draws: a dot per pixel site and one line string per edge. */
  datatype Frame = Frame(dots: seq<Point>, lines: seq<seq<Point>>)

  /** The edge loop of the paint pass: each edge's line string, in diagram order. */
  method RenderEdges(points: seq<Point>, scale: Rect, edges: seq<Edge>) returns (lines: seq<seq<Point>>)
    requires WellFormedDiagram(points, edges)
    ensures |lines| == |edges|
    ensures forall i :: 0 <= i < |edges| ==> lines[i] == EdgePolyline(points, scale, edges[i])
    ensures forall i :: 0 <= i < |edges| && edges[i].IsFinite() ==>
      lines[i] == [edges[i].vertex0.value, edges[i].vertex1.value]
    ensures forall i :: 0 <= i < |edges| && !edges[i].IsFinite() ==>
      lines[i] == ClipInfiniteEdge(points, scale, edges[i])
  {
    lines := [];
    var i := 0;
    while i < |edges|
      invariant 0 <= i <= |edges|
      invariant |lines| == i
      invariant forall j :: 0 <= j < i ==> lines[j] == EdgePolyline(points, scale, edges[j])
    {
      var linestring: seq<Point>;
      if edges[i].IsFinite() {
        linestring := [edges[i].vertex0.value, edges[i].vertex1.value];
      } else {
        linestring := ClipInfiniteEdge(points, scale, edges[i]);
      }
      lines := lines + [linestring];
      i := i + 1;
    }
  }

  class VoronoiGraph {
    /** Sites in the unit square. */
    var basePoints: seq<Point>
    /** Set by a paint that queued a rebuild, cleared by the rebuild. */
    var upscaling: bool
    /** Unit square to pixels, as of the last rebuild. */
    var scale: Rect
    /** Widget width the cached diagram was built for. */
    var lastWidth: int
    /** `basePoints` in pixel space, as of the last rebuild. */
    var points: seq<Point>
    /** The cached diagram of `points`. */
    var vd: seq<Edge>
    /** Rebuilds queued on the event loop and not yet run. */
    var pending: nat

    ghost predicate Valid()
      reads this
    {
      WellFormedDiagram(points, vd) &&
      |basePoints| == SiteCount &&
      (upscaling ==> pending > 0) &&
      (lastWidth == 0 ==> vd == [] && points == []) &&
      (lastWidth != 0 ==> scale.dx > 0.0 && scale.dy == -scale.dx && |points| == |basePoints|)
    }

    /** A fresh widget: random sites, nothing built yet. The transform is
        left indeterminate by the program; here it is all zero, and it is
        not read before the first rebuild. */
    constructor (draws: seq<real>)
      requires ValidDraws(draws)
      ensures Valid()
      ensures basePoints == SitesFrom(draws) && |basePoints| == SiteCount && InUnitSquare(basePoints)
      ensures !upscaling && lastWidth == 0 && pending == 0
      ensures points == [] && vd == []
    {
      var sites := CreateBasePoints(draws);
      basePoints := sites;
      upscaling := false;
      scale := Rect(0.0, 0.0, 0.0, 0.0);
      lastWidth := 0;
      points := [];
      vd := [];
      pending := 0;
    }

    /** Rebuild for a widget of the given size: new transform, every site
        rescaled index by index, a new diagram, and the width recorded. */
    method Upscale(width: int, height: int, construct: Builder)
      requires Valid() && Min(width, height) > 0 && SoundBuilder(construct)
      modifies this
      ensures Valid()
      ensures scale == ScaleFor(width, height)
      ensures scale.dx == 0.9 * Min(width, height) as real && scale.dy == -scale.dx
      ensures |points| == |basePoints|
      ensures forall i :: 0 <= i < |basePoints| ==>
        points[i] == Point(scale.Px(basePoints[i].x), scale.Py(basePoints[i].y))
      ensures vd == construct(points)
      ensures lastWidth == width
      ensures basePoints == old(basePoints) && upscaling == old(upscaling) && pending == old(pending)
    {
      points := [];
      scale := ScaleFor(width, height);
      var i := 0;
      while i < |basePoints|
        invariant 0 <= i <= |basePoints|
        invariant |points| == i
        invariant forall j :: 0 <= j < i ==> points[j] == ToPixel(scale, basePoints[j])
        invariant scale == ScaleFor(width, height)
        invariant basePoints == old(basePoints) && upscaling == old(upscaling) && pending == old(pending)
      {
        var p := basePoints[i];
        points := points + [Point(scale.Px(p.x), scale.Py(p.y))];
        i := i + 1;
      }
      vd := construct(points);
      lastWidth := width;
    }

    /** A paint request while the widget is `width` pixels wide. Nothing is
        drawn while a rebuild is pending or when the width is stale; the
        latter queues exactly one rebuild. */
    method Paint(width: int) returns (frame: Option<Frame>)
      requires Valid()
      modifies this
      ensures Valid()
      ensures frame.Some? <==> !old(upscaling) && width == old(lastWidth)
      ensures old(upscaling) ==> pending == old(pending) && upscaling
      ensures !old(upscaling) && width != old(lastWidth) ==> upscaling && pending == old(pending) + 1
      ensures !old(upscaling) && width == old(lastWidth) ==> !upscaling && pending == old(pending)
      ensures basePoints == old(basePoints) && scale == old(scale) && lastWidth == old(lastWidth)
      ensures points == old(points) && vd == old(vd)
      ensures frame.Some? ==> frame.value.dots == points && |frame.value.lines| == |vd|
      ensures frame.Some? ==> forall i :: 0 <= i < |vd| ==>
        frame.value.lines[i] == EdgePolyline(points, scale, vd[i])
    {
      if upscaling {
        return None;
      }
      if width != lastWidth {
        upscaling := true;
        pending := pending + 1;
        return None;
      }
      var lines := RenderEdges(points, scale, vd);
      frame := Some(Frame(points, lines));
    }

    /** The queued rebuild: uses the size the widget has when it runs, then
        lifts the paint gate. */
    method DoUpscale(width: int, height: int, construct: Builder)
      requires Valid() && Min(width, height) > 0 && SoundBuilder(construct)
      modifies this
      ensures Valid()
      ensures !upscaling && lastWidth == width
      ensures scale == ScaleFor(width, height) && points == ToPixels(scale, basePoints)
      ensures vd == construct(points)
      ensures basePoints == old(basePoints) && pending == old(pending)
    {
      Upscale(width, height, construct);
      upscaling := false;
    }

    /** One turn of the event loop that runs one queued rebuild. */
    method DeliverQueuedUpscale(width: int, height: int, construct: Builder)
      requires Valid() && pending > 0 && Min(width, height) > 0 && SoundBuilder(construct)
      modifies this
      ensures Valid()
      ensures pending == old(pending) - 1
      ensures !upscaling && lastWidth == width
      ensures scale == ScaleFor(width, height) && points == ToPixels(scale, basePoints)
      ensures vd == construct(points)
      ensures basePoints == old(basePoints)
    {
      DoUpscale(width, height, construct);
      pending := pending - 1;
    }

    /** A key press. Escape asks the application to quit; any key with
        text (Escape included) replaces the sites and queues a rebuild
        without touching the paint gate. */
    method KeyPress(isEscape: bool, text: string, draws: seq<real>) returns (quit: bool, accepted: bool)
      requires Valid()
      requires |text| > 0 ==> ValidDraws(draws)
      modifies this
      ensures Valid()
      ensures quit == isEscape
      ensures accepted == (|text| > 0)
      ensures accepted ==> basePoints == SitesFrom(draws) && pending == old(pending) + 1
      ensures !accepted ==> basePoints == old(basePoints) && pending == old(pending)
      ensures upscaling == old(upscaling) && lastWidth == old(lastWidth) && scale == old(scale)
      ensures points == old(points) && vd == old(vd)
    {
      quit := isEscape;
      accepted := |text| > 0;
      if accepted {
        basePoints := CreateBasePoints(draws);
        pending := pending + 1;
      }
    }
  }
}
