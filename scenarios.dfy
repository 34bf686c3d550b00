/** Event sequences run against the widget's contracts alone, showing how
    the paint gate behaves as the program is written. */
module Scenarios {
  import opened Geometry
  import opened Sites
  import opened Viewport
  import opened Clipping
  import opened Widget

  /** Any number of paints at changing widths before the rebuild runs: the
      first queues a rebuild and closes the gate, the rest draw nothing and
      queue nothing, and the cached diagram is left as it was. */
  method StalePaints(g: VoronoiGraph, widths: seq<int>) returns (frames: seq<Option<Frame>>)
    requires g.Valid() && !g.upscaling && g.pending == 0
    requires |widths| > 0 && widths[0] != g.lastWidth
    modifies g
    ensures g.Valid() && g.upscaling && g.pending == 1
    ensures |frames| == |widths| && forall i :: 0 <= i < |frames| ==> frames[i].None?
    ensures g.basePoints == old(g.basePoints) && g.scale == old(g.scale) && g.lastWidth == old(g.lastWidth)
    ensures g.points == old(g.points) && g.vd == old(g.vd)
  {
    frames := [];
    var i := 0;
    while i < |widths|
      invariant 0 <= i <= |widths|
      invariant g.Valid()
      invariant i == 0 ==> !g.upscaling && g.pending == 0
      invariant i > 0 ==> g.upscaling && g.pending == 1
      invariant |frames| == i && forall j :: 0 <= j < i ==> frames[j].None?
      invariant g.basePoints == old(g.basePoints) && g.scale == old(g.scale) && g.lastWidth == old(g.lastWidth)
      invariant g.points == old(g.points) && g.vd == old(g.vd)
    {
      var frame := g.Paint(widths[i]);
      frames := frames + [frame];
      i := i + 1;
    }
  }

  /** A burst of resizes: however many paints arrive while the rebuild is
      queued, exactly one rebuild is queued; it uses the width current when
      it runs (not the one that triggered it), and the next paint at that
      width draws the rebuilt diagram. */
  method ResizeBurst(g: VoronoiGraph, widths: seq<int>, w: int, h: int, construct: Builder)
    returns (queued: nat, stale: seq<Option<Frame>>, last: Option<Frame>)
    requires g.Valid() && !g.upscaling && g.pending == 0
    requires |widths| > 0 && widths[0] != g.lastWidth
    requires Min(w, h) > 0 && SoundBuilder(construct)
    modifies g
    ensures queued == 1
    ensures |stale| == |widths| && forall i :: 0 <= i < |stale| ==> stale[i].None?
    ensures g.Valid() && g.pending == 0 && !g.upscaling
    ensures g.lastWidth == w && g.scale == ScaleFor(w, h) && g.vd == construct(g.points)
    ensures last.Some? && last.value.dots == ToPixels(ScaleFor(w, h), g.basePoints)
  {
    stale := StalePaints(g, widths);
    queued := g.pending;
    g.DeliverQueuedUpscale(w, h, construct);
    last := g.Paint(w);
  }

  /** A key press while a rebuild is already queued adds a second one: the
      program does not keep rebuilds to one in flight. The gate opens after
      the first, and the paint that follows draws the regenerated sites. */
  method KeyPressDuringPendingRebuild(g: VoronoiGraph, w: int, h: int, text: string, draws: seq<real>, construct: Builder)
    returns (queued: nat, afterFirst: nat, drawn: Option<Frame>)
    requires g.Valid() && !g.upscaling && g.pending == 0 && w != g.lastWidth
    requires |text| > 0 && ValidDraws(draws)
    requires Min(w, h) > 0 && SoundBuilder(construct)
    modifies g
    ensures queued == 2
    ensures afterFirst == 1
    ensures drawn.Some? && g.pending == 1 && !g.upscaling
    ensures g.basePoints == SitesFrom(draws)
    ensures drawn.value.dots == ToPixels(ScaleFor(w, h), SitesFrom(draws))
  {
    var none := g.Paint(w);
    var quit, accepted := g.KeyPress(false, text, draws);
    queued := g.pending;
    g.DeliverQueuedUpscale(w, h, construct);
    afterFirst := g.pending;
    drawn := g.Paint(w);
  }

  /** The rebuilt transform depends on the height as well as the width. */
  lemma ScaleDependsOnHeight(width: int, h1: int, h2: int)
    requires Min(width, h1) > 0 && Min(width, h2) > 0 && h1 != h2
    ensures ScaleFor(width, h1) != ScaleFor(width, h2)
  {
    ScaleForClosedForm(width, h1, 0.0, 0.0);
    ScaleForClosedForm(width, h2, 0.0, 0.0);
    if Span(width, h1) == Span(width, h2) {
      assert ScaleFor(width, h1).Py(0.0) != ScaleFor(width, h2).Py(0.0);
    }
  }

  /** After a rebuild for `width` x `h1`, a paint at the same width draws
      even though the widget is now `h2` tall: the diagram keeps the
      transform built for `h1`, which differs from the one for `h2`. */
  method HeightOnlyChange(g: VoronoiGraph, width: int, h1: int, h2: int, construct: Builder)
    returns (drawn: Option<Frame>)
    requires g.Valid() && g.pending > 0
    requires Min(width, h1) > 0 && Min(width, h2) > 0 && h1 != h2 && SoundBuilder(construct)
    modifies g
    ensures drawn.Some? && drawn.value.dots == ToPixels(ScaleFor(width, h1), g.basePoints)
    ensures g.scale == ScaleFor(width, h1) && g.scale != ScaleFor(width, h2)
  {
    g.DeliverQueuedUpscale(width, h1, construct);
    drawn := g.Paint(width);
    ScaleDependsOnHeight(width, h1, h2);
  }
}
