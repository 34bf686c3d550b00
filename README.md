# Voronoi widget — a Dafny model

This project models the logic of `VoronoiGraph`, a Qt widget that draws the
Voronoi diagram of ten random sites. The diagram itself is built by
Boost.Polygon and is treated as an external function. What is modelled is
the logic around that call:

- **Sites** (`sites.dfy`): `createBasePoints` builds ten sites in the unit
  square. The uniform draws are passed in.
- **Geometry** (`geometry.dfy`): the header's value types `Point` (with
  `get`), `Segment` and `Rect` (`of`, `px`, `py`). `Rect` is the affine map
  from unit-square coordinates to pixels.
- **Viewport** (`viewport.dfy`): the transform that `upscale` assigns to
  `scale` for a given widget size. It is 90% of the smaller side, centred,
  with the Y axis pointing up.
- **Clipping** (`clipping.dfy`): `retrieve_point` and `clip_infinite_edge`.
  They turn an unbounded diagram edge into a two-point line string. Missing
  ends are placed on the perpendicular bisector of the two bordering sites.
  The diagram is seen only as a list of edges: per edge, the cell on each
  side (site index and category) and two optional vertices.
- **Widget** (`widget.dfy`): the class `VoronoiGraph` with the fields the
  program updates in place (`basePoints`, `upscaling`, `scale`, `lastWidth`,
  `points`, the diagram `vd`). Its methods are `upscale`, `paintEvent`,
  `doUpscale` and `keyPressEvent`. A rebuild queued on the Qt event loop is
  counted in a field `pending`. Delivering one is a method of its own.
- **Scenarios** (`scenarios.dfy`): event sequences checked against the
  widget's contracts.

Doubles are modelled as exact reals. The widget size, key text, random draws
and the diagram builder are method arguments. The builder has type
`seq<Point> -> seq<Edge>`. Its contract (`Widget.SoundBuilder`) is the one
the paint pass relies on: every unbounded edge borders two point cells of
distinct input sites.

Where the intended behaviour and the code differ, the model follows the code:

- Only a change of width triggers a rebuild (VoronoiGraph.cpp:155). A
  height-only resize keeps drawing the diagram built for the old height.
  `Scenarios.HeightOnlyChange` shows this.
- A key press queues a rebuild without setting `upscaling`
  (VoronoiGraph.cpp:191-193). So two rebuilds can be queued at once.
  `Scenarios.KeyPressDuringPendingRebuild` shows this. The invariant that
  does hold is "`upscaling` implies at least one queued rebuild" (in
  `VoronoiGraph.Valid`).
- A zero or negative size is meant to give a zero transform. The
  code divides by `0.9 * min(width, height)` (VoronoiGraph.cpp:67-68), so
  the model requires that minimum to be positive. `setMinimumSize(400, 300)`
  (VoronoiGraph.cpp:58) makes this hold in practice.
- Escape calls `QApplication::exit()`, which only asks the event loop to
  stop (VoronoiGraph.cpp:188-190). Execution then continues. The Escape key
  has non-empty text, so it also regenerates the sites. `KeyPress` returns
  the quit request and carries on the same way.

## Model

| member | source | states |
|---|---|---|
| `Geometry.Point.Get` | VoronoiGraph.h:19-21 | the horizontal orientation selects `x`; any other selects `y` |
| `Geometry.SegmentOf` | VoronoiGraph.h:28-29 | the first coordinate pair becomes the start point `p0`, the second the end point `p1` |
| `Geometry.RectOf` | VoronoiGraph.h:35-37 | keeps the origin `(x0, y0)`; origin plus extents gives back the far corner `(x1, y1)` |
| `Geometry.Rect.Px` | VoronoiGraph.h:39-41 | with a non-zero `dx`, `x0 + px(x)/dx` gives back `x`: the horizontal map loses nothing |
| `Geometry.Rect.Py` | VoronoiGraph.h:43-45 | with a non-zero `dy`, `y0 + py(y)/dy` gives back `y`: the vertical map loses nothing |
| `Geometry.OriginMapsToZero` | VoronoiGraph.h:39-45 | `px(x0) == 0` and `py(y0) == 0` |
| `Geometry.AffineDifferences` | VoronoiGraph.h:39-45 | `px(a) - px(b) == (a - b) * dx`, and likewise `py` with `dy` |
| `Geometry.PxStrictlyIncreasing` | VoronoiGraph.h:39-41 | with `dx > 0`, `px` preserves strict order |
| `Geometry.PyStrictlyDecreasing` | VoronoiGraph.h:43-45 | with `dy < 0`, `py` reverses strict order: the Y axis is flipped |
| `Geometry.TransformInvertible` | VoronoiGraph.h:39-45 | with non-zero factors, `x0 + px(x)/dx == x` and `y0 + py(y)/dy == y` |
| `Geometry.TransformInjective` | VoronoiGraph.h:39-45 | with non-zero factors, distinct sites map to distinct pixel sites |
| `Sites.SitesFromInUnitSquare` | VoronoiGraph.cpp:47-54 | valid draws give exactly 10 sites, every coordinate in [0, 1) |
| `Sites.CreateBasePoints` | VoronoiGraph.cpp:47-55 | returns 10 sites in the unit square; site `n` is built from draws `2n` (x) and `2n+1` (y) |
| `Viewport.Span` | VoronoiGraph.cpp:67 | the span is positive, at most 0.9 of each side, and equal to 0.9 of one of them |
| `Viewport.ScaleFor` | VoronoiGraph.cpp:67-68 | horizontal factor is the span, vertical factor its negation |
| `Viewport.ToPixel` | VoronoiGraph.cpp:70 | with non-zero factors, the pixel site maps back to the unit-square site it came from |
| `Viewport.ToPixels` | VoronoiGraph.cpp:69-71 | one pixel site per site, same order, each the transform of the site at its index |
| `Viewport.ScaleForClosedForm` | VoronoiGraph.cpp:67-70 | `px(x) == x*dx + (w - dx)/2` and `py(y) == (h + dx)/2 - y*dx` |
| `Viewport.UnitSquareCentred` | VoronoiGraph.cpp:67-70 | `px(0) == (w-dx)/2`, `px(1) == (w+dx)/2`, `py(1) == (h-dx)/2`, `py(0) == (h+dx)/2`; equal margins on opposite sides |
| `Viewport.UnitSquareInsideWidget` | VoronoiGraph.cpp:67-71 | every point of the closed unit square maps strictly inside `(0, w) x (0, h)` |
| `Clipping.RetrievePoint` | VoronoiGraph.cpp:78-82 | for a single-point cell, the site is the pixel site at the cell's source index |
| `Clipping.Midpoint` | VoronoiGraph.cpp:98-99 | the origin is equally far from each site along each axis |
| `Clipping.Direction` | VoronoiGraph.cpp:100-101 | the quarter-turned difference has the Chebyshev length of `p2 - p1`, and is zero exactly when the sites coincide |
| `Clipping.DirectionPerpendicular` | VoronoiGraph.cpp:100-101 | the direction is orthogonal to `p2 - p1`, and non-zero when the sites differ |
| `Clipping.Koef` | VoronoiGraph.cpp:120-121 | `koef * max(abs(direction.x), abs(direction.y)) == scale.dx` |
| `Clipping.BorderingSites` | VoronoiGraph.cpp:92-97 | the first site is the one at the source index of the edge's own cell, the second the one at the source index of its twin's cell; they differ |
| `Clipping.Tail` | VoronoiGraph.cpp:123-126 | the tail lies on the line through the origin along the direction, and the origin is the midpoint of tail and head |
| `Clipping.Head` | VoronoiGraph.cpp:130-133 | the head lies on the line through the origin along the direction |
| `Clipping.ClipInfiniteEdge` | VoronoiGraph.cpp:91-139 | always two points; a present `vertex0`/`vertex1` is kept at position 0/1 |
| `Clipping.BisectorEquidistant` | VoronoiGraph.cpp:98-101 | every point `origin + direction*t` is equidistant from both sites |
| `Clipping.KoefMagnitude` | VoronoiGraph.cpp:120-133 | both `koef` and `-koef` stretch the direction to Chebyshev length `abs(scale.dx)` |
| `Clipping.StretchedEndpoint` | VoronoiGraph.cpp:123-133 | a point `origin +- direction*koef` lies on the bisector, at Chebyshev distance `abs(side)` from the origin and at least that Euclidean distance |
| `Clipping.ClippedEndpointsOnBisector` | VoronoiGraph.cpp:91-139 | every synthesized end of a clipped edge lies on the bisector at Chebyshev distance `abs(scale.dx)` from the origin; with both ends synthesized, the origin is their midpoint |
| `Clipping.SideOfStretch` | VoronoiGraph.cpp:98-133 | the cross product of `p2 - p1` with `origin + direction*s - p1` is `s` times that of `p2 - p1` with the direction |
| `Clipping.CrossDirectionPositive` | VoronoiGraph.cpp:100-101 | for distinct sites the direction points to the left of the line from `p1` to `p2` (positive cross product) |
| `Clipping.KoefPositive` | VoronoiGraph.cpp:120-121 | a positive `scale.dx` gives a positive `koef` |
| `Clipping.StretchSide` | VoronoiGraph.cpp:123-133 | `origin + direction*s` is left of the line from `p1` to `p2` for positive `s` and right of it for negative `s` |
| `Clipping.ClippedEndpointSides` | VoronoiGraph.cpp:91-139 | with `scale.dx > 0`, seen from the edge's own site towards its twin's, a synthesized `vertex0` lies to the right (`origin - direction*koef`) and a synthesized `vertex1` to the left (`origin + direction*koef`) |
| `Clipping.EdgePolyline` | VoronoiGraph.cpp:170-175 | every edge's line string has two points and keeps each stored vertex in its position |
| `Widget.RenderEdges` | VoronoiGraph.cpp:169-183 | one line string per edge, in order: the two vertices for a finite edge, the clipped stand-in for an unbounded one |
| `Widget.VoronoiGraph.constructor` | VoronoiGraph.cpp:57-61 | a new widget has 10 unit-square sites, `upscaling == false`, `lastWidth == 0`, no pixel sites, no diagram, nothing queued |
| `Widget.VoronoiGraph.Upscale` | VoronoiGraph.cpp:65-76 | sets `scale.dx = 0.9*min(w,h)` and `scale.dy = -scale.dx`; `points[i]` is the transform of `basePoints[i]` for every `i`; the diagram is rebuilt from `points`; `lastWidth = w`; nothing else changes |
| `Widget.VoronoiGraph.Paint` | VoronoiGraph.cpp:152-185 | draws exactly when not `upscaling` and the width equals `lastWidth`, and then draws the sites and every edge's line string; a paint while `upscaling` changes nothing; a stale width sets `upscaling` and queues exactly one rebuild |
| `Widget.VoronoiGraph.DoUpscale` | VoronoiGraph.cpp:200-204 | rebuilds for the size given when it runs, then clears `upscaling` |
| `Widget.VoronoiGraph.DeliverQueuedUpscale` | VoronoiGraph.cpp:157 | the event loop runs one queued rebuild: one fewer queued, the rebuild's effects, and `upscaling ==> pending > 0` kept |
| `Widget.VoronoiGraph.KeyPress` | VoronoiGraph.cpp:187-198 | Escape requests quit; a key with text replaces the sites and queues one rebuild without touching `upscaling` or the cached diagram; a key without text changes nothing |
| `Scenarios.StalePaints` | VoronoiGraph.cpp:152-160 | any non-empty run of paints starting at a stale width draws nothing, leaves exactly one rebuild queued with the gate closed, and keeps the cached diagram |
| `Scenarios.ResizeBurst` | VoronoiGraph.cpp:152-204 | however many paints arrive first, one rebuild is queued; it uses the width current when it runs; the next paint at that width draws the sites rescaled for that size |
| `Scenarios.KeyPressDuringPendingRebuild` | VoronoiGraph.cpp:191-193 | a key press after a stale paint leaves two rebuilds queued; the next paint draws the regenerated sites |
| `Scenarios.ScaleDependsOnHeight` | VoronoiGraph.cpp:67-68 | different heights give different transforms for the same width |
| `Scenarios.HeightOnlyChange` | VoronoiGraph.cpp:155 | after a height-only change, a paint draws the sites placed by the transform built for the old height, which differs from the one for the new height |

## Left out

- Boost.Polygon's `construct_voronoi`, `voronoi_diagram` and the trait
  specializations (VoronoiGraph.cpp:15-38). This is a foreign library. The
  builder is a function argument with the contract `SoundBuilder`.
- Segment sites and curved-edge sampling. This is commented-out code at
  VoronoiGraph.cpp:83-88, 102-119 and 141-150. `voronoi-utils.h` is not part
  of this model.
- The random source (`random_device`, `mt19937_64`, `uniform_real_distribution`).
  The draws are an input, and the only constraint on them is the
  distribution's range [0, 1).
- IEEE `double` behaviour: rounding, NaN and infinities. The `lround`
  conversion to integer pixels in the paint pass is also left out, so a
  `Frame` holds exact coordinates.
- Qt painting: pens, `drawEllipse`, `drawLine`, the window title and
  `update()`. A paint pass returns the `Frame` it would draw.
- The Qt event loop and the queued connection. Queued rebuilds are a
  counter. `DeliverQueuedUpscale` lowers that counter after the rebuild, not
  before it. No other event runs in between, so the two orders are the same.
- Process exit on Escape. `KeyPress` only reports the quit request.
- `resizeEvent` (VoronoiGraph.cpp:206-214) is commented out in the source.
- Clipping.RetrievePoint: the source's `assert` on the cell category is a
  precondition. An out-of-range index is undefined behaviour in the source
  and is also excluded by the precondition.
- Clipping.ClipInfiniteEdge: the division by
  `max(abs(direction.x), abs(direction.y))` needs distinct sites, so that is
  a precondition. The diagram builder's contract supplies it.
- Widget.VoronoiGraph.constructor: the source leaves `scale` uninitialised.
  The model sets it to zero. `Valid` shows it is not read before the first
  rebuild, because there are no edges until then.
