# Bézier curve drawer — a verified model

The program is an interactive curve-drawing page. Each click on the canvas
places a draggable point. The points collect into a segment. When a segment
holds four points it is committed as a cubic Bézier curve, and the next
segment starts from its fourth point, so consecutive curves share a point.
Points can be dragged. Every redraw clears the canvas, draws each committed
segment and then the segment being built, using a line, a quadratic or a
cubic depending on its number of points, and finally the segment's control
polygon.

The model has five modules:

- `Canvas` (canvas.dfy): positions, the drawing calls the program issues
  (`Clear`, `BeginPath`, `MoveTo`, `LineTo`, `QuadTo`, `CubicTo`, `Stroke`) and
  a small interpreter (`Step`, `Run`). The interpreter records which Bézier
  pieces are stroked after the last clear. It follows the HTML canvas
  rules: `clearRect` erases ink but keeps the path, `beginPath` empties the
  path, and `stroke` inks the path without emptying it.
- `Points` (points.dfy): a point's state (position, drag flag, grab offset)
  and its three transitions: `Grab` on mousedown, `Follow` on mousemove and
  `Release` on mouseup.
- `Segments` (segments.dfy): the grouping of points into segments as a closed
  form over the number of clicks (`CurvesAfter`, `CurrentAfter`), plus the
  chaining invariant `Chained`.
- `Render` (render.dfy): the drawing calls for one segment (`CurveCommands`) and
  for a full redraw (`Frame`), both as functions. Also what they leave on the
  surface (`Drawing`, `Picture`).
- `Session` (session.dfy): the class `DrawingSession` holding the program's
  three global arrays. `points` is the arena: a point's id is its index.
  `curves` are the committed segments and `current` is the segment being
  built, both as sequences of point ids. The class's methods are the
  program's functions and event handlers. `DrawCurve` and `DrawAll` keep the
  source's loops and are proved equal to `CurveCommands` and `Frame`.

Coordinates are `int`. `CanvasClick` and `MouseMove` return the drawing
calls they issue, and `[]` when they do not redraw. `MouseDown` and
`MouseUp` never draw and return nothing.

`Session.DragScenario` is a usage example. It clicks once, presses on the
new point, moves the pointer by (10, 10) and releases. Its assertion
follows from the handlers' contracts alone: the point ends up moved by
(10, 10) and no longer dragging.

## Behaviour worth noting

- `drawAll` runs only when a click commits a segment (index.js:26) and on
  each mousemove of a dragging point (index.js:71). No other click
  redraws. At a commit the new in-progress segment holds one point, so the
  in-progress segment is drawn only during a drag. `CanvasClick` states
  both facts.
- The handlers are `mousedown`, `mousemove` and `mouseup` listeners. Every
  point has its own document-wide `mousemove` and `mouseup` listener.
- The in-progress segment holds 0 points only before the first click. After
  any click it holds 1 to 3 points.

## Model

| member | source | states |
|---|---|---|
| `Session.DrawingSession.constructor` | index.js:4-6 | the program starts with no points, no committed curves and an empty in-progress segment, which is the grouping of zero clicks |
| `Session.DrawingSession.AddPoint` | index.js:30-34 | a new idle point at the click position is appended to the arena, and its id (the arena's old length) is appended to the in-progress segment; the committed curves do not change |
| `Session.DrawingSession.CanvasClick` | index.js:15-28 | every click adds exactly one point. If the in-progress segment held 3 points, the completed 4-point segment is appended to the curves, the new in-progress segment is exactly the new point, and the redraw shows only the committed curves. Otherwise the curves are unchanged, the in-progress segment gains the point, and nothing is drawn. The curves only grow by appending, and the state stays chained and equal to the grouping of the clicks so far |
| `Session.DrawingSession.ValidChained` | index.js:22-25 | the session invariant implies that every committed curve has 4 points, that curve i's fourth point is curve i+1's first, that the in-progress segment has at most 3 points and continues from the last curve, and that every id names an existing point |
| `Session.DrawingSession.MouseDown` | index.js:55-60 | only the pressed point changes: it starts dragging and captures the offset pointer − position; the segments do not change |
| `Session.DrawingSession.MouseMove` | index.js:62-73 | if the point is dragging, only its position changes, to pointer − offset, and the full redraw of the new state is issued; if it is idle, nothing changes and nothing is drawn |
| `Session.DrawingSession.MouseUp` | index.js:75-77 | only that point's drag flag changes, to false; the segments do not change |
| `Session.DrawingSession.DrawCurve` | index.js:96-130 | the calls issued for a segment, including the point-by-point control-line loop, are exactly `CurveCommands` of the points' current positions |
| `Session.DrawingSession.DrawAll` | index.js:82-94 | the calls issued are exactly `Frame`: clear, each committed curve in commit order, then the in-progress segment if it has at least 2 points. The method changes no state (it has no modifies clause) |
| `Segments.LayoutStep` | index.js:20-27 | from the grouping after n clicks, click n+1 appends point n to the in-progress segment. That commits the segment (and restarts from point n alone) exactly when it already held 3 points |
| `Segments.LayoutChained` | index.js:22-25 | the grouping after any number of clicks is chained and names only existing points. It loses no point: each is in a committed curve or in the in-progress segment. After any click the in-progress segment has 1 to 3 points |
| `Segments.FourClicks` | index.js:22-25 | three clicks commit nothing. After four clicks there is one curve [0,1,2,3] and the in-progress segment is [3]. A fifth click gives [3,4]. Seven clicks give the curves [0,1,2,3] and [3,4,5,6] and the in-progress segment [6] |
| `Points.CreatedIdle` | index.js:46-53 | a created point sits at its click position and is not dragging |
| `Points.GrabKeepsPosition` | index.js:55-58 | mousedown starts a drag and does not move the point |
| `Points.NoJump` | index.js:55-65 | a mousemove at the same pointer coordinates as the mousedown leaves the point's state unchanged |
| `Points.FollowFrame` | index.js:62-65 | a mousemove never changes the drag flag or the offset, and changes nothing at all when the point is idle |
| `Points.ReleaseIdempotent` | index.js:75-77 | mouseup clears the drag flag, keeps the position and offset, and a second mouseup changes nothing |
| `Points.IdleIgnoresMoves` | index.js:62-63 | an idle point ignores any series of mousemoves |
| `Points.DraggingFollows` | index.js:62-65 | during a drag, any series of mousemoves keeps the flag and offset and leaves the point at the last pointer position minus the offset |
| `Points.DragTracksPointer` | index.js:55-65 | after a drag that began with the pointer at (px, py), the point's displacement equals the pointer's displacement to its last position |
| `Render.MovedPointSeen` | index.js:79 | positions are read live through the getters: after a point moves, every segment that names its id sees the new position at each place it names it, and every other place keeps its position |
| `Render.ChainedJoined` | index.js:24-25 | because points are shared by id, chained segments are drawn joined wherever their points are dragged: each curve's end is the next curve's start, and the last curve's end is the in-progress segment's start |
| `Render.CurveDispatch` | index.js:96-115 | the calls for a segment, by point count: none for fewer than 2 points; for 2, 3 and 4 points, the full call sequence with a line, quadratic or cubic from the first point, followed by the control polygon |
| `Render.ControlPolyline` | index.js:121-129 | for n ≥ 2 points the last n+2 calls are BeginPath, MoveTo(p0), LineTo(p1) … LineTo(pn−1) in order (n−1 lines), then Stroke |
| `Render.LinesInk` | index.js:126-128 | the control-line loop, run from a known last point, adds one straight piece joining each point to the next and ends at the last point |
| `Render.CurveStrokeInk` | index.js:99-119 | the curve path inks exactly one Bézier piece whose control points are the segment's points, in order (2 = line, 3 = quadratic, 4 = cubic), and nothing for more than 4 points |
| `Render.PolygonInk` | index.js:121-129 | the control-line path inks exactly the control polygon: for n points, n−1 straight pieces |
| `Render.CurveInk` | index.js:96-130 | drawing a segment adds exactly its curve piece followed by its control polygon to what the surface already shows |
| `Render.CommittedInk` | index.js:86-88 | drawing the committed curves in order adds their drawings in commit order |
| `Render.FrameInk` | index.js:82-94 | after a full redraw the surface shows exactly the picture of the current state, whatever it showed before |
| `Render.RedrawIdempotent` | index.js:82-83 | two redraws in a row with no change in between leave the same picture as one |
| `Render.CubicDrawing` | index.js:109-114 | a committed 4-point curve is drawn as one cubic piece through its four control points, plus the three edges of its control polygon |
| `Canvas.EdgesAt` | index.js:125-128 | the control polygon of n ≥ 2 points has n−1 pieces, and piece i joins point i to point i+1 |

The functions the table's lemmas are about (`Grab`, `Follow`, `Release`,
`CurvesAfter`, `CurrentAfter`, `CurveCommands`, `Frame`, `Drawing`, `Picture`,
`Step`, `Run`) are definitions. The lemmas and method contracts above carry
the properties. Two more definitions model source state directly:

- `Points.Created` is the state a new point's closure starts in
  (index.js:36, 46-48): the click position, not dragging, zero offset.
- `Render.Positions` models the `getX`/`getY` getters (index.js:79) and every
  `pointsArray[i].getX()`/`getY()` read in `drawCurve` (index.js:99-128). It
  maps a segment's ids to their points' current positions.

## Left out

- DOM: creating and styling each point's handle and tooltip, and the CSS
  `left`/`top` updates at creation and during drags (index.js:37-53,
  66-69). These are visual side effects with no bearing on the state.
- Tooltip text (index.js:43, 70): float-to-string formatting with `toFixed`.
- Canvas sizing and the client-to-canvas conversion in the click handler
  (index.js:9-10, 16-18). `CanvasClick` takes canvas-relative coordinates.
  The mouse handlers take the pointer's client coordinates, as the source
  uses them directly; a drag moves a point relative to where it was grabbed,
  so the difference between the two frames does not matter.
- `strokeStyle` and `lineWidth` (index.js:117-118, 122-123). The picture
  records which pieces are stroked, not their colour or width.
- `preventDefault` on mousedown (index.js:59), a browser-default concern.
- Listener registration and event delivery (index.js:13, 55, 62, 75). Each
  listener is modelled as a method on the point's id. A single document
  `mousemove` or `mouseup` event runs every point's listener in creation
  order; the model does not bundle these into one event method. A caller
  gets that behaviour by calling `MouseMove` or `MouseUp` for each id in
  turn.
- Floating-point coordinates are modelled as `int`. On integer coordinates
  the source's subtractions (index.js:57-58, 64-65) are exact. With
  fractional coordinates, for example under page zoom, a mousedown followed
  by a mousemove at the same pointer position can shift a point by a
  rounding error. The model does not capture this: `Points.NoJump` and the
  exact displacement in `Points.DragTracksPointer` hold for the model's
  `int` coordinates, but the source meets them only up to rounding.
- A lost `mouseup` leaves a point dragging indefinitely. The model keeps
  that behaviour and adds no cancellation.
