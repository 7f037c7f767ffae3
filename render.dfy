/**
 The renderer. A segment of n points is drawn as one stroked path: a straight
 line (n = 2), a quadratic curve (n = 3) or a cubic Bézier curve (n = 4), all
 starting at the first point; then a second stroked path, the control
 polygon through all n points. A segment of fewer than two points draws
 nothing. A full redraw clears the surface, draws every committed segment in
 commit order and then the in-progress segment if it has two points or more.

 Commands are specified here as functions; what they leave on the surface is
 stated through the Surface interpreter of module Canvas.
 */
module Render {
  import opened Canvas
  import opened Points
  import opened Segments

  /** Every id names a point of the arena. */
  predicate InArena(points: seq<PointState>, ids: seq<PointId>) {
    forall k :: 0 <= k < |ids| ==> ids[k] < |points|
  }

  /** Every segment names only points of the arena. */
  predicate AllInArena(points: seq<PointState>, segs: seq<seq<PointId>>) {
    forall i :: 0 <= i < |segs| ==> InArena(points, segs[i])
  }

  /** The live positions of the points a segment names, read through the
      points' getters at drawing time. */
  function Positions(points: seq<PointState>, ids: seq<PointId>): (ps: seq<Pos>)
    requires InArena(points, ids)
    ensures |ps| == |ids|
  {
    seq(|ids|, k requires 0 <= k < |ids| => points[ids[k]].pos)
  }

  /** The curve call chosen by the number of points; none beyond four. */
  function CurvePrimitive(ps: seq<Pos>): seq<Command>
    requires |ps| >= 2
  {
    if |ps| == 2 then [LineTo(ps[1])]
    else if |ps| == 3 then [QuadTo(ps[1], ps[2])]
    else if |ps| == 4 then [CubicTo(ps[1], ps[2], ps[3])]
    else []
  }

  /** A LineTo for each point, in order: the body of the control-line loop. */
  function LinesThrough(ps: seq<Pos>): seq<Command> {
    seq(|ps|, i requires 0 <= i < |ps| => LineTo(ps[i]))
  }

  /** The first stroked path of a segment: the curve from its first point. */
  function CurvePath(ps: seq<Pos>): seq<Command>
    requires |ps| >= 2
  {
    [BeginPath, MoveTo(ps[0])] + CurvePrimitive(ps) + [Stroke]
  }

  /** The second stroked path of a segment: its control polygon. */
  function PolygonPath(ps: seq<Pos>): seq<Command>
    requires |ps| >= 2
  {
    [BeginPath, MoveTo(ps[0])] + LinesThrough(ps[1..]) + [Stroke]
  }

  /** The calls that draw one segment, by its points' positions. */
  function CurveCommands(ps: seq<Pos>): seq<Command> {
    if |ps| < 2 then [] else CurvePath(ps) + PolygonPath(ps)
  }

  /** The live positions of every segment's points, segment by segment. */
  function Shapes(points: seq<PointState>, segs: seq<seq<PointId>>): (r: seq<seq<Pos>>)
    requires AllInArena(points, segs)
    ensures |r| == |segs|
  {
    seq(|segs|, i requires 0 <= i < |segs| => Positions(points, segs[i]))
  }

  /** The calls that draw a series of segments, given by their points'
      positions, in order. */
  function CommittedCommands(shapes: seq<seq<Pos>>): seq<Command>
    decreases |shapes|
  {
    if shapes == [] then []
    else CommittedCommands(shapes[..|shapes| - 1]) + CurveCommands(shapes[|shapes| - 1])
  }

  /** Drawing the first i + 1 segments is drawing the first i, then segment i. */
  lemma CommittedStep(shapes: seq<seq<Pos>>, i: nat)
    requires i < |shapes|
    ensures CommittedCommands(shapes[..i + 1]) == CommittedCommands(shapes[..i]) + CurveCommands(shapes[i])
  {
    assert shapes[..i + 1][..i] == shapes[..i];
  }

  /** The calls of a full redraw. */
  function Frame(points: seq<PointState>, curves: seq<seq<PointId>>, current: seq<PointId>): seq<Command>
    requires AllInArena(points, curves) && InArena(points, current)
  {
    [Clear] + CommittedCommands(Shapes(points, curves))
    + (if |current| >= 2 then CurveCommands(Positions(points, current)) else [])
  }

  /** What drawing a segment should leave on the surface: its Bézier piece,
      whose control points are exactly the segment's points (none beyond four
      points), then the pieces of its control polygon. */
  function Drawing(ps: seq<Pos>): seq<Piece> {
    if |ps| < 2 then [] else (if |ps| <= 4 then [ps] else []) + Edges(ps)
  }

  /** What a series of segments should leave on the surface, in order. */
  function CommittedDrawing(shapes: seq<seq<Pos>>): seq<Piece>
    decreases |shapes|
  {
    if shapes == [] then []
    else CommittedDrawing(shapes[..|shapes| - 1]) + Drawing(shapes[|shapes| - 1])
  }

  /** What a full redraw should leave on the surface. */
  function Picture(points: seq<PointState>, curves: seq<seq<PointId>>, current: seq<PointId>): seq<Piece>
    requires AllInArena(points, curves) && InArena(points, current)
  {
    CommittedDrawing(Shapes(points, curves)) + Drawing(Positions(points, current))
  }

  /** Dispatch by point count: nothing below two points, then a line, a
      quadratic or a cubic from the first point, each followed by the
      control polygon through all points. */
  lemma CurveDispatch(ps: seq<Pos>)
    ensures |ps| < 2 ==> CurveCommands(ps) == []
    ensures |ps| == 2 ==>
      CurveCommands(ps) ==
        [BeginPath, MoveTo(ps[0]), LineTo(ps[1]), Stroke,
         BeginPath, MoveTo(ps[0]), LineTo(ps[1]), Stroke]
    ensures |ps| == 3 ==>
      CurveCommands(ps) ==
        [BeginPath, MoveTo(ps[0]), QuadTo(ps[1], ps[2]), Stroke,
         BeginPath, MoveTo(ps[0]), LineTo(ps[1]), LineTo(ps[2]), Stroke]
    ensures |ps| == 4 ==>
      CurveCommands(ps) ==
        [BeginPath, MoveTo(ps[0]), CubicTo(ps[1], ps[2], ps[3]), Stroke,
         BeginPath, MoveTo(ps[0]), LineTo(ps[1]), LineTo(ps[2]), LineTo(ps[3]), Stroke]
  {
    if 2 <= |ps| <= 4 {
      var lines := LinesThrough(ps[1..]);
      assert lines[0] == LineTo(ps[1]);
      if |ps| == 2 {
        assert lines == [LineTo(ps[1])];
      } else if |ps| == 3 {
        assert lines == [LineTo(ps[1]), LineTo(ps[2])];
      } else {
        assert lines == [LineTo(ps[1]), LineTo(ps[2]), LineTo(ps[3])];
      }
    }
  }

  /** For n >= 2 points the last n + 2 calls are the control polygon:
      BeginPath, MoveTo the first point, one LineTo to each later point in
      order (n - 1 of them), and Stroke. */
  lemma ControlPolyline(ps: seq<Pos>)
    requires |ps| >= 2
    ensures |CurveCommands(ps)| >= |ps| + 2
    ensures var tail := CurveCommands(ps)[|CurveCommands(ps)| - (|ps| + 2)..];
      && tail[0] == BeginPath && tail[1] == MoveTo(ps[0])
      && (forall i :: 1 <= i < |ps| ==> tail[i + 1] == LineTo(ps[i]))
      && tail[|ps| + 1] == Stroke
  {
    var tail := PolygonPath(ps);
    assert |tail| == |ps| + 2;
    assert CurveCommands(ps)[|CurveCommands(ps)| - (|ps| + 2)..] == tail;
    forall i | 1 <= i < |ps|
      ensures tail[i + 1] == LineTo(ps[i])
    {
      assert tail[i + 1] == LinesThrough(ps[1..])[i - 1];
    }
  }

  /** Drawing the control lines from a path whose last point is known adds
      one straight piece per point and ends at the last point. */
  lemma {:induction false} LinesInk(s: Surface, qs: seq<Pos>)
    requires s.last.Some?
    ensures Run(s, LinesThrough(qs)) ==
      Surface(s.ink, s.path + Edges([s.last.value] + qs), if qs == [] then s.last else Some(qs[|qs| - 1]))
    decreases |qs|
  {
    var lines := LinesThrough(qs);
    if qs == [] {
      assert lines == [];
      assert s.path + Edges([s.last.value]) == s.path;
    } else {
      var s' := Step(s, LineTo(qs[0]));
      assert lines[0] == LineTo(qs[0]);
      assert lines[1..] == LinesThrough(qs[1..]);
      LinesInk(s', qs[1..]);
      var ps := [s.last.value] + qs;
      assert ps[1..] == [qs[0]] + qs[1..];
      assert Edges(ps) == [[s.last.value, qs[0]]] + Edges([qs[0]] + qs[1..]);
      assert qs[1..] != [] ==> qs[1..][|qs[1..]| - 1] == qs[|qs| - 1];
    }
  }

  /** A path begun afresh at p, then run: the standard shape of both stroked
      paths of a segment. */
  lemma FreshPath(s: Surface, p: Pos, body: seq<Command>)
    ensures Run(s, [BeginPath, MoveTo(p)] + body) == Run(Surface(s.ink, [], Some(p)), body)
  {
    var prefix := [BeginPath, MoveTo(p)];
    RunAppend(s, prefix, body);
    assert prefix[1..] == [MoveTo(p)];
    RunOne(Step(s, BeginPath), MoveTo(p));
    assert Run(s, prefix) == Surface(s.ink, [], Some(p));
  }

  /** The curve's own path inks the one Bézier piece whose control points
      are the segment's points (nothing beyond four points). */
  lemma CurveStrokeInk(s: Surface, ps: seq<Pos>)
    requires |ps| >= 2
    ensures Run(s, CurvePath(ps)).ink == s.ink + (if |ps| <= 4 then [ps] else [])
  {
    var prim := CurvePrimitive(ps);
    var a := Surface(s.ink, [], Some(ps[0]));
    AppendAssoc([BeginPath, MoveTo(ps[0])], prim, [Stroke]);
    FreshPath(s, ps[0], prim + [Stroke]);
    RunAppend(a, prim, [Stroke]);
    if |ps| <= 4 {
      RunOne(a, prim[0]);
      assert prim == [prim[0]];
      if |ps| == 2 {
        assert ps == [ps[0], ps[1]];
      } else if |ps| == 3 {
        assert ps == [ps[0], ps[1], ps[2]];
      } else {
        assert ps == [ps[0], ps[1], ps[2], ps[3]];
      }
      assert Run(a, prim).path == [ps];
    } else {
      assert prim == [];
    }
    RunOne(Run(a, prim), Stroke);
  }

  /** The control-line path inks the control polygon of the segment. */
  lemma PolygonInk(s: Surface, ps: seq<Pos>)
    requires |ps| >= 2
    ensures Run(s, PolygonPath(ps)).ink == s.ink + Edges(ps)
  {
    var lines := LinesThrough(ps[1..]);
    var b := Surface(s.ink, [], Some(ps[0]));
    AppendAssoc([BeginPath, MoveTo(ps[0])], lines, [Stroke]);
    FreshPath(s, ps[0], lines + [Stroke]);
    RunAppend(b, lines, [Stroke]);
    LinesInk(b, ps[1..]);
    assert [ps[0]] + ps[1..] == ps;
    RunOne(Run(b, lines), Stroke);
  }

  /** Drawing a segment adds exactly its Drawing to what is already inked. */
  lemma CurveInk(s: Surface, ps: seq<Pos>)
    ensures Run(s, CurveCommands(ps)).ink == s.ink + Drawing(ps)
  {
    if |ps| >= 2 {
      var piece := if |ps| <= 4 then [ps] else [];
      RunAppend(s, CurvePath(ps), PolygonPath(ps));
      CurveStrokeInk(s, ps);
      PolygonInk(Run(s, CurvePath(ps)), ps);
      AppendAssoc(s.ink, piece, Edges(ps));
    }
  }

  /** Inking composes: if a adds da and then b adds db, a + b adds da + db. */
  lemma InkCompose(s: Surface, a: seq<Command>, b: seq<Command>, da: seq<Piece>, db: seq<Piece>)
    requires Run(s, a).ink == s.ink + da
    requires Run(Run(s, a), b).ink == Run(s, a).ink + db
    ensures Run(s, a + b).ink == s.ink + (da + db)
  {
    RunAppend(s, a, b);
  }

  /** Drawing a series of segments adds their drawing. */
  lemma {:induction false} CommittedInk(s: Surface, shapes: seq<seq<Pos>>)
    ensures Run(s, CommittedCommands(shapes)).ink == s.ink + CommittedDrawing(shapes)
    decreases |shapes|
  {
    if shapes != [] {
      var init := shapes[..|shapes| - 1];
      var ps := shapes[|shapes| - 1];
      CommittedInk(s, init);
      CurveInk(Run(s, CommittedCommands(init)), ps);
      InkCompose(s, CommittedCommands(init), CurveCommands(ps), CommittedDrawing(init), Drawing(ps));
    }
  }

  /** A full redraw leaves exactly the Picture on the surface, whatever the
      surface held before: earlier drawing is cleared, not accumulated. */
  lemma FrameInk(s: Surface, points: seq<PointState>, curves: seq<seq<PointId>>, current: seq<PointId>)
    requires AllInArena(points, curves) && InArena(points, current)
    ensures Run(s, Frame(points, curves, current)).ink == Picture(points, curves, current)
  {
    var shapes := Shapes(points, curves);
    var cp := Positions(points, current);
    var committed := CommittedCommands(shapes);
    var tail := if |current| >= 2 then CurveCommands(cp) else [];
    assert tail == CurveCommands(cp);
    var s0 := Step(s, Clear);
    CommittedInk(s0, shapes);
    CurveInk(Run(s0, committed), cp);
    InkCompose(s0, committed, tail, CommittedDrawing(shapes), Drawing(cp));
    AppendAssoc([Clear], committed, tail);
    RunAppend(s, [Clear], committed + tail);
    RunOne(s, Clear);
  }

  /** Redrawing twice with no change in between leaves the same picture as
      redrawing once. */
  lemma RedrawIdempotent(s: Surface, points: seq<PointState>, curves: seq<seq<PointId>>, current: seq<PointId>)
    requires AllInArena(points, curves) && InArena(points, current)
    ensures var f := Frame(points, curves, current);
      Run(Run(s, f), f).ink == Run(s, f).ink
  {
    var f := Frame(points, curves, current);
    FrameInk(s, points, curves, current);
    FrameInk(Run(s, f), points, curves, current);
  }

  /** A committed segment of four points is drawn as one cubic piece through
      its four control points and the three edges of its control polygon. */
  lemma CubicDrawing(ps: seq<Pos>)
    requires |ps| == 4
    ensures Drawing(ps) == [ps, [ps[0], ps[1]], [ps[1], ps[2]], [ps[2], ps[3]]]
  {
    EdgesAt(ps);
  }

  /** Moving point id to q is seen by every segment that names it, at every
      place it names it, and by no other place. */
  lemma MovedPointSeen(points: seq<PointState>, ids: seq<PointId>, id: PointId, q: Pos)
    requires InArena(points, ids) && id < |points|
    ensures var moved := points[id := points[id].(pos := q)];
      InArena(moved, ids) &&
      forall k :: 0 <= k < |ids| ==>
        Positions(moved, ids)[k] == if ids[k] == id then q else Positions(points, ids)[k]
  {
  }

  /** Chained segments are drawn joined, wherever their points have been
      dragged: each committed segment ends where the next one starts, and the
      in-progress segment starts where the last committed one ends. */
  lemma ChainedJoined(points: seq<PointState>, curves: seq<seq<PointId>>, current: seq<PointId>)
    requires Chained(curves, current)
    requires AllInArena(points, curves) && InArena(points, current)
    ensures forall i :: 0 <= i < |curves| - 1 ==>
      Positions(points, curves[i])[3] == Positions(points, curves[i + 1])[0]
    ensures |curves| > 0 ==> Positions(points, curves[|curves| - 1])[3] == Positions(points, current)[0]
  {
  }
}
