/**
 The drawing session: the program's global state and its event handlers.
 `points` holds every point ever created (a point's id is its index, so the
 sequence is the arena segments refer to), `curves` the committed segments
 and `current` the segment being built. Segments hold point ids, so a point
 shared by two segments is one entry of the arena, and moving it is seen by
 both.

 CanvasClick and MouseMove return the drawing calls they issue, and [] when
 they do not redraw. MouseDown and MouseUp never draw and return nothing.
 */
module Session {
  import opened Canvas
  import opened Points
  import opened Segments
  import opened Render

  class DrawingSession {
    var points: seq<PointState>
    var curves: seq<seq<PointId>>
    var current: seq<PointId>

    /** Between events the segments are exactly the grouping of the clicks
        so far (module Segments). */
    ghost predicate Valid()
      reads this
    {
      curves == CurvesAfter(|points|) && current == CurrentAfter(|points|)
    }

    /** The structural consequences of Valid: chaining, and segments that
        name only points of the arena. */
    lemma ValidChained()
      requires Valid()
      ensures Chained(curves, current)
      ensures AllInArena(points, curves) && InArena(points, current)
    {
      LayoutChained(|points|);
    }

    /** The state at startup: no points, no segments. */
    constructor ()
      ensures Valid()
      ensures points == [] && curves == [] && current == []
    {
      points := [];
      curves := [];
      current := [];
    }

    /** A new point at (x, y), appended to the arena and to the segment being built. */
    method AddPoint(x: int, y: int)
      modifies this
      ensures points == old(points) + [Created(x, y)]
      ensures current == old(current) + [|old(points)|]
      ensures curves == old(curves)
    {
      var id := |points|;
      points := points + [Created(x, y)];
      current := current + [id];
    }

    /** A click at canvas position (x, y). It always adds one point. When
        the segment being built reaches four points it is committed, the next
        segment starts from its fourth point (the new one), and the surface
        is redrawn; otherwise nothing is drawn. The redraw of a commit draws
        the committed segments only, since the new in-progress segment holds
        one point: the in-progress segment is drawn only during drags. */
    method CanvasClick(x: int, y: int) returns (drawn: seq<Command>)
      requires Valid()
      modifies this
      ensures Valid() && Chained(curves, current)
      ensures AllInArena(points, curves) && InArena(points, current)
      ensures points == old(points) + [Created(x, y)]
      ensures old(curves) <= curves
      ensures |old(current)| == 3 ==>
        && curves == old(curves) + [old(current) + [|old(points)|]]
        && current == [|old(points)|]
        && drawn == Frame(points, curves, current)
        && drawn == [Clear] + CommittedCommands(Shapes(points, curves))
      ensures |old(current)| != 3 ==>
        && curves == old(curves)
        && current == old(current) + [|old(points)|]
        && drawn == []
    {
      LayoutStep(|points|);
      AddPoint(x, y);
      if |current| == 4 {
        curves := curves + [current];
        current := [current[3]];
        ValidChained();
        drawn := DrawAll();
      } else {
        drawn := [];
        ValidChained();
      }
    }

    /** mousedown on the handle of point id, pointer at (px, py). */
    method MouseDown(id: PointId, px: int, py: int)
      requires Valid() && id < |points|
      modifies this
      ensures Valid()
      ensures points == old(points)[id := Grab(old(points[id]), px, py)]
      ensures curves == old(curves) && current == old(current)
    {
      var p := points[id];
      points := points[id := p.(dragging := true, offset := Pos(px - p.pos.x, py - p.pos.y))];
    }

    /** The mousemove listener of point id, pointer at (px, py): a dragging
        point follows the pointer and the surface is redrawn; an idle point
        changes nothing and draws nothing. */
    method MouseMove(id: PointId, px: int, py: int) returns (drawn: seq<Command>)
      requires Valid() && id < |points|
      modifies this
      ensures Valid()
      ensures points == old(points)[id := Follow(old(points[id]), px, py)]
      ensures curves == old(curves) && current == old(current)
      ensures AllInArena(points, curves) && InArena(points, current)
      ensures drawn == if old(points[id]).dragging then Frame(points, curves, current) else []
    {
      ValidChained();
      if points[id].dragging {
        var p := points[id];
        points := points[id := p.(pos := Pos(px - p.offset.x, py - p.offset.y))];
        ValidChained();
        drawn := DrawAll();
      } else {
        drawn := [];
      }
    }

    /** The mouseup listener of point id. */
    method MouseUp(id: PointId)
      requires Valid() && id < |points|
      modifies this
      ensures Valid()
      ensures points == old(points)[id := Release(old(points[id]))]
      ensures curves == old(curves) && current == old(current)
    {
      points := points[id := points[id].(dragging := false)];
    }

    /** Draw one segment from its points' current positions: the curve path,
        then the control polygon built point by point. */
    method DrawCurve(ids: seq<PointId>) returns (cmds: seq<Command>)
      requires InArena(points, ids)
      ensures cmds == CurveCommands(Positions(points, ids))
    {
      if |ids| < 2 {
        return [];
      }
      ghost var ps := Positions(points, ids);
      var first := points[ids[0]].pos;
      cmds := [BeginPath, MoveTo(first)];
      if |ids| == 2 {
        cmds := cmds + [LineTo(points[ids[1]].pos)];
      } else if |ids| == 3 {
        cmds := cmds + [QuadTo(points[ids[1]].pos, points[ids[2]].pos)];
      } else if |ids| == 4 {
        cmds := cmds + [CubicTo(points[ids[1]].pos, points[ids[2]].pos, points[ids[3]].pos)];
      }
      cmds := cmds + [Stroke];
      ghost var curve := cmds;
      assert curve == CurvePath(ps);
      var start := [BeginPath, MoveTo(first)];
      cmds := cmds + start;
      var i := 1;
      while i < |ids|
        invariant 1 <= i <= |ids|
        invariant cmds == curve + (start + LinesThrough(ps[1..i]))
      {
        var line := LineTo(points[ids[i]].pos);
        assert LinesThrough(ps[1..i + 1]) == LinesThrough(ps[1..i]) + [line];
        AppendAssoc(start, LinesThrough(ps[1..i]), [line]);
        AppendAssoc(curve, start + LinesThrough(ps[1..i]), [line]);
        cmds := cmds + [line];
        i := i + 1;
      }
      assert ps[1..i] == ps[1..];
      AppendAssoc(curve, start + LinesThrough(ps[1..]), [Stroke]);
      cmds := cmds + [Stroke];
    }

    /** Full redraw: clear, each committed segment in commit order, then the
        segment being built if it has at least two points. Changes nothing. */
    method DrawAll() returns (cmds: seq<Command>)
      requires AllInArena(points, curves) && InArena(points, current)
      ensures cmds == Frame(points, curves, current)
    {
      ghost var shapes := Shapes(points, curves);
      cmds := [Clear];
      var i := 0;
      while i < |curves|
        invariant 0 <= i <= |curves|
        invariant cmds == [Clear] + CommittedCommands(shapes[..i])
      {
        var c := DrawCurve(curves[i]);
        CommittedStep(shapes, i);
        AppendAssoc([Clear], CommittedCommands(shapes[..i]), c);
        cmds := cmds + c;
        i := i + 1;
      }
      assert shapes[..i] == shapes;
      if |current| >= 2 {
        var c := DrawCurve(current);
        cmds := cmds + c;
      }
    }
  }

  /** Pressing on a point and moving the pointer by (10, 10) moves the point
      by (10, 10); releasing ends the drag where the point is. */
  method DragScenario() {
    var s := new DrawingSession();
    var d := s.CanvasClick(10, 10);
    s.MouseDown(0, 10, 10);
    d := s.MouseMove(0, 20, 20);
    s.MouseUp(0);
    assert s.points == [PointState(Pos(20, 20), false, Pos(0, 0))];
  }
}
