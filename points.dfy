/**
 A draggable point. Each point keeps its position and a drag session of its
 own: whether a drag is in progress and the offset between the pointer and
 the point captured when the drag began. Pressing the mouse on the point
 starts a drag, moving the mouse while dragging moves the point by the
 pointer's displacement, and releasing the mouse ends the drag.
 */
module Points {
  import opened Canvas

  /** A point's identity: its index in the session's arena of points. */
  type PointId = nat

  /** Position, drag flag and grab offset (pointer minus position). */
  datatype PointState = PointState(pos: Pos, dragging: bool, offset: Pos)

  /** A point as created by a click at (x, y): idle, with a zero offset. */
  function Created(x: int, y: int): PointState {
    PointState(Pos(x, y), false, Pos(0, 0))
  }

  /** mousedown on the point's handle, pointer at (px, py). */
  function Grab(p: PointState, px: int, py: int): PointState {
    p.(dragging := true, offset := Pos(px - p.pos.x, py - p.pos.y))
  }

  /** mousemove anywhere, pointer at (px, py): only a dragging point moves. */
  function Follow(p: PointState, px: int, py: int): PointState {
    if p.dragging then p.(pos := Pos(px - p.offset.x, py - p.offset.y)) else p
  }

  /** mouseup anywhere. */
  function Release(p: PointState): PointState {
    p.(dragging := false)
  }

  /** The point after a series of mousemove events, first to last. */
  function FollowAll(p: PointState, moves: seq<Pos>): PointState
    decreases |moves|
  {
    if moves == [] then p else FollowAll(Follow(p, moves[0].x, moves[0].y), moves[1..])
  }

  /** A new point sits where it was clicked and is not being dragged. */
  lemma CreatedIdle(x: int, y: int)
    ensures Created(x, y).pos == Pos(x, y) && !Created(x, y).dragging
  {
  }

  /** Grabbing starts a drag and does not move the point. */
  lemma GrabKeepsPosition(p: PointState, px: int, py: int)
    ensures Grab(p, px, py).dragging && Grab(p, px, py).pos == p.pos
  {
  }

  /** No jump: a mousemove at the pointer position of the mousedown leaves
      the point where it was. */
  lemma NoJump(p: PointState, px: int, py: int)
    ensures Follow(Grab(p, px, py), px, py) == Grab(p, px, py)
  {
  }

  /** A mousemove changes only the position, and only while dragging. */
  lemma FollowFrame(p: PointState, px: int, py: int)
    ensures Follow(p, px, py).dragging == p.dragging
    ensures Follow(p, px, py).offset == p.offset
    ensures !p.dragging ==> Follow(p, px, py) == p
  {
  }

  /** Releasing ends the drag, keeps the position and offset, and releasing
      again changes nothing. */
  lemma ReleaseIdempotent(p: PointState)
    ensures !Release(p).dragging
    ensures Release(p).pos == p.pos && Release(p).offset == p.offset
    ensures Release(Release(p)) == Release(p)
  {
  }

  /** An idle point ignores any series of mousemove events. */
  lemma {:induction false} IdleIgnoresMoves(p: PointState, moves: seq<Pos>)
    requires !p.dragging
    ensures FollowAll(p, moves) == p
    decreases |moves|
  {
    if moves != [] {
      IdleIgnoresMoves(p, moves[1..]);
    }
  }

  /** While dragging, a series of mousemove events keeps the drag and its
      offset and leaves the point at the last pointer position minus the
      offset. */
  lemma {:induction false} DraggingFollows(p: PointState, moves: seq<Pos>)
    requires p.dragging
    ensures FollowAll(p, moves) ==
      if moves == [] then p
      else p.(pos := Pos(moves[|moves| - 1].x - p.offset.x, moves[|moves| - 1].y - p.offset.y))
    decreases |moves|
  {
    if moves != [] {
      DraggingFollows(Follow(p, moves[0].x, moves[0].y), moves[1..]);
    }
  }

  /** During a drag that began with the pointer at (px, py), the point stays
      in the drag and is displaced from where it was grabbed by exactly the
      pointer's displacement to its last position. */
  lemma DragTracksPointer(p: PointState, px: int, py: int, moves: seq<Pos>)
    ensures FollowAll(Grab(p, px, py), moves).dragging
    ensures FollowAll(Grab(p, px, py), moves).offset == Pos(px - p.pos.x, py - p.pos.y)
    ensures FollowAll(Grab(p, px, py), moves).pos ==
      if moves == [] then p.pos
      else Pos(p.pos.x + moves[|moves| - 1].x - px, p.pos.y + moves[|moves| - 1].y - py)
  {
    DraggingFollows(Grab(p, px, py), moves);
  }
}
