/**
 The 2D drawing surface the renderer talks to, reduced to the calls the program
 issues (clearRect, beginPath, moveTo, lineTo, quadraticCurveTo, bezierCurveTo,
 stroke) and to what those calls leave on the surface: the Bézier pieces that
 have been stroked since the surface was last cleared.
 */
module Canvas {

  /** A position on the surface, in canvas pixels. */
  datatype Pos = Pos(x: int, y: int)

  datatype Option<T> = None | Some(value: T)

  /** One call on the 2D context. */
  datatype Command =
    | Clear                              // clearRect over the whole surface
    | BeginPath
    | MoveTo(p: Pos)
    | LineTo(p: Pos)
    | QuadTo(c: Pos, p: Pos)             // quadraticCurveTo: control point, end point
    | CubicTo(c1: Pos, c2: Pos, p: Pos)  // bezierCurveTo: two control points, end point
    | Stroke

  /** A Bézier piece given by its control points, first to last:
      two for a straight line, three for a quadratic, four for a cubic. */
  type Piece = seq<Pos>

  /** What the surface holds: the pieces stroked since the last clear, the
      pieces of the current path, and the path's last point (None when the
      path has no subpath yet). */
  datatype Surface = Surface(ink: seq<Piece>, path: seq<Piece>, last: Option<Pos>)

  /** The first point of a new piece: the path's last point, or the given
      point when the path has no subpath yet. */
  function From(s: Surface, p: Pos): Pos {
    if s.last.Some? then s.last.value else p
  }

  /** The effect of one call. Clearing erases the ink but keeps the path;
      stroking inks the path without discarding it. */
  function Step(s: Surface, cmd: Command): Surface {
    match cmd
    case Clear => s.(ink := [])
    case BeginPath => s.(path := [], last := None)
    case MoveTo(p) => s.(last := Some(p))
    case LineTo(p) =>
      if s.last.None? then s.(last := Some(p))
      else s.(path := s.path + [[s.last.value, p]], last := Some(p))
    case QuadTo(c, p) => s.(path := s.path + [[From(s, c), c, p]], last := Some(p))
    case CubicTo(c1, c2, p) => s.(path := s.path + [[From(s, c1), c1, c2, p]], last := Some(p))
    case Stroke => s.(ink := s.ink + s.path)
  }

  /** The effect of a sequence of calls, first to last. */
  function Run(s: Surface, cmds: seq<Command>): Surface
    decreases |cmds|
  {
    if cmds == [] then s else Run(Step(s, cmds[0]), cmds[1..])
  }

  /** The straight pieces joining consecutive points: the control polygon. */
  function Edges(ps: seq<Pos>): seq<Piece>
    decreases |ps|
  {
    if |ps| < 2 then [] else [[ps[0], ps[1]]] + Edges(ps[1..])
  }

  /** Running two batches of calls is running the first, then the second. */
  lemma {:induction false} RunAppend(s: Surface, a: seq<Command>, b: seq<Command>)
    ensures Run(s, a + b) == Run(Run(s, a), b)
    decreases |a|
  {
    if a == [] {
      assert a + b == b;
    } else {
      assert (a + b)[0] == a[0];
      assert (a + b)[1..] == a[1..] + b;
      RunAppend(Step(s, a[0]), a[1..], b);
    }
  }

  /** Appending is associative (stated once, for any element type). */
  lemma AppendAssoc<T>(a: seq<T>, b: seq<T>, c: seq<T>)
    ensures (a + b) + c == a + (b + c)
  {
  }

  /** A single call runs as one step. */
  lemma RunOne(s: Surface, c: Command)
    ensures Run(s, [c]) == Step(s, c)
  {
    assert [c][1..] == [];
  }

  /** The control polygon of n >= 2 points has n - 1 pieces, the i-th joining
      point i to point i + 1. */
  lemma {:induction false} EdgesAt(ps: seq<Pos>)
    ensures |Edges(ps)| == if |ps| < 2 then 0 else |ps| - 1
    ensures forall i :: 0 <= i < |Edges(ps)| ==> Edges(ps)[i] == [ps[i], ps[i + 1]]
    decreases |ps|
  {
    if |ps| >= 2 {
      EdgesAt(ps[1..]);
      forall i | 1 <= i < |Edges(ps)|
        ensures Edges(ps)[i] == [ps[i], ps[i + 1]]
      {
        assert Edges(ps)[i] == Edges(ps[1..])[i - 1];
      }
    }
  }
}
