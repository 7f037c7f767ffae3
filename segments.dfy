/**
 How clicked points are grouped into segments. Points are numbered in click
 order. The in-progress segment collects clicked points; when it reaches four
 it is committed and the next segment starts from its fourth point, so
 consecutive committed segments share their joining point.

 This module gives the grouping in closed form as a function of the number
 of clicks, and the structural invariant the grouping has: every committed
 segment holds four points, each one starts where the previous one ended,
 and the in-progress segment continues from the last committed one.
 */
module Segments {
  import opened Points

  /** The number of segments committed after n clicks. */
  function Commits(n: nat): nat {
    if n == 0 then 0 else (n - 1) / 3
  }

  /** The points of the i-th committed segment. */
  function SegmentIds(i: nat): seq<PointId> {
    [3 * i, 3 * i + 1, 3 * i + 2, 3 * i + 3]
  }

  /** The committed segments after n clicks, in commit order. */
  function CurvesAfter(n: nat): seq<seq<PointId>> {
    seq(Commits(n), i requires 0 <= i < Commits(n) => SegmentIds(i))
  }

  /** The in-progress segment after n clicks: every point from the last
      committed segment's end point on. */
  function CurrentAfter(n: nat): seq<PointId> {
    var k := Commits(n);
    seq(n - 3 * k, j requires 0 <= j < n - 3 * k => 3 * k + j)
  }

  /** Every id in the segments names one of the first n points. */
  ghost predicate IdsBelow(n: nat, curves: seq<seq<PointId>>, current: seq<PointId>) {
    (forall i, j :: 0 <= i < |curves| && 0 <= j < |curves[i]| ==> curves[i][j] < n) &&
    (forall j :: 0 <= j < |current| ==> current[j] < n)
  }

  /** The chaining invariant: committed segments have four points, the fourth
      point of each is the first of the next, the in-progress segment has at
      most three points and, after a commit, starts from the fourth point of
      the last committed segment. */
  ghost predicate Chained(curves: seq<seq<PointId>>, current: seq<PointId>) {
    && (forall i :: 0 <= i < |curves| ==> |curves[i]| == 4)
    && (forall i :: 0 <= i < |curves| - 1 ==> curves[i][3] == curves[i + 1][0])
    && |current| <= 3
    && (|curves| > 0 ==> 1 <= |current| && current[0] == curves[|curves| - 1][3])
  }

  /** A click appends point n to the in-progress segment; if that makes four
      points, the segment is committed and the next one is the new point alone. */
  lemma LayoutStep(n: nat)
    ensures |CurrentAfter(n)| == 3 ==>
      CurvesAfter(n + 1) == CurvesAfter(n) + [CurrentAfter(n) + [n]] && CurrentAfter(n + 1) == [n]
    ensures |CurrentAfter(n)| != 3 ==>
      CurvesAfter(n + 1) == CurvesAfter(n) && CurrentAfter(n + 1) == CurrentAfter(n) + [n]
  {
    var k := Commits(n);
    assert 3 * k <= n;
    if |CurrentAfter(n)| == 3 {
      assert n == 3 * k + 3;
      assert Commits(n + 1) == k + 1;
      assert CurrentAfter(n) + [n] == SegmentIds(k);
      assert CurvesAfter(n + 1) == CurvesAfter(n) + [SegmentIds(k)];
    } else {
      assert n < 3 * k + 3;
      assert Commits(n + 1) == k;
      assert CurrentAfter(n + 1) == CurrentAfter(n) + [n];
    }
  }

  /** The grouping after any number of clicks is chained, names only points
      that exist, and loses none: each point is in a committed segment or in
      the in-progress one. After at least one click the in-progress segment is
      never empty. */
  lemma LayoutChained(n: nat)
    ensures Chained(CurvesAfter(n), CurrentAfter(n))
    ensures IdsBelow(n, CurvesAfter(n), CurrentAfter(n))
    ensures n > 0 ==> 1 <= |CurrentAfter(n)|
    ensures forall id :: 0 <= id < n ==>
      id in CurrentAfter(n) || exists i :: 0 <= i < |CurvesAfter(n)| && id in CurvesAfter(n)[i]
  {
    var k := Commits(n);
    assert 3 * k <= n;
    assert n > 0 ==> n - 3 * k >= 1;
    forall id | 0 <= id < n
      ensures id in CurrentAfter(n) || exists i :: 0 <= i < |CurvesAfter(n)| && id in CurvesAfter(n)[i]
    {
      if id >= 3 * k {
        assert CurrentAfter(n)[id - 3 * k] == id;
      } else {
        var i := id / 3;
        assert SegmentIds(i)[id % 3] == id;
        assert CurvesAfter(n)[i] == SegmentIds(i);
      }
    }
  }

  /** Four clicks commit one segment of the four points and leave the fourth
      as the start of the next; a fifth click extends the new segment. */
  lemma FourClicks()
    ensures CurvesAfter(3) == [] && CurrentAfter(3) == [0, 1, 2]
    ensures CurvesAfter(4) == [[0, 1, 2, 3]] && CurrentAfter(4) == [3]
    ensures CurvesAfter(5) == [[0, 1, 2, 3]] && CurrentAfter(5) == [3, 4]
    ensures CurvesAfter(7) == [[0, 1, 2, 3], [3, 4, 5, 6]] && CurrentAfter(7) == [6]
  {
  }
}
