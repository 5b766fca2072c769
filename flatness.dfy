/** The flatness evaluator: how much the ground height varies in a window
    of +-15 px around a horizontal position, and whether that is flat
    enough (less than 1 px) to land on. */
module Flatness {
  import opened Terrain
  import opened Height

  /** Half-width of the window that is checked. */
  const FLAT_RANGE: real := 15.0
  /** A window is flat when its heights differ by less than this. */
  const FLAT_TOLERANCE: real := 1.0

  /** The measured difference of heights; Infinite when no terrain point
      falls in the window. */
  datatype Spread = Finite(value: real) | Infinite

  datatype Flatness = Flatness(isFlat: bool, diff: Spread)

  /** Left end of the window: the larger of x - 15 and 0. */
  function WindowStart(x: real): (r: real)
    ensures r >= 0.0 && r >= x - FLAT_RANGE
    ensures r == 0.0 || r == x - FLAT_RANGE
  {
    if x - FLAT_RANGE > 0.0 then x - FLAT_RANGE else 0.0
  }

  /** Right end of the window: the smaller of x + 15 and the canvas width. */
  function WindowEnd(x: real): (r: real)
    ensures r <= CANVAS_WIDTH && r <= x + FLAT_RANGE
    ensures r == CANVAS_WIDTH || r == x + FLAT_RANGE
  {
    if x + FLAT_RANGE < CANVAS_WIDTH then x + FLAT_RANGE else CANVAS_WIDTH
  }

  /** Index of the first point with x >= v, or -1 when there is none. */
  function FirstAtOrAbove(terrain: seq<Point>, v: real): (r: int)
    ensures -1 <= r < |terrain|
    ensures r == -1 <==> forall k :: 0 <= k < |terrain| ==> terrain[k].x < v
    ensures r >= 0 ==> terrain[r].x >= v && forall k :: 0 <= k < r ==> terrain[k].x < v
  {
    if |terrain| == 0 then -1
    else if terrain[0].x >= v then 0
    else
      var r := FirstAtOrAbove(terrain[1..], v);
      assert forall k :: 1 <= k < |terrain| ==> terrain[k] == terrain[1..][k - 1];
      if r == -1 then -1 else r + 1
  }

  /** First index scanned: one before the first point at or after the
      window start, or 0 when there is no such point. */
  function ScanFirst(terrain: seq<Point>, start: real): nat
  {
    var s := FirstAtOrAbove(terrain, start);
    if s == -1 then 0 else if s - 1 > 0 then s - 1 else 0
  }

  /** Last index scanned: the first point at or after the window end, or
      the last point when there is no such point. */
  function ScanLast(terrain: seq<Point>, end: real): int
  {
    var e := FirstAtOrAbove(terrain, end);
    if e == -1 then |terrain| - 1 else e
  }

  /** The scan starts one point before the first point at or after the
      window start, and stops at the first point at or after the window
      end (or at the last point): every point it skips on the left lies
      before the start, and every point it passes before its last index
      lies before the end. */
  lemma ScanEnds(terrain: seq<Point>, start: real, end: real)
    ensures var first := ScanFirst(terrain, start);
      && (first == 0 || first + 1 < |terrain|)
      && (forall k :: 0 <= k < first ==> terrain[k].x < start)
      && (first > 0 ==> terrain[first].x < start <= terrain[first + 1].x)
    ensures var last := ScanLast(terrain, end);
      && -1 <= last < |terrain|
      && (forall k :: 0 <= k < last ==> terrain[k].x < end)
      && (0 <= last < |terrain| - 1 ==> terrain[last].x >= end)
  {
  }

  ghost predicate InWindow(p: Point, start: real, end: real)
  {
    start <= p.x <= end
  }

  /** Heights of the points with index in [i, last] whose x lies in
      [start, end], in index order. */
  function Samples(terrain: seq<Point>, i: nat, last: int, start: real, end: real): (r: seq<real>)
    ensures |r| <= if i > last then 0 else last + 1 - i
    decreases last + 1 - i
  {
    if i > last then []
    else
      (if i < |terrain| && start <= terrain[i].x <= end then [terrain[i].y] else [])
      + Samples(terrain, i + 1, last, start, end)
  }

  function SeqMin(s: seq<real>): (r: real)
    requires |s| > 0
    ensures r in s
    ensures forall k :: 0 <= k < |s| ==> r <= s[k]
  {
    if |s| == 1 then s[0]
    else
      var m := SeqMin(s[1..]);
      assert forall k :: 1 <= k < |s| ==> s[k] == s[1..][k - 1];
      if s[0] <= m then s[0] else m
  }

  function SeqMax(s: seq<real>): (r: real)
    requires |s| > 0
    ensures r in s
    ensures forall k :: 0 <= k < |s| ==> s[k] <= r
  {
    if |s| == 1 then s[0]
    else
      var m := SeqMax(s[1..]);
      assert forall k :: 1 <= k < |s| ==> s[k] == s[1..][k - 1];
      if s[0] >= m then s[0] else m
  }

  /** The heights the evaluator compares at x: the sampled point heights,
      then the interpolated heights at the window's start and end. */
  function Compared(terrain: seq<Point>, x: real): (r: seq<real>)
    ensures |r| >= 2
    ensures r[|r| - 2] == TerrainY(terrain, WindowStart(x)) && r[|r| - 1] == TerrainY(terrain, WindowEnd(x))
  {
    var start, end := WindowStart(x), WindowEnd(x);
    Samples(terrain, ScanFirst(terrain, start), ScanLast(terrain, end), start, end)
      + [TerrainY(terrain, start), TerrainY(terrain, end)]
  }

  /** The window is [max(0, x - 15), min(800, x + 15)]. The heights of the
      terrain points inside it, together with the interpolated heights at
      its two ends, give the difference max - min; with no point inside
      the difference is infinite. The spot is flat iff the difference is
      below 1. */
  function IsFlatSpot(terrain: seq<Point>, x: real): (r: Flatness)
    ensures r.isFlat <==> r.diff.Finite? && r.diff.value < FLAT_TOLERANCE
    ensures r.diff.Finite? ==> r.diff.value >= 0.0
  {
    var start := WindowStart(x);
    var end := WindowEnd(x);
    var samples := Samples(terrain, ScanFirst(terrain, start), ScanLast(terrain, end), start, end);
    if |samples| == 0 then Flatness(false, Infinite)
    else
      var heights := Compared(terrain, x);
      var diff := SeqMax(heights) - SeqMin(heights);
      assert SeqMin(heights) <= heights[0] <= SeqMax(heights);
      Flatness(diff < FLAT_TOLERANCE, Finite(diff))
  }

  /** Every sample is the height of a point of the window. */
  lemma {:induction false} SamplesFromWindow(terrain: seq<Point>, i: nat, last: int, start: real, end: real, h: real)
    requires h in Samples(terrain, i, last, start, end)
    ensures exists k :: i <= k < |terrain| && InWindow(terrain[k], start, end) && terrain[k].y == h
    decreases last + 1 - i
  {
    if i <= last {
      var rest := Samples(terrain, i + 1, last, start, end);
      if h !in rest {
        assert i < |terrain| && InWindow(terrain[i], start, end) && terrain[i].y == h;
      } else {
        SamplesFromWindow(terrain, i + 1, last, start, end, h);
      }
    }
  }

  /** Every point of the window with index in [i, last] is sampled. */
  lemma {:induction false} SamplesCoverWindow(terrain: seq<Point>, i: nat, last: int, start: real, end: real, k: int)
    requires i <= k <= last && k < |terrain|
    requires InWindow(terrain[k], start, end)
    ensures terrain[k].y in Samples(terrain, i, last, start, end)
    decreases last + 1 - i
  {
    if i < k {
      SamplesCoverWindow(terrain, i + 1, last, start, end, k);
    }
  }

  /** On an ascending terrain, the indices scanned include every point
      of the window. */
  lemma ScanCoversWindow(terrain: seq<Point>, start: real, end: real, k: int)
    requires Ascending(terrain)
    requires 0 <= k < |terrain| && InWindow(terrain[k], start, end)
    ensures ScanFirst(terrain, start) <= k <= ScanLast(terrain, end)
  {
  }

  /** A window without any terrain point has an infinite difference and
      is not flat. */
  lemma NoPointNotFlat(terrain: seq<Point>, x: real)
    requires forall k :: 0 <= k < |terrain| ==> !InWindow(terrain[k], WindowStart(x), WindowEnd(x))
    ensures IsFlatSpot(terrain, x) == Flatness(false, Infinite)
  {
    var start, end := WindowStart(x), WindowEnd(x);
    var samples := Samples(terrain, ScanFirst(terrain, start), ScanLast(terrain, end), start, end);
    if |samples| > 0 {
      SamplesFromWindow(terrain, ScanFirst(terrain, start), ScanLast(terrain, end), start, end, samples[0]);
    }
  }

  /** On an ascending terrain, the difference is at least the difference
      between any two points of the window: two points of the window
      whose heights differ by 1 or more make the spot not flat. */
  lemma SpreadBoundsDiff(terrain: seq<Point>, x: real, j: int, k: int)
    requires Ascending(terrain)
    requires 0 <= j < |terrain| && InWindow(terrain[j], WindowStart(x), WindowEnd(x))
    requires 0 <= k < |terrain| && InWindow(terrain[k], WindowStart(x), WindowEnd(x))
    ensures IsFlatSpot(terrain, x).diff.Finite?
    ensures IsFlatSpot(terrain, x).diff.value >= terrain[j].y - terrain[k].y
    ensures terrain[j].y - terrain[k].y >= FLAT_TOLERANCE ==> !IsFlatSpot(terrain, x).isFlat
  {
    var start, end := WindowStart(x), WindowEnd(x);
    var first, last := ScanFirst(terrain, start), ScanLast(terrain, end);
    ScanCoversWindow(terrain, start, end, j);
    ScanCoversWindow(terrain, start, end, k);
    SamplesCoverWindow(terrain, first, last, start, end, j);
    SamplesCoverWindow(terrain, first, last, start, end, k);
    SpreadIsMaxMinusMin(terrain, x, j);
    var heights := Compared(terrain, x);
    assert terrain[j].y in heights && terrain[k].y in heights;
    RangeCovers(heights, terrain[j].y, terrain[k].y);
  }

  /** h is one of the heights the evaluator compares at x: the height of a
      terrain point inside the window, or the interpolated height at one of
      the window's two ends. */
  ghost predicate WindowHeight(terrain: seq<Point>, x: real, h: real)
  {
    (exists k :: 0 <= k < |terrain| && InWindow(terrain[k], WindowStart(x), WindowEnd(x)) && terrain[k].y == h) ||
    h == TerrainY(terrain, WindowStart(x)) || h == TerrainY(terrain, WindowEnd(x))
  }

  /** Every compared height is a window height. */
  lemma ComparedFromWindow(terrain: seq<Point>, x: real)
    ensures forall h :: h in Compared(terrain, x) ==> WindowHeight(terrain, x, h)
  {
    var start, end := WindowStart(x), WindowEnd(x);
    var first, last := ScanFirst(terrain, start), ScanLast(terrain, end);
    var samples := Samples(terrain, first, last, start, end);
    forall h | h in Compared(terrain, x) ensures WindowHeight(terrain, x, h) {
      if h in samples {
        SamplesFromWindow(terrain, first, last, start, end, h);
      }
    }
  }

  /** On an ascending terrain, every window height is compared. */
  lemma WindowCompared(terrain: seq<Point>, x: real)
    requires Ascending(terrain)
    ensures forall h :: WindowHeight(terrain, x, h) ==> h in Compared(terrain, x)
  {
    var start, end := WindowStart(x), WindowEnd(x);
    var first, last := ScanFirst(terrain, start), ScanLast(terrain, end);
    forall h | WindowHeight(terrain, x, h) ensures h in Compared(terrain, x) {
      if h != TerrainY(terrain, start) && h != TerrainY(terrain, end) {
        var k :| 0 <= k < |terrain| && InWindow(terrain[k], start, end) && terrain[k].y == h;
        ScanCoversWindow(terrain, start, end, k);
        SamplesCoverWindow(terrain, first, last, start, end, k);
      }
    }
  }

  /** On an ascending terrain with a point in the window, the difference is
      finite and equals max - min over the compared heights, which are
      exactly the window heights (ComparedFromWindow, WindowCompared). */
  lemma SpreadIsMaxMinusMin(terrain: seq<Point>, x: real, j: int)
    requires Ascending(terrain)
    requires 0 <= j < |terrain| && InWindow(terrain[j], WindowStart(x), WindowEnd(x))
    ensures IsFlatSpot(terrain, x).diff == Finite(SeqMax(Compared(terrain, x)) - SeqMin(Compared(terrain, x)))
  {
    var start, end := WindowStart(x), WindowEnd(x);
    var first, last := ScanFirst(terrain, start), ScanLast(terrain, end);
    ScanCoversWindow(terrain, start, end, j);
    SamplesCoverWindow(terrain, first, last, start, end, j);
    SampledSpread(terrain, x);
  }

  /** With at least one sample, the difference is max - min over the
      compared heights. */
  lemma SampledSpread(terrain: seq<Point>, x: real)
    requires |Samples(terrain, ScanFirst(terrain, WindowStart(x)), ScanLast(terrain, WindowEnd(x)), WindowStart(x), WindowEnd(x))| > 0
    ensures IsFlatSpot(terrain, x).diff == Finite(SeqMax(Compared(terrain, x)) - SeqMin(Compared(terrain, x)))
  {
  }

  /** A window end whose interpolated height is 1 px or more away from the
      height of a point in the window makes the spot not flat. */
  lemma EndStepNotFlat(terrain: seq<Point>, x: real, j: int)
    requires Ascending(terrain)
    requires 0 <= j < |terrain| && InWindow(terrain[j], WindowStart(x), WindowEnd(x))
    requires Abs(TerrainY(terrain, WindowStart(x)) - terrain[j].y) >= FLAT_TOLERANCE ||
             Abs(TerrainY(terrain, WindowEnd(x)) - terrain[j].y) >= FLAT_TOLERANCE
    ensures !IsFlatSpot(terrain, x).isFlat
  {
    var start, end := WindowStart(x), WindowEnd(x);
    var first, last := ScanFirst(terrain, start), ScanLast(terrain, end);
    ScanCoversWindow(terrain, start, end, j);
    SamplesCoverWindow(terrain, first, last, start, end, j);
    SpreadIsMaxMinusMin(terrain, x, j);
    var heights := Compared(terrain, x);
    assert terrain[j].y in heights;
    RangeCovers(heights, terrain[j].y, TerrainY(terrain, start));
    RangeCovers(heights, terrain[j].y, TerrainY(terrain, end));
  }

  /** max - min of a sequence is at least the distance between any two
      of its elements. */
  lemma RangeCovers(s: seq<real>, a: real, b: real)
    requires a in s && b in s
    ensures SeqMax(s) - SeqMin(s) >= Abs(a - b)
  {
    var i :| 0 <= i < |s| && s[i] == a;
    var k :| 0 <= k < |s| && s[k] == b;
    assert SeqMin(s) <= s[i] <= SeqMax(s);
    assert SeqMin(s) <= s[k] <= SeqMax(s);
  }

  /** When the window holds a point and its point heights and both end
      heights lie in a band [lo, hi] narrower than 1 px, the spot is flat
      and the difference is at most the band's width. */
  lemma BandIsFlat(terrain: seq<Point>, x: real, j: int, lo: real, hi: real)
    requires Ascending(terrain)
    requires 0 <= j < |terrain| && InWindow(terrain[j], WindowStart(x), WindowEnd(x))
    requires forall k :: 0 <= k < |terrain| && InWindow(terrain[k], WindowStart(x), WindowEnd(x)) ==>
      lo <= terrain[k].y <= hi
    requires lo <= TerrainY(terrain, WindowStart(x)) <= hi && lo <= TerrainY(terrain, WindowEnd(x)) <= hi
    requires hi - lo < FLAT_TOLERANCE
    ensures IsFlatSpot(terrain, x).isFlat
    ensures IsFlatSpot(terrain, x).diff.value <= hi - lo
  {
    SpreadIsMaxMinusMin(terrain, x, j);
    var heights := Compared(terrain, x);
    ComparedFromWindow(terrain, x);
    assert WindowHeight(terrain, x, SeqMax(heights)) && WindowHeight(terrain, x, SeqMin(heights));
  }

  /** On an ascending terrain, a window that holds at least one point, all
      of whose points and both interpolated ends have height c, is flat
      with difference exactly 0. */
  lemma LevelWindowIsFlat(terrain: seq<Point>, x: real, c: real)
    requires Ascending(terrain)
    requires exists k :: 0 <= k < |terrain| && InWindow(terrain[k], WindowStart(x), WindowEnd(x))
    requires forall k :: 0 <= k < |terrain| && InWindow(terrain[k], WindowStart(x), WindowEnd(x)) ==> terrain[k].y == c
    requires TerrainY(terrain, WindowStart(x)) == c && TerrainY(terrain, WindowEnd(x)) == c
    ensures IsFlatSpot(terrain, x) == Flatness(true, Finite(0.0))
  {
    var k :| 0 <= k < |terrain| && InWindow(terrain[k], WindowStart(x), WindowEnd(x));
    BandIsFlat(terrain, x, k, c, c);
  }

  /** The centre of every flat run of a generated terrain is a flat spot:
      its window covers exactly the run's first four points. */
  lemma FlatRunIsFlatSpot(terrain: seq<Point>, k: int)
    requires OnGrid(terrain)
    requires FlatRunAt(terrain, k)
    ensures IsFlatSpot(terrain, (GRID_STEP * k + 15) as real) == Flatness(true, Finite(0.0))
  {
    OnGridAscending(terrain);
    var x := (GRID_STEP * k + 15) as real;
    assert WindowStart(x) == terrain[k].x;
    assert WindowEnd(x) == terrain[k + 3].x;
    TerrainYAtPoint(terrain, k);
    TerrainYAtPoint(terrain, k + 3);
    var c := terrain[k].y;
    forall j | 0 <= j < |terrain| && InWindow(terrain[j], WindowStart(x), WindowEnd(x))
      ensures terrain[j].y == c
    {
      assert k <= j <= k + 3;
    }
    assert InWindow(terrain[k], WindowStart(x), WindowEnd(x));
    LevelWindowIsFlat(terrain, x, c);
  }

  /** Every generated terrain offers two landing spots that are flat and at
      least 40 px apart. */
  lemma GeneratedTerrainIsLandable(terrain: seq<Point>)
    requires OnGrid(terrain) && TwoFlatRuns(terrain)
    ensures exists a: real, b: real :: a + 40.0 <= b && IsFlatSpot(terrain, a).isFlat && IsFlatSpot(terrain, b).isFlat
  {
    var j, k :| j + 4 <= k && FlatRunAt(terrain, j) && FlatRunAt(terrain, k);
    FlatRunIsFlatSpot(terrain, j);
    FlatRunIsFlatSpot(terrain, k);
    var a, b := (GRID_STEP * j + 15) as real, (GRID_STEP * k + 15) as real;
    assert a + 40.0 <= b;
  }
}
