/** The height query: the ground height under a horizontal position,
    by linear interpolation between the two bracketing terrain points. */
module Height {
  import opened Terrain

  function Last(terrain: seq<Point>): Point
    requires |terrain| > 0
  {
    terrain[|terrain| - 1]
  }

  /** Height at x of the segment from p to q. */
  function Lerp(p: Point, q: Point, x: real): (r: real)
    requires p.x < q.x
    ensures x == p.x ==> r == p.y
    ensures x == q.x ==> r == q.y
  {
    p.y + (x - p.x) / (q.x - p.x) * (q.y - p.y)
  }

  /** Fewer than two points give the bottom edge of the screen; left of
      the first point the first height, right of the last point the last
      height; otherwise the first properly ordered segment that contains x. */
  function TerrainY(terrain: seq<Point>, x: real): (r: real)
    ensures |terrain| >= 2 ==>
      exists k :: 0 <= k < |terrain| - 1 && Between(r, terrain[k].y, terrain[k + 1].y)
  {
    if |terrain| < 2 then CANVAS_HEIGHT
    else if x <= terrain[0].x then
      assert Between(terrain[0].y, terrain[0].y, terrain[1].y);
      terrain[0].y
    else if x >= Last(terrain).x then
      assert Between(Last(terrain).y, terrain[|terrain| - 2].y, terrain[|terrain| - 1].y);
      Last(terrain).y
    else SegmentSearch(terrain, x, 0)
  }

  /** The scan over segments i, i+1, ...; segments whose x does not grow
      are skipped, and when no segment contains x the last height is used. */
  function SegmentSearch(terrain: seq<Point>, x: real, i: nat): (r: real)
    requires 2 <= |terrain| && i < |terrain|
    ensures exists k :: 0 <= k < |terrain| - 1 && Between(r, terrain[k].y, terrain[k + 1].y)
    decreases |terrain| - i
  {
    if i == |terrain| - 1 then
      assert Between(Last(terrain).y, terrain[|terrain| - 2].y, terrain[|terrain| - 1].y);
      Last(terrain).y
    else if terrain[i].x >= terrain[i + 1].x then SegmentSearch(terrain, x, i + 1)
    else if terrain[i].x <= x < terrain[i + 1].x then
      LerpBetween(terrain[i], terrain[i + 1], x);
      Lerp(terrain[i], terrain[i + 1], x)
    else SegmentSearch(terrain, x, i + 1)
  }

  ghost predicate Between(r: real, a: real, b: real)
  {
    (a <= r <= b) || (b <= r <= a)
  }

  /** On a segment, the interpolated height lies between the heights of its
      end points and equals the left one at the left end. */
  lemma LerpBetween(p: Point, q: Point, x: real)
    requires p.x <= x < q.x
    ensures Between(Lerp(p, q, x), p.y, q.y)
    ensures x == p.x ==> Lerp(p, q, x) == p.y
  {
    var d := q.x - p.x;
    var t := (x - p.x) / d;
    assert t * d == x - p.x;
    assert 0.0 <= t;
    assert (1.0 - t) * d == q.x - x;
    if t >= 1.0 {
      ProductSign(1.0 - t, d);
    }
    var e := q.y - p.y;
    if e >= 0.0 {
      assert 0.0 <= t * e <= e;
    } else {
      assert e <= t * e <= 0.0;
    }
  }

  lemma ProductSign(a: real, b: real)
    requires a <= 0.0 <= b
    ensures a * b <= 0.0
  {
  }

  /** The three edge cases of the query. */
  lemma TerrainYEdgeCases(terrain: seq<Point>, x: real)
    ensures |terrain| < 2 ==> TerrainY(terrain, x) == CANVAS_HEIGHT
    ensures |terrain| >= 2 && x <= terrain[0].x ==> TerrainY(terrain, x) == terrain[0].y
    ensures |terrain| >= 2 && terrain[0].x < x && x >= Last(terrain).x
      ==> TerrainY(terrain, x) == Last(terrain).y
  {
  }

  /** On an ascending terrain the scan from segment j reaches segment i,
      the one that contains x, without stopping earlier. */
  lemma {:induction false} SearchReaches(terrain: seq<Point>, x: real, j: nat, i: nat)
    requires Ascending(terrain) && 2 <= |terrain|
    requires j <= i < |terrain| - 1
    requires terrain[i].x <= x < terrain[i + 1].x
    ensures SegmentSearch(terrain, x, j) == Lerp(terrain[i], terrain[i + 1], x)
    decreases i - j
  {
    if j < i {
      assert terrain[j + 1].x <= terrain[i].x;
      SearchReaches(terrain, x, j + 1, i);
    }
  }

  /** On an ascending terrain, for x in [p1.x, p2.x) of segment i the query
      returns p1.y + t * (p2.y - p1.y) with t = (x - p1.x) / (p2.x - p1.x);
      the result lies between p1.y and p2.y. */
  lemma TerrainYOnSegment(terrain: seq<Point>, i: nat, x: real)
    requires Ascending(terrain)
    requires i + 1 < |terrain|
    requires terrain[i].x <= x < terrain[i + 1].x
    ensures TerrainY(terrain, x) == Lerp(terrain[i], terrain[i + 1], x)
    ensures Between(TerrainY(terrain, x), terrain[i].y, terrain[i + 1].y)
  {
    LerpBetween(terrain[i], terrain[i + 1], x);
    if x <= terrain[0].x {
      assert i == 0;
    } else {
      assert terrain[i + 1].x <= Last(terrain).x;
      SearchReaches(terrain, x, 0, i);
    }
  }

  /** Querying at a terrain point returns exactly that point's height. */
  lemma TerrainYAtPoint(terrain: seq<Point>, k: nat)
    requires Ascending(terrain) && 2 <= |terrain|
    requires k < |terrain|
    ensures TerrainY(terrain, terrain[k].x) == terrain[k].y
  {
    if k < |terrain| - 1 {
      TerrainYOnSegment(terrain, k, terrain[k].x);
      LerpBetween(terrain[k], terrain[k + 1], terrain[k].x);
    }
  }

  /** The scan never leaves the band of heights its points lie in. */
  lemma {:induction false} SearchBounded(terrain: seq<Point>, x: real, i: nat, lo: real, hi: real)
    requires 2 <= |terrain| && i < |terrain|
    requires forall k :: 0 <= k < |terrain| ==> lo <= terrain[k].y <= hi
    ensures lo <= SegmentSearch(terrain, x, i) <= hi
    decreases |terrain| - i
  {
    if i == |terrain| - 1 {
    } else if terrain[i].x >= terrain[i + 1].x {
      SearchBounded(terrain, x, i + 1, lo, hi);
    } else if terrain[i].x <= x < terrain[i + 1].x {
      LerpBetween(terrain[i], terrain[i + 1], x);
      assert lo <= terrain[i].y <= hi && lo <= terrain[i + 1].y <= hi;
    } else {
      SearchBounded(terrain, x, i + 1, lo, hi);
    }
  }

  /** With at least two points, every query result lies within the band
      of the terrain's heights, whatever the order of the points. */
  lemma TerrainYBounded(terrain: seq<Point>, x: real, lo: real, hi: real)
    requires 2 <= |terrain|
    requires forall k :: 0 <= k < |terrain| ==> lo <= terrain[k].y <= hi
    ensures lo <= TerrainY(terrain, x) <= hi
  {
    if terrain[0].x < x < Last(terrain).x {
      SearchBounded(terrain, x, 0, lo, hi);
    }
  }
}
