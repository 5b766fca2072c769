/** The terrain: a piecewise-linear height profile over the 800 px wide
    screen, and the generator that builds it with at least two flat
    landing runs. Heights grow downwards (y = 600 is the bottom edge). */
module Terrain {

  const CANVAS_WIDTH: real := 800.0
  const CANVAS_HEIGHT: real := 600.0

  /** Horizontal distance between two generated terrain points. */
  const GRID_STEP: int := 10
  /** Number of points a generated terrain has: x = 0, 10, ..., 800. */
  const GRID_POINTS: int := 81
  /** Height at which generation starts. */
  const START_Y: real := 550.0
  /** Bounds of the random walk of the ground height. */
  const MIN_GROUND_Y: real := 480.0
  const MAX_GROUND_Y: real := 600.0
  /** Largest change of height between two rough points is half of this. */
  const ROUGHNESS: real := 25.0
  /** Flat runs are forced until this many exist, inside (100, 700). */
  const MIN_FLAT_SPOTS: int := 2
  const FLAT_FORCE_FROM: int := 100
  /** No flat run starts at or beyond this x, so that it fits on screen. */
  const FLAT_LIMIT: int := 700
  /** Probability of an unforced flat run at each step. */
  const FLAT_CHANCE: real := 0.25
  /** A flat run is 40 + 20 * r px wide for a random r in [0, 1). */
  const FLAT_MIN_WIDTH: real := 40.0
  const FLAT_WIDTH_SPREAD: real := 20.0

  datatype Point = Point(x: real, y: real)

  function Abs(r: real): real
  {
    if r < 0.0 then -r else r
  }

  /** A source of `Math.random()` values: the i-th call returns random(i). */
  ghost predicate UnitStream(random: nat -> real)
  {
    forall i: nat :: 0.0 <= random(i) < 1.0
  }

  /** x strictly increases along the terrain. */
  ghost predicate Ascending(terrain: seq<Point>)
  {
    forall i, j :: 0 <= i < j < |terrain| ==> terrain[i].x < terrain[j].x
  }

  /** The shape every generated terrain has: 81 points, 10 px apart, from x = 0 to x = 800. */
  ghost predicate OnGrid(terrain: seq<Point>)
  {
    |terrain| == GRID_POINTS &&
    forall i :: 0 <= i < |terrain| ==> terrain[i].x == (GRID_STEP * i) as real
  }

  /** Every height lies in [MIN_GROUND_Y, MAX_GROUND_Y]. */
  ghost predicate HeightsInRange(terrain: seq<Point>)
  {
    forall i :: 0 <= i < |terrain| ==> MIN_GROUND_Y <= terrain[i].y <= MAX_GROUND_Y
  }

  /** A flat run starts at index k: it begins left of FLAT_LIMIT and its
      first four points (30 px of ground) share one height. */
  ghost predicate FlatRunAt(terrain: seq<Point>, k: int)
  {
    0 <= k && k + 4 <= |terrain| && terrain[k].x < FLAT_LIMIT as real &&
    forall i :: k <= i < k + 4 ==> terrain[i].y == terrain[k].y
  }

  /** Adjacent heights differ by at most half the roughness, 12.5. */
  ghost predicate GentleSlopes(terrain: seq<Point>)
  {
    forall i, j :: 0 <= i && j == i + 1 && j < |terrain| ==>
      -ROUGHNESS / 2.0 <= terrain[j].y - terrain[i].y <= ROUGHNESS / 2.0
  }

  lemma ExtendGentle(terrain: seq<Point>, p: Point)
    requires GentleSlopes(terrain)
    requires |terrain| > 0 ==> -ROUGHNESS / 2.0 <= p.y - terrain[|terrain| - 1].y <= ROUGHNESS / 2.0
    ensures GentleSlopes(terrain + [p])
  {
    var t := terrain + [p];
    forall i, j | 0 <= i && j == i + 1 && j < |t|
      ensures -ROUGHNESS / 2.0 <= t[j].y - t[i].y <= ROUGHNESS / 2.0
    {
      if j < |terrain| {
        assert t[i] == terrain[i] && t[j] == terrain[j];
      }
    }
  }

  /** Flat runs of a terrain stay flat runs when points are added after it. */
  lemma KeepRuns(before: seq<Point>, terrain: seq<Point>, runs: seq<int>)
    requires |before| <= |terrain| && terrain[..|before|] == before
    requires forall r :: r in runs ==> FlatRunAt(before, r)
    ensures forall r :: r in runs ==> FlatRunAt(terrain, r)
  {
    forall r | r in runs ensures FlatRunAt(terrain, r) {
      assert FlatRunAt(before, r);
      assert forall i :: r <= i < r + 4 ==> terrain[i] == before[i];
    }
  }

  /** Two flat runs that do not overlap. */
  ghost predicate TwoFlatRuns(terrain: seq<Point>)
  {
    exists j, k :: j + 4 <= k && FlatRunAt(terrain, j) && FlatRunAt(terrain, k)
  }

  lemma OnGridAscending(terrain: seq<Point>)
    requires OnGrid(terrain)
    ensures Ascending(terrain)
  {
  }

  function ClampHeight(y: real): (r: real)
    ensures MIN_GROUND_Y <= r <= MAX_GROUND_Y
    ensures MIN_GROUND_Y <= y <= MAX_GROUND_Y ==> r == y
    ensures y > MAX_GROUND_Y ==> r == MAX_GROUND_Y
    ensures y < MIN_GROUND_Y ==> r == MIN_GROUND_Y
  {
    if y > MAX_GROUND_Y then MAX_GROUND_Y
    else if y < MIN_GROUND_Y then MIN_GROUND_Y
    else y
  }

  /** The inner loop of a flat run: one point at height y every 10 px, for
      as long as i * 10 < flatWidth and x < 800. A width in [40, 60) gives
      4 to 6 points, all of them at the current height y. */
  method AppendFlatRun(terrain: seq<Point>, x: int, y: real, flatWidth: real)
    returns (extended: seq<Point>, nextX: int)
    requires 0 <= x < FLAT_LIMIT && x % GRID_STEP == 0 && |terrain| == x / GRID_STEP
    requires forall k :: 0 <= k < |terrain| ==> terrain[k].x == (GRID_STEP * k) as real
    requires MIN_GROUND_Y <= y <= MAX_GROUND_Y && HeightsInRange(terrain) && GentleSlopes(terrain)
    requires |terrain| > 0 ==> terrain[|terrain| - 1].y == y
    requires FLAT_MIN_WIDTH <= flatWidth < FLAT_MIN_WIDTH + FLAT_WIDTH_SPREAD
    ensures x + 4 * GRID_STEP <= nextX <= x + 6 * GRID_STEP
    ensures nextX % GRID_STEP == 0 && |extended| == nextX / GRID_STEP
    ensures extended[..|terrain|] == terrain
    ensures forall k :: 0 <= k < |extended| ==> extended[k].x == (GRID_STEP * k) as real
    ensures HeightsInRange(extended) && GentleSlopes(extended)
    ensures forall k :: |terrain| <= k < |extended| ==> extended[k].y == y
  {
    extended, nextX := terrain, x;
    var i := 0;
    while (i * GRID_STEP) as real < flatWidth && nextX < 800
      invariant 0 <= i <= 6
      invariant nextX == x + GRID_STEP * i && |extended| == |terrain| + i
      invariant extended[..|terrain|] == terrain
      invariant forall k :: 0 <= k < |extended| ==> extended[k].x == (GRID_STEP * k) as real
      invariant HeightsInRange(extended) && GentleSlopes(extended)
      invariant |extended| > 0 ==> extended[|extended| - 1].y == y
      invariant forall k :: |terrain| <= k < |extended| ==> extended[k].y == y
      decreases 800 - nextX
    {
      ExtendGentle(extended, Point(nextX as real, y));
      extended := extended + [Point(nextX as real, y)];
      nextX := nextX + GRID_STEP;
      i := i + 1;
    }
  }

  /** A rough step: the height moves by (r - 0.5) * 25 for the random value
      r, is clamped to [480, 600], and one point is emitted at x. */
  method AppendRoughPoint(terrain: seq<Point>, x: int, y: real, r: real)
    returns (extended: seq<Point>, nextY: real)
    requires 0.0 <= r < 1.0
    requires |terrain| == x / GRID_STEP && 0 <= x && x % GRID_STEP == 0
    requires forall k :: 0 <= k < |terrain| ==> terrain[k].x == (GRID_STEP * k) as real
    requires MIN_GROUND_Y <= y <= MAX_GROUND_Y && HeightsInRange(terrain) && GentleSlopes(terrain)
    requires |terrain| > 0 ==> terrain[|terrain| - 1].y == y
    ensures nextY == ClampHeight(y + (r - 0.5) * ROUGHNESS)
    ensures extended == terrain + [Point(x as real, nextY)]
    ensures -ROUGHNESS / 2.0 <= nextY - y <= ROUGHNESS / 2.0
    ensures forall k :: 0 <= k < |extended| ==> extended[k].x == (GRID_STEP * k) as real
    ensures MIN_GROUND_Y <= nextY <= MAX_GROUND_Y && HeightsInRange(extended) && GentleSlopes(extended)
  {
    nextY := y + (r - 0.5) * ROUGHNESS;
    nextY := ClampHeight(nextY);
    ExtendGentle(terrain, Point(x as real, nextY));
    extended := terrain + [Point(x as real, nextY)];
  }

  /** Scans x from 0 to 800 in 10 px steps. At each step it either emits a
      flat run of 4 to 6 points at the current height (forced while fewer
      than two runs exist and 100 < x < 700, otherwise with probability
      1/4, and never from x >= 700), or moves the height by a random amount
      in [-12.5, 12.5), clamped to [480, 600], and emits one point. The end
      point x = 800 is then added with the last height. The failsafe that
      would splice in a third run when fewer than two were made is shown
      unreachable. */
  method GenerateTerrain(random: nat -> real) returns (terrain: seq<Point>)
    requires UnitStream(random)
    ensures OnGrid(terrain)
    ensures HeightsInRange(terrain)
    ensures GentleSlopes(terrain)
    ensures TwoFlatRuns(terrain)
  {
    terrain := [];
    var x: int := 0;
    var y: real := START_Y;
    var flatSpotsGenerated := 0;
    var next: nat := 0;               // index of the next random value drawn
    ghost var runs: seq<int> := [];   // index of the first point of each flat run
    while x < 800
      invariant 0 <= x <= 800 && x % GRID_STEP == 0
      invariant |terrain| == x / GRID_STEP
      invariant forall i :: 0 <= i < |terrain| ==> terrain[i].x == (GRID_STEP * i) as real
      invariant MIN_GROUND_Y <= y <= MAX_GROUND_Y
      invariant HeightsInRange(terrain)
      invariant GentleSlopes(terrain)
      invariant |terrain| > 0 ==> terrain[|terrain| - 1].y == y
      invariant flatSpotsGenerated == |runs|
      invariant forall r :: r in runs ==> FlatRunAt(terrain, r)
      invariant |runs| >= 2 ==> runs[0] + 4 <= runs[1]
      invariant flatSpotsGenerated == 0 ==> x <= 110
      invariant flatSpotsGenerated == 1 ==> x <= 170
    {
      var shouldTryFlat := flatSpotsGenerated < MIN_FLAT_SPOTS && x > FLAT_FORCE_FROM && x < FLAT_LIMIT;
      var randomChance := random(next) < FLAT_CHANCE;
      next := next + 1;
      if (shouldTryFlat || randomChance) && x < FLAT_LIMIT {
        var flatWidth := FLAT_MIN_WIDTH + random(next) * FLAT_WIDTH_SPREAD;
        next := next + 1;
        ghost var start := |terrain|;
        ghost var before := terrain;
        terrain, x := AppendFlatRun(terrain, x, y, flatWidth);
        assert FlatRunAt(terrain, start);
        KeepRuns(before, terrain, runs);
        assert |runs| == 1 ==> runs[0] in runs && runs[0] + 4 <= start;
        runs := runs + [start];
        flatSpotsGenerated := flatSpotsGenerated + 1;
      } else {
        var r := random(next);
        next := next + 1;
        ghost var before := terrain;
        terrain, y := AppendRoughPoint(terrain, x, y, r);
        x := x + GRID_STEP;
        KeepRuns(before, terrain, runs);
      }
    }
    ghost var scanned := terrain;
    if |terrain| > 0 && terrain[|terrain| - 1].x < CANVAS_WIDTH {
      ExtendGentle(terrain, Point(CANVAS_WIDTH, terrain[|terrain| - 1].y));
      terrain := terrain + [Point(CANVAS_WIDTH, terrain[|terrain| - 1].y)];
    } else if |terrain| == 0 {
      terrain := terrain + [Point(0.0, START_Y), Point(CANVAS_WIDTH, START_Y)];
    }
    if flatSpotsGenerated < MIN_FLAT_SPOTS {
      assert false;
    }
    assert FlatRunAt(scanned, runs[0]) && FlatRunAt(scanned, runs[1]);
    assert FlatRunAt(terrain, runs[0]) && FlatRunAt(terrain, runs[1]);
  }
}
