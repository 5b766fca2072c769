# Moon lander, modelled in Dafny

A model of the game logic of `moon_lander.js`, a single-screen lunar
lander. The craft is rotated and thrusted under moon gravity towards a
randomly generated ground profile. It must touch down on a flat stretch,
upright and slowly; anything else is a crash that throws out a burst of
explosion particles.

The model covers the five pieces of logic behind the drawing code:

- **Terrain generator** (`terrain.dfy`, module `Terrain`). `GenerateTerrain`
  is the generator's loop, with `Math.random` passed in as a stream
  `random: nat -> real` of values in [0, 1). It is proved to always give:
  - 81 points at x = 0, 10, ..., 800;
  - every height in [480, 600];
  - two non-overlapping flat runs of at least four equal-height points,
    each starting left of x = 700.
  The failsafe that would splice in an extra flat run is therefore
  unreachable. The model shows this with an `assert false` in its branch.
- **Height query** (`height.dfy`, module `Height`). `TerrainY` handles the
  three edge cases, then scans the segments and interpolates linearly.
- **Flatness evaluator** (`flatness.dfy`, module `Flatness`). `IsFlatSpot`
  works on the +-15 px window:
  - the same index scan as the source;
  - min and max over the sampled points and the two interpolated window ends;
  - the infinite difference when no point is in the window.
  Lemmas tie it to the generator: the centre of every generated flat run
  is a flat spot, so every generated terrain has two landing spots at least
  40 px apart.
- **Explosion particles** (`particles.dfy`, module `Particles`). The class
  `Debris` holds the particle list:
  - `CreateExplosion` appends a burst of 30 particles;
  - `AgeParticles` is the backward aging loop that splices out dead
    particles in place.
  Both are proved against the functions `Burst` and `Aged`.
- **Physics update and frame gate** (`game.dfy`, module `Game`).
  - `Lander` is the lander object.
  - `Lander.Move` covers rotation, thrust with fuel burn, gravity, position
    and the horizontal clamp. It is proved equal to the function `Fly`.
  - `World` holds the terrain, the lander, the particles and the two
    game-over flags.
  - `World.Update` covers the exit through the top, the snap on contact
    and the Landed/Crashed decision.
  - `World.Frame` is the game loop's step: it caps dt, gates `Update` on
    `gameOver` and ages the particles.

Numbers are mathematical reals, not IEEE doubles. `Math.sin` and `Math.cos`
are parameters applied to the rotated angle. The control flags are the
lander's own fields, which the key handlers set.

Two details where the model follows the code's loops rather than their
comments:
- The comment at moon_lander.js:43 gives flat spots a width of 40 to 60 px.
  The loop at moon_lander.js:45 emits `ceil(flatWidth / 10)` points, which
  is 4 points (30 px of level ground) when the drawn width is exactly 40.
  The model therefore guarantees runs of at least 4 equal points, not
  40 px of level ground. The landing spots it derives from them are 40 px
  apart.
- The flatness window is sampled from the point before the first point at
  or after the window start up to the first point at or after its end
  (moon_lander.js:304-319). A point is counted only if it lies inside the
  window.

## Model

| member | source | states |
|---|---|---|
| Terrain.ClampHeight | moon_lander.js:53 | the height lies in [480, 600]; it is unchanged when it already was; above 600 it becomes exactly 600 and below 480 exactly 480 |
| Terrain.ExtendGentle | moon_lander.js:46-60 | appending a point within 12.5 of the last height keeps every adjacent step within 12.5 |
| Terrain.KeepRuns | moon_lander.js:37-57 | flat runs already emitted stay flat runs when later points are appended |
| Terrain.OnGridAscending | moon_lander.js:37-64 | a terrain on the 10 px grid has strictly increasing x |
| Terrain.AppendFlatRun | moon_lander.js:43-48 | a flat spot of width in [40, 60) emits 4 to 6 grid points at the current height, keeps the earlier points, heights in [480, 600] and steps within 12.5 |
| Terrain.AppendRoughPoint | moon_lander.js:52-55 | a rough step moves the height by (r - 0.5) * 25 clamped to [480, 600], so it changes by at most 12.5, and appends one grid point at the new height |
| Terrain.GenerateTerrain | moon_lander.js:30-102 | for every random stream in [0, 1) the terrain has 81 points at x = 10 i, heights in [480, 600], adjacent heights within 12.5 of each other, and two non-overlapping flat runs of 4 equal heights starting before x = 700; the failsafe branch is unreachable |
| Height.Lerp | moon_lander.js:283-286 | the interpolation returns the left height at the left end and the right height at the right end |
| Height.TerrainY | moon_lander.js:269-290 | with at least two points the result lies between the heights of the two ends of some segment |
| Height.SegmentSearch | moon_lander.js:274-290 | the scan's result, including the fallback, lies between the heights of the two ends of some segment |
| Height.TerrainYEdgeCases | moon_lander.js:269-272 | fewer than 2 points give 600; x at or left of the first point gives its height; x at or right of the last point gives its height |
| Height.LerpBetween | moon_lander.js:282-286 | inside a segment the interpolated height lies between the two end heights and equals the left one at the left end |
| Height.SearchReaches | moon_lander.js:274-288 | on ascending x the segment scan does not stop before the segment that contains x |
| Height.TerrainYOnSegment | moon_lander.js:274-287 | on ascending x, for x in [p1.x, p2.x) the query returns p1.y + t (p2.y - p1.y), a value between p1.y and p2.y |
| Height.TerrainYAtPoint | moon_lander.js:274-287 | on ascending x, querying at a terrain point returns that point's height |
| Height.SearchBounded | moon_lander.js:274-290 | the segment scan and its fallback stay within any band that holds all heights |
| Height.TerrainYBounded | moon_lander.js:269-290 | with at least two points, every query result lies within the band of the terrain's heights, in any point order |
| Flatness.WindowStart | moon_lander.js:300 | the window starts at the larger of 0 and x - 15 |
| Flatness.WindowEnd | moon_lander.js:301 | the window ends at the smaller of 800 and x + 15 |
| Flatness.FirstAtOrAbove | moon_lander.js:304-305 | -1 exactly when no point has x >= v, otherwise the first index whose x >= v |
| Flatness.ScanEnds | moon_lander.js:304-310 | the scan starts one point before the first point at or after the window start (or at 0), skipping only points left of the start; it stops at the first point at or after the window end, or at the last point |
| Flatness.Samples | moon_lander.js:313-319 | the scan over indices i..last yields at most one height per index |
| Flatness.SeqMin | moon_lander.js:315 | the minimum is one of the heights and no height is below it |
| Flatness.SeqMax | moon_lander.js:316 | the maximum is one of the heights and no height is above it |
| Flatness.Compared | moon_lander.js:313-327 | the compared heights end with the interpolated heights at the window start and at the window end, in that order; the entries before them are the samples (every compared height is a window height by ComparedFromWindow) |
| Flatness.IsFlatSpot | moon_lander.js:294-334 | isFlat holds iff the difference is finite and below 1; a finite difference is never negative |
| Flatness.SamplesFromWindow | moon_lander.js:313-319 | every sampled height belongs to a terrain point inside the window |
| Flatness.SamplesCoverWindow | moon_lander.js:313-319 | every point of the window within the scanned indices is sampled |
| Flatness.ScanCoversWindow | moon_lander.js:304-310 | on ascending x the scanned index range contains every point of the window |
| Flatness.ComparedFromWindow | moon_lander.js:313-327 | every compared height is the height of a window point or of one of the two interpolated window ends |
| Flatness.WindowCompared | moon_lander.js:304-327 | on ascending x, the height of every window point and of both window ends is compared |
| Flatness.SpreadIsMaxMinusMin | moon_lander.js:313-331 | on ascending x with a point in the window, the difference is finite and equals max - min of the compared heights |
| Flatness.NoPointNotFlat | moon_lander.js:322-329 | a window without terrain points gives an infinite difference and not flat |
| Flatness.SpreadBoundsDiff | moon_lander.js:313-331 | on ascending x, the difference is finite and at least the height difference of any two points in the window; two window points 1 px or more apart in height make the spot not flat |
| Flatness.EndStepNotFlat | moon_lander.js:321-331 | on ascending x, an interpolated window end 1 px or more above or below a window point makes the spot not flat |
| Flatness.BandIsFlat | moon_lander.js:313-331 | on ascending x, when the window holds at least one point and every window point and both window ends lie in a band narrower than 1 px, the spot is flat and the difference is at most the band's width |
| Flatness.LevelWindowIsFlat | moon_lander.js:313-331 | on ascending x, a window holding at least one point, whose points and interpolated ends all have one height, is flat with difference 0 |
| Flatness.FlatRunIsFlatSpot | moon_lander.js:294-333 | the centre of a generated flat run is a flat spot with difference 0 |
| Flatness.GeneratedTerrainIsLandable | moon_lander.js:35-50 | every generated terrain has two flat spots at least 40 px apart |
| Particles.Spark | moon_lander.js:122-130 | a particle starts at the explosion point with life 1.5 and decay 2.0; for random values in [0, 1) its velocity components lie in [-6, 6) and its size in [2, 7) |
| Particles.Burst | moon_lander.js:119-131 | an explosion adds exactly 30 particles |
| Particles.Sparks | moon_lander.js:121-131 | the first n particles of a burst are n particles |
| Particles.SparksShape | moon_lander.js:121-131 | each particle of a burst starts at the explosion point with life 1.5, decay 2.0, velocity components in [-6, 6) and size in [2, 7) |
| Particles.BurstShape | moon_lander.js:119-131 | a burst has 30 particles, each at the explosion point with life 1.5, decay 2.0, velocity in [-6, 6) per axis and size in [2, 7) |
| Particles.Tick | moon_lander.js:171-175 | a frame keeps vx, size and decay; the particle moves by its velocity, with vy taken after gravity; for dt >= 0, vy never decreases and life never grows |
| Particles.Aged | moon_lander.js:170-179 | aging never adds particles and every survivor has positive life |
| Particles.AgedAppend | moon_lander.js:170-179 | aging a concatenation ages each part: the survivors keep their relative order |
| Particles.AgedMembers | moon_lander.js:170-179 | a particle survives exactly when it is the tick of an old particle and its life is then positive |
| Particles.AgedKeepsAllLiving | moon_lander.js:170-179 | when no particle's life runs out, every particle is kept, ticked, in its place |
| Particles.Debris.constructor | moon_lander.js:116 | the particle list starts empty |
| Particles.Debris.CreateExplosion | moon_lander.js:119-132 | the list becomes the old list followed by the burst; old particles are unchanged |
| Particles.Debris.AgeParticles | moon_lander.js:170-179 | the backward in-place loop leaves exactly the aged list |
| Game.ClampX | moon_lander.js:209-210 | x ends in [5, 795]; it moves only when it was outside, to the nearer bound, and then vx becomes 0, otherwise vx is kept |
| Game.Rotated | moon_lander.js:188-189 | neither or both rotation keys keep the angle; left alone turns it by -2 dt; right alone by +2 dt |
| Game.ThrustDelta | moon_lander.js:193-194 | for dt >= 0 and a sine or cosine in [-1, 1], a frame of thrust changes a velocity component by at most 8 dt; a zero component gives no change |
| Game.Fly | moon_lander.js:186-210 | fuel never grows and stays >= 0, and drops only while thrusting; x ends in [5, 795]; y moves by the new vy, x by the new vx unless clamped; without thrust vy gains exactly gravity * dt; without rotation keys the angle is kept |
| Game.FrameDelta | moon_lander.js:153 | dt lies in [0, 0.05]; it is the elapsed seconds when those are at most 0.05, and 0.05 otherwise |
| Game.Qualifies | moon_lander.js:238-245 | a landing qualifies iff the spot is flat and -0.7 < angle < 0.7, -3.5 < vy < 3.5 and -4.0 < vx < 4.0 |
| Game.QualifiesBoundary | moon_lander.js:233-245 | angle 0.69, vy 3.4, vx 3.9 qualifies on flat ground; angle 0.71, vy -3.5 or vx 4.0 never qualifies |
| Game.Touches | moon_lander.js:213-228 | contact is only possible once the lander has not left through the top; then it holds exactly when the ground height at x is above the lander's bottom |
| Game.Verdict | moon_lander.js:213-260 | leaving through the top is a crash; the lander flies on exactly when it neither left through the top nor touches; on contact the step never flies on, and it lands iff the qualifier holds, otherwise it crashes |
| Game.Settle | moon_lander.js:212-265 | the step keeps x and fuel; the lander is unchanged exactly while it flies on; after a crash or landing both velocities are 0; on contact its bottom is at the ground height; a landing resets the angle and a crash keeps it |
| Game.Blast | moon_lander.js:213-251 | the step adds 30 particles on a crash and none otherwise; after leaving through the top they are a burst at (x, 10); after a crash on contact, a burst at the lander set on the ground, (x, ground height - 20) |
| Game.KeysAfter | moon_lander.js:264 | contact clears all three control flags; otherwise they are kept |
| Game.LandedMeansQualified | moon_lander.js:228-248 | a landing happens only on a flat spot with |angle| < 0.7, |vy| < 3.5 and |vx| < 4.0, leaves the lander on the ground at rest and upright, and adds no particles |
| Game.TopExitCrashes | moon_lander.js:213-221 | leaving through the top is a crash checked before contact; it stops the lander and adds a burst at (x, 10) |
| Game.SettleAboveGround | moon_lander.js:212-229 | on a generated terrain, after any step the lander's bottom is never below the ground |
| Game.Lander.constructor | moon_lander.js:10-20 | the lander starts at (400, 100), at rest, upright, with 150 fuel and no key held |
| Game.Lander.Move | moon_lander.js:186-210 | the lander's new state is Fly of its old state and keys; fuel stays in [0, 150] and x in [5, 795]; the keys are not touched |
| Game.Lander.Rotate | moon_lander.js:187-189 | the angle becomes Rotated of the old angle; nothing else changes |
| Game.Lander.Thrust | moon_lander.js:191-199 | while thrusting with fuel left, the velocities change by ThrustDelta of sin and cos of the angle and fuel drops by 3 dt, but not below 0; otherwise nothing changes |
| Game.Lander.ClampPosition | moon_lander.js:208-210 | x and vx become ClampX of their old values; nothing else changes |
| Game.Lander.Halt | moon_lander.js:263-264 | both velocities become 0 and all three control flags are cleared; position, angle and fuel are kept |
| Game.World.constructor | moon_lander.js:103-148 | the terrain is a generated one (grid, height band, two flat runs); the lander is at its start; no particles; the game is running |
| Game.World.ExitThroughTop | moon_lander.js:213-221 | the game is over and not landed; the lander, keys and particles become Settle, KeysAfter and Blast of the state that left through the top |
| Game.World.Touchdown | moon_lander.js:224-265 | the game is over and landed iff the verdict is Landed; the lander, keys and particles become Settle, KeysAfter and Blast of the state that touched the ground |
| Game.World.Update | moon_lander.js:186-266 | after the flight step f = Fly(...), the lander, keys and particles become Settle, KeysAfter and Blast of f; the game ends iff f is not flying on, and landed records whether f landed |
| Game.World.Frame | moon_lander.js:152-179 | dt = FrameDelta of the elapsed time; a finished game is frozen except that its particles are aged; a running game takes Update's step of dt and then ages the particles, so the particles become Aged(old + Blast, dt) |

## Left out

- Drawing: the canvas, the HUD, the flags and the flat-spot markers (moon_lander.js:338 onwards) only render state.
- Event wiring: the key listeners, the restart button and `location.reload`. The control flags are the lander's fields, set by whoever calls the model.
- `requestAnimationFrame`, `performance.now` and the `previousTime` bookkeeping. `World.Frame` takes the elapsed milliseconds as a parameter.
- Console logging and warnings: they have no effect on state.
- The star field (moon_lander.js:106-113, 157-163) is cosmetic.
- `Math.sin` and `Math.cos` are parameters. No trigonometry is modelled.
- `Math.random`: each operation receives its own stream. The program-wide order in which values are drawn by the generator, the stars and successive explosions is not modelled.
- IEEE doubles: the model uses reals.
  - The `isFinite` checks on `t` and on the interpolated window ends always pass over reals.
  - The `!p1 || !p2` guard never fires for indices inside the list.
  - `Infinity` is the `Infinite` case of `Spread`.
- The failsafe splice, sort and de-duplication (moon_lander.js:66-97) is proved unreachable and not modelled further. The `terrain.length === 0` fallback is kept in the code, but it cannot be reached either.
- `canvas.width` and `canvas.height` are taken to be 800 and 600.
- Game.FrameDelta: requires a non-negative elapsed time, which a monotonic clock gives; `Math.min` would pass a negative time through as a negative dt.
- Game.World.Frame: requires a non-negative elapsed time, for the same reason.
- Game.World.Update: requires the lander to start the frame with fuel in [0, 150] and x in [5, 795], which every state reachable from the start has.
