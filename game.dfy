/** The lander, the per-frame physics update and the landing qualifier,
    and the frame driver that gates the update on the game-over flag. */
module Game {
  import opened Terrain
  import opened Height
  import opened Flatness
  import opened Particles

  const GRAVITY: real := 3.5
  const THRUST_ACC: real := 8.0
  const ROTATION_SPEED: real := 2.0
  /** Fuel burnt per second of thrust. */
  const FUEL_BURN_RATE: real := 3.0
  const MAX_FUEL: real := 150.0
  /** Longest frame the physics integrates, in seconds. */
  const MAX_DELTA: real := 0.05
  /** Horizontal bounds of the lander's centre. */
  const X_MIN: real := 5.0
  const X_MAX: real := 795.0
  /** Leaving the screen above this y is a crash. */
  const TOP_LIMIT: real := -30.0
  /** Distance from the lander's centre to its bottom. */
  const HALF_HEIGHT: real := 20.0
  /** Height at which a crash through the top explodes. */
  const TOP_EXPLOSION_Y: real := 10.0
  /** Landing limits. */
  const MAX_ANGLE: real := 0.7
  const MAX_VY: real := 3.5
  const MAX_VX: real := 4.0

  /** The lander's numeric state. */
  datatype FlightState = FlightState(x: real, y: real, vx: real, vy: real, angle: real, fuel: real)

  /** The three control flags the key handlers set. */
  datatype Controls = Controls(thrusting: bool, rotatingLeft: bool, rotatingRight: bool)

  /** Keeps x inside [X_MIN, X_MAX]; a position that had to be moved
      loses its horizontal velocity. */
  function ClampX(x: real, vx: real): (r: (real, real))
    ensures X_MIN <= r.0 <= X_MAX
    ensures r.0 == x <==> X_MIN <= x <= X_MAX
    ensures r.0 == x ==> r.1 == vx
    ensures r.0 != x ==> r.1 == 0.0
    ensures x < X_MIN ==> r.0 == X_MIN
    ensures x > X_MAX ==> r.0 == X_MAX
  {
    if x < X_MIN then (X_MIN, 0.0)
    else if x > X_MAX then (X_MAX, 0.0)
    else (x, vx)
  }

  /** The angle after a frame of the rotation keys; it is not bounded. */
  function Rotated(angle: real, keys: Controls, dt: real): (r: real)
    ensures keys.rotatingLeft == keys.rotatingRight ==> r == angle
    ensures keys.rotatingLeft && !keys.rotatingRight ==> r == angle - ROTATION_SPEED * dt
    ensures keys.rotatingRight && !keys.rotatingLeft ==> r == angle + ROTATION_SPEED * dt
  {
    var left := if keys.rotatingLeft then angle - ROTATION_SPEED * dt else angle;
    if keys.rotatingRight then left + ROTATION_SPEED * dt else left
  }

  /** Change of velocity along one axis from a frame of thrust, given the
      sine or cosine of the lander's angle. */
  function ThrustDelta(component: real, dt: real): (r: real)
    ensures 0.0 <= dt && -1.0 <= component <= 1.0 ==> -THRUST_ACC * dt <= r <= THRUST_ACC * dt
    ensures 0.0 <= dt && component == 0.0 ==> r == 0.0
  {
    ScaleWithin(component, dt);
    THRUST_ACC * component * dt
  }

  /** A factor in [-1, 1] keeps a non-negative length within [-d, d]. */
  lemma ScaleWithin(c: real, d: real)
    ensures 0.0 <= d && -1.0 <= c <= 1.0 ==> -d <= c * d <= d
  {
    if 0.0 <= d && -1.0 <= c <= 1.0 {
      assert 0.0 <= (1.0 - c) * d;
      assert 0.0 <= (1.0 + c) * d;
    }
  }

  /** The flight part of a frame: rotation, thrust with fuel burn, gravity,
      position integrated by the new velocity (not scaled by dt again),
      and the horizontal clamp. sin and cos are applied to the rotated angle. */
  function Fly(s: FlightState, keys: Controls, dt: real, sin: real -> real, cos: real -> real): (r: FlightState)
    requires 0.0 <= s.fuel && 0.0 <= dt
    ensures 0.0 <= r.fuel <= s.fuel
    ensures r.fuel < s.fuel ==> keys.thrusting
    ensures X_MIN <= r.x <= X_MAX
    ensures r.vx == 0.0 || r.x == s.x + r.vx
    ensures r.y == s.y + r.vy
    ensures !keys.thrusting ==> r.vy == s.vy + GRAVITY * dt && r.x == ClampX(s.x + s.vx, s.vx).0
    ensures !keys.rotatingLeft && !keys.rotatingRight ==> r.angle == s.angle
  {
    var angle := Rotated(s.angle, keys, dt);
    var burning := keys.thrusting && s.fuel > 0.0;
    var vx := if burning then s.vx + ThrustDelta(sin(angle), dt) else s.vx;
    var vy := (if burning then s.vy - ThrustDelta(cos(angle), dt) else s.vy) + GRAVITY * dt;
    var burnt := s.fuel - FUEL_BURN_RATE * dt;
    var fuel := if !burning then s.fuel else if burnt < 0.0 then 0.0 else burnt;
    var clamped := ClampX(s.x + vx, vx);
    FlightState(clamped.0, s.y + vy, clamped.1, vy, angle, fuel)
  }

  /** The elapsed time of a frame in seconds, capped at MAX_DELTA. */
  function FrameDelta(elapsedMs: real): (dt: real)
    requires 0.0 <= elapsedMs
    ensures 0.0 <= dt <= MAX_DELTA
    ensures dt == elapsedMs / 1000.0 || dt == MAX_DELTA
    ensures elapsedMs / 1000.0 <= MAX_DELTA ==> dt == elapsedMs / 1000.0
  {
    if elapsedMs / 1000.0 < MAX_DELTA then elapsedMs / 1000.0 else MAX_DELTA
  }

  /** The landing test: flat ground, |angle| < 0.7, |vy| < 3.5 and
      |vx| < 4.0, every bound strict. */
  function Qualifies(isFlat: bool, s: FlightState): (r: bool)
    ensures r <==> isFlat && -MAX_ANGLE < s.angle < MAX_ANGLE && -MAX_VY < s.vy < MAX_VY && -MAX_VX < s.vx < MAX_VX
  {
    isFlat && Abs(s.angle) < MAX_ANGLE && Abs(s.vy) < MAX_VY && Abs(s.vx) < MAX_VX
  }

  lemma QualifiesBoundary(isFlat: bool, s: FlightState)
    ensures s.angle == 0.69 && s.vy == 3.4 && s.vx == 3.9 ==> Qualifies(isFlat, s) == isFlat
    ensures s.angle == 0.71 || s.vy == -3.5 || s.vx == 4.0 ==> !Qualifies(isFlat, s)
  {
  }

  /** How a physics step ends. */
  datatype Phase = Flying | Landed | Crashed

  /** The lander, in flight state f after the flight step, touches the
      ground: it has not left through the top and its bottom is below the
      ground. */
  function Touches(terrain: seq<Point>, f: FlightState): (r: bool)
    ensures r ==> TOP_LIMIT <= f.y
    ensures TOP_LIMIT <= f.y ==> (r <==> TerrainY(terrain, f.x) < f.y + HALF_HEIGHT)
  {
    TOP_LIMIT <= f.y && f.y + HALF_HEIGHT > TerrainY(terrain, f.x)
  }

  /** The outcome of the step: leaving through the top is a crash, checked
      before the ground; touching the ground lands when the qualifier holds
      and crashes otherwise; anything else flies on. */
  function Verdict(terrain: seq<Point>, f: FlightState): (r: Phase)
    ensures f.y < TOP_LIMIT ==> r == Crashed
    ensures r == Flying <==> TOP_LIMIT <= f.y && !Touches(terrain, f)
    ensures Touches(terrain, f) ==> r != Flying && (r == Landed <==> Qualifies(IsFlatSpot(terrain, f.x).isFlat, f))
  {
    if f.y < TOP_LIMIT then Crashed
    else if Touches(terrain, f) then
      (if Qualifies(IsFlatSpot(terrain, f.x).isFlat, f) then Landed else Crashed)
    else Flying
  }

  /** The lander's state at the end of the step: stopped after leaving
      through the top; set on the ground and stopped on contact, upright
      again when it landed; unchanged while flying. */
  function Settle(terrain: seq<Point>, f: FlightState): (r: FlightState)
    ensures r.x == f.x && r.fuel == f.fuel
    ensures Verdict(terrain, f) == Flying <==> r == f && !Touches(terrain, f) && TOP_LIMIT <= f.y
    ensures Verdict(terrain, f) != Flying ==> r.vx == 0.0 && r.vy == 0.0
    ensures Touches(terrain, f) ==> r.y + HALF_HEIGHT == TerrainY(terrain, f.x)
    ensures Verdict(terrain, f) == Landed ==> r.angle == 0.0
    ensures Verdict(terrain, f) == Crashed ==> r.angle == f.angle
  {
    if f.y < TOP_LIMIT then f.(vx := 0.0, vy := 0.0)
    else if Touches(terrain, f) then
      var landed := Qualifies(IsFlatSpot(terrain, f.x).isFlat, f);
      f.(y := TerrainY(terrain, f.x) - HALF_HEIGHT, vx := 0.0, vy := 0.0,
         angle := if landed then 0.0 else f.angle)
    else f
  }

  /** The explosion particles the step adds: a burst at (x, 10) after
      leaving through the top, a burst at the grounded lander after a crash
      on contact, none otherwise. */
  function Blast(terrain: seq<Point>, f: FlightState, random: nat -> real): (r: seq<Particle>)
    ensures |r| == if Verdict(terrain, f) == Crashed then PARTICLE_COUNT else 0
    ensures f.y < TOP_LIMIT ==> r == Burst(f.x, TOP_EXPLOSION_Y, random)
    ensures Touches(terrain, f) && !Qualifies(IsFlatSpot(terrain, f.x).isFlat, f) ==>
      r == Burst(f.x, TerrainY(terrain, f.x) - HALF_HEIGHT, random)
  {
    if f.y < TOP_LIMIT then Burst(f.x, TOP_EXPLOSION_Y, random)
    else if Touches(terrain, f) && !Qualifies(IsFlatSpot(terrain, f.x).isFlat, f) then
      Burst(f.x, TerrainY(terrain, f.x) - HALF_HEIGHT, random)
    else []
  }

  /** The control flags after the step: cleared on contact, kept otherwise. */
  function KeysAfter(terrain: seq<Point>, f: FlightState, keys: Controls): (r: Controls)
    ensures Touches(terrain, f) ==> !r.thrusting && !r.rotatingLeft && !r.rotatingRight
    ensures !Touches(terrain, f) ==> r == keys
  {
    if Touches(terrain, f) then Controls(false, false, false) else keys
  }

  /** A landing happens only on a flat spot, upright and slow, and leaves
      the lander at rest on the ground, upright, with no explosion. */
  lemma LandedMeansQualified(terrain: seq<Point>, f: FlightState, random: nat -> real)
    requires Verdict(terrain, f) == Landed
    ensures IsFlatSpot(terrain, f.x).isFlat
    ensures Abs(f.angle) < MAX_ANGLE && Abs(f.vy) < MAX_VY && Abs(f.vx) < MAX_VX
    ensures Settle(terrain, f) == f.(y := TerrainY(terrain, f.x) - HALF_HEIGHT, vx := 0.0, vy := 0.0, angle := 0.0)
    ensures Blast(terrain, f, random) == []
  {
  }

  /** Leaving through the top is always a crash, whatever the ground below,
      and the explosion is at height 10 above the lander's x. */
  lemma TopExitCrashes(terrain: seq<Point>, f: FlightState, random: nat -> real)
    requires f.y < TOP_LIMIT
    ensures Verdict(terrain, f) == Crashed && !Touches(terrain, f)
    ensures Settle(terrain, f) == f.(vx := 0.0, vy := 0.0)
    ensures Blast(terrain, f, random) == Burst(f.x, TOP_EXPLOSION_Y, random)
  {
  }

  /** On a generated terrain, after any step the lander's bottom is never
      below the ground. */
  lemma SettleAboveGround(terrain: seq<Point>, f: FlightState)
    requires OnGrid(terrain) && HeightsInRange(terrain)
    ensures Settle(terrain, f).y + HALF_HEIGHT <= TerrainY(terrain, f.x)
  {
    if f.y < TOP_LIMIT {
      TerrainYBounded(terrain, f.x, MIN_GROUND_Y, MAX_GROUND_Y);
    }
  }

  class Lander {
    var x: real
    var y: real
    var vx: real
    var vy: real
    var angle: real
    var thrusting: bool
    var rotatingLeft: bool
    var rotatingRight: bool
    var fuel: real

    ghost predicate Valid()
      reads this
    {
      0.0 <= fuel <= MAX_FUEL && X_MIN <= x <= X_MAX
    }

    ghost function Flight(): FlightState
      reads this
    {
      FlightState(x, y, vx, vy, angle, fuel)
    }

    ghost function Keys(): Controls
      reads this
    {
      Controls(thrusting, rotatingLeft, rotatingRight)
    }

    /** The flight part of update: rotation, thrust while fuel lasts, gravity,
        position, and the horizontal bounds. */
    method Move(dt: real, sin: real -> real, cos: real -> real)
      requires Valid() && 0.0 <= dt
      modifies this
      ensures Valid()
      ensures Flight() == Fly(old(Flight()), old(Keys()), dt, sin, cos)
      ensures Keys() == old(Keys())
    {
      Rotate(dt);
      Thrust(dt, sin, cos);
      // Gravity
      vy := vy + GRAVITY * dt;
      // Position
      x := x + vx;
      y := y + vy;
      ClampPosition();
    }

    /** Rotation: each held rotation key turns the lander. */
    method Rotate(dt: real)
      modifies this
      ensures angle == Rotated(old(angle), Keys(), dt)
      ensures x == old(x) && y == old(y) && vx == old(vx) && vy == old(vy) && fuel == old(fuel)
      ensures Keys() == old(Keys())
    {
      if rotatingLeft { angle := angle - ROTATION_SPEED * dt; }
      if rotatingRight { angle := angle + ROTATION_SPEED * dt; }
    }

    /** Thrust: a push along the lander's axis while there is fuel; the
        tank never goes below empty. */
    method Thrust(dt: real, sin: real -> real, cos: real -> real)
      modifies this
      ensures var burning := old(thrusting) && old(fuel) > 0.0;
        && vx == (if burning then old(vx) + ThrustDelta(sin(angle), dt) else old(vx))
        && vy == (if burning then old(vy) - ThrustDelta(cos(angle), dt) else old(vy))
        && fuel == (if !burning then old(fuel)
                    else if old(fuel) - FUEL_BURN_RATE * dt < 0.0 then 0.0
                    else old(fuel) - FUEL_BURN_RATE * dt)
      ensures x == old(x) && y == old(y) && angle == old(angle)
      ensures Keys() == old(Keys())
    {
      if thrusting && fuel > 0.0 {
        vx := vx + ThrustDelta(sin(angle), dt);
        vy := vy - ThrustDelta(cos(angle), dt);
        fuel := fuel - FUEL_BURN_RATE * dt;
        if fuel < 0.0 { fuel := 0.0; }
      }
    }

    /** Horizontal bounds: the lander is kept between x = 5 and x = 795. */
    method ClampPosition()
      modifies this
      ensures (x, vx) == ClampX(old(x), old(vx))
      ensures y == old(y) && vy == old(vy) && angle == old(angle) && fuel == old(fuel)
      ensures Keys() == old(Keys())
    {
      if x < X_MIN { x := X_MIN; vx := 0.0; }
      if x > X_MAX { x := X_MAX; vx := 0.0; }
    }

    /** After contact: both velocities and all control flags are cleared. */
    method Halt()
      modifies this
      ensures Flight() == old(Flight()).(vx := 0.0, vy := 0.0)
      ensures Keys() == Controls(false, false, false)
    {
      vx := 0.0;
      vy := 0.0;
      thrusting := false;
      rotatingLeft := false;
      rotatingRight := false;
    }

    /** Centre of the screen, near the top, at rest, upright, full tank. */
    constructor ()
      ensures Valid()
      ensures Flight() == FlightState(400.0, 100.0, 0.0, 0.0, 0.0, MAX_FUEL)
      ensures Keys() == Controls(false, false, false)
    {
      x, y, vx, vy, angle := 400.0, 100.0, 0.0, 0.0, 0.0;
      thrusting, rotatingLeft, rotatingRight := false, false, false;
      fuel := MAX_FUEL;
    }
  }

  /** The process-wide state of one run: terrain, lander, explosion
      particles, and the two game-over flags. */
  class World {
    const terrain: seq<Point>
    const lander: Lander
    const debris: Debris
    var gameOver: bool
    var landedSuccessfully: bool

    /** The terrain keeps the shape the generator gives it; the lander's
        fuel and position stay in range; a landing ends the game. */
    ghost predicate Valid()
      reads this, lander
    {
      OnGrid(terrain) && HeightsInRange(terrain) &&
      lander.Valid() && (landedSuccessfully ==> gameOver)
    }

    /** Page load: the terrain is generated from the random stream, the
        lander starts at its initial state, nothing has exploded yet. */
    constructor (random: nat -> real)
      requires UnitStream(random)
      ensures Valid() && fresh(lander) && fresh(debris)
      ensures OnGrid(terrain) && HeightsInRange(terrain) && TwoFlatRuns(terrain)
      ensures lander.Flight() == FlightState(400.0, 100.0, 0.0, 0.0, 0.0, MAX_FUEL)
      ensures lander.Keys() == Controls(false, false, false)
      ensures debris.particles == []
      ensures !gameOver && !landedSuccessfully
    {
      var t := GenerateTerrain(random);
      terrain := t;
      lander := new Lander();
      debris := new Debris();
      gameOver, landedSuccessfully := false, false;
    }

    /** One physics step. Left through the top (y < -30 after moving): a
        crash with an explosion at (x, 10), checked before the ground.
        Touching the ground (bottom below the terrain height): the lander is
        set on the ground and the qualifier decides Landed (angle reset to
        0) or Crashed (explosion at the lander); either way the game is
        over, velocities are zero and the control flags are cleared.
        Otherwise the lander just flies on. */
    method Update(dt: real, sin: real -> real, cos: real -> real, random: nat -> real)
      requires Valid() && 0.0 <= dt <= MAX_DELTA && UnitStream(random)
      modifies this, lander, debris
      ensures Valid()
      ensures var f := Fly(old(lander.Flight()), old(lander.Keys()), dt, sin, cos);
        var phase := Verdict(terrain, f);
        lander.Flight() == Settle(terrain, f) &&
        lander.Keys() == KeysAfter(terrain, f, old(lander.Keys())) &&
        debris.particles == old(debris.particles) + Blast(terrain, f, random) &&
        gameOver == (old(gameOver) || phase != Flying) &&
        landedSuccessfully == (if phase == Flying then old(landedSuccessfully) else phase == Landed)
    {
      lander.Move(dt, sin, cos);
      if lander.y < TOP_LIMIT {
        ExitThroughTop(random);
        return;
      }
      var terrainY := TerrainY(terrain, lander.x);
      if lander.y + HALF_HEIGHT > terrainY {
        Touchdown(terrainY, random);
      }
    }

    /** The lander left through the top: crash, explosion at (x, 10),
        velocities zeroed. */
    method ExitThroughTop(random: nat -> real)
      requires lander.Valid() && UnitStream(random)
      requires lander.y < TOP_LIMIT
      modifies this, lander, debris
      ensures lander.Valid()
      ensures gameOver && !landedSuccessfully
      ensures lander.Flight() == Settle(terrain, old(lander.Flight()))
      ensures lander.Keys() == KeysAfter(terrain, old(lander.Flight()), old(lander.Keys()))
      ensures debris.particles == old(debris.particles) + Blast(terrain, old(lander.Flight()), random)
    {
      gameOver := true;
      landedSuccessfully := false;
      debris.CreateExplosion(lander.x, TOP_EXPLOSION_Y, random);
      lander.vx := 0.0;
      lander.vy := 0.0;
    }

    /** The lander's bottom is below the ground height terrainY at its x:
        it is set on the ground, and the qualifier decides between Landed
        (angle reset to 0) and Crashed (explosion at the lander). */
    method Touchdown(terrainY: real, random: nat -> real)
      requires lander.Valid() && UnitStream(random)
      requires terrainY == TerrainY(terrain, lander.x)
      requires Touches(terrain, lander.Flight())
      modifies this, lander, debris
      ensures lander.Valid() && gameOver
      ensures landedSuccessfully == (Verdict(terrain, old(lander.Flight())) == Landed)
      ensures lander.Flight() == Settle(terrain, old(lander.Flight()))
      ensures lander.Keys() == KeysAfter(terrain, old(lander.Flight()), old(lander.Keys()))
      ensures debris.particles == old(debris.particles) + Blast(terrain, old(lander.Flight()), random)
    {
      ghost var f := lander.Flight();
      lander.y := terrainY - HALF_HEIGHT;
      var spot := IsFlatSpot(terrain, lander.x);
      var isUpright := Abs(lander.angle) < MAX_ANGLE;
      var isSlow := Abs(lander.vy) < MAX_VY && Abs(lander.vx) < MAX_VX;
      if spot.isFlat && isUpright && isSlow {
        landedSuccessfully := true;
        lander.angle := 0.0;
      } else {
        landedSuccessfully := false;
        debris.CreateExplosion(lander.x, lander.y, random);
      }
      gameOver := true;
      lander.Halt();
    }

    /** One animation frame: dt is the elapsed time in seconds, capped at
        0.05; the physics runs only while the game is not over; the
        explosion particles age on every frame, after the physics. */
    method Frame(elapsedMs: real, sin: real -> real, cos: real -> real, random: nat -> real)
      requires Valid() && 0.0 <= elapsedMs && UnitStream(random)
      modifies this, lander, debris
      ensures Valid()
      // A finished game is frozen: only the particles move on.
      ensures old(gameOver) ==>
        gameOver && landedSuccessfully == old(landedSuccessfully) &&
        lander.Flight() == old(lander.Flight()) && lander.Keys() == old(lander.Keys()) &&
        debris.particles == Aged(old(debris.particles), FrameDelta(elapsedMs))
      // A running game takes one physics step of FrameDelta(elapsedMs) seconds.
      ensures var dt := FrameDelta(elapsedMs);
        var f := Fly(old(lander.Flight()), old(lander.Keys()), dt, sin, cos);
        !old(gameOver) ==>
          lander.Flight() == Settle(terrain, f) &&
          lander.Keys() == KeysAfter(terrain, f, old(lander.Keys())) &&
          debris.particles == Aged(old(debris.particles) + Blast(terrain, f, random), dt) &&
          gameOver == (Verdict(terrain, f) != Flying) &&
          landedSuccessfully == (Verdict(terrain, f) == Landed)
    {
      var dt := FrameDelta(elapsedMs);
      if !gameOver {
        Update(dt, sin, cos, random);
      }
      debris.AgeParticles(dt);
    }
  }
}
