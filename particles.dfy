/** The explosion particle system: a burst of 30 particles on every crash,
    and the per-frame aging that moves particles and removes the dead ones
    in place. */
module Particles {
  import opened Terrain

  const PARTICLE_COUNT: int := 30
  const PARTICLE_LIFE: real := 1.5
  const PARTICLE_DECAY: real := 2.0
  /** Particles get half of the lander's gravity. */
  const PARTICLE_GRAVITY: real := 1.75
  /** Velocity components are (r - 0.5) * 12 for a random r in [0, 1). */
  const PARTICLE_SPEED: real := 12.0
  /** Sizes are 2 + 5 * r for a random r in [0, 1). */
  const PARTICLE_MIN_SIZE: real := 2.0
  const PARTICLE_SIZE_SPREAD: real := 5.0

  datatype Particle = Particle(x: real, y: real, vx: real, vy: real, size: real, life: real, decay: real)

  /** The i-th particle of a burst at (x, y); it draws the random values
      3i, 3i + 1 and 3i + 2 for vx, vy and size. */
  function Spark(x: real, y: real, random: nat -> real, i: nat): (r: Particle)
    ensures r.x == x && r.y == y && r.life == PARTICLE_LIFE && r.decay == PARTICLE_DECAY
    ensures 0.0 <= random(3 * i) < 1.0 ==> -6.0 <= r.vx < 6.0
    ensures 0.0 <= random(3 * i + 1) < 1.0 ==> -6.0 <= r.vy < 6.0
    ensures 0.0 <= random(3 * i + 2) < 1.0 ==> 2.0 <= r.size < 7.0
  {
    Particle(x, y,
             (random(3 * i) - 0.5) * PARTICLE_SPEED,
             (random(3 * i + 1) - 0.5) * PARTICLE_SPEED,
             random(3 * i + 2) * PARTICLE_SIZE_SPREAD + PARTICLE_MIN_SIZE,
             PARTICLE_LIFE, PARTICLE_DECAY)
  }

  /** The particles one explosion at (x, y) adds, in creation order. */
  function Burst(x: real, y: real, random: nat -> real): (r: seq<Particle>)
    ensures |r| == PARTICLE_COUNT
  {
    Sparks(x, y, random, PARTICLE_COUNT)
  }

  /** The first n particles of a burst. */
  function Sparks(x: real, y: real, random: nat -> real, n: nat): (r: seq<Particle>)
    ensures |r| == n
  {
    if n == 0 then [] else Sparks(x, y, random, n - 1) + [Spark(x, y, random, n - 1)]
  }

  /** Every particle of a burst sits at the explosion point with life 1.5
      and decay 2.0, velocity components in [-6, 6) and size in [2, 7). */
  ghost predicate FreshSpark(p: Particle, x: real, y: real)
  {
    p.x == x && p.y == y && p.life == PARTICLE_LIFE && p.decay == PARTICLE_DECAY &&
    -6.0 <= p.vx < 6.0 && -6.0 <= p.vy < 6.0 && 2.0 <= p.size < 7.0
  }

  lemma {:induction false} SparksShape(x: real, y: real, random: nat -> real, n: nat)
    requires UnitStream(random)
    ensures forall k :: 0 <= k < n ==> FreshSpark(Sparks(x, y, random, n)[k], x, y)
  {
    if n > 0 {
      SparksShape(x, y, random, n - 1);
      var s := Sparks(x, y, random, n);
      assert forall k :: 0 <= k < n - 1 ==> s[k] == Sparks(x, y, random, n - 1)[k];
      assert s[n - 1] == Spark(x, y, random, n - 1);
    }
  }

  /** A burst holds 30 particles, each a fresh spark at (x, y). */
  lemma BurstShape(x: real, y: real, random: nat -> real)
    requires UnitStream(random)
    ensures |Burst(x, y, random)| == PARTICLE_COUNT
    ensures forall p :: p in Burst(x, y, random) ==> FreshSpark(p, x, y)
  {
    SparksShape(x, y, random, PARTICLE_COUNT);
  }

  /** One frame of motion for a particle: half gravity on vy first, then
      the position moves by the velocity, and life drops by decay * dt. */
  function Tick(p: Particle, dt: real): (r: Particle)
    ensures r.vx == p.vx && r.size == p.size && r.decay == p.decay
    ensures r.x - p.x == p.vx && r.y - p.y == r.vy
    ensures 0.0 <= dt ==> r.vy >= p.vy
    ensures 0.0 <= dt && 0.0 <= p.decay ==> r.life <= p.life
  {
    var vy := p.vy + PARTICLE_GRAVITY * dt;
    p.(x := p.x + p.vx, y := p.y + vy, vy := vy, life := p.life - p.decay * dt)
  }

  /** The particle list one frame later: every particle ticked, those whose
      life is then <= 0 dropped, the rest kept in their order. */
  function Aged(ps: seq<Particle>, dt: real): (r: seq<Particle>)
    ensures |r| <= |ps|
    ensures forall q :: q in r ==> q.life > 0.0
  {
    if |ps| == 0 then []
    else
      var p := Tick(ps[0], dt);
      (if p.life > 0.0 then [p] else []) + Aged(ps[1..], dt)
  }

  /** Aging a concatenation ages each part: survivors keep their relative order. */
  lemma {:induction false} AgedAppend(a: seq<Particle>, b: seq<Particle>, dt: real)
    ensures Aged(a + b, dt) == Aged(a, dt) + Aged(b, dt)
  {
    if |a| > 0 {
      assert (a + b)[1..] == a[1..] + b;
      AgedAppend(a[1..], b, dt);
    } else {
      assert a + b == b;
    }
  }

  /** A particle is in the aged list exactly when it is the tick of some
      particle of the old list and its life is still positive. */
  lemma {:induction false} AgedMembers(ps: seq<Particle>, dt: real, q: Particle)
    ensures q in Aged(ps, dt) <==> q.life > 0.0 && exists p :: p in ps && Tick(p, dt) == q
  {
    if |ps| > 0 {
      AgedMembers(ps[1..], dt, q);
      assert forall p :: p in ps <==> p == ps[0] || p in ps[1..];
    }
  }

  /** When no particle expires in this frame, none is removed. */
  lemma {:induction false} AgedKeepsAllLiving(ps: seq<Particle>, dt: real)
    requires forall k :: 0 <= k < |ps| ==> Tick(ps[k], dt).life > 0.0
    ensures |Aged(ps, dt)| == |ps|
    ensures forall k :: 0 <= k < |ps| ==> Aged(ps, dt)[k] == Tick(ps[k], dt)
  {
    if |ps| > 0 {
      assert forall k :: 1 <= k < |ps| ==> ps[k] == ps[1..][k - 1];
      AgedKeepsAllLiving(ps[1..], dt);
    }
  }

  /** Aging the suffix from index i is aging its first particle, then the rest. */
  lemma AgedFrom(ps: seq<Particle>, i: int, dt: real)
    requires 0 <= i < |ps|
    ensures Aged(ps[i..], dt) ==
      (if Tick(ps[i], dt).life > 0.0 then [Tick(ps[i], dt)] else []) + Aged(ps[i + 1..], dt)
  {
    assert ps[i..][1..] == ps[i + 1..];
  }

  /** Removing or replacing the particle at i of original[..i + 1] + rest. */
  lemma Splice(original: seq<Particle>, rest: seq<Particle>, i: int, p: Particle)
    requires 0 <= i < |original|
    ensures var s := original[..i + 1] + rest;
      s[..i] + s[i + 1..] == original[..i] + rest &&
      s[i := p] == original[..i] + [p] + rest
  {
    var s := original[..i + 1] + rest;
    assert s[..i] == original[..i];
    assert s[i + 1..] == rest;
  }

  /** The explosion particles owned by the frame driver. */
  class Debris {
    var particles: seq<Particle>

    constructor ()
      ensures particles == []
    {
      particles := [];
    }

    /** Appends the 30 particles of an explosion at (x, y); the particles
        already present are left as they are. */
    method CreateExplosion(x: real, y: real, random: nat -> real)
      requires UnitStream(random)
      modifies this
      ensures particles == old(particles) + Burst(x, y, random)
    {
      var i := 0;
      while i < PARTICLE_COUNT
        invariant 0 <= i <= PARTICLE_COUNT
        invariant particles == old(particles) + Sparks(x, y, random, i)
      {
        particles := particles + [Spark(x, y, random, i)];
        i := i + 1;
      }
    }

    /** Walks the list from its end to its start, ticking each particle in
        place and splicing out those whose life has run out. */
    method AgeParticles(dt: real)
      modifies this
      ensures particles == Aged(old(particles), dt)
    {
      ghost var original := particles;
      ghost var survivors: seq<Particle> := [];   // the aged suffix after index i
      var i := |particles| - 1;
      while i >= 0
        invariant -1 <= i < |original|
        invariant survivors == Aged(original[i + 1..], dt)
        invariant particles == original[..i + 1] + survivors
      {
        var p := Tick(particles[i], dt);
        assert particles[i] == original[i];
        AgedFrom(original, i, dt);
        Splice(original, survivors, i, p);
        if p.life <= 0.0 {
          particles := particles[..i] + particles[i + 1..];
        } else {
          particles := particles[i := p];
          survivors := [p] + survivors;
        }
        assert survivors == Aged(original[i..], dt) && particles == original[..i] + survivors;
        i := i - 1;
      }
      assert original[0..] == original;
    }
  }
}
