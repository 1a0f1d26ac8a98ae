/** The animated particle field drawn behind the page (class ParticleBackground).
    Positions are CSS pixels, velocities are pixels per nominal 16 ms frame.
    Drawing on the canvas is not modelled; the random draws are an input. */
module Particles {

  /** An RGB colour triple. */
  datatype Rgb = Rgb(red: int, green: int, blue: int)

  /** The two palettes a particle can be given. */
  const GOLD: Rgb := Rgb(255, 215, 0)
  const RED: Rgb := Rgb(255, 68, 68)

  /** One particle: position, radius, velocity, colour and alpha. */
  datatype Particle = Particle(x: real, y: real, r: real, vx: real, vy: real, rgb: Rgb, a: real)

  /** Uniform draws one particle consumes, in the order x, y, r, vx, vy, rgb, a. */
  const DRAWS_PER_PARTICLE: nat := 7

  const AREA_PER_PARTICLE: nat := 24000
  const MIN_PARTICLES: nat := 18
  const MAX_PARTICLES: nat := 60

  /** Longest frame, in milliseconds, a single step may advance by. */
  const MAX_FRAME_MS: real := 32.0
  /** Length of a nominal frame, in milliseconds. */
  const STEP_MS: real := 16.0
  /** How far past an edge a particle may drift before it wraps. */
  const MARGIN: real := 10.0

  function Min(a: int, b: int): int { if a <= b then a else b }
  function Max(a: int, b: int): int { if a >= b then a else b }

  /** Number of particles for a viewport of the given area, in CSS pixels:
      one per 24000 pixels, at least 18 and at most 60. */
  function ParticleCount(area: nat): (n: nat)
    ensures MIN_PARTICLES <= n <= MAX_PARTICLES
    ensures n == MAX_PARTICLES <==> area >= MAX_PARTICLES * AREA_PER_PARTICLE
    ensures n == MIN_PARTICLES <==> area < (MIN_PARTICLES + 1) * AREA_PER_PARTICLE
    ensures MIN_PARTICLES < n < MAX_PARTICLES ==>
              n * AREA_PER_PARTICLE <= area < (n + 1) * AREA_PER_PARTICLE
  {
    Min(MAX_PARTICLES, Max(MIN_PARTICLES, area / AREA_PER_PARTICLE))
  }

  /** Number of particles for a viewport of width w and height h. */
  function Count(w: nat, h: nat): nat {
    ParticleCount(w * h)
  }

  /** Elapsed time a frame advances by: the time since the last frame, but never more than 32 ms. */
  function FrameDelta(last: real, now: real): (dt: real)
    ensures dt <= MAX_FRAME_MS
    ensures dt <= now - last
    ensures dt == MAX_FRAME_MS || dt == now - last
  {
    if now - last < MAX_FRAME_MS then now - last else MAX_FRAME_MS
  }

  /** Every draw lies in [0, 1), as the host's uniform generator promises. */
  predicate Unit(d: seq<real>) {
    forall i :: 0 <= i < |d| ==> 0.0 <= d[i] < 1.0
  }

  /** The ranges a freshly spawned particle's radius, velocity, colour and alpha lie in. */
  predicate Seeded(p: Particle) {
    && 0.6 <= p.r < 2.8
    && -0.175 <= p.vx < 0.175
    && -0.175 <= p.vy < 0.175
    && 0.12 <= p.a < 0.57
    && (p.rgb == GOLD || p.rgb == RED)
  }

  /** The position lies within 10 pixels of the viewport on both axes. */
  predicate InBand(w: nat, h: nat, p: Particle) {
    && -MARGIN <= p.x <= w as real + MARGIN
    && -MARGIN <= p.y <= h as real + MARGIN
  }

  predicate WellFormed(w: nat, h: nat, p: Particle) {
    InBand(w, h, p) && Seeded(p)
  }

  /** The particle attributes a frame step never changes. */
  predicate SameBody(p: Particle, q: Particle) {
    p.r == q.r && p.vx == q.vx && p.vy == q.vy && p.rgb == q.rgb && p.a == q.a
  }

  /** A draw in [0, 1) scaled to [0, e). */
  function Scale(d: real, e: real): (r: real)
    ensures 0.0 <= d < 1.0 && 0.0 <= e ==> 0.0 <= r <= e
    ensures 0.0 <= d < 1.0 && 0.0 < e ==> r < e
  {
    ScaleBounds(d, e);
    d * e
  }

  lemma ScaleBounds(d: real, e: real)
    ensures 0.0 <= d < 1.0 && 0.0 <= e ==> 0.0 <= d * e <= e
    ensures 0.0 <= d < 1.0 && 0.0 < e ==> d * e < e
  {
    if 0.0 <= d < 1.0 && 0.0 <= e {
      assert e - d * e == (1.0 - d) * e;
    }
  }

  /** A particle made from seven consecutive draws. */
  function Spawn(w: nat, h: nat, d: seq<real>): (p: Particle)
    requires |d| == DRAWS_PER_PARTICLE
    ensures p.rgb == GOLD || p.rgb == RED
    ensures Unit(d) ==> Seeded(p)
    ensures Unit(d) ==> 0.0 <= p.x <= w as real && (w > 0 ==> p.x < w as real)
    ensures Unit(d) ==> 0.0 <= p.y <= h as real && (h > 0 ==> p.y < h as real)
  {
    assert Unit(d) ==> 0.0 <= d[0] < 1.0 && 0.0 <= d[1] < 1.0;
    Particle(
      Scale(d[0], w as real),
      Scale(d[1], h as real),
      d[2] * 2.2 + 0.6,
      (d[3] - 0.5) * 0.35,
      (d[4] - 0.5) * 0.35,
      if d[5] > 0.5 then GOLD else RED,
      d[6] * 0.45 + 0.12)
  }

  /** The first n particles spawned from draws, particle i from draws 7i to 7i+6. */
  function Spawned(w: nat, h: nat, draws: seq<real>, n: nat): (ps: seq<Particle>)
    requires |draws| >= DRAWS_PER_PARTICLE * n
    ensures |ps| == n
    ensures forall i :: 0 <= i < n ==>
              ps[i] == Spawn(w, h, draws[DRAWS_PER_PARTICLE * i .. DRAWS_PER_PARTICLE * i + DRAWS_PER_PARTICLE])
    decreases n
  {
    if n == 0 then []
    else
      var k := DRAWS_PER_PARTICLE * (n - 1);
      Spawned(w, h, draws, n - 1) + [Spawn(w, h, draws[k .. k + DRAWS_PER_PARTICLE])]
  }

  /** Given uniform draws in [0, 1), every spawned particle is well formed. */
  lemma SpawnedWellFormed(w: nat, h: nat, draws: seq<real>, n: nat)
    requires |draws| >= DRAWS_PER_PARTICLE * n && Unit(draws)
    ensures forall i :: 0 <= i < n ==> WellFormed(w, h, Spawned(w, h, draws, n)[i])
  {
    var ps := Spawned(w, h, draws, n);
    forall i | 0 <= i < n
      ensures WellFormed(w, h, ps[i])
    {
      var k := DRAWS_PER_PARTICLE * i;
      var d := draws[k .. k + DRAWS_PER_PARTICLE];
      assert Unit(d) by {
        forall j | 0 <= j < |d| ensures 0.0 <= d[j] < 1.0 {
          assert d[j] == draws[k + j];
        }
      }
    }
  }

  /** Wraparound on one axis: a coordinate more than 10 pixels before the low edge
      jumps to 10 pixels past the high edge, and the other way round. */
  function Wrap(c: real, extent: nat): (r: real)
    ensures -MARGIN <= r <= extent as real + MARGIN
    ensures -MARGIN <= c <= extent as real + MARGIN ==> r == c
    ensures c < -MARGIN ==> r == extent as real + MARGIN
    ensures c > extent as real + MARGIN ==> r == -MARGIN
  {
    if c < -MARGIN then extent as real + MARGIN
    else if c > extent as real + MARGIN then -MARGIN
    else c
  }

  /** How far a velocity of v pixels per 16 ms frame carries a particle in dt milliseconds. */
  function Displacement(v: real, dt: real): real {
    v * (dt / STEP_MS)
  }

  /** One particle after a frame of dt milliseconds: moved by v * dt / 16, then wrapped. */
  function Advance(w: nat, h: nat, dt: real, p: Particle): (q: Particle)
    ensures InBand(w, h, q)
    ensures SameBody(p, q)
  {
    p.(x := Wrap(p.x + Displacement(p.vx, dt), w),
       y := Wrap(p.y + Displacement(p.vy, dt), h))
  }

  /** A frame step keeps a particle's spawn ranges, and a particle whose displaced
      position is inside the band moves by exactly v * dt / 16. */
  lemma AdvanceMoves(w: nat, h: nat, dt: real, p: Particle)
    ensures Seeded(p) ==> Seeded(Advance(w, h, dt, p))
    ensures InBand(w, h, p.(x := p.x + Displacement(p.vx, dt), y := p.y + Displacement(p.vy, dt))) ==>
              Advance(w, h, dt, p).x == p.x + Displacement(p.vx, dt) &&
              Advance(w, h, dt, p).y == p.y + Displacement(p.vy, dt)
  {
  }

  /** Every particle advanced by one frame. */
  function StepAll(w: nat, h: nat, dt: real, ps: seq<Particle>): (qs: seq<Particle>)
    ensures |qs| == |ps|
    ensures forall i :: 0 <= i < |ps| ==> InBand(w, h, qs[i]) && SameBody(ps[i], qs[i])
  {
    seq(|ps|, i requires 0 <= i < |ps| => Advance(w, h, dt, ps[i]))
  }

  /** The particles after one frame per timestamp in times, starting from the timestamp last. */
  function Frames(w: nat, h: nat, last: real, ps: seq<Particle>, times: seq<real>): (qs: seq<Particle>)
    ensures |qs| == |ps|
    decreases |times|
  {
    if times == [] then ps
    else Frames(w, h, times[0], StepAll(w, h, FrameDelta(last, times[0]), ps), times[1..])
  }

  /** After any non-empty sequence of frames the particle count and every particle's radius,
      velocity, colour and alpha are as before, and every particle lies in the band,
      wherever the particles started. */
  lemma {:induction false} FramesStayInBand(w: nat, h: nat, last: real, ps: seq<Particle>, times: seq<real>)
    requires times != []
    decreases |times|
    ensures |Frames(w, h, last, ps, times)| == |ps|
    ensures forall i :: 0 <= i < |ps| ==>
              InBand(w, h, Frames(w, h, last, ps, times)[i]) &&
              SameBody(ps[i], Frames(w, h, last, ps, times)[i])
  {
    var qs := StepAll(w, h, FrameDelta(last, times[0]), ps);
    if |times| > 1 {
      FramesStayInBand(w, h, times[0], qs, times[1..]);
    }
  }

  /** The particle field: the viewport size it was laid out for, the timestamp of the
      last frame, and the particles. */
  class ParticleField {
    var width: nat
    var height: nat
    var last: real
    var particles: seq<Particle>

    /** The field holds exactly the right number of particles for its viewport,
        each in the band with its spawn-time attributes. */
    ghost predicate Valid()
      reads this
    {
      && |particles| == Count(width, height)
      && forall i :: 0 <= i < |particles| ==> WellFormed(width, height, particles[i])
    }

    /** Lays the field out for a w by h viewport at time now and spawns its particles. */
    constructor (w: nat, h: nat, now: real, draws: seq<real>)
      requires |draws| >= DRAWS_PER_PARTICLE * Count(w, h)
      ensures width == w && height == h && last == now
      ensures particles == Spawned(w, h, draws, Count(w, h))
      ensures Unit(draws) ==> Valid()
    {
      width, height, last, particles := w, h, now, [];
      new;
      InitParticles(draws);
    }

    /** Throws the old particles away and spawns Count(width, height) new ones, particle i
        from draws 7i to 7i+6; nothing of the old set survives. */
    method InitParticles(draws: seq<real>)
      requires |draws| >= DRAWS_PER_PARTICLE * Count(width, height)
      modifies this
      ensures width == old(width) && height == old(height) && last == old(last)
      ensures particles == Spawned(width, height, draws, Count(width, height))
      ensures Unit(draws) ==> Valid()
    {
      particles := [];
      var count := Count(width, height);
      for i := 0 to count
        invariant width == old(width) && height == old(height) && last == old(last)
        invariant particles == Spawned(width, height, draws, i)
      {
        var k := DRAWS_PER_PARTICLE * i;
        particles := particles + [Spawn(width, height, draws[k .. k + DRAWS_PER_PARTICLE])];
      }
      if Unit(draws) {
        SpawnedWellFormed(width, height, draws, count);
      }
    }

    /** The viewport changed to w by h: the field is laid out anew. */
    method Resize(w: nat, h: nat, draws: seq<real>)
      requires |draws| >= DRAWS_PER_PARTICLE * Count(w, h)
      modifies this
      ensures width == w && height == h && last == old(last)
      ensures particles == Spawned(w, h, draws, Count(w, h))
      ensures Unit(draws) ==> Valid()
    {
      width, height := w, h;
      InitParticles(draws);
    }

    /** One animation frame at timestamp now: every particle moves by its velocity
        times dt / 16, with dt = min(32, now - last), and wraps on each axis. */
    method Animate(now: real)
      modifies this
      ensures width == old(width) && height == old(height) && last == now
      ensures particles == StepAll(width, height, FrameDelta(old(last), now), old(particles))
      ensures forall i :: 0 <= i < |particles| ==>
                InBand(width, height, particles[i]) && SameBody(old(particles)[i], particles[i])
      ensures old(Valid()) ==> Valid()
    {
      var dt := FrameDelta(last, now);
      last := now;
      ghost var before := particles;
      var w, h := width as real, height as real;
      var i := 0;
      while i < |particles|
        invariant width == old(width) && height == old(height) && last == now
        invariant 0 <= i <= |particles| == |before|
        invariant forall k :: 0 <= k < i ==> particles[k] == Advance(width, height, dt, before[k])
        invariant forall k :: i <= k < |particles| ==> particles[k] == before[k]
      {
        var p := particles[i];
        assert p == before[i];
        var x := p.x + Displacement(p.vx, dt);
        var y := p.y + Displacement(p.vy, dt);
        ghost var x0, y0 := x, y;
        if x < -MARGIN { x := w + MARGIN; }
        if x > w + MARGIN { x := -MARGIN; }
        if y < -MARGIN { y := h + MARGIN; }
        if y > h + MARGIN { y := -MARGIN; }
        assert x == Wrap(x0, width) && y == Wrap(y0, height);
        assert p.(x := x, y := y) == Advance(width, height, dt, before[i]);
        particles := particles[i := p.(x := x, y := y)];
        i := i + 1;
      }
      forall k | 0 <= k < |particles|
        ensures InBand(width, height, particles[k]) && SameBody(before[k], particles[k])
        ensures Seeded(before[k]) ==> Seeded(particles[k])
      {
        AdvanceMoves(width, height, dt, before[k]);
      }
    }
  }
}
