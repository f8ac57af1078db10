/**
 * The gravity field and the fixed-step integrator shared by the live puck and the aiming preview:
 * softened inverse-square pull of every planet, velocity update, damping, then the move.
 */
module Physics {
  import opened Numerics

  const G: real := 420000.0
  const TimeStep: real := 1.0 / 75.0
  const Damping: real := 0.999
  /** Added to the squared distance in the force denominator. */
  const Softening: real := 2800.0
  /** Added to the distance so that the direction never divides by zero. */
  const DistEpsilon: real := 0.0001
  const PuckRadius: real := 7.0
  /** Extra clearance added to planet radius plus puck radius in the crash tests. */
  const CrashMargin: real := 6.0
  /** The live crash test shrinks the squared crash distance by this factor. */
  const CrashShrink: real := 0.85
  /** How far beyond the canvas edges the live puck may travel before it is reset. */
  const LiveMargin: real := 150.0

  /** A gravitating body. Its visual rotation angle is not part of the model. */
  datatype Planet = Planet(pos: Vec, mass: real, radius: real, spin: real)

  /** Position and velocity of a point mass. */
  datatype Kin = Kin(pos: Vec, vel: Vec)

  /** Squared distance between two points. */
  function DistSq(a: Vec, b: Vec): (d: real)
    ensures d >= 0.0
  {
    Sq(a.x - b.x) + Sq(a.y - b.y)
  }

  /** Centre distance at which the puck touches a planet, clearance included. */
  function MinDist(p: Planet): real
  {
    p.radius + PuckRadius + CrashMargin
  }

  /** A crash test: squared distance below `shrink` times the squared crash distance. */
  predicate Crash(p: Planet, pos: Vec, shrink: real)
  {
    DistSq(p.pos, pos) < Sq(MinDist(p)) * shrink
  }

  predicate CrashAny(ps: seq<Planet>, pos: Vec, shrink: real)
  {
    exists i :: 0 <= i < |ps| && Crash(ps[i], pos, shrink)
  }

  /** The live step's crash test, with the 0.85 shrink. */
  predicate LiveCrashAny(ps: seq<Planet>, pos: Vec)
  {
    CrashAny(ps, pos, CrashShrink)
  }

  /** Softened force magnitude: G * mass / (distSq + 2800). */
  function SoftForce(p: Planet, distSq: real): real
    requires distSq >= 0.0
  {
    G * p.mass / (distSq + Softening)
  }

  /** Distance used for the direction: sqrt(distSq) + 0.0001, never zero. */
  function SoftDist(m: Math, distSq: real): (d: real)
    ensures d > 0.0
  {
    Sqrt(m, distSq) + DistEpsilon
  }

  /** Acceleration one planet gives a point: the softened force along (dx, dy) / SoftDist. */
  function Contribution(m: Math, p: Planet, pos: Vec): Vec
  {
    var dx := p.pos.x - pos.x;
    var dy := p.pos.y - pos.y;
    var distSq := DistSq(p.pos, pos);
    var dist := SoftDist(m, distSq);
    var force := SoftForce(p, distSq);
    Along(force, dist, dx, dy)
  }

  /** `(force * dx / dist, force * dy / dist)`: a force of the given size along (dx, dy) over `dist`. */
  function Along(force: real, dist: real, dx: real, dy: real): Vec
    requires dist != 0.0
  {
    Vec(force * dx / dist, force * dy / dist)
  }

  /** Sum of the contributions, accumulated planet by planet in list order. */
  function Accel(m: Math, ps: seq<Planet>, pos: Vec): Vec
    decreases |ps|
  {
    if ps == [] then Vec(0.0, 0.0)
    else
      var a := Accel(m, ps[..|ps| - 1], pos);
      var c := Contribution(m, ps[|ps| - 1], pos);
      Vec(a.x + c.x, a.y + c.y)
  }

  /**
   * The per-planet loop shared by the live step and the preview: it stops at the first planet
   * whose crash test (with the given shrink) fires and otherwise sums the planets' pull in order.
   */
  method GravityScan(m: Math, planets: seq<Planet>, pos: Vec, shrink: real) returns (crashed: bool, a: Vec)
    ensures crashed == CrashAny(planets, pos, shrink)
    ensures !crashed ==> a == Accel(m, planets, pos)
  {
    var ax, ay := 0.0, 0.0;
    var i := 0;
    while i < |planets|
      invariant 0 <= i <= |planets|
      invariant forall j :: 0 <= j < i ==> !Crash(planets[j], pos, shrink)
      invariant Vec(ax, ay) == Accel(m, planets[..i], pos)
    {
      if Crash(planets[i], pos, shrink) {
        return true, Vec(ax, ay);
      }
      var c := Contribution(m, planets[i], pos);
      assert planets[..i + 1][..i] == planets[..i];
      ax := ax + c.x;
      ay := ay + c.y;
      i := i + 1;
    }
    assert planets[..|planets|] == planets;
    return false, Vec(ax, ay);
  }

  /**
   * One integrator step of `TimeStep` without the crash test: accelerate, damp, then move.
   * The frame loop always passes the fixed step, so the step length is not a parameter.
   */
  function Integrate(m: Math, ps: seq<Planet>, k: Kin): Kin
  {
    var a := Accel(m, ps, k.pos);
    var vx := (k.vel.x + a.x * TimeStep) * Damping;
    var vy := (k.vel.y + a.y * TimeStep) * Damping;
    Kin(Vec(k.pos.x + vx * TimeStep, k.pos.y + vy * TimeStep), Vec(vx, vy))
  }

  /**
   * One step of the integrator as both loops of the game run it: the planet scan (which stops at
   * a crash), then velocity += a * TimeStep, velocity *= 0.999, position += velocity * TimeStep.
   */
  method Advance(m: Math, planets: seq<Planet>, k: Kin, shrink: real) returns (hit: bool, next: Kin)
    ensures hit == CrashAny(planets, k.pos, shrink)
    ensures !hit ==> next == Integrate(m, planets, k)
  {
    var a;
    hit, a := GravityScan(m, planets, k.pos, shrink);
    if hit {
      return true, k;
    }
    var vx, vy := k.vel.x, k.vel.y;
    vx := vx + a.x * TimeStep;
    vy := vy + a.y * TimeStep;
    vx := vx * Damping;
    vy := vy * Damping;
    next := Kin(Vec(k.pos.x + vx * TimeStep, k.pos.y + vy * TimeStep), Vec(vx, vy));
  }

  /** Whether a point lies more than `margin` beyond some edge of a width-by-height canvas. */
  predicate OutOfBounds(pos: Vec, width: real, height: real, margin: real)
  {
    pos.x < -margin || pos.x > width + margin || pos.y < -margin || pos.y > height + margin
  }

  function SpeedSq(v: Vec): real
  {
    v.x * v.x + v.y * v.y
  }

  lemma MulDiv(f: real, x: real, d: real)
    requires d != 0.0
    ensures f * x / d == (f / d) * x
  {
  }

  lemma ScaledSign(s: real, x: real)
    requires s > 0.0
    ensures (s * x) * x >= 0.0
    ensures x != 0.0 ==> s * x != 0.0
  {
    if x > 0.0 {
      assert s * x > 0.0;
    } else if x < 0.0 {
      assert s * (-x) > 0.0;
    }
  }

  lemma ScaledSpeed(d: real, v: Vec)
    ensures SpeedSq(Vec(v.x * d, v.y * d)) == (d * d) * SpeedSq(v)
  {
  }

  /** A planet with positive mass pulls a point towards its centre, and never pushes it away. */
  lemma PullsTowardPlanet(m: Math, p: Planet, pos: Vec)
    requires p.mass > 0.0
    ensures PointsAlong(Contribution(m, p, pos), p.pos.x - pos.x, p.pos.y - pos.y)
  {
    var distSq := DistSq(p.pos, pos);
    var force, dist := SoftForce(p, distSq), SoftDist(m, distSq);
    assert force > 0.0;
    assert Contribution(m, p, pos) == Along(force, dist, p.pos.x - pos.x, p.pos.y - pos.y);
    AlongDirection(force, dist, p.pos.x - pos.x, p.pos.y - pos.y);
  }

  /**
   * `c` points along (dx, dy): each component has the sign of the matching offset, the two are
   * in proportion, and `c` is zero only when the offset is.
   */
  predicate PointsAlong(c: Vec, dx: real, dy: real)
  {
    && c.x * dx >= 0.0 && c.y * dy >= 0.0
    && c.x * dy == c.y * dx
    && ((dx, dy) != (0.0, 0.0) ==> c != Vec(0.0, 0.0))
  }

  /** With force and dist positive, `Along` points along (dx, dy). */
  lemma AlongDirection(force: real, dist: real, dx: real, dy: real)
    requires force > 0.0 && dist > 0.0
    ensures PointsAlong(Along(force, dist, dx, dy), dx, dy)
  {
    var s := force / dist;
    assert s > 0.0;
    MulDiv(force, dx, dist);
    MulDiv(force, dy, dist);
    ScaledSign(s, dx);
    ScaledSign(s, dy);
    assert (s * dx) * dy == (s * dy) * dx;
  }

  /** A point sitting on a planet's centre fails the live crash test, whatever its velocity. */
  lemma CrashAtPlanetCentre(p: Planet)
    requires p.radius >= 0.0
    ensures Crash(p, p.pos, CrashShrink)
  {
    assert MinDist(p) >= 13.0;
    assert Sq(MinDist(p)) >= 169.0;
  }

  /** In empty space each step multiplies the squared speed by exactly 0.999 squared: the drag that bounds the energy. */
  lemma DampingInFreeSpace(m: Math, k: Kin)
    ensures SpeedSq(Integrate(m, [], k).vel) == Damping * Damping * SpeedSq(k.vel)
  {
    assert Accel(m, [], k.pos) == Vec(0.0, 0.0);
    assert Integrate(m, [], k).vel == Vec(k.vel.x * Damping, k.vel.y * Damping);
    ScaledSpeed(Damping, k.vel);
  }
}
