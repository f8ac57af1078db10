/**
 * The aiming preview: a look-ahead that runs the integrator from the launcher for at most 80
 * steps without touching game state, keeps the position after every even-numbered step, and stops
 * at the first step that would crash or leave a 200-pixel margin. Its crash test has no 0.85
 * shrink factor, so it is stricter than the live one.
 *
 * The look-ahead is defined over any step function and any crash test, so that its structural
 * lemmas do not depend on the gravity arithmetic; `StepFn` and `Crashed` are the game's own.
 */
module Preview {
  import opened Numerics
  import opened Physics
  import opened Launch

  const PreviewSteps: nat := 80
  const PreviewMargin: real := 200.0

  /** The preview's crash test compares against the full squared crash distance: no 0.85 shrink. */
  const PreviewShrink: real := 1.0

  predicate PreviewCrashAny(ps: seq<Planet>, pos: Vec)
  {
    CrashAny(ps, pos, PreviewShrink)
  }

  /** Every position the live step treats as a crash also stops the preview. */
  lemma LiveCrashStopsPreview(ps: seq<Planet>, pos: Vec)
    requires LiveCrashAny(ps, pos)
    ensures PreviewCrashAny(ps, pos)
  {
    var i :| 0 <= i < |ps| && Crash(ps[i], pos, CrashShrink);
    assert Crash(ps[i], pos, PreviewShrink);
  }

  /** The integrator step the preview repeats, in the field of `ps`. */
  function StepFn(m: Math, ps: seq<Planet>): Kin -> Kin
  {
    k => Integrate(m, ps, k)
  }

  /** The preview's crash test as a predicate on positions. */
  function Crashed(ps: seq<Planet>): Vec -> bool
  {
    pos => PreviewCrashAny(ps, pos)
  }

  /** Where a preview starts: at the launcher, moving at `speed` in direction `angle`. */
  function LaunchState(m: Math, launcher: Vec, angle: real, speed: real): Kin
  {
    Kin(launcher, LaunchVelocity(m, angle, speed))
  }

  /** The state after `n` steps from `k0`, crash tests ignored. */
  function Orbit(step: Kin -> Kin, k0: Kin, n: nat): Kin
  {
    if n == 0 then k0 else step(Orbit(step, k0, n - 1))
  }

  /** The points the preview produces from step `i` on, the state before that step being `k`. */
  function PreviewFrom(step: Kin -> Kin, crashed: Vec -> bool, width: real, height: real, k: Kin, i: nat): seq<Vec>
    decreases PreviewSteps - i
  {
    if i >= PreviewSteps || crashed(k.pos) then []
    else
      var next := step(k);
      if OutOfBounds(next.pos, width, height, PreviewMargin) then []
      else (if i % 2 == 0 then [next.pos] else []) + PreviewFrom(step, crashed, width, height, next, i + 1)
  }

  /** The game's preview for a launch from `k0` among `ps` on a width-by-height canvas. */
  function PreviewOf(m: Math, ps: seq<Planet>, width: real, height: real, k0: Kin): seq<Vec>
  {
    PreviewFrom(StepFn(m, ps), Crashed(ps), width, height, k0, 0)
  }

  /** Step `t` of the orbit from `k0` ends the preview: a crash before it or leaving the margin after it. */
  predicate Halts(step: Kin -> Kin, crashed: Vec -> bool, width: real, height: real, k0: Kin, t: nat)
  {
    crashed(Orbit(step, k0, t).pos) || OutOfBounds(Orbit(step, k0, t + 1).pos, width, height, PreviewMargin)
  }

  /** The number of even step indices below `n`. */
  function EvensBelow(n: nat): nat
  {
    (n + 1) / 2
  }

  /** The preview from step `i` holds at most one point per even step index left. */
  lemma {:induction false} PreviewBounded(step: Kin -> Kin, crashed: Vec -> bool, width: real, height: real, k: Kin, i: nat)
    requires i <= PreviewSteps
    ensures |PreviewFrom(step, crashed, width, height, k, i)| <= EvensBelow(PreviewSteps) - EvensBelow(i)
    decreases PreviewSteps - i
  {
    if i < PreviewSteps && !crashed(k.pos) {
      var next := step(k);
      if !OutOfBounds(next.pos, width, height, PreviewMargin) {
        PreviewBounded(step, crashed, width, height, next, i + 1);
      }
    }
  }

  /** A step that neither crashes nor leaves the margin contributes its point (on even steps) and goes on. */
  lemma PreviewUnfold(step: Kin -> Kin, crashed: Vec -> bool, width: real, height: real, k: Kin, i: nat)
    requires i < PreviewSteps && !crashed(k.pos)
    requires !OutOfBounds(step(k).pos, width, height, PreviewMargin)
    ensures PreviewFrom(step, crashed, width, height, k, i)
            == (if i % 2 == 0 then [step(k).pos] else []) + PreviewFrom(step, crashed, width, height, step(k), i + 1)
  {
  }

  /** Consecutive step indices alternate between even and odd. */
  lemma NextParity(i: nat)
    ensures (i + 1) % 2 == 0 <==> i % 2 != 0
  {
  }

  /** Stepping first and then following the orbit for `n` steps is following it for `n + 1`. */
  lemma {:induction false} OrbitShift(step: Kin -> Kin, k: Kin, n: nat)
    ensures Orbit(step, step(k), n) == Orbit(step, k, n + 1)
  {
    if n > 0 {
      OrbitShift(step, k, n - 1);
    }
  }

  /**
   * Point `j` of the preview from step `i`, the state before that step being `k`, is the
   * position reached from `k` at the `j`-th even step index from `i` on.
   */
  lemma {:induction false} PreviewPoint(step: Kin -> Kin, crashed: Vec -> bool, width: real, height: real, k: Kin, i: nat, j: nat)
    requires j < |PreviewFrom(step, crashed, width, height, k, i)|
    ensures PreviewFrom(step, crashed, width, height, k, i)[j] == Orbit(step, k, if i % 2 == 0 then 2 * j + 1 else 2 * j + 2).pos
    decreases PreviewSteps - i
  {
    var next := step(k);
    var rest := PreviewFrom(step, crashed, width, height, next, i + 1);
    var p := PreviewFrom(step, crashed, width, height, k, i);
    PreviewUnfold(step, crashed, width, height, k, i);
    NextParity(i);
    if i % 2 == 0 {
      assert p == [next.pos] + rest;
      if j == 0 {
        assert Orbit(step, k, 1) == next;
        assert p[j] == Orbit(step, k, 2 * j + 1).pos;
      } else {
        PreviewPoint(step, crashed, width, height, next, i + 1, j - 1);
        assert rest[j - 1] == Orbit(step, next, 2 * j).pos;
        OrbitShift(step, k, 2 * j);
        assert p[j] == rest[j - 1];
        assert p[j] == Orbit(step, k, 2 * j + 1).pos;
      }
    } else {
      assert p == rest;
      PreviewPoint(step, crashed, width, height, next, i + 1, j);
      assert rest[j] == Orbit(step, next, 2 * j + 1).pos;
      OrbitShift(step, k, 2 * j + 1);
      assert p[j] == Orbit(step, k, 2 * j + 2).pos;
    }
  }

  /**
   * Any preview holds at most 40 points, and point j is the position after step 2j (counting
   * from zero), that is, after 2j + 1 integrator steps.
   */
  lemma PreviewShape(step: Kin -> Kin, crashed: Vec -> bool, width: real, height: real, k0: Kin)
    ensures var p := PreviewFrom(step, crashed, width, height, k0, 0);
      && |p| <= EvensBelow(PreviewSteps)
      && forall j :: 0 <= j < |p| ==> p[j] == Orbit(step, k0, 2 * j + 1).pos
  {
    var p := PreviewFrom(step, crashed, width, height, k0, 0);
    PreviewBounded(step, crashed, width, height, k0, 0);
    assert Orbit(step, k0, 0) == k0;
    assert EvensBelow(0) == 0;
    forall j | 0 <= j < |p|
      ensures p[j] == Orbit(step, k0, 2 * j + 1).pos
    {
      PreviewPoint(step, crashed, width, height, k0, 0, j);
    }
  }

  /** The preview from step `i` stops exactly at the first halting step `s` (or at the horizon). */
  lemma {:induction false} PreviewStopsAtFirstHalt(step: Kin -> Kin, crashed: Vec -> bool, width: real, height: real, k0: Kin, i: nat, s: nat)
    requires i <= s <= PreviewSteps
    requires forall t :: i <= t < s ==> !Halts(step, crashed, width, height, k0, t)
    requires s == PreviewSteps || Halts(step, crashed, width, height, k0, s)
    ensures |PreviewFrom(step, crashed, width, height, Orbit(step, k0, i), i)| == EvensBelow(s) - EvensBelow(i)
    decreases PreviewSteps - i
  {
    var k := Orbit(step, k0, i);
    if i < PreviewSteps && !crashed(k.pos) {
      var next := step(k);
      assert next == Orbit(step, k0, i + 1);
      if !OutOfBounds(next.pos, width, height, PreviewMargin) {
        assert !Halts(step, crashed, width, height, k0, i);
        PreviewStopsAtFirstHalt(step, crashed, width, height, k0, i + 1, s);
      } else {
        assert Halts(step, crashed, width, height, k0, i);
      }
    } else if i < PreviewSteps {
      assert Halts(step, crashed, width, height, k0, i);
    }
  }

  /** A stopping step ends the preview with the points found so far. */
  lemma PreviewHalt(preview: seq<Vec>, here: seq<Vec>, total: seq<Vec>)
    requires preview + here == total && here == []
    ensures preview == total
  {
    assert preview + [] == preview;
  }

  /** Appending a step's point to the points so far keeps the rest of the preview ahead of them. */
  lemma PreviewExtend(preview: seq<Vec>, here: seq<Vec>, rest: seq<Vec>, total: seq<Vec>)
    requires preview + (here + rest) == total
    ensures (preview + here) + rest == total
  {
    assert (preview + here) + rest == preview + (here + rest);
  }

  /** The preview's integrator step: `Advance` with the preview's crash test, stated through `step` and `crashed`. */
  method PreviewAdvance(m: Math, planets: seq<Planet>, k: Kin, ghost step: Kin -> Kin, ghost crashed: Vec -> bool)
    returns (hit: bool, next: Kin)
    requires forall k {:trigger Integrate(m, planets, k)} :: step(k) == Integrate(m, planets, k)
    requires forall pos {:trigger CrashAny(planets, pos, PreviewShrink)} :: crashed(pos) == CrashAny(planets, pos, PreviewShrink)
    ensures hit == crashed(k.pos)
    ensures !hit ==> next == step(k)
  {
    hit, next := Advance(m, planets, k, PreviewShrink);
  }

  /**
   * The loop of `predictPath`: up to 80 integrator steps from `k0`, stopping at a crash or on
   * leaving the 200-pixel margin, keeping the position after every even-numbered step. `step`
   * and `crashed` name the integrator step and the preview's crash test; the loop itself calls
   * the physics. It reads but writes no game state; the shape of its result is `PreviewShape`.
   */
  method LookAhead(m: Math, planets: seq<Planet>, width: real, height: real, k0: Kin,
                   ghost step: Kin -> Kin, ghost crashed: Vec -> bool)
    returns (preview: seq<Vec>)
    requires forall k {:trigger Integrate(m, planets, k)} :: step(k) == Integrate(m, planets, k)
    requires forall pos {:trigger CrashAny(planets, pos, PreviewShrink)} :: crashed(pos) == CrashAny(planets, pos, PreviewShrink)
    ensures preview == PreviewFrom(step, crashed, width, height, k0, 0)
  {
    ghost var total := PreviewFrom(step, crashed, width, height, k0, 0);
    preview := [];
    var k := k0;
    var i: nat := 0;
    while i < PreviewSteps
      invariant i <= PreviewSteps
      invariant preview + PreviewFrom(step, crashed, width, height, k, i) == total
    {
      var hit, next := PreviewAdvance(m, planets, k, step, crashed);
      if hit {
        PreviewHalt(preview, PreviewFrom(step, crashed, width, height, k, i), total);
        return;
      }
      if OutOfBounds(next.pos, width, height, PreviewMargin) {
        PreviewHalt(preview, PreviewFrom(step, crashed, width, height, k, i), total);
        return;
      }
      var here := if i % 2 == 0 then [next.pos] else [];
      PreviewUnfold(step, crashed, width, height, k, i);
      PreviewExtend(preview, here, PreviewFrom(step, crashed, width, height, next, i + 1), total);
      preview := preview + here;
      k := next;
      i := i + 1;
    }
  }
}
