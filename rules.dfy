/**
 * The game's bookkeeping as pure transitions on the whole module-level state: the puck's
 * Dormant/In-Flight cycle, its two bounded trails and the ghost trail, star collection with its
 * counters, the per-level best-shot record, and level loading, resetting and cycling.
 */
module Rules {
  import opened Numerics
  import opened Physics
  import opened Launch
  import opened Levels

  const MaxTrail: nat := 120
  const MaxGhostTrail: nat := 600
  /** Extra reach added to star radius plus puck radius in the collection test. */
  const StarMargin: real := 2.0
  /** The best-shot key used when the level has no name. */
  const RandomName: string := "Random System"

  /** The puck: position, velocity, whether it is in flight, its short trail and its full trail. */
  datatype PuckState = PuckState(pos: Vec, vel: Vec, alive: bool, trail: seq<Vec>, fullTrail: seq<Vec>)

  /**
   * Everything the game keeps between frames: canvas size, launcher, puck, ghost trail of the
   * previous shot, planets, stars, explosion origins, best shots per level name, the counters,
   * the index of the current built-in level and the current level's name.
   */
  datatype World = World(
    width: real, height: real,
    launcher: Vec,
    puck: PuckState,
    lastTrail: seq<Vec>,
    planets: seq<Planet>,
    stars: seq<Star>,
    explosions: seq<Vec>,
    best: map<string, nat>,
    shots: nat,
    collectedStars: nat,
    totalStars: nat,
    levelIndex: nat,
    levelName: string)

  // ---------------------------------------------------------------- trails

  /** `push` then at most one `shift`: the trail after appending `p` under a cap. */
  function Window(s: seq<Vec>, p: Vec, cap: nat): (r: seq<Vec>)
    requires cap >= 1
    ensures |r| >= 1 && r[|r| - 1] == p
    ensures r[..|r| - 1] == s || (s != [] && r[..|r| - 1] == s[1..])
  {
    var t := s + [p];
    assert t[..|t| - 1] == s;
    if |t| > cap then
      assert t[1..][..|t| - 2] == s[1..];
      t[1..]
    else t
  }

  /** A trail within its cap stays within it, and nothing is dropped while there is room. */
  lemma WindowFits(s: seq<Vec>, p: Vec, cap: nat)
    requires 1 <= cap && |s| <= cap
    ensures |Window(s, p, cap)| <= cap
    ensures |s| < cap ==> Window(s, p, cap) == s + [p]
    ensures |s| == cap ==> Window(s, p, cap) == s[1..] + [p]
  {
    if |s| == cap {
      assert (s + [p])[1..] == s[1..] + [p];
    }
  }

  // ---------------------------------------------------------------- puck

  /** The dormant puck: at the launcher, at rest, with both trails empty. */
  function DormantAt(launcher: Vec): PuckState
  {
    PuckState(launcher, Vec(0.0, 0.0), false, [], [])
  }

  /** `resetPuck`: the ghost trail takes the full trail if it has more than one point; the puck goes dormant. */
  function ResetPuck(w: World): (r: World)
    ensures r.puck == DormantAt(w.launcher)
    ensures |w.puck.fullTrail| > 1 ==> r.lastTrail == w.puck.fullTrail
    ensures |w.puck.fullTrail| <= 1 ==> r.lastTrail == w.lastTrail
    ensures r.(puck := w.puck, lastTrail := w.lastTrail) == w
  {
    w.(lastTrail := if |w.puck.fullTrail| > 1 then w.puck.fullTrail else w.lastTrail,
       puck := DormantAt(w.launcher))
  }

  /**
   * `firePuck`: the velocity of the aim a drag to `target` gives, the short trail cleared, the puck
   * in flight and one more shot. The position and the full trail are left as they are.
   */
  function Fire(m: Math, w: World, target: Vec): World
    requires w.width > 0.0 && w.height > 0.0
  {
    var aim := DragPreview(m, w.launcher, w.width, w.height, target);
    Launched(w, LaunchVelocity(m, aim.angle, aim.speed))
  }

  /** The puck put in flight with velocity `vel`, its short trail cleared, one more shot counted. */
  function Launched(w: World, vel: Vec): World
  {
    w.(puck := w.puck.(vel := vel, trail := [], alive := true), shots := w.shots + 1)
  }

  // ---------------------------------------------------------------- stars

  /**
   * The star is within reach of a puck at `pos`: `hypot(dx, dy) < r` for r = star radius + puck
   * radius + 2, stated exactly as r > 0 and dx² + dy² < r².
   */
  predicate InReach(s: Star, pos: Vec)
  {
    var r := s.radius + PuckRadius + StarMargin;
    0.0 < r && DistSq(s.pos, pos) < Sq(r)
  }

  /** A star the pass collects at `pos`: not yet collected and within reach. */
  predicate Flips(s: Star, pos: Vec)
  {
    !s.collected && InReach(s, pos)
  }

  /** A star after the pass has looked at it. */
  function Sweep(s: Star, pos: Vec): Star
  {
    if Flips(s, pos) then s.(collected := true) else s
  }

  /** The number of collected stars. */
  function CountCollected(ss: seq<Star>): (n: nat)
    ensures n <= |ss|
  {
    if ss == [] then 0 else CountCollected(ss[..|ss| - 1]) + (if ss[|ss| - 1].collected then 1 else 0)
  }

  /** Origins of the explosions a pass at `pos` over `ss` spawns: one per collected star, in order. */
  function Bursts(ss: seq<Star>, pos: Vec): seq<Vec>
  {
    if ss == [] then [] else Bursts(ss[..|ss| - 1], pos) + (if Flips(ss[|ss| - 1], pos) then [ss[|ss| - 1].pos] else [])
  }

  /** `currentLevelName || "Random System"`. */
  function LevelKey(name: string): string
  {
    if name == "" then RandomName else name
  }

  /** `if (!best || shots < best) best = shots`: a missing entry or a zero entry counts as no record. */
  function RecordBest(best: map<string, nat>, key: string, shots: nat): (r: map<string, nat>)
    ensures key in r && r[key] <= shots
    ensures key in best && best[key] != 0 ==> r[key] <= best[key]
    ensures r[key] == shots || (key in best && r[key] == best[key])
    ensures key !in best || best[key] == 0 || shots < best[key] ==> r[key] == shots
    ensures key in best && best[key] != 0 && shots >= best[key] ==> r[key] == best[key]
    ensures forall k :: k != key ==> (k in r <==> k in best) && (k in r ==> r[k] == best[k])
  {
    if key !in best || best[key] == 0 || shots < best[key] then best[key := shots] else best
  }

  /** What the star pass updates: the stars, the explosion origins, the collected count and the best-shot record. */
  datatype Tally = Tally(stars: seq<Star>, explosions: seq<Vec>, collected: nat, best: map<string, nat>)

  /** The tally as it stands in `w`. */
  function TallyOf(w: World): Tally
  {
    Tally(w.stars, w.explosions, w.collectedStars, w.best)
  }

  /** `w` with its tally replaced by `t`. */
  function WithTally(w: World, t: Tally): World
  {
    w.(stars := t.stars, explosions := t.explosions, collectedStars := t.collected, best := t.best)
  }

  /**
   * The star loop's body for star `i`; the puck's position, the star total, the shot count and
   * the level name are those of `w`, which the pass does not change.
   */
  function StarVisit(w: World, t: Tally, i: nat): (r: Tally)
    requires i < |t.stars|
    ensures |r.stars| == |t.stars|
  {
    var s := t.stars[i];
    if !Flips(s, w.puck.pos) then t
    else
      var count := t.collected + 1;
      Tally(t.stars[i := s.(collected := true)], t.explosions + [s.pos], count,
            if count == w.totalStars then RecordBest(t.best, LevelKey(w.levelName), w.shots) else t.best)
  }

  /** The star loop after its first `n` stars. */
  function StarPassUpTo(w: World, n: nat): (r: Tally)
    requires n <= |w.stars|
    ensures |r.stars| == |w.stars|
  {
    if n == 0 then TallyOf(w) else StarVisit(w, StarPassUpTo(w, n - 1), n - 1)
  }

  /** The whole star loop. */
  function StarPass(w: World): World
  {
    WithTally(w, StarPassUpTo(w, |w.stars|))
  }

  // ---------------------------------------------------------------- the step

  /** The puck moved to `next`, with the new position appended to both trails and each trail capped. */
  function Pushed(p: PuckState, next: Kin): PuckState
  {
    p.(pos := next.pos, vel := next.vel,
       trail := Window(p.trail, next.pos, MaxTrail),
       fullTrail := Window(p.fullTrail, next.pos, MaxGhostTrail))
  }

  /**
   * The part of `updatePhysics` after a crash-free integration to `next`: move, extend both trails,
   * reset if beyond the 150-pixel margin (without leaving the step), then the star pass.
   */
  function Moved(w: World, next: Kin): World
  {
    var w1 := w.(puck := Pushed(w.puck, next));
    var w2 := if OutOfBounds(next.pos, w.width, w.height, LiveMargin) then ResetPuck(w1) else w1;
    StarPass(w2)
  }

  /** `updatePhysics(TIME_STEP)`. */
  function Step(m: Math, w: World): World
  {
    if !w.puck.alive then w
    else if LiveCrashAny(w.planets, w.puck.pos) then ResetPuck(w)
    else Moved(w, Integrate(m, w.planets, Kin(w.puck.pos, w.puck.vel)))
  }

  // ---------------------------------------------------------------- levels

  /** `createLevelFromConfig`: place the level, re-centre the launcher, zero the counters, reset the puck. */
  function CreateLevel(w: World, c: LevelConfig): World
  {
    ResetPuck(Loaded(w, c))
  }

  /** `createLevelFromConfig` before its closing `resetPuck`; the launcher goes to 12% of the width, half the height. */
  function Loaded(w: World, c: LevelConfig): World
  {
    var stars := PlaceStars(c.stars, w.width, w.height);
    w.(planets := PlacePlanets(c.planets, w.width, w.height), stars := stars, explosions := [],
       launcher := Vec(w.width * 0.12, w.height * 0.5),
       shots := 0, collectedStars := 0, totalStars := |stars|, levelName := c.name)
  }

  /** Every star uncollected, nothing else changed. */
  function ClearStars(ss: seq<Star>): (r: seq<Star>)
    ensures |r| == |ss|
    ensures forall j :: 0 <= j < |ss| ==> r[j] == ss[j].(collected := false)
  {
    if ss == [] then [] else ClearStars(ss[..|ss| - 1]) + [ss[|ss| - 1].(collected := false)]
  }

  /** The Reset Level handler: stars uncollected, counters zeroed, ghost trail and explosions cleared, then `resetPuck`. */
  function ResetLevel(w: World): World
  {
    ResetPuck(w.(stars := ClearStars(w.stars), collectedStars := 0, shots := 0, lastTrail := [], explosions := []))
  }

  /** The built-in level after level `i`, the last one wrapping to the first. */
  function NextIndex(i: nat): (j: nat)
    ensures j < LevelCount
    ensures i < LevelCount - 1 ==> j == i + 1
    ensures i == LevelCount - 1 ==> j == 0
  {
    (i + 1) % LevelCount
  }

  /** The Next Level handler: the next built-in level, cycling after the sixth. */
  function NextLevel(w: World): World
  {
    LevelCountIsLength();
    var i := NextIndex(w.levelIndex);
    Enter(w, i, BaseLevels[i])
  }

  /** The Randomize handler for a generated configuration `c`. */
  function Randomize(w: World, c: LevelConfig): World
  {
    Enter(w, 0, c)
  }

  /**
   * What the Next Level and Randomize handlers share: level index `i`, the ghost trail and the
   * explosions cleared, then `createLevelFromConfig(c)`.
   */
  function Enter(w: World, i: nat, c: LevelConfig): World
  {
    CreateLevel(w.(levelIndex := i, lastTrail := [], explosions := []), c)
  }

  /** The state after `init()` on a width-by-height canvas: the first built-in level. */
  function Init(width: real, height: real): World
  {
    var w0 := World(width, height, Vec(width * 0.12, height * 0.5),
                    PuckState(Vec(0.0, 0.0), Vec(0.0, 0.0), false, [], []), [], [], [], [], map[],
                    0, 0, 0, 0, "");
    CreateLevel(w0, BaseLevels[0])
  }

  // ---------------------------------------------------------------- invariant

  /** The counters agree with the stars. */
  predicate Books(w: World)
  {
    w.collectedStars == CountCollected(w.stars) && w.totalStars == |w.stars|
  }

  /** What survives level loading: a valid level index and only positive best-shot records. */
  predicate SessionValid(w: World)
  {
    w.levelIndex < LevelCount && forall k :: k in w.best ==> w.best[k] >= 1
  }

  predicate Valid(w: World)
  {
    && SessionValid(w)
    && Books(w)
    && |w.puck.trail| <= MaxTrail
    && |w.puck.fullTrail| <= MaxGhostTrail
    && |w.lastTrail| <= MaxGhostTrail
    && (w.puck.alive ==> w.shots >= 1)
    && (!w.puck.alive ==> w.puck == DormantAt(w.launcher))
  }

  // ---------------------------------------------------------------- star counting

  /** When every star is counted as collected, each one is. */
  lemma {:induction false} CountAllCollected(ss: seq<Star>, j: nat)
    requires CountCollected(ss) == |ss| && j < |ss|
    ensures ss[j].collected
  {
    var init := ss[..|ss| - 1];
    assert CountCollected(init) <= |init|;
    if j < |ss| - 1 {
      assert init[j] == ss[j];
      CountAllCollected(init, j);
    }
  }

  /** Replacing one star changes the count by the change in that star's flag. */
  lemma {:induction false} CountSet(ss: seq<Star>, i: nat, s: Star)
    requires i < |ss|
    ensures CountCollected(ss[i := s])
            == CountCollected(ss) - (if ss[i].collected then 1 else 0) + (if s.collected then 1 else 0)
  {
    var init := ss[..|ss| - 1];
    if i < |ss| - 1 {
      assert ss[i := s][..|ss| - 1] == init[i := s];
      CountSet(init, i, s);
    } else {
      assert ss[i := s][..|ss| - 1] == init;
    }
  }

  /** Stars none of which is collected count zero. */
  lemma {:induction false} CountNone(ss: seq<Star>)
    requires forall j :: 0 <= j < |ss| ==> !ss[j].collected
    ensures CountCollected(ss) == 0
  {
    if ss != [] {
      CountNone(ss[..|ss| - 1]);
    }
  }

  // ---------------------------------------------------------------- the star pass

  /** After the first `n` stars, exactly those have been swept at the puck's position; the rest are untouched. */
  lemma {:induction false} StarPassStars(w: World, n: nat)
    requires n <= |w.stars|
    ensures forall j :: 0 <= j < |w.stars| ==>
      StarPassUpTo(w, n).stars[j] == (if j < n then Sweep(w.stars[j], w.puck.pos) else w.stars[j])
  {
    if n > 0 {
      StarPassStars(w, n - 1);
    }
  }

  /** The pass up to `n` has not touched star `j` at or after `n`. */
  lemma {:induction false} StarPassAhead(w: World, n: nat, j: nat)
    requires n <= j < |w.stars|
    ensures StarPassUpTo(w, n).stars[j] == w.stars[j]
  {
    if n > 0 {
      StarPassAhead(w, n - 1, j);
    }
  }

  /** The tally's count agrees with its stars, which are as many as the level's total. */
  predicate TallyBooks(w: World, t: Tally)
  {
    t.collected == CountCollected(t.stars) && w.totalStars == |t.stars|
  }

  /** One visit: the counters stay in agreement, and a flipped star adds its explosion, one to the count and maybe the record. */
  lemma StarVisitSpec(w: World, t: Tally, i: nat)
    requires i < |t.stars| && TallyBooks(w, t)
    ensures var r := StarVisit(w, t, i);
      var s := t.stars[i];
      && TallyBooks(w, r)
      && r.explosions == t.explosions + (if Flips(s, w.puck.pos) then [s.pos] else [])
      && r.collected == t.collected + (if Flips(s, w.puck.pos) then 1 else 0)
      && r.best == (if Flips(s, w.puck.pos) && t.collected + 1 == w.totalStars
                    then RecordBest(t.best, LevelKey(w.levelName), w.shots) else t.best)
  {
    var s := t.stars[i];
    if Flips(s, w.puck.pos) {
      CountSet(t.stars, i, s.(collected := true));
    }
  }

  /** The bursts of a prefix one longer: the shorter prefix's bursts, then the new star's. */
  lemma BurstsSnoc(ss: seq<Star>, n: nat, pos: Vec)
    requires 0 < n <= |ss|
    ensures Bursts(ss[..n], pos) == Bursts(ss[..n - 1], pos) + (if Flips(ss[n - 1], pos) then [ss[n - 1].pos] else [])
  {
    assert ss[..n][..n - 1] == ss[..n - 1];
  }

  /**
   * The pass keeps the counters in agreement with the stars, spawns one explosion per star it
   * collects, at that star, in star order, and raises `collectedStars` by exactly that number.
   */
  lemma {:induction false} StarPassCounts(w: World, n: nat)
    requires n <= |w.stars| && Books(w)
    ensures var r := StarPassUpTo(w, n);
      && TallyBooks(w, r)
      && r.explosions == w.explosions + Bursts(w.stars[..n], w.puck.pos)
      && r.collected == w.collectedStars + |Bursts(w.stars[..n], w.puck.pos)|
  {
    if n > 0 {
      StarPassCounts(w, n - 1);
      StarPassAhead(w, n - 1, n - 1);
      StarVisitSpec(w, StarPassUpTo(w, n - 1), n - 1);
      BurstsSnoc(w.stars, n, w.puck.pos);
    }
  }

  /**
   * The pass writes the best-shot record only if it takes the last star, and then through
   * `RecordBest` under the level's key with the current shot count.
   */
  lemma {:induction false} StarPassBest(w: World, n: nat)
    requires n <= |w.stars| && Books(w)
    ensures var r := StarPassUpTo(w, n);
      r.best == if w.collectedStars < w.totalStars && r.collected == w.totalStars
                then RecordBest(w.best, LevelKey(w.levelName), w.shots) else w.best
  {
    if n > 0 {
      StarPassBest(w, n - 1);
      StarPassCounts(w, n - 1);
      StarPassStars(w, n - 1);
      var p := StarPassUpTo(w, n - 1);
      StarVisitSpec(w, p, n - 1);
      if p.collected == w.totalStars {
        CountAllCollected(p.stars, n - 1);
        assert StarVisit(w, p, n - 1) == p;
      } else {
        assert w.collectedStars <= p.collected < w.totalStars;
        assert p.best == w.best;
        var r := StarVisit(w, p, n - 1);
        if Flips(p.stars[n - 1], w.puck.pos) && p.collected + 1 == w.totalStars {
          assert r.best == RecordBest(w.best, LevelKey(w.levelName), w.shots);
        } else {
          assert r.best == w.best && r.collected != w.totalStars;
        }
      }
    }
  }

  /** The whole pass: collected stars stay collected, and the counters, explosions and best record as above. */
  lemma StarPassSpec(w: World)
    requires Books(w)
    ensures var r := StarPass(w);
      && Books(r)
      && (forall j :: 0 <= j < |w.stars| ==> r.stars[j] == Sweep(w.stars[j], w.puck.pos))
      && r.explosions == w.explosions + Bursts(w.stars, w.puck.pos)
      && r.collectedStars == w.collectedStars + |Bursts(w.stars, w.puck.pos)|
      && r.best == if w.collectedStars < w.totalStars && r.collectedStars == w.totalStars
                   then RecordBest(w.best, LevelKey(w.levelName), w.shots) else w.best
  {
    StarPassStars(w, |w.stars|);
    StarPassCounts(w, |w.stars|);
    StarPassBest(w, |w.stars|);
    assert w.stars[..|w.stars|] == w.stars;
  }

  // ---------------------------------------------------------------- resetPuck and firePuck

  /** `resetPuck` keeps the invariant: the ghost trail it copies is a full trail, so within 600 points. */
  lemma ResetPuckValid(w: World)
    requires Valid(w)
    ensures Valid(ResetPuck(w))
  {
  }

  /**
   * `firePuck` adds exactly one shot and puts the puck in flight with the launch velocity of the
   * aim `getDragPreview` reports for the same target; it clears the short trail only.
   */
  lemma FireSpec(m: Math, w: World, target: Vec)
    requires w.width > 0.0 && w.height > 0.0
    ensures var r := Fire(m, w, target);
      var aim := DragPreview(m, w.launcher, w.width, w.height, target);
      && r.shots == w.shots + 1
      && r.puck.alive && r.puck.trail == []
      && r.puck.pos == w.puck.pos && r.puck.fullTrail == w.puck.fullTrail
      && r.puck.vel == LaunchVelocity(m, aim.angle, aim.speed)
      && r.(puck := w.puck, shots := w.shots) == w
  {
  }

  lemma FireValid(m: Math, w: World, target: Vec)
    requires w.width > 0.0 && w.height > 0.0 && Valid(w)
    ensures Valid(Fire(m, w, target))
  {
  }

  // ---------------------------------------------------------------- updatePhysics

  /** A step on a dormant puck changes nothing. */
  lemma StepDormant(m: Math, w: World)
    requires !w.puck.alive
    ensures Step(m, w) == w
  {
  }

  /**
   * A step that starts within the shrunken crash distance of a planet only resets the puck: no
   * move, no trail point, no star, no explosion, no record.
   */
  lemma StepCrash(m: Math, w: World)
    requires w.puck.alive && LiveCrashAny(w.planets, w.puck.pos)
    ensures Step(m, w) == ResetPuck(w)
    ensures Step(m, w).(puck := w.puck, lastTrail := w.lastTrail) == w
  {
  }

  /** A crash-free step is `Moved` with the integrator's next state. */
  lemma StepMoves(m: Math, w: World)
    requires w.puck.alive && !LiveCrashAny(w.planets, w.puck.pos)
    ensures Step(m, w) == Moved(w, Integrate(m, w.planets, Kin(w.puck.pos, w.puck.vel)))
  {
  }

  /**
   * After a crash-free step that stays in bounds the puck is at the new position with the new
   * velocity, each trail is the old one with the new point appended and at most its oldest point
   * dropped, and both stay within their caps. Leaving the bounds instead resets the puck, and the
   * ghost trail then holds the extended full trail if it has more than one point.
   */
  lemma MovedTrails(w: World, next: Kin)
    requires |w.puck.trail| <= MaxTrail && |w.puck.fullTrail| <= MaxGhostTrail
    ensures var r := Moved(w, next);
      var trail := Window(w.puck.trail, next.pos, MaxTrail);
      var full := Window(w.puck.fullTrail, next.pos, MaxGhostTrail);
      && |trail| <= MaxTrail && |full| <= MaxGhostTrail
      && (!OutOfBounds(next.pos, w.width, w.height, LiveMargin) ==>
            r.puck == PuckState(next.pos, next.vel, w.puck.alive, trail, full) && r.lastTrail == w.lastTrail)
      && (OutOfBounds(next.pos, w.width, w.height, LiveMargin) ==>
            r.puck == DormantAt(w.launcher)
            && r.lastTrail == (if |full| > 1 then full else w.lastTrail))
  {
    WindowFits(w.puck.trail, next.pos, MaxTrail);
    WindowFits(w.puck.fullTrail, next.pos, MaxGhostTrail);
  }

  /**
   * The star pass inside a crash-free step runs at the puck's position after the move (the
   * launcher after an out-of-bounds reset) and records the best shot at most once, on the last star.
   */
  lemma MovedStars(w: World, next: Kin)
    requires Books(w)
    ensures var r := Moved(w, next);
      var at := if OutOfBounds(next.pos, w.width, w.height, LiveMargin) then w.launcher else next.pos;
      && Books(r)
      && (forall j :: 0 <= j < |w.stars| ==> r.stars[j] == Sweep(w.stars[j], at))
      && r.explosions == w.explosions + Bursts(w.stars, at)
      && r.collectedStars == w.collectedStars + |Bursts(w.stars, at)|
      && r.best == (if w.collectedStars < w.totalStars && r.collectedStars == w.totalStars
                    then RecordBest(w.best, LevelKey(w.levelName), w.shots) else w.best)
      && r.(puck := w.puck, lastTrail := w.lastTrail, stars := w.stars, explosions := w.explosions,
            collectedStars := w.collectedStars, best := w.best) == w
  {
    var w1 := w.(puck := Pushed(w.puck, next));
    var w2 := if OutOfBounds(next.pos, w.width, w.height, LiveMargin) then ResetPuck(w1) else w1;
    StarPassSpec(w2);
  }

  /** The invariant holds after every crash-free step of a puck in flight. */
  lemma MovedValid(w: World, next: Kin)
    requires Valid(w) && w.puck.alive
    ensures Valid(Moved(w, next))
  {
    MovedTrails(w, next);
    MovedStars(w, next);
    var r := Moved(w, next);
    if r.best != w.best {
      var key := LevelKey(w.levelName);
      forall k | k in r.best
        ensures r.best[k] >= 1
      {
        if k != key {
          assert k in w.best;
        }
      }
    }
  }

  /** `updatePhysics` keeps the invariant. */
  lemma StepValid(m: Math, w: World)
    requires Valid(w)
    ensures Valid(Step(m, w))
  {
    if w.puck.alive {
      if LiveCrashAny(w.planets, w.puck.pos) {
        ResetPuckValid(w);
      } else {
        MovedValid(w, Integrate(m, w.planets, Kin(w.puck.pos, w.puck.vel)));
      }
    }
  }

  /**
   * Over one step collected stars stay collected, `collectedStars` never falls and never passes
   * `totalStars`, and the best-shot record is only written when the step takes the last star;
   * no recorded best ever increases.
   */
  lemma StepProgress(m: Math, w: World)
    requires Valid(w)
    ensures var r := Step(m, w);
      && |r.stars| == |w.stars|
      && (forall j :: 0 <= j < |w.stars| && w.stars[j].collected ==> r.stars[j].collected)
      && w.collectedStars <= r.collectedStars <= r.totalStars == w.totalStars
      && (r.best != w.best ==> w.collectedStars < w.totalStars && r.collectedStars == r.totalStars)
      && (forall k :: k in w.best ==> k in r.best && r.best[k] <= w.best[k])
  {
    if w.puck.alive && !LiveCrashAny(w.planets, w.puck.pos) {
      var next := Integrate(m, w.planets, Kin(w.puck.pos, w.puck.vel));
      MovedStars(w, next);
      MovedValid(w, next);
    }
  }

  // ---------------------------------------------------------------- level handlers

  /**
   * `createLevelFromConfig` places the level's planets and uncollected stars, zeroes the counters,
   * sets `totalStars` to the number of stars, re-centres the launcher and leaves the puck dormant there.
   */
  lemma CreateLevelSpec(w: World, c: LevelConfig)
    ensures var r := CreateLevel(w, c);
      && r.planets == PlacePlanets(c.planets, w.width, w.height)
      && r.stars == PlaceStars(c.stars, w.width, w.height)
      && r.shots == 0 && r.collectedStars == 0 && r.totalStars == |c.stars|
      && r.explosions == [] && r.levelName == c.name
      && r.launcher == Vec(w.width * 0.12, w.height * 0.5)
      && r.puck == DormantAt(r.launcher)
      && r.lastTrail == (if |w.puck.fullTrail| > 1 then w.puck.fullTrail else w.lastTrail)
      && r.best == w.best && r.levelIndex == w.levelIndex
      && r.width == w.width && r.height == w.height
      && Books(r)
  {
    var stars := PlaceStars(c.stars, w.width, w.height);
    CountNone(stars);
  }

  /** A new level is valid whenever the session state and the trails it keeps are. */
  lemma CreateLevelValid(w: World, c: LevelConfig)
    requires SessionValid(w) && |w.lastTrail| <= MaxGhostTrail && |w.puck.fullTrail| <= MaxGhostTrail
    ensures Valid(CreateLevel(w, c))
  {
    CreateLevelSpec(w, c);
  }

  /**
   * Reset Level: every star uncollected in place, shots and collected stars zero, explosions gone;
   * because `resetPuck` runs after the ghost trail is cleared, a full trail of more than one point
   * refills it.
   */
  lemma ResetLevelSpec(w: World)
    requires Valid(w)
    ensures var r := ResetLevel(w);
      && Valid(r)
      && |r.stars| == |w.stars|
      && (forall j :: 0 <= j < |w.stars| ==> r.stars[j] == w.stars[j].(collected := false))
      && r.shots == 0 && r.collectedStars == 0 && r.explosions == []
      && r.lastTrail == (if |w.puck.fullTrail| > 1 then w.puck.fullTrail else [])
      && r.puck == DormantAt(w.launcher)
      && r.best == w.best && r.levelIndex == w.levelIndex
      && r.planets == w.planets && r.levelName == w.levelName && r.launcher == w.launcher
      && r.totalStars == w.totalStars && r.width == w.width && r.height == w.height
  {
    CountNone(ClearStars(w.stars));
  }

  /**
   * What the Next Level and Randomize handlers leave: level `i` is loaded from `c` with its placed
   * planets and uncollected stars, zero counters and no explosions; the records are kept; the
   * ghost trail was cleared before `resetPuck`, so it holds the full trail only if that had more
   * than one point.
   */
  lemma EnterSpec(w: World, i: nat, c: LevelConfig)
    ensures var r := Enter(w, i, c);
      && r.levelIndex == i && r.levelName == c.name
      && r.planets == PlacePlanets(c.planets, w.width, w.height)
      && r.stars == PlaceStars(c.stars, w.width, w.height)
      && r.shots == 0 && r.collectedStars == 0 && r.totalStars == |c.stars|
      && r.explosions == [] && r.best == w.best
      && r.lastTrail == (if |w.puck.fullTrail| > 1 then w.puck.fullTrail else [])
      && r.launcher == Vec(w.width * 0.12, w.height * 0.5)
      && r.puck == DormantAt(r.launcher)
  {
    CreateLevelSpec(w.(levelIndex := i, lastTrail := [], explosions := []), c);
  }

  /** Next Level: the following built-in level loaded, the sixth wrapping to the first, and the invariant kept. */
  lemma NextLevelSpec(w: World)
    requires Valid(w)
    ensures var r := NextLevel(w);
      && Valid(r)
      && r.levelIndex == NextIndex(w.levelIndex)
      && var c := BaseLevels[r.levelIndex];
      && r.levelName == c.name
      && r.planets == PlacePlanets(c.planets, w.width, w.height)
      && r.stars == PlaceStars(c.stars, w.width, w.height)
      && r.shots == 0 && r.collectedStars == 0 && r.totalStars == |c.stars|
      && r.explosions == [] && r.best == w.best
  {
    var i := NextIndex(w.levelIndex);
    LevelCountIsLength();
    EnterSpec(w, i, BaseLevels[i]);
    CreateLevelValid(w.(levelIndex := i, lastTrail := [], explosions := []), BaseLevels[i]);
  }

  /** The level index after `n` presses of Next Level from index `i`. */
  function Presses(i: nat, n: nat): nat
    decreases n
  {
    if n == 0 then i else Presses(NextIndex(i), n - 1)
  }

  /** Pressing Next Level `n` times moves `n` levels forward, so six presses come back to the same level. */
  lemma {:induction false} PressesCycle(i: nat, n: nat)
    requires i < LevelCount
    ensures Presses(i, n) == (i + n) % LevelCount
    decreases n
  {
    if n > 0 {
      PressesCycle(NextIndex(i), n - 1);
    }
  }

  /** Randomize loads the generated level with the level index back at the first level. */
  lemma RandomizeValid(w: World, c: LevelConfig)
    requires Valid(w)
    ensures var r := Randomize(w, c);
      && Valid(r)
      && r.levelIndex == 0 && r.levelName == c.name
      && r.planets == PlacePlanets(c.planets, w.width, w.height)
      && r.stars == PlaceStars(c.stars, w.width, w.height)
      && r.shots == 0 && r.collectedStars == 0 && r.totalStars == |c.stars|
      && r.explosions == [] && r.best == w.best
  {
    EnterSpec(w, 0, c);
    CreateLevelValid(w.(levelIndex := 0, lastTrail := [], explosions := []), c);
  }

  /** The game starts valid, on the first built-in level, with no shots and no records. */
  lemma InitValid(width: real, height: real)
    ensures var r := Init(width, height);
      && Valid(r)
      && r.levelIndex == 0 && r.levelName == "Slingshot Basics"
      && r.shots == 0 && r.best == map[] && r.lastTrail == []
  {
    var w0 := World(width, height, Vec(width * 0.12, height * 0.5),
                    PuckState(Vec(0.0, 0.0), Vec(0.0, 0.0), false, [], []), [], [], [], [], map[],
                    0, 0, 0, 0, "");
    CreateLevelValid(w0, BaseLevels[0]);
  }

  // ---------------------------------------------------------------- runs

  /** What can happen between two frames: a frame step, a release of the drag, or a button. */
  datatype Event = Tick | Release(target: Vec) | ResetButton | NextButton | RandomButton(config: LevelConfig)

  function Apply(m: Math, w: World, e: Event): World
    requires w.width > 0.0 && w.height > 0.0
  {
    match e
    case Tick => Step(m, w)
    case Release(target) => Fire(m, w, target)
    case ResetButton => ResetLevel(w)
    case NextButton => NextLevel(w)
    case RandomButton(c) => Randomize(w, c)
  }

  /** The state after a sequence of events. */
  function Run(m: Math, w: World, es: seq<Event>): (r: World)
    requires w.width > 0.0 && w.height > 0.0
    ensures r.width == w.width && r.height == w.height
    decreases |es|
  {
    if es == [] then w else Run(m, Apply(m, w, es[0]), es[1..])
  }

  /** Every state the game reaches from a valid one, by any events, is valid. */
  lemma {:induction false} RunValid(m: Math, w: World, es: seq<Event>)
    requires w.width > 0.0 && w.height > 0.0 && Valid(w)
    ensures Valid(Run(m, w, es))
    decreases |es|
  {
    if es != [] {
      match es[0] {
        case Tick => StepValid(m, w);
        case Release(target) => FireValid(m, w, target);
        case ResetButton => ResetLevelSpec(w);
        case NextButton => NextLevelSpec(w);
        case RandomButton(c) => RandomizeValid(w, c);
      }
      RunValid(m, Apply(m, w, es[0]), es[1..]);
    }
  }
}
