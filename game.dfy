/**
 * The game's mutable state and the code that changes it in place: the puck object, and the
 * module-level variables with the functions and button handlers that update them. Each method is
 * proved to leave the state its pure counterpart in `Rules` describes, so the invariant and the
 * lemmas proved there hold of the running game.
 */
module Game {
  import opened Numerics
  import opened Physics
  import opened Launch
  import opened Levels
  import opened Rules
  import Preview

  /** The puck object: position, velocity, flight flag and its two trails. */
  class Puck {
    var x: real
    var y: real
    var vx: real
    var vy: real
    var alive: bool
    var trail: seq<Vec>
    var fullTrail: seq<Vec>

    ghost function State(): PuckState
      reads this
    {
      PuckState(Vec(x, y), Vec(vx, vy), alive, trail, fullTrail)
    }

    /** The puck as the game starts: at the origin, at rest, dormant, no trails. */
    constructor ()
      ensures State() == PuckState(Vec(0.0, 0.0), Vec(0.0, 0.0), false, [], [])
    {
      x, y, vx, vy := 0.0, 0.0, 0.0, 0.0;
      alive := false;
      trail, fullTrail := [], [];
    }

    /** The move-and-trail part of `updatePhysics`: the new position and velocity, both trails extended and capped. */
    method MoveTo(next: Kin)
      modifies this
      ensures State() == Pushed(old(State()), next)
    {
      x, y := next.pos.x, next.pos.y;
      vx, vy := next.vel.x, next.vel.y;
      var point := Vec(x, y);
      trail := trail + [point];
      fullTrail := fullTrail + [point];
      if |trail| > MaxTrail {
        trail := trail[1..];
      }
      if |fullTrail| > MaxGhostTrail {
        fullTrail := fullTrail[1..];
      }
    }

    /** The puck half of `resetPuck`: back on the launcher at `at`, at rest, dormant, both trails emptied. */
    method Reset(at: Vec)
      modifies this
      ensures State() == DormantAt(at)
    {
      x, y := at.x, at.y;
      vx, vy := 0.0, 0.0;
      trail := [];
      fullTrail := [];
      alive := false;
    }
  }

  class Game {
    var width: real
    var height: real
    var launcher: Vec
    const puck: Puck
    var lastTrail: seq<Vec>
    var planets: seq<Planet>
    var stars: seq<Star>
    var explosions: seq<Vec>
    var bestShotsByLevel: map<string, nat>
    var shots: nat
    var collectedStars: nat
    var totalStars: nat
    var levelIndex: nat
    var currentLevelName: string

    /** The whole game state as a `Rules.World` value. */
    ghost function State(): World
      reads this, puck
    {
      World(width, height, launcher, puck.State(), lastTrail, planets, stars, explosions,
            bestShotsByLevel, shots, collectedStars, totalStars, levelIndex, currentLevelName)
    }

    /** The module's start-up on a width-by-height canvas followed by `init()`: the first built-in level. */
    constructor (width: real, height: real)
      ensures State() == Init(width, height)
      ensures Rules.Valid(State())
    {
      this.width, this.height := width, height;
      launcher := Vec(width * 0.12, height * 0.5);
      puck := new Puck();
      lastTrail, planets, stars, explosions := [], [], [], [];
      bestShotsByLevel := map[];
      shots, collectedStars, totalStars, levelIndex := 0, 0, 0, 0;
      currentLevelName := "";
      new;
      LevelCountIsLength();
      CreateLevelFromConfig(BaseLevels[levelIndex]);
      InitValid(width, height);
    }

    /** `resetPuck`. */
    method ResetPuck()
      modifies this, puck
      ensures State() == Rules.ResetPuck(old(State()))
    {
      if |puck.fullTrail| > 1 {
        lastTrail := puck.fullTrail;
      }
      puck.Reset(launcher);
    }

    /** `firePuck`: aim as the preview does, then launch, clear the short trail and count the shot. */
    method FirePuck(m: Math, target: Vec)
      requires width > 0.0 && height > 0.0
      modifies this, puck
      ensures State() == Fire(m, old(State()), target)
    {
      var angle, speed := FireAim(m, launcher, width, height, target);
      ghost var aim := DragPreview(m, launcher, width, height, target);
      SameLaunch(m, aim.angle, aim.speed, angle, speed);
      puck.vx := Cos(m, angle) * speed;
      puck.vy := Sin(m, angle) * speed;
      puck.trail := [];
      puck.alive := true;
      shots := shots + 1;
    }

    /**
     * The star loop of `updatePhysics`. The loop works on local copies of the four variables it
     * updates and stores them when it is done; nothing else reads them in between.
     */
    method CollectStars()
      modifies this
      ensures State() == StarPass(old(State()))
    {
      ghost var w0 := State();
      ghost var cur := TallyOf(w0);
      var ss: seq<Star>, bursts: seq<Vec>, count: nat, records: map<string, nat> :=
        stars, explosions, collectedStars, bestShotsByLevel;
      var i := 0;
      while i < |ss|
        invariant 0 <= i <= |ss| == |w0.stars|
        invariant cur == StarPassUpTo(w0, i)
        invariant ss == cur.stars && bursts == cur.explosions && count == cur.collected && records == cur.best
      {
        var star := ss[i];
        if !star.collected {
          var dx := star.pos.x - puck.x;
          var dy := star.pos.y - puck.y;
          var reach := star.radius + PuckRadius + StarMargin;
          if 0.0 < reach && dx * dx + dy * dy < reach * reach {
            ss := ss[i := star.(collected := true)];
            bursts := bursts + [star.pos];
            count := count + 1;
            if count == totalStars {
              var levelName := if currentLevelName == "" then RandomName else currentLevelName;
              if levelName !in records || records[levelName] == 0 || shots < records[levelName] {
                records := records[levelName := shots];
              }
            }
          }
        }
        cur := StarVisit(w0, cur, i);
        i := i + 1;
      }
      stars, explosions, collectedStars, bestShotsByLevel := ss, bursts, count, records;
    }

    /** `updatePhysics` after a crash-free integration to `next`: move, trails, bounds, stars. */
    method MoveTo(next: Kin)
      modifies this, puck
      ensures State() == Moved(old(State()), next)
    {
      puck.MoveTo(next);
      if OutOfBounds(Vec(puck.x, puck.y), width, height, LiveMargin) {
        ResetPuck();
      }
      CollectStars();
    }

    /** `updatePhysics(TIME_STEP)`. */
    method UpdatePhysics(m: Math)
      modifies this, puck
      ensures State() == Step(m, old(State()))
    {
      if !puck.alive {
        return;
      }
      var hit, next := Advance(m, planets, Kin(Vec(puck.x, puck.y), Vec(puck.vx, puck.vy)), CrashShrink);
      if hit {
        ResetPuck();
        return;
      }
      StepMoves(m, State());
      MoveTo(next);
    }

    /** `predictPath(angle, speed)`: reads the planets, launcher and canvas size and writes nothing. */
    method PredictPath(m: Math, angle: real, speed: real) returns (preview: seq<Vec>)
      ensures preview == Preview.PreviewOf(m, planets, width, height, Preview.LaunchState(m, launcher, angle, speed))
      ensures |preview| <= Preview.EvensBelow(Preview.PreviewSteps)
    {
      var v := LaunchVelocity(m, angle, speed);
      preview := Preview.LookAhead(m, planets, width, height, Kin(launcher, v), Preview.StepFn(m, planets), Preview.Crashed(planets));
      Preview.PreviewShape(Preview.StepFn(m, planets), Preview.Crashed(planets), width, height,
                           Preview.LaunchState(m, launcher, angle, speed));
    }

    /** `createLevelFromConfig(c)`. */
    method CreateLevelFromConfig(c: LevelConfig)
      modifies this, puck
      ensures State() == CreateLevel(old(State()), c)
    {
      LoadLevel(c);
      ResetPuck();
    }

    /** The body of `createLevelFromConfig` up to its closing `resetPuck`. */
    method LoadLevel(c: LevelConfig)
      modifies this
      ensures State() == Loaded(old(State()), c)
    {
      PlaceBodies(c);
      StartCount(c.name);
    }

    /** The first half of `LoadLevel`: planets and stars placed on the canvas, no explosions, the launcher re-centred. */
    method PlaceBodies(c: LevelConfig)
      modifies this
      ensures State() == old(State()).(planets := PlacePlanets(c.planets, width, height),
                                       stars := PlaceStars(c.stars, width, height),
                                       explosions := [], launcher := Vec(width * 0.12, height * 0.5))
    {
      planets := PlacePlanets(c.planets, width, height);
      stars := PlaceStars(c.stars, width, height);
      explosions := [];
      launcher := Vec(width * 0.12, height * 0.5);
    }

    /** The second half of `LoadLevel`: no shots, no stars collected, all of the placed stars to collect, the level named. */
    method StartCount(name: string)
      modifies this
      ensures State() == old(State()).(shots := 0, collectedStars := 0, totalStars := |stars|, levelName := name)
    {
      shots := 0;
      collectedStars := 0;
      totalStars := |stars|;
      currentLevelName := name;
    }

    /** The Reset Level button. */
    method ResetLevel()
      modifies this, puck
      ensures State() == Rules.ResetLevel(old(State()))
    {
      UncollectStars();
      ClearProgress();
      ResetPuck();
    }

    /** The first line of the Reset Level handler: every star's flag cleared, in place. */
    method UncollectStars()
      modifies this
      ensures State() == old(State()).(stars := ClearStars(old(stars)))
    {
      var cleared := stars;
      var i := 0;
      while i < |cleared|
        invariant 0 <= i <= |cleared| == |stars|
        invariant forall j :: 0 <= j < i ==> cleared[j] == stars[j].(collected := false)
        invariant forall j :: i <= j < |cleared| ==> cleared[j] == stars[j]
      {
        cleared := cleared[i := cleared[i].(collected := false)];
        i := i + 1;
      }
      assert cleared == ClearStars(stars);
      stars := cleared;
    }

    /** The rest of the Reset Level handler before `resetPuck`: counters zeroed, ghost trail and explosions cleared. */
    method ClearProgress()
      modifies this
      ensures State() == old(State()).(collectedStars := 0, shots := 0, lastTrail := [], explosions := [])
    {
      collectedStars := 0;
      shots := 0;
      lastTrail := [];
      explosions := [];
    }

    /** The Next Level button. */
    method NextLevel()
      modifies this, puck
      ensures State() == Rules.NextLevel(old(State()))
    {
      var i := (levelIndex + 1) % LevelCount;
      LevelCountIsLength();
      EnterLevel(i, BaseLevels[i]);
    }

    /** The Randomize button, given the configuration the random generator produced. */
    method Randomize(c: LevelConfig)
      modifies this, puck
      ensures State() == Rules.Randomize(old(State()), c)
    {
      EnterLevel(0, c);
    }

    /** The body the Next Level and Randomize handlers share: set the level index, clear the ghost trail and explosions, load `c`. */
    method EnterLevel(i: nat, c: LevelConfig)
      modifies this, puck
      ensures State() == Enter(old(State()), i, c)
    {
      levelIndex := i;
      lastTrail := [];
      explosions := [];
      CreateLevelFromConfig(c);
    }
  }
}
