# Orbital trickshot: a verified model of the game core

Orbital trickshot is a browser game. The player drags back from a launcher to fling a puck
through the gravity of a few planets. The aim is to collect every star of a level in as few shots
as possible. This project models the part of `main.js` that changes game state and proves
properties of it:

- the puck's Dormant / In-Flight cycle;
- the fixed-step physics step (`updatePhysics`): a crash test per planet, softened
  inverse-square gravity, damping, the two bounded trails, the out-of-bounds reset and the
  star-collection pass with its counters and per-level best-shot record;
- `resetPuck`, `firePuck` and `getDragPreview` (the launch mapping);
- the aiming look-ahead `predictPath`;
- level loading (`createLevelFromConfig`), the Reset Level, Next Level and Randomize buttons,
  and `init`.

The project has seven modules:

- `Numerics`: vectors, and the host's `sqrt`, `hypot`, `atan2`, `cos` and `sin`, which are left
  uninterpreted.
- `Physics`: the gravity field, the crash tests and the integrator step. These are shared by the
  live step and the preview.
- `Launch`: the drag-to-launch mapping.
- `Levels`: the six built-in levels and how their configurations are placed on the canvas.
- `Preview`: the look-ahead loop and a recursive specification of what it returns.
- `Rules`: the whole module-level state as a value `World`. Every operation is a pure transition
  on it. The invariant `Valid` and the lemmas about collection, records, trails and levels are
  proved here.
- `Game`: the mutable state as it is in the source:
  - class `Puck` is the puck object;
  - class `Game` holds the module-level variables and their functions and button handlers.

Every method of `Game` is proved to leave exactly the state its `Rules` transition describes. The
`Rules` lemmas therefore hold of the running game.

## Model

| member | source | states |
|---|---|---|
| Numerics.Sqrt | main.js:288 | `Math.sqrt` of the squared distance is never negative |
| Numerics.Hypot | main.js:244 | `Math.hypot(dx, dy)` is the uninterpreted `sqrt` of dx² + dy², made nonnegative; nothing else is known of it |
| Numerics.Min | main.js:243-245 | `Math.min` is at most each argument and equal to one of them |
| Physics.SoftDist | main.js:288 | the distance used for the direction, `sqrt(distSq) + 0.0001`, is strictly positive, so the division never divides by zero |
| Physics.Crash | main.js:280-285 | definition: the squared distance below `shrink` times the squared crash distance (planet radius + 7 + 6); `Preview.LiveCrashStopsPreview` and `Physics.CrashAtPlanetCentre` are about it |
| Physics.CrashAny | main.js:276-287 | definition: some planet fails the crash test; `Physics.GravityScan` is proved to report exactly this |
| Physics.Contribution | main.js:277-291 | definition: one planet's softened pull; `Physics.PullsTowardPlanet` proves its direction |
| Physics.Accel | main.js:274-292 | definition: the planets' pulls summed in list order; `Physics.GravityScan` is proved to compute it |
| Physics.Integrate | main.js:294-301 | definition: accelerate by a·dt, damp by 0.999, move by v·dt; `Physics.Advance` and `Physics.DampingInFreeSpace` are about it |
| Physics.OutOfBounds | main.js:308-315 | definition: more than `margin` beyond some edge; used with 150 by the step and 200 by the preview |
| Physics.GravityScan | main.js:276-292 | the planet loop reports a crash exactly when some planet is within `shrink` times the squared crash distance; otherwise its acceleration is the sum of every planet's softened pull, in list order |
| Physics.Advance | main.js:271-301 | one integrator step: a hit exactly when a planet is too close; otherwise the next position and velocity are `Integrate` (accelerate by a·dt, damp by 0.999, move by v·dt) |
| Physics.PullsTowardPlanet | main.js:280-291 | a planet of positive mass pulls towards its centre: each component has the sign of the offset, the components are in proportion to it, and the pull is nonzero when the offset is |
| Physics.AlongDirection | main.js:290-291 | `(force·dx/dist, force·dy/dist)` with force and dist positive points along (dx, dy) |
| Physics.CrashAtPlanetCentre | main.js:280-286 | a puck on a planet's centre always fails the live crash test (radius + 7 + 6, squared, times 0.85) |
| Physics.DampingInFreeSpace | main.js:294-299 | with no planets a step multiplies the squared speed by exactly 0.999² |
| Launch.DragLength | main.js:241-244 | the drag length is `hypot` of the drag vector, never negative |
| Launch.DragPreview | main.js:259-269 | the preview's angle is `atan2` of the raw drag, whatever its length |
| Launch.DragPreviewSpec | main.js:259-268 | strength is in [0, 1] and speed in [160, 420] with speed = 160 + 260·strength; strength is 1 exactly when the drag reaches `min(width, height)·0.35`; below that, strength is the drag's fraction of it |
| Launch.FireAim | main.js:240-250 | `firePuck` computes the same angle and speed as `getDragPreview` for the same target |
| Launch.ClampedRatio | main.js:245-248 | the clamped drag over the maximum drag is in [0, 1], is 1 exactly when the drag reaches the maximum, and gives a speed in [160, 420] |
| Launch.LongerDragIsFaster | main.js:174-176 | a longer drag never gives a slower shot (the tip shown with every level) |
| Levels.LevelCountIsLength | main.js:75-145 | there are six built-in levels, the modulus of the Next Level cycle |
| Levels.PlacePlanets | main.js:148-155 | one planet per configuration entry |
| Levels.PlaceStars | main.js:156-162 | one star per configuration entry, every one uncollected and of radius 14 |
| Levels.PlacePlanetsSpec | main.js:148-155 | planet i is entry i scaled by the canvas size, keeping mass, radius and spin |
| Levels.PlaceStarsSpec | main.js:156-162 | star i is entry i scaled by the canvas size |
| Preview.LiveCrashStopsPreview | main.js:283-285 | every position the live step treats as a crash (with the 0.85 factor) also stops the preview (no factor) |
| Preview.Orbit | main.js:353-373 | definition: the state after n integrator steps with the crash tests ignored; `Preview.PreviewPoint` and `Preview.PreviewShape` relate the preview to it |
| Preview.PreviewFrom | main.js:353-385 | definition: the preview's recursive specification; `Preview.LookAhead` is proved to compute it and `Preview.PreviewStopsAtFirstHalt` gives its length |
| Preview.PreviewBounded | main.js:353-385 | from step i on, the preview adds at most one point per even step index left below 80 |
| Preview.PreviewUnfold | main.js:353-385 | a step that neither crashes nor leaves the 200-pixel margin contributes its point on even steps, and the preview goes on from the next state |
| Preview.PreviewPoint | main.js:353-385 | point j of the preview from step i is the position after the j-th even step from i |
| Preview.PreviewShape | main.js:345-388 | a preview holds at most 40 points, and point j is the position after 2j + 1 integrator steps |
| Preview.PreviewStopsAtFirstHalt | main.js:353-385 | the preview's length is the number of even step indices below the first step that crashes (no 0.85 factor) or leaves the 200-pixel margin, or below 80 if none does |
| Preview.PreviewAdvance | main.js:354-373 | one preview step is the shared integrator step with the preview's crash test |
| Preview.LookAhead | main.js:346-388 | the loop returns exactly the recursive specification `PreviewFrom` of the preview |
| Rules.Window | main.js:303-306 | after `push` and at most one `shift`, the last entry is the new point and the rest is the old trail or the old trail less its oldest entry |
| Rules.WindowFits | main.js:303-306 | a trail within its cap stays within it; with room it only grows, and when full it drops exactly its oldest entry |
| Rules.ResetPuck | main.js:209-220 | the puck is dormant at the launcher at rest with both trails empty; the ghost trail takes the full trail only when that has more than one point; nothing else changes |
| Rules.Fire | main.js:240-257 | definition: the aim of `Launch.DragPreview` turned into a velocity, then `Rules.Launched`; see `Rules.FireSpec` |
| Rules.Launched | main.js:251-255 | definition: velocity set, short trail cleared, puck in flight, one more shot; see `Rules.FireSpec` |
| Rules.InReach | main.js:320-324 | definition: `hypot(dx, dy) < r` for r = star radius + 7 + 2, stated exactly as r > 0 and dx² + dy² < r² |
| Rules.Flips | main.js:319-324 | definition: an uncollected star within reach; `Rules.StarPassStars` and `Rules.StarPassCounts` are stated with it |
| Rules.RecordBest | main.js:328-334 | the record for the key becomes the shot count when there was none, when it was 0 (`!best`) or when the shot count is smaller, and otherwise stays; other keys are untouched |
| Rules.StarVisit | main.js:319-336 | visiting one star keeps the number of stars |
| Rules.StarPassUpTo | main.js:318-341 | the pass over the first n stars keeps the number of stars |
| Rules.StarPass | main.js:318-341 | definition: the star loop over every star; see `Rules.StarPassSpec` |
| Rules.Moved | main.js:294-341 | definition: move, extend and cap both trails, reset when beyond the margin, then the star pass; see `Rules.MovedTrails`, `Rules.MovedStars` and `Rules.MovedValid` |
| Rules.Step | main.js:271-343 | definition of `updatePhysics`; see `Rules.StepDormant`, `Rules.StepCrash`, `Rules.StepMoves`, `Rules.StepValid` and `Rules.StepProgress` |
| Rules.Loaded | main.js:147-171 | definition: `createLevelFromConfig` before its closing `resetPuck`; see `Rules.CreateLevelSpec` |
| Rules.CreateLevel | main.js:147-180 | definition: `Rules.Loaded`, then `resetPuck`; see `Rules.CreateLevelSpec` |
| Rules.ResetLevel | main.js:801-812 | definition of the Reset Level handler; see `Rules.ResetLevelSpec` |
| Rules.Enter | main.js:815-829 | definition of what Next Level and Randomize share; see `Rules.EnterSpec` |
| Rules.NextLevel | main.js:814-822 | definition of the Next Level handler; see `Rules.NextLevelSpec` |
| Rules.Randomize | main.js:824-830 | definition of the Randomize handler for a given configuration; see `Rules.RandomizeValid` |
| Rules.Init | main.js:846-852 | definition of the start-up state; see `Rules.InitValid` |
| Rules.Valid | main.js:166-171 | definition of the invariant: a valid level index, positive records, `collectedStars` equal to the collected stars and `totalStars` to their number, trails within 120 and 600, at least one shot while in flight, a dormant puck at rest on the launcher |
| Rules.ClearStars | main.js:802 | every star is uncollected and otherwise unchanged |
| Rules.NextIndex | main.js:816 | the next level index is the following one, wrapping from the sixth to the first |
| Rules.Run | main.js:692-705 | no event changes the canvas size |
| Rules.StarPassStars | main.js:318-326 | after the pass over the first n stars, exactly those have been swept at the puck's position; the rest are untouched |
| Rules.StarVisitSpec | main.js:319-336 | one visit keeps the count equal to the collected stars; a flipped star adds its own explosion, one to the count and, if it is the last, the record |
| Rules.StarPassCounts | main.js:318-327 | `collectedStars` stays the number of collected stars and grows by exactly the number flipped; one explosion per flipped star, at that star, in star order |
| Rules.StarPassBest | main.js:327-335 | the pass writes the best-shot record only if it takes the last star, and then through `RecordBest` under the level name (or "Random System") with the shot count |
| Rules.StarPassSpec | main.js:318-341 | the whole star pass: each star swept, counters in agreement, the explosions and the record as above |
| Rules.ResetPuckValid | main.js:209-220 | `resetPuck` keeps the invariant |
| Rules.FireSpec | main.js:240-257 | `firePuck` adds exactly one shot, puts the puck in flight with the launch velocity of the previewed aim and clears only the short trail, never the full trail; nothing else changes |
| Rules.FireValid | main.js:240-257 | `firePuck` keeps the invariant |
| Rules.StepDormant | main.js:272 | a step on a dormant puck changes nothing |
| Rules.StepCrash | main.js:276-287 | a step within 0.85 of a planet's squared crash distance only resets the puck: no move, no trail point, no star, no explosion, no record |
| Rules.StepMoves | main.js:271-301 | a crash-free step moves the puck to the integrator's next state and continues |
| Rules.MovedTrails | main.js:301-316 | after a crash-free step in bounds, the puck has the new position and velocity and both trails are extended and capped at 120 and 600; out of bounds, the puck is reset and the ghost trail holds the extended full trail if it has more than one point |
| Rules.MovedStars | main.js:309-341 | the star pass after the move runs at the new position (at the launcher after an out-of-bounds reset), with the counts, explosions and record of `StarPassSpec`; nothing else changes |
| Rules.MovedValid | main.js:294-341 | a crash-free step of a puck in flight keeps the invariant |
| Rules.StepValid | main.js:271-343 | `updatePhysics` keeps the invariant: counters agree with the stars, trails within their caps, dormant puck on the launcher, positive records |
| Rules.StepProgress | main.js:318-341 | over a step, collected stars stay collected, `collectedStars` never falls nor passes `totalStars`, the record is written only when the step takes the last star, and no recorded best increases |
| Rules.CreateLevelSpec | main.js:147-180 | a new level has its placed planets and uncollected stars, zero shots and collected stars, `totalStars` the number of stars, no explosions, its name, the launcher at (0.12·width, 0.5·height) and the puck dormant there; the ghost trail takes the full trail only when that has more than one point; records, level index and canvas size are kept |
| Rules.CreateLevelValid | main.js:147-180 | a new level satisfies the invariant whenever the session state and the kept trails do |
| Rules.ResetLevelSpec | main.js:801-812 | Reset Level uncollects every star in place, zeroes shots and collected stars and clears explosions; planets, launcher, star total and level name are kept; the ghost trail is refilled from the full trail when it has more than one point; the invariant holds |
| Rules.EnterSpec | main.js:814-829 | Next Level and Randomize load the configuration at the given index: placed planets, uncollected stars, zero counters, no explosions, records kept, the ghost trail refilled from the full trail only when that has more than one point, the puck dormant on the re-centred launcher |
| Rules.NextLevelSpec | main.js:814-822 | Next Level loads the following built-in level, wrapping after the sixth: its name, placed planets and uncollected stars, zero counters and no explosions; it keeps the records and the invariant |
| Rules.PressesCycle | main.js:815-816 | n presses of Next Level advance the index by n modulo 6, so six presses return to the same level |
| Rules.RandomizeValid | main.js:824-830 | Randomize loads the generated level at level index 0: its name, placed planets and uncollected stars, zero counters and no explosions; it keeps the records and the invariant |
| Rules.InitValid | main.js:846-852 | the game starts valid on "Slingshot Basics" with no shots, no records and no ghost trail |
| Rules.RunValid | main.js:692-705 | every state reached from a valid one by any sequence of frames, releases and button presses is valid |
| Game.Puck.constructor | main.js:37-46 | the puck starts at the origin, at rest, dormant, with no trails |
| Game.Puck.MoveTo | main.js:300-306 | the puck moves to the new position and velocity, and both trails get the point and are capped in place |
| Game.Puck.Reset | main.js:213-219 | the puck goes to the launcher, at rest, dormant, with both trails emptied |
| Game.Game.constructor | main.js:846-852 | start-up followed by `init()` gives `Rules.Init`, which is valid |
| Game.Game.ResetPuck | main.js:209-220 | leaves the state `Rules.ResetPuck` describes |
| Game.Game.FirePuck | main.js:240-257 | leaves the state `Rules.Fire` describes |
| Game.Game.CollectStars | main.js:318-341 | the star loop leaves the state `Rules.StarPass` describes |
| Game.Game.MoveTo | main.js:294-341 | the part of the step after a crash-free integration leaves the state `Rules.Moved` describes |
| Game.Game.UpdatePhysics | main.js:271-343 | `updatePhysics` leaves the state `Rules.Step` describes |
| Game.Game.PredictPath | main.js:345-388 | `predictPath(angle, speed)` returns the specified preview from the launcher at velocity (cos·speed, sin·speed), of at most 40 points, and changes no state |
| Game.Game.CreateLevelFromConfig | main.js:147-180 | leaves the state `Rules.CreateLevel` describes |
| Game.Game.LoadLevel | main.js:147-177 | leaves the state `Rules.Loaded` describes |
| Game.Game.PlaceBodies | main.js:148-165 | planets and stars placed, explosions cleared, launcher re-centred; nothing else changes |
| Game.Game.StartCount | main.js:166-171 | shots and collected stars zeroed, `totalStars` set to the number of stars, the level named; nothing else changes |
| Game.Game.ResetLevel | main.js:801-812 | the Reset Level handler leaves the state `Rules.ResetLevel` describes |
| Game.Game.UncollectStars | main.js:802 | every star's flag is cleared in place; nothing else changes |
| Game.Game.ClearProgress | main.js:803-810 | counters zeroed, ghost trail and explosions cleared; nothing else changes |
| Game.Game.NextLevel | main.js:814-822 | the Next Level handler leaves the state `Rules.NextLevel` describes |
| Game.Game.Randomize | main.js:824-830 | the Randomize handler, given the generated configuration, leaves the state `Rules.Randomize` describes |
| Game.Game.EnterLevel | main.js:815-829 | the level index is set, the ghost trail and explosions are cleared, and the configuration is loaded (`Rules.Enter`) |

## Left out

- Drawing is left out: the background, planets, stars, explosions, launcher, puck, drag guide and
  preview dots. So are the planet spin and star pulse animations. They are rendering only.
- The DOM is left out: text updates, the win overlay and the hint texts. Mouse and touch handling
  is reduced to a release at a target point (`Release` in `Rules.Event`). The space key is not
  modelled; it presses Reset Level.
- The resize handler is left out. The canvas size is fixed for a run.
- The `requestAnimationFrame` loop is a sequence of `Tick` events. Its time step is always
  `TIME_STEP` (1/75 s), so the integrator uses that constant.
- `randomLevel` and every `Math.random` call are left out: the random planet angles, star pulses
  and the generated configuration. Randomize takes the generated configuration as a parameter.
- `spawnExplosion` and the particles are left out. An explosion is recorded as its origin only:
  one per newly collected star, at that star.
- Numerics.Sqrt: the IEEE behaviour of `Math.sqrt` is left out. The square root is an
  uninterpreted function. The model only knows that it is never negative, because its magnitude is
  taken.
- Numerics.Hypot: it is the uninterpreted `sqrt` of dx² + dy², with its magnitude taken. The
  model knows only that it is never negative, not that it squares back to dx² + dy². It does not
  prove that a drag's direction and length agree with the trajectory.
- `Math.atan2`, `Math.cos` and `Math.sin` are uninterpreted functions in `Numerics.Math`. The model
  proves nothing about trajectory shape, about where the puck leaves the canvas, or about numeric
  agreement between the preview and the live flight.
- Floating point is modelled as exact real arithmetic, with no rounding, NaN or infinity.
- The star test `hypot(dx, dy) < radius + 7 + 2` is stated exactly, as r > 0 and dx² + dy² < r².
  This is the same comparison over the reals.
- Launch.DragPreview requires a canvas of positive width and height. So do Launch.FireAim,
  Rules.Fire, Game.Game.FirePuck and the runs in Rules.Run. On an empty canvas the source divides
  by a zero maximum drag, which gives NaN in floating point; the model has no NaN.
- Stars are values in a sequence, not shared objects. The star loop of Game.Game.CollectStars works
  on local copies of the four variables it updates and stores them at the end. Nothing reads them
  in between.
- The preview's structural lemmas are stated over any step function and any crash test. They are
  applied to the game's own integrator step and crash test through `Preview.StepFn` and
  `Preview.Crashed`.
- Explosions do not expire. In the source they are removed only by the drawing code once their
  particles fade. The model keeps their origins until the next level load or reset clears them.
