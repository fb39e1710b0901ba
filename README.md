# Gameplay model of the rocket-and-asteroids scene

The game is a single SpriteKit scene, `GameScene`. A rocket sits near the bottom
of the screen. Asteroids fall one at a time, and each one that reaches the ground
scores a point. Every fifth point raises the level and strengthens gravity by
half a unit.

This project models the scene's gameplay state and the handlers that change it.
It does not model the engine that draws the scene or runs its physics.

- `physics_categories.dfy` (module `PhysicsCategories`): the 32-bit collision
  category masks and how a contact is classified by OR-ing two of them.
- `gameplay.dfy` (module `Gameplay`): the scene's state as a value `State`. It has
  one function per handler (`StartGame`, `StopGame`, `CountDown`, `LevelUp`,
  `DidBegin`, `MoveRocketTo`, `CreateAsteroid`, `UpdateScore`) and the pure
  calculations (move target, spawn position). It also defines the invariant
  `Valid` and the lemmas about single events and whole sessions.
- `game_scene.dfy` (module `Scene`): the class `GameScene` with the same fields.
  Its methods update the fields in place. Each method's postcondition ties the new
  fields to the matching `Gameplay` function of the old fields. Every event handler
  (`StartGame`, `StopGame`, `CountDown`, `DidBegin`, `MoveRocketTo`) keeps `Valid`.
  The helpers `UpdateScore`, `LevelUp` and `CreateAsteroid` are called only inside
  the handlers and promise only their effect.

Modelling choices:

- Gravity is a `real`. It starts at -3.0 and changes by steps of 0.5, so the
  values are exact. The invariant is `gravity == -3.0 - 0.5 * (level - 1)`. The
  gravity the physics world applies is a separate field, `worldGravity`.
- The countdown timer is modelled by two fields. `timerLive` records whether the
  timer the scene holds is still scheduled. `strayTimers` counts scheduled timers
  the scene no longer holds. `stopGame` never invalidates the timer. So if the
  game is stopped during the countdown and started again, the old timer keeps
  firing alongside the new one (`RestartDuringCountdownKeepsOldTimer`). A tick is
  an explicit event that can happen only while some timer is scheduled.
- The scene plays one session: `didMove` starts the game and nothing calls
  `stopGame`. In such a session there is no asteroid during the countdown and
  exactly one after it (`OneAsteroidPerSession`). Stopping and starting again
  breaks this. Stopping after the countdown keeps the old asteroid, and the new
  countdown adds a second (`RestartAfterCountdownTwoAsteroids`). A contact then
  removes the asteroid the scene's `asteroid` property refers to, whichever one
  landed. Stopping during the countdown leaves the old timer ticking, so once
  the count reaches 0 it keeps falling below 0 (`LeftoverTicksNeverSpawn`).
- Asteroids are a count of nodes in the scene, plus the spawn position of the one
  the scene's `asteroid` property refers to. The random x drawn by the spawner is
  a parameter that must lie in the distribution's range.
- A contact is an event that carries the two bodies' category masks. A
  ground–asteroid contact can only occur while an asteroid exists, so that is
  required.
- A move is modelled by its end state: the rocket rests at the planned target.
  The planned bank angle is in degrees.
- The score label is modelled as the score and level it last displayed.
  `levelUp` does not refresh it. So right after an escalation the label still
  shows the previous level until the next point (`LevelLabelLagsEscalation`).
  The invariant allows exactly this lag.
- The clamp in `moveRocketTo` offsets by the rocket's full width (100), not
  half of it. It applies only when x is outside `[minX, maxX]`. An x inside the
  frame is used as is, even at the very edge. The model follows the code here.

## Model

| member | source | states |
|---|---|---|
| PhysicsCategories.CategoryValues | game1/PhysicsCategories.swift:12-15 | `none` is 0; rocket, asteroid and ground are the distinct single bits 1, 2 and 4 |
| PhysicsCategories.CategoriesDisjoint | game1/PhysicsCategories.swift:12-15 | the AND of any two categories is 0 |
| PhysicsCategories.ContactMask | game1/GameScene.swift:100 | the contact mask has no bit that is in neither body's category |
| PhysicsCategories.ContactMaskContainsBoth | game1/GameScene.swift:100 | the contact mask holds both bodies' categories, so with ContactMask it is exactly their union |
| PhysicsCategories.ContactMaskSymmetric | game1/GameScene.swift:100 | swapping bodyA and bodyB changes neither the mask nor whether the contact scores |
| PhysicsCategories.IsScoringContact | game1/GameScene.swift:100-101 | for category masks, the contact scores iff it is ground with asteroid in either order; a scoring contact never involves the rocket bit |
| PhysicsCategories.PairMasksDistinct | game1/PhysicsCategories.swift:13-15 | ground OR asteroid is 6, rocket OR asteroid is 3, rocket OR ground is 5; only the first scores |
| Gameplay.Truncate | game1/GameScene.swift:165 | converting a real to an integer rounds toward zero: the result is within 1 of the input, on the zero side |
| Gameplay.SpawnPosition | game1/GameScene.swift:163-171 | a new asteroid's x is the drawn value, within [50, frame width - 60]; its y is one asteroid size above the top of the frame |
| Gameplay.MoveTarget | game1/GameScene.swift:119-133 | bank -45 iff the touch is right of the rocket, else +45 (ties included); x below minX goes to minX + width, x above maxX to maxX - width, x inside is kept; y is always minY + rocket height; when the rocket fits, the target x stays inside the frame |
| Gameplay.PresentedValid | game1/GameScene.swift:20-24 | the initial fields satisfy the invariant, with no game running, no timer and no asteroid |
| Gameplay.StartGameWhileRunning | game1/GameScene.swift:59-60 | startGame while running changes nothing |
| Gameplay.StartGameWhenStopped | game1/GameScene.swift:59-70 | when stopped, startGame sets running, score 0, countdown 3, refreshes the label and schedules a timer; level, gravity, asteroids, rocket and the countdown label's previous text are kept |
| Gameplay.StartGameIdempotent | game1/GameScene.swift:59-70 | a second startGame right after the first changes nothing; from an idle scene only one timer is scheduled |
| Gameplay.StopGameKeepsState | game1/GameScene.swift:72-74 | stopGame clears running and changes no other field |
| Gameplay.CountDownTick | game1/GameScene.swift:76-84 | a tick lowers the count by exactly 1 and the label shows it; exactly when it reaches 0 the held timer is cancelled, the label hidden and one asteroid spawned; score, level, gravity, labels and rocket are kept |
| Gameplay.CountdownTakesThreeTicks | game1/GameScene.swift:59-84 | after a fresh start, ticks 1 and 2 spawn nothing and keep ticking; tick 3 reaches 0, spawns one asteroid, leaves no timer, and the hidden label reads 0 |
| Gameplay.RestartDuringCountdownKeepsOldTimer | game1/GameScene.swift:59-84 | start, stop during the countdown, start again: two timers are scheduled; after three ticks the count is 0 and the held timer cancelled, but the old one still ticks |
| Gameplay.LeftoverTicksNeverSpawn | game1/GameScene.swift:76-84 | once the count is at or below 0, further ticks drive it below 0 one per tick and never spawn an asteroid or cancel a timer |
| Gameplay.ContactScores | game1/GameScene.swift:99-108 | a ground–asteroid contact adds exactly 1 to the score and leaves exactly as many asteroids, the new one at its spawn position |
| Gameplay.OtherContactIgnored | game1/GameScene.swift:99-101 | any other contact changes nothing |
| Gameplay.LevelUpIff | game1/GameScene.swift:90-97 | levelUp raises the level by 1 and lowers gravity by 0.5 iff the score is a multiple of 5, and otherwise changes nothing |
| Gameplay.ContactEscalatesIff | game1/GameScene.swift:99-107 | a scoring contact escalates iff the new score is a multiple of 5, so never before the score reaches 5 |
| Gameplay.LevelLabelLagsEscalation | game1/GameScene.swift:86-107 | at the escalation from score 4 to 5, the label still shows the old level |
| Gameplay.StepPreservesValid | game1/GameScene.swift:59-141 | every event keeps the invariant (gravity tied to level, physics world gravity equal to it, score non-negative, label in step, asteroid reference set iff an asteroid exists) |
| Gameplay.RunPreservesValid | game1/GameScene.swift:59-141 | every state reached by a sequence of possible events satisfies the invariant |
| Gameplay.ScoreTimes | game1/GameScene.swift:99-108 | a sequence of scoring contacts, each with its own spawn draw, keeps the number of asteroids |
| Gameplay.ScoringRun | game1/GameScene.swift:90-108 | any n scoring contacts (any spawn draws) add n points and one level per multiple of 5 passed, with gravity 0.5 stronger per level |
| Gameplay.FiveScoresScenario | game1/GameScene.swift:59-108 | start, three ticks, five scores: score 5, level 2, gravity -3.5, one asteroid, label hidden |
| Gameplay.PresentedInSession | game1/GameScene.swift:20-24 | the presented scene satisfies the one-session invariant |
| Gameplay.SessionStep | game1/GameScene.swift:59-141 | every event except stopGame keeps the one-session invariant: no leftover timer, no asteroid while counting down, exactly one after, timer scheduled exactly while running and counting |
| Gameplay.SessionRun | game1/GameScene.swift:59-141 | every state reached without stopGame keeps the one-session invariant |
| Gameplay.OneAsteroidPerSession | game1/GameScene.swift:26-141 | from presentation, without stopGame: no asteroid while the count is above 0, exactly one and no timer once it is 0 |
| Gameplay.RestartAfterCountdownTwoAsteroids | game1/GameScene.swift:59-84 | stop after the countdown and start again: the old asteroid stays through the new countdown, which adds a second |
| Scene.GameScene.constructor | game1/GameScene.swift:20-57 | a presented scene has the initial fields and satisfies the invariant |
| Scene.GameScene.StartGame | game1/GameScene.swift:59-70 | in-place startGame; a no-op when running, else running, score 0, countdown 3; level and gravity kept |
| Scene.GameScene.StopGame | game1/GameScene.swift:72-74 | in-place stopGame; only running changes |
| Scene.GameScene.CountDown | game1/GameScene.swift:76-84 | in-place tick; count down by 1, one asteroid added exactly at 0 |
| Scene.GameScene.UpdateScore | game1/GameScene.swift:86-88 | the label shows the current score and level |
| Scene.GameScene.LevelUp | game1/GameScene.swift:90-97 | in-place levelUp; level +1 iff score is a multiple of 5, gravity and world gravity 0.5 stronger per level gained |
| Scene.GameScene.DidBegin | game1/GameScene.swift:99-108 | in-place contact handler; score +1 iff scoring; asteroid count unchanged |
| Scene.GameScene.MoveRocketTo | game1/GameScene.swift:118-141 | returns the planned move and leaves the rocket at its target, at the resting height |
| Scene.GameScene.CreateAsteroid | game1/GameScene.swift:159-171 | adds one asteroid at its spawn position |
| Scene.Present | game1/GameScene.swift:26-30 | presenting the scene starts the first countdown at level 1 with a timer ticking |
| Scene.ScoreOnce | game1/GameScene.swift:59-108 | after the countdown and one scoring contact: score 1, level 1, one asteroid, no timer |

## Left out

- Drawing and the scene graph are not modelled: node and texture creation, `addChild`, label fonts, colours, positions and text formatting. The asteroid is a count and a spawn position. Each label is the value it shows.
- `createMars`, `createEarth` and `createBottom` are decoration and physics-body set-up, so they are not modelled. `createRocket` contributes only the rocket's starting position.
- Timer scheduling and the run loop are not modelled. A tick is an explicit event, enabled while a timer is scheduled. The one-second interval is not modelled.
- SKAction animations, their durations and sequencing are not modelled. Neither are the endless rotations, the velocity reset or the `allowsRotation` toggles. A move is reduced to its end position, so the rocket's position in the middle of a move is not captured.
- The physics simulation is not modelled: bodies falling under gravity and contact detection. Only the stored gravity values and the contact event are modelled.
- The random draw of `GKRandomDistribution` is a parameter constrained to the drawn range. What happens for a frame narrower than 110 points is not modelled; such frames are excluded by `ValidFrame`.
- `touchesBegan` only forwards each touch of an unordered set to `moveRocketTo`, so it is not modelled.
- The degree-to-radian conversion of the bank angle, and floating point in general, are not modelled. Coordinates and gravity are reals.
- Integer overflow of the 64-bit `score`, `level` and `countdown` is not modelled. The integers are unbounded.
- `print` is left out.
