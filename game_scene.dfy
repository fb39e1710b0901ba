/** The scene object: its gameplay fields, updated in place by the event handlers.
    Each method is specified by the matching function of Gameplay applied to the
    state before the call; the event handlers also keep the invariant Gameplay.Valid. */
module Scene {
  import opened PhysicsCategories
  import opened Gameplay

  class GameScene {
    const frame: Frame

    var score: int
    var level: int
    var countdown: int
    var running: bool
    var gravity: real
    var worldGravity: real
    var timerLive: bool
    var strayTimers: nat
    var startLabel: Label
    var startLabelHidden: bool
    var shownScore: int
    var shownLevel: int
    var asteroids: nat
    var asteroid: Option<Point>
    var rocket: Point

    /** The fields as one value. */
    function Snapshot(): State
      reads this
    {
      State(score, level, countdown, running, gravity, worldGravity, timerLive, strayTimers,
            startLabel, startLabelHidden, shownScore, shownLevel, asteroids, asteroid, rocket)
    }

    ghost predicate Valid()
      reads this
    {
      ValidFrame(frame) && Gameplay.Valid(Snapshot())
    }

    /** Initial field values, then physics set-up and layout, as on presentation. */
    constructor (f: Frame)
      requires ValidFrame(f)
      ensures Valid() && frame == f
      ensures Snapshot() == Presented(f)
    {
      frame := f;
      score, level, countdown, running := 0, 1, StartCount, false;
      gravity := InitialGravity;
      worldGravity := gravity;
      timerLive, strayTimers := false, 0;
      startLabel, startLabelHidden := Blank, false;
      shownScore, shownLevel := 0, 1;
      asteroids, asteroid := 0, None;
      rocket := Point((f.minX + f.maxX) / 2.0, f.minY + RocketSize);
    }

    method StartGame()
      requires Valid()
      modifies this
      ensures Valid()
      ensures Snapshot() == Gameplay.StartGame(old(Snapshot()))
      ensures old(running) ==> Snapshot() == old(Snapshot())
      ensures !old(running) ==> running && score == 0 && countdown == StartCount && timerLive
      ensures level == old(level) && gravity == old(gravity)
    {
      if running { return; }
      running := true;
      score := 0;
      UpdateScore();
      if timerLive {
        strayTimers := strayTimers + 1;
      }
      timerLive := true;
      startLabelHidden := false;
      countdown := StartCount;
    }

    method StopGame()
      requires Valid()
      modifies this
      ensures Valid()
      ensures Snapshot() == Gameplay.StopGame(old(Snapshot()))
      ensures !running && score == old(score) && level == old(level)
      ensures countdown == old(countdown) && gravity == old(gravity)
    {
      running := false;
    }

    /** The tick of the repeating one-second timer. */
    method CountDown(pick: int)
      requires Valid() && SpawnPick(frame, pick)
      modifies this
      ensures Valid()
      ensures Snapshot() == Gameplay.CountDown(old(Snapshot()), frame, pick)
      ensures countdown == old(countdown) - 1
      ensures asteroids == old(asteroids) + (if countdown == 0 then 1 else 0)
    {
      countdown := countdown - 1;
      startLabel := Number(countdown);
      if countdown == 0 {
        timerLive := false;
        startLabelHidden := true;
        CreateAsteroid(pick);
      }
    }

    method UpdateScore()
      modifies this
      ensures Snapshot() == Gameplay.UpdateScore(old(Snapshot()))
      ensures shownScore == score && shownLevel == level
    {
      shownScore, shownLevel := score, level;
    }

    method LevelUp()
      modifies this
      ensures Snapshot() == Gameplay.LevelUp(old(Snapshot()))
      ensures old(score) % LevelEvery == 0 <==> level == old(level) + 1
      ensures gravity == old(gravity) - GravityStep * (level - old(level)) as real
      ensures worldGravity == (if level == old(level) then old(worldGravity) else gravity)
    {
      if score % LevelEvery == 0 {
        gravity := gravity - GravityStep;
        level := level + 1;
        worldGravity := gravity;
      }
    }

    /** A contact between two bodies with category masks a and b. */
    method DidBegin(a: Mask, b: Mask, pick: int)
      requires Valid() && SpawnPick(frame, pick)
      requires IsScoringContact(a, b) ==> asteroids > 0
      modifies this
      ensures Valid()
      ensures Snapshot() == Gameplay.DidBegin(old(Snapshot()), frame, a, b, pick)
      ensures score == old(score) + (if IsScoringContact(a, b) then 1 else 0)
      ensures asteroids == old(asteroids)
    {
      var contactMask := ContactMask(a, b);
      if contactMask == Bottom | Asteroid {
        asteroids := asteroids - 1;
        CreateAsteroid(pick);
        score := score + 1;
        UpdateScore();
        LevelUp();
      }
    }

    /** Moves the rocket toward a touch; returns the planned bank angle and target,
        and leaves the rocket where the move ends. */
    method MoveRocketTo(x: real, y: real) returns (plan: MovePlan)
      requires Valid()
      modifies this
      ensures Valid()
      ensures plan == MoveTarget(frame, old(rocket).x, x)
      ensures Snapshot() == Gameplay.MoveRocketTo(old(Snapshot()), frame, x, y)
      ensures rocket == Point(plan.x, plan.y) && rocket.y == frame.minY + RocketSize
    {
      plan := MoveTarget(frame, rocket.x, x);
      rocket := Point(plan.x, plan.y);
    }

    method CreateAsteroid(pick: int)
      requires SpawnPick(frame, pick)
      modifies this
      ensures Snapshot() == Gameplay.CreateAsteroid(old(Snapshot()), frame, pick)
      ensures asteroids == old(asteroids) + 1
      ensures asteroid == Some(SpawnPosition(frame, pick))
    {
      asteroids := asteroids + 1;
      asteroid := Some(SpawnPosition(frame, pick));
    }
  }

  /** Presenting the scene: physics set-up and layout, then the first startGame. */
  method Present(f: Frame) returns (scene: GameScene)
    requires ValidFrame(f)
    ensures fresh(scene) && scene.Valid() && scene.frame == f
    ensures scene.Snapshot() == Gameplay.StartGame(Presented(f))
    ensures scene.running && scene.score == 0 && scene.level == 1 && scene.countdown == StartCount
    ensures scene.asteroids == 0 && Ticking(scene.Snapshot())
  {
    scene := new GameScene(f);
    scene.StartGame();
  }

  /** A presented scene goes through the full countdown and one scoring contact,
      reported with the asteroid as body A. */
  method ScoreOnce(f: Frame, p1: int, p2: int, p3: int, pick: int) returns (scene: GameScene)
    requires ValidFrame(f)
    requires SpawnPick(f, p1) && SpawnPick(f, p2) && SpawnPick(f, p3) && SpawnPick(f, pick)
    ensures scene.Valid() && scene.running && !Ticking(scene.Snapshot())
    ensures scene.score == 1 && scene.level == 1 && scene.asteroids == 1 && scene.countdown == 0
    ensures scene.asteroid == Some(SpawnPosition(f, pick))
  {
    scene := Present(f);
    scene.CountDown(p1);
    scene.CountDown(p2);
    scene.CountDown(p3);
    scene.DidBegin(Asteroid, Bottom, pick);
  }
}
