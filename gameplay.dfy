/** The gameplay rules of the scene as pure functions on a snapshot of its state:
    one function per event handler, the invariant every event keeps, and the
    properties of whole sessions (countdown, scoring, escalation). */
module Gameplay {
  import opened PhysicsCategories

  datatype Option<T> = None | Some(value: T)

  datatype Point = Point(x: real, y: real)

  /** The visible area of the scene. */
  datatype Frame = Frame(minX: real, maxX: real, minY: real, maxY: real)

  /** Side of the square the rocket is scaled to. */
  const RocketSize: real := 100.0
  /** Side of the square an asteroid is scaled to. */
  const AsteroidSize: real := 60.0
  const InitialGravity: real := -3.0
  const GravityStep: real := 0.5
  const StartCount: int := 3
  /** The level goes up on every score that is a multiple of this. */
  const LevelEvery: int := 5
  /** Banking angle of a move, in degrees. */
  const BankDegrees: int := 45
  /** Lowest x an asteroid is spawned at. */
  const SpawnMinX: int := 50

  /** Text of the countdown label: empty until the first tick, then the count. */
  datatype Label = Blank | Number(n: int)

  /** Where a move sends the rocket and how it banks on the way. */
  datatype MovePlan = MovePlan(angle: int, x: real, y: real)

  /** Everything the gameplay rules read or write. */
  datatype State = State(
    score: int,
    level: int,
    countdown: int,
    running: bool,
    gravity: real,
    /** The vertical gravity the physics world currently applies. */
    worldGravity: real,
    /** The timer the scene holds is scheduled and not yet invalidated. */
    timerLive: bool,
    /** Scheduled timers the scene no longer holds (it replaced them with a newer one). */
    strayTimers: nat,
    startLabel: Label,
    startLabelHidden: bool,
    /** Score and level as the score label last displayed them. */
    shownScore: int,
    shownLevel: int,
    /** Asteroid nodes in the scene. */
    asteroids: nat,
    /** Spawn position of the asteroid the scene refers to; None before the first one. */
    asteroid: Option<Point>,
    /** Resting position of the rocket (where its last move ends). */
    rocket: Point
  )

  // ---------------------------------------------------------------- geometry

  /** Conversion of a real to an integer, rounding toward zero. */
  function Truncate(r: real): (i: int)
    ensures 0.0 <= r ==> 0 <= i && i as real <= r < i as real + 1.0
    ensures r < 0.0 ==> i <= 0 && i as real - 1.0 < r <= i as real
  {
    if r >= 0.0 then r.Floor else -((-r).Floor)
  }

  function Width(f: Frame): real {
    f.maxX - f.minX
  }

  /** Highest x an asteroid is spawned at: the frame's width less the asteroid's size, truncated. */
  function SpawnMaxX(f: Frame): int {
    Truncate(Width(f) - AsteroidSize)
  }

  /** The random x the spawner draws lies in this inclusive range. */
  predicate SpawnPick(f: Frame, pick: int) {
    SpawnMinX <= pick <= SpawnMaxX(f)
  }

  /** A frame the spawner can draw from: the range [50, SpawnMaxX] is not empty. */
  predicate ValidFrame(f: Frame) {
    f.minX <= f.maxX && f.minY <= f.maxY && SpawnMinX <= SpawnMaxX(f)
  }

  /** Where a freshly created asteroid is placed: at the drawn x, one asteroid size above the top. */
  function SpawnPosition(f: Frame, pick: int): (p: Point)
    requires SpawnPick(f, pick)
    ensures SpawnMinX as real <= p.x <= Width(f) - AsteroidSize
    ensures p.x == pick as real
    ensures p.y == f.maxY + AsteroidSize && p.y > f.maxY
  {
    Point(pick as real, f.maxY + AsteroidSize)
  }

  /** The move a touch at x triggers: bank toward the target, clamp x to the
      frame (offset by the rocket's full width), and land at the resting height. */
  function MoveTarget(f: Frame, rocketX: real, x: real): (p: MovePlan)
    ensures p.angle == -BankDegrees <==> x > rocketX
    ensures p.angle == BankDegrees <==> x <= rocketX
    ensures p.y == f.minY + RocketSize
    ensures f.minX <= x <= f.maxX ==> p.x == x
    ensures x < f.minX ==> p.x == f.minX + RocketSize
    ensures f.minX <= f.maxX < x ==> p.x == f.maxX - RocketSize
    ensures RocketSize <= Width(f) ==> f.minX <= p.x <= f.maxX
  {
    var angle := if x > rocketX then -BankDegrees else BankDegrees;
    var xPosition :=
      if x < f.minX then f.minX + RocketSize
      else if x > f.maxX then f.maxX - RocketSize
      else x;
    MovePlan(angle, xPosition, f.minY + RocketSize)
  }

  // ---------------------------------------------------------------- events

  /** The scene once physics is set up and the scene laid out, before the game starts. */
  function Presented(f: Frame): State {
    State(0, 1, StartCount, false, InitialGravity, InitialGravity, false, 0,
          Blank, false, 0, 1, 0, None,
          Point((f.minX + f.maxX) / 2.0, f.minY + RocketSize))
  }

  /** Refreshes the score label from the current score and level. */
  function UpdateScore(s: State): State {
    s.(shownScore := s.score, shownLevel := s.level)
  }

  function StartGame(s: State): State {
    if s.running then s
    else
      var t := UpdateScore(s.(running := true, score := 0));
      // scheduling a new timer replaces the one held; a still scheduled one keeps firing
      t.(strayTimers := t.strayTimers + (if t.timerLive then 1 else 0), timerLive := true,
         startLabelHidden := false, countdown := StartCount)
  }

  function StopGame(s: State): State {
    s.(running := false)
  }

  function CreateAsteroid(s: State, f: Frame, pick: int): State
    requires SpawnPick(f, pick)
  {
    s.(asteroids := s.asteroids + 1, asteroid := Some(SpawnPosition(f, pick)))
  }

  /** One tick of the countdown timer. */
  function CountDown(s: State, f: Frame, pick: int): State
    requires SpawnPick(f, pick)
  {
    var t := s.(countdown := s.countdown - 1, startLabel := Number(s.countdown - 1));
    if t.countdown == 0 then
      CreateAsteroid(t.(timerLive := false, startLabelHidden := true), f, pick)
    else t
  }

  /** Every fifth point the gravity grows stronger by half a unit and the level goes up.
      (The test is on divisibility, so truncating and Euclidean remainder agree.) */
  function LevelUp(s: State): State {
    if s.score % LevelEvery == 0 then
      var g := s.gravity - GravityStep;
      s.(gravity := g, level := s.level + 1, worldGravity := g)
    else s
  }

  /** A contact between bodies with category masks a and b. */
  function DidBegin(s: State, f: Frame, a: Mask, b: Mask, pick: int): State
    requires SpawnPick(f, pick)
    requires IsScoringContact(a, b) ==> s.asteroids > 0
  {
    if IsScoringContact(a, b) then
      var replaced := CreateAsteroid(s.(asteroids := s.asteroids - 1), f, pick);
      LevelUp(UpdateScore(replaced.(score := replaced.score + 1)))
    else s
  }

  /** A touch at (x, y): the rocket ends its move at the planned target, whatever y was. */
  function MoveRocketTo(s: State, f: Frame, x: real, y: real): State {
    var p := MoveTarget(f, s.rocket.x, x);
    s.(rocket := Point(p.x, p.y))
  }

  // ---------------------------------------------------------------- invariant

  /** Gravity as a function of the level: -3.0 at level 1, half a unit stronger per level. */
  function GravityAt(level: int): real {
    InitialGravity - GravityStep * (level - 1) as real
  }

  /** What holds in every state the scene reaches. */
  predicate Valid(s: State) {
    && s.score >= 0
    && s.level >= 1
    && s.gravity == GravityAt(s.level)
    && s.worldGravity == s.gravity
    && s.countdown <= StartCount
    && s.shownScore == s.score
    // the label shows the current level, except right after an escalation
    && (s.shownLevel == s.level ||
        (s.shownLevel == s.level - 1 && s.score > 0 && s.score % LevelEvery == 0))
    && (s.asteroids > 0 <==> s.asteroid.Some?)
  }

  predicate Ticking(s: State) {
    s.timerLive || s.strayTimers > 0
  }

  datatype Event =
    | Start
    | Stop
    | Tick(pick: int)
    | Contact(a: Mask, b: Mask, pick: int)
    | Touch(x: real, y: real)

  /** Whether the event can happen in state s: a tick needs a scheduled timer, a
      ground–asteroid contact needs an asteroid, and every random draw lies in the spawn range. */
  predicate Enabled(s: State, f: Frame, e: Event) {
    match e
    case Start => true
    case Stop => true
    case Tick(pick) => Ticking(s) && SpawnPick(f, pick)
    case Contact(a, b, pick) => SpawnPick(f, pick) && (IsScoringContact(a, b) ==> s.asteroids > 0)
    case Touch(_, _) => true
  }

  function Step(s: State, f: Frame, e: Event): State
    requires Enabled(s, f, e)
  {
    match e
    case Start => StartGame(s)
    case Stop => StopGame(s)
    case Tick(pick) => CountDown(s, f, pick)
    case Contact(a, b, pick) => DidBegin(s, f, a, b, pick)
    case Touch(x, y) => MoveRocketTo(s, f, x, y)
  }

  /** The state after a sequence of events, or None if one of them cannot happen when it comes. */
  function Run(s: State, f: Frame, es: seq<Event>): Option<State>
    decreases |es|
  {
    if es == [] then Some(s)
    else if Enabled(s, f, es[0]) then Run(Step(s, f, es[0]), f, es[1..])
    else None
  }

  // ---------------------------------------------------------------- lemmas

  lemma PresentedValid(f: Frame)
    ensures Valid(Presented(f)) && !Presented(f).running && !Ticking(Presented(f))
    ensures Presented(f).asteroids == 0
  {
  }

  /** startGame while running changes nothing. */
  lemma StartGameWhileRunning(s: State)
    requires s.running
    ensures StartGame(s) == s
  {
  }

  /** startGame when stopped starts a countdown from 3 with score 0, keeping level and gravity. */
  lemma StartGameWhenStopped(s: State)
    requires !s.running
    ensures var t := StartGame(s);
      && t.running && t.score == 0 && t.countdown == StartCount
      && t.level == s.level && t.gravity == s.gravity && t.worldGravity == s.worldGravity
      && t.timerLive && !t.startLabelHidden && t.shownScore == 0 && t.shownLevel == s.level
      && t.asteroids == s.asteroids && t.asteroid == s.asteroid && t.rocket == s.rocket
      && t.strayTimers == s.strayTimers + (if s.timerLive then 1 else 0)
      // the countdown label keeps the previous session's text until the first tick
      && t.startLabel == s.startLabel
  {
  }

  /** A second startGame right after the first changes nothing: one session, one timer. */
  lemma StartGameIdempotent(s: State)
    ensures StartGame(StartGame(s)) == StartGame(s)
    ensures !s.running && !Ticking(s) ==> StartGame(s).strayTimers == 0
  {
  }

  /** stopGame only clears `running`. */
  lemma StopGameKeepsState(s: State)
    ensures var t := StopGame(s);
      && !t.running
      && t.score == s.score && t.level == s.level && t.countdown == s.countdown
      && t.gravity == s.gravity && t == s.(running := false)
  {
  }

  /** A tick lowers the count by one; it spawns an asteroid, cancels the held timer and
      hides the label (which then reads the final count, 0) exactly when the count reaches 0. */
  lemma CountDownTick(s: State, f: Frame, pick: int)
    requires SpawnPick(f, pick)
    ensures var t := CountDown(s, f, pick);
      && t.countdown == s.countdown - 1
      && t.startLabel == Number(t.countdown)
      && (t.countdown == 0 ==>
            t.asteroids == s.asteroids + 1 && t.asteroid == Some(SpawnPosition(f, pick))
            && !t.timerLive && t.startLabelHidden)
      && (t.countdown != 0 ==>
            t.asteroids == s.asteroids && t.asteroid == s.asteroid
            && t.timerLive == s.timerLive && t.startLabelHidden == s.startLabelHidden)
      && t.strayTimers == s.strayTimers && t.score == s.score && t.level == s.level
      && t.gravity == s.gravity && t.running == s.running
      && t.worldGravity == s.worldGravity && t.shownScore == s.shownScore
      && t.shownLevel == s.shownLevel && t.rocket == s.rocket
  {
  }

  /** From a fresh start the countdown takes exactly three ticks: 3, 2, 1, 0. Only the
      third spawns the asteroid, and after it no timer is left. */
  lemma CountdownTakesThreeTicks(s: State, f: Frame, p1: int, p2: int, p3: int)
    requires !s.running && !Ticking(s)
    requires SpawnPick(f, p1) && SpawnPick(f, p2) && SpawnPick(f, p3)
    ensures var t0 := StartGame(s);
      var t1 := CountDown(t0, f, p1);
      var t2 := CountDown(t1, f, p2);
      var t3 := CountDown(t2, f, p3);
      && t0.countdown == 3 && Ticking(t0)
      && t1.countdown == 2 && Ticking(t1) && t1.asteroids == s.asteroids && !t1.startLabelHidden
      && t2.countdown == 1 && Ticking(t2) && t2.asteroids == s.asteroids && !t2.startLabelHidden
      && t3.countdown == 0 && !Ticking(t3) && t3.asteroids == s.asteroids + 1
      && t3.startLabel == Number(0) && t3.startLabelHidden
      && t3.asteroid == Some(SpawnPosition(f, p3))
  {
  }

  /** stopGame does not cancel the countdown timer: stopping during the countdown and
      starting again leaves two timers ticking the same count. Three ticks bring it to 0
      and cancel the held timer, but the old one keeps ticking. */
  lemma RestartDuringCountdownKeepsOldTimer(s: State, f: Frame, p1: int, p2: int, p3: int)
    requires !s.running && !Ticking(s)
    requires SpawnPick(f, p1) && SpawnPick(f, p2) && SpawnPick(f, p3)
    ensures var t := StartGame(StopGame(StartGame(s)));
      && t.timerLive && t.strayTimers == 1 && t.countdown == StartCount
      && var u := CountDown(CountDown(CountDown(t, f, p1), f, p2), f, p3);
         && u.countdown == 0 && !u.timerLive && u.strayTimers == 1 && Ticking(u)
         && u.asteroids == s.asteroids + 1
  {
  }

  /** The random draws are all in the spawn range. */
  predicate AllPicks(f: Frame, picks: seq<int>) {
    forall i :: 0 <= i < |picks| ==> SpawnPick(f, picks[i])
  }

  /** The state after one countdown tick per draw. */
  function TickTimes(s: State, f: Frame, picks: seq<int>): State
    requires AllPicks(f, picks)
    decreases |picks|
  {
    if picks == [] then s else TickTimes(CountDown(s, f, picks[0]), f, picks[1..])
  }

  /** Once the count is at or below 0, every further tick (from a timer left scheduled)
      drives it lower, and none spawns an asteroid or cancels a timer: the count never
      comes back to 0. */
  lemma {:induction false} LeftoverTicksNeverSpawn(s: State, f: Frame, picks: seq<int>)
    requires s.countdown <= 0 && AllPicks(f, picks)
    ensures var t := TickTimes(s, f, picks);
      && t.countdown == s.countdown - |picks|
      && (|picks| > 0 ==> t.countdown < 0)
      && t.asteroids == s.asteroids && t.asteroid == s.asteroid
      && t.timerLive == s.timerLive && t.strayTimers == s.strayTimers
    decreases |picks|
  {
    if picks != [] {
      LeftoverTicksNeverSpawn(CountDown(s, f, picks[0]), f, picks[1..]);
    }
  }

  /** A ground–asteroid contact replaces the asteroid and scores exactly one point. */
  lemma ContactScores(s: State, f: Frame, a: Mask, b: Mask, pick: int)
    requires SpawnPick(f, pick) && IsScoringContact(a, b) && s.asteroids > 0
    ensures var t := DidBegin(s, f, a, b, pick);
      && t.score == s.score + 1 && t.shownScore == t.score
      && t.asteroids == s.asteroids && t.asteroid == Some(SpawnPosition(f, pick))
      && t.running == s.running && t.countdown == s.countdown
  {
  }

  /** Any other contact, for instance rocket–asteroid, changes nothing. */
  lemma OtherContactIgnored(s: State, f: Frame, a: Mask, b: Mask, pick: int)
    requires SpawnPick(f, pick) && !IsScoringContact(a, b)
    ensures DidBegin(s, f, a, b, pick) == s
  {
  }

  /** levelUp raises the level by one and strengthens gravity by 0.5 iff the score is a multiple of 5. */
  lemma LevelUpIff(s: State)
    ensures var t := LevelUp(s);
      && (s.score % LevelEvery == 0 <==> t.level == s.level + 1)
      && (s.score % LevelEvery == 0 <==> t.gravity == s.gravity - GravityStep)
      && (s.score % LevelEvery != 0 ==> t == s)
  {
  }

  /** Because levelUp runs after the increment, a scoring contact escalates iff the new score is
      a multiple of 5; from a non-negative score that is 5, 10, 15, ..., never 0. */
  lemma ContactEscalatesIff(s: State, f: Frame, pick: int)
    requires SpawnPick(f, pick) && s.asteroids > 0 && s.score >= 0
    ensures var t := DidBegin(s, f, Bottom, Asteroid, pick);
      && ((s.score + 1) % LevelEvery == 0 <==> t.level == s.level + 1)
      && ((s.score + 1) % LevelEvery != 0 <==> t.level == s.level)
      && (t.level == s.level + 1 ==> t.score >= LevelEvery)
  {
  }

  /** After the escalating contact the score label still shows the previous level:
      levelUp does not refresh the label. */
  lemma LevelLabelLagsEscalation(s: State, f: Frame, pick: int)
    requires SpawnPick(f, pick) && s.asteroids > 0 && s.score == 4
    ensures var t := DidBegin(s, f, Bottom, Asteroid, pick);
      t.level == s.level + 1 && t.shownLevel == s.level && t.shownScore == 5
  {
  }

  lemma StepPreservesValid(s: State, f: Frame, e: Event)
    requires Valid(s) && Enabled(s, f, e)
    ensures Valid(Step(s, f, e))
  {
  }

  /** Every reachable state satisfies the invariant, in particular
      gravity == -3.0 - 0.5 * (level - 1). */
  lemma {:induction false} RunPreservesValid(s: State, f: Frame, es: seq<Event>)
    requires Valid(s)
    ensures Run(s, f, es).Some? ==> Valid(Run(s, f, es).value)
    decreases |es|
  {
    if es != [] && Enabled(s, f, es[0]) {
      StepPreservesValid(s, f, es[0]);
      RunPreservesValid(Step(s, f, es[0]), f, es[1..]);
    }
  }

  /** The state after one ground–asteroid contact per draw. */
  function ScoreTimes(s: State, f: Frame, picks: seq<int>): (r: State)
    requires AllPicks(f, picks) && s.asteroids > 0
    ensures r.asteroids == s.asteroids
    decreases |picks|
  {
    if picks == [] then s
    else ScoreTimes(DidBegin(s, f, Bottom, Asteroid, picks[0]), f, picks[1..])
  }

  /** n scoring contacts add n points, one level per multiple of 5 passed, and half a unit
      of gravity per level; exactly one asteroid stays in play. */
  lemma {:induction false} ScoringRun(s: State, f: Frame, picks: seq<int>)
    requires Valid(s) && AllPicks(f, picks) && s.asteroids > 0
    ensures var n := |picks|;
      var r := ScoreTimes(s, f, picks);
      var ups := (s.score + n) / LevelEvery - s.score / LevelEvery;
      && Valid(r)
      && r.score == s.score + n
      && r.level == s.level + ups
      && r.gravity == s.gravity - GravityStep * ups as real
      && r.asteroids == s.asteroids
    decreases |picks|
  {
    if picks != [] {
      var t := DidBegin(s, f, Bottom, Asteroid, picks[0]);
      StepPreservesValid(s, f, Contact(Bottom, Asteroid, picks[0]));
      ContactEscalatesIff(s, f, picks[0]);
      ScoringRun(t, f, picks[1..]);
    }
  }

  /** Start the game, let the countdown run out, and score five times: score 5, level 2,
      gravity -3.5, one asteroid, countdown label hidden. */
  lemma FiveScoresScenario(f: Frame, p1: int, p2: int, p3: int, picks: seq<int>)
    requires SpawnPick(f, p1) && SpawnPick(f, p2) && SpawnPick(f, p3)
    requires AllPicks(f, picks) && |picks| == 5
    ensures var s := Presented(f);
      var t := CountDown(CountDown(CountDown(StartGame(s), f, p1), f, p2), f, p3);
      var r := ScoreTimes(t, f, picks);
      && t.asteroids == 1 && t.startLabelHidden && t.countdown == 0
      && r.score == 5 && r.level == 2 && r.gravity == -3.5 && r.asteroids == 1
  {
    var s := Presented(f);
    CountdownTakesThreeTicks(s, f, p1, p2, p3);
    var t := CountDown(CountDown(CountDown(StartGame(s), f, p1), f, p2), f, p3);
    ScoringRun(t, f, picks);
  }

  // ---------------------------------------------------------------- one session

  /** The invariant of the one session the scene plays: started once (on presentation)
      and never stopped. No leftover timer, no asteroid during the countdown, exactly one
      once the count has reached 0, and the timer scheduled exactly while counting down. */
  predicate InSession(s: State) {
    && s.strayTimers == 0
    && 0 <= s.countdown <= StartCount
    && (s.countdown > 0 ==> s.asteroids == 0)
    && (s.countdown == 0 ==> s.asteroids == 1)
    && (s.timerLive <==> s.running && s.countdown > 0)
    && (!s.running ==> s.countdown == StartCount && s.asteroids == 0)
  }

  lemma PresentedInSession(f: Frame)
    ensures InSession(Presented(f))
  {
  }

  /** Every event except stopGame keeps the session invariant. */
  lemma SessionStep(s: State, f: Frame, e: Event)
    requires InSession(s) && Enabled(s, f, e) && e != Stop
    ensures InSession(Step(s, f, e))
  {
  }

  lemma {:induction false} SessionRun(s: State, f: Frame, es: seq<Event>)
    requires InSession(s) && Stop !in es
    ensures Run(s, f, es).Some? ==> InSession(Run(s, f, es).value)
    decreases |es|
  {
    if es != [] && Enabled(s, f, es[0]) {
      assert es[0] in es;
      SessionStep(s, f, es[0]);
      assert Stop !in es[1..] by {
        forall i | 0 <= i < |es[1..]| ensures es[1..][i] != Stop {
          assert es[1..][i] == es[i + 1];
        }
      }
      SessionRun(Step(s, f, es[0]), f, es[1..]);
    }
  }

  /** From presentation on, as long as nobody stops the game, there is no asteroid during
      the countdown and exactly one after it. */
  lemma OneAsteroidPerSession(f: Frame, es: seq<Event>)
    requires Stop !in es && Run(Presented(f), f, es).Some?
    ensures var t := Run(Presented(f), f, es).value;
      && Valid(t) && t.asteroids <= 1
      && (t.countdown > 0 ==> t.asteroids == 0)
      && (t.countdown == 0 ==> t.asteroids == 1 && !Ticking(t))
  {
    PresentedInSession(f);
    PresentedValid(f);
    SessionRun(Presented(f), f, es);
    RunPreservesValid(Presented(f), f, es);
  }

  /** stopGame breaks that invariant: stopping after the countdown and starting again keeps
      the old asteroid through the new countdown, and the new countdown adds a second. */
  lemma RestartAfterCountdownTwoAsteroids(f: Frame, p1: int, p2: int, p3: int,
                                          q1: int, q2: int, q3: int)
    requires SpawnPick(f, p1) && SpawnPick(f, p2) && SpawnPick(f, p3)
    requires SpawnPick(f, q1) && SpawnPick(f, q2) && SpawnPick(f, q3)
    ensures var t := CountDown(CountDown(CountDown(StartGame(Presented(f)), f, p1), f, p2), f, p3);
      var u := StartGame(StopGame(t));
      var v := CountDown(CountDown(CountDown(u, f, q1), f, q2), f, q3);
      && t.asteroids == 1
      && u.running && u.countdown == StartCount && u.asteroids == 1 && u.strayTimers == 0
      && v.countdown == 0 && v.asteroids == 2
  {
    CountdownTakesThreeTicks(Presented(f), f, p1, p2, p3);
  }
}
