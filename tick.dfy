/**
 * What one frame of the game controller's `update` (src/game/Game.ts) does
 * to the game state, stated as functions on values, and the properties of it.
 * The Game class (module Controller) is proved to follow these functions.
 *
 * The projectile loop is `projectiles.forEach((proj, j) => ... splice(j, 1))`:
 * `forEach` visits the indices below the length the array had when the loop
 * began and skips those that no longer exist, while `splice` shifts the
 * remaining elements down.  Sweep reproduces exactly that.
 */
module Tick {
  import opened Basics
  import opened Projectiles
  import opened Enemies
  import opened Formation

  /** Points per kill (`onEnemyKilled`). */
  const KillScore := 50

  const GameOverReason := "You are just bad!"

  /** A notification sent to the host through the delegate, in the order sent. */
  datatype Event =
    | ScoreChanged(newScore: int, oldScore: int)
    | StartGame
    | GameOver(score: int, reason: string)
    | Paused
    | Resumed

  /**
   * The behaviour the controller calls but that is not part of this model:
   * a projectile's own `update()` (which may set its `deleted` flag), and
   * `checkPlaneCollision`, which measures the formation's meshes.
   */
  datatype Oracle = Oracle(advanceProjectile: Projectile -> Projectile,
                           crossesDeadline: (GroupView, Plane) -> bool)

  datatype Difficulty = Difficulty(enemySpeedX: real, enemySpeedZ: real, fireTimeout: real, stepSize: real)

  /** The part of the game state that `update` reads and writes. */
  datatype World = World(groups: seq<GroupView>, projectiles: seq<Projectile>, score: int,
                         started: bool, log: seq<Event>, finishPlane: Plane, difficulty: Difficulty)

  // ---------------------------------------------------------------------------
  // Resolving the projectiles against one formation

  /** What the projectile loop for one formation works on. */
  datatype Frame = Frame(group: GroupView, projectiles: seq<Projectile>, score: int, log: seq<Event>)

  /**
   * The body of the projectile loop when projectile k hit `enemy`:
   * `removeEntity(enemy)`, `onEnemyKilled` (score + 50 and one
   * notification carrying the new and the old score), `splice(k, 1)`.
   */
  function Kill(f: Frame, k: nat, enemy: Vec3): Frame {
    var members := RemoveFirst(f.group.entities, enemy);
    Frame(f.group.(entities := members, isEmpty := members == []),
          Splice(f.projectiles, k),
          f.score + KillScore,
          f.log + [ScoreChanged(f.score + KillScore, f.score)])
  }

  /**
   * The projectile loop from index k, for a loop that started with n
   * projectiles.  A projectile that hits removes the member it hit, scores
   * one kill, and is spliced out at once, so that the projectile behind it
   * moves into the index just visited and is not checked this time.
   */
  function Sweep(f: Frame, k: nat, n: nat): (r: Frame)
    ensures k >= |f.projectiles| ==> r == f
    ensures |r.projectiles| <= |f.projectiles|
    ensures k <= |f.projectiles| ==> k <= |r.projectiles|
    decreases n - k
  {
    if k >= n then f
    else if k >= |f.projectiles| then Sweep(f, k + 1, n)
    else
      match CollidingEntity(f.group, f.projectiles[k].pos)
      case None => Sweep(f, k + 1, n)
      case Some(enemy) => Sweep(Kill(f, k, enemy), k + 1, n)
  }

  /** The notifications of m kills in a row, starting from score s. */
  function ScoreRun(s: int, m: nat): seq<Event>
    decreases m
  {
    if m == 0 then [] else [ScoreChanged(s + KillScore, s)] + ScoreRun(s + KillScore, m - 1)
  }

  /** Every notification in a run reports a rise of exactly one kill's worth. */
  lemma {:induction false} ScoreRunSteps(s: int, m: nat)
    ensures |ScoreRun(s, m)| == m
    ensures forall i :: 0 <= i < m ==> ScoreRun(s, m)[i] == ScoreChanged(s + KillScore * (i + 1), s + KillScore * i)
    decreases m
  {
    if m > 0 {
      ScoreRunSteps(s + KillScore, m - 1);
    }
  }

  /** The projectiles a sweep removed, i.e. its kills. */
  function SweepKills(f: Frame, k: nat, n: nat): int {
    |f.projectiles| - |Sweep(f, k, n).projectiles|
  }

  /**
   * One kill takes exactly one projectile and exactly the member that the
   * hit query returned, and leaves the formation's transform alone.
   */
  lemma KillStep(f: Frame, k: nat)
    requires WellFormed(f.group) && k < |f.projectiles|
    requires CollidingEntity(f.group, f.projectiles[k].pos).Some?
    ensures var g := Kill(f, k, CollidingEntity(f.group, f.projectiles[k].pos).value);
            && |g.projectiles| == |f.projectiles| - 1
            && multiset(g.projectiles) <= multiset(f.projectiles)
            && |g.group.entities| == |f.group.entities| - 1
            && multiset(g.group.entities) <= multiset(f.group.entities)
            && WellFormed(g.group)
            && g.group.pos == f.group.pos && g.group.direction == f.group.direction
            && g.group.speedX == f.group.speedX && g.group.speedZ == f.group.speedZ
  {
    RemoveCollidingEntity(f.group, f.projectiles[k].pos);
    assert f.projectiles == f.projectiles[..k] + [f.projectiles[k]] + f.projectiles[k + 1..];
  }

  /** A loop over one formation only ever removes projectiles, never creates one. */
  lemma {:induction false} SweepProjectiles(f: Frame, k: nat, n: nat)
    ensures multiset(Sweep(f, k, n).projectiles) <= multiset(f.projectiles)
    decreases n - k
  {
    if k < n && k < |f.projectiles| {
      var g := Visit(f, k, n);
      SweepProjectiles(g, k + 1, n);
    }
  }

  /**
   * A loop over one formation only ever removes members, never creates one,
   * and removes exactly one member per projectile removed.
   */
  lemma {:induction false} SweepShape(f: Frame, k: nat, n: nat)
    requires WellFormed(f.group)
    ensures var r := Sweep(f, k, n);
            && |f.group.entities| - |r.group.entities| == |f.projectiles| - |r.projectiles|
            && multiset(r.group.entities) <= multiset(f.group.entities)
    decreases n - k, 1
  {
    if k >= n || k >= |f.projectiles| {
    } else if CollidingEntity(f.group, f.projectiles[k].pos).None? {
      assert Sweep(f, k, n) == Sweep(f, k + 1, n);
      SweepShape(f, k + 1, n);
    } else {
      SweepShapeAfterKill(f, k, n);
    }
  }

  /** Helper of SweepShape: the loop from a projectile that hits. */
  lemma {:induction false} SweepShapeAfterKill(f: Frame, k: nat, n: nat)
    requires WellFormed(f.group) && k < n && k < |f.projectiles|
    requires CollidingEntity(f.group, f.projectiles[k].pos).Some?
    ensures var r := Sweep(f, k, n);
            && |f.group.entities| - |r.group.entities| == |f.projectiles| - |r.projectiles|
            && multiset(r.group.entities) <= multiset(f.group.entities)
    decreases n - k, 0
  {
    var g := Kill(f, k, CollidingEntity(f.group, f.projectiles[k].pos).value);
    assert Sweep(f, k, n) == Sweep(g, k + 1, n);
    KillStep(f, k);
    SweepShape(g, k + 1, n);
  }

  /** A loop over one formation leaves the formation well-formed and its transform alone. */
  lemma {:induction false} SweepKeepsTransform(f: Frame, k: nat, n: nat)
    requires WellFormed(f.group)
    ensures var r := Sweep(f, k, n);
            && WellFormed(r.group)
            && r.group.pos == f.group.pos && r.group.direction == f.group.direction
            && r.group.speedX == f.group.speedX && r.group.speedZ == f.group.speedZ
    decreases n - k
  {
    if k >= n || k >= |f.projectiles| {
    } else if CollidingEntity(f.group, f.projectiles[k].pos).None? {
      assert Sweep(f, k, n) == Sweep(f, k + 1, n);
      SweepKeepsTransform(f, k + 1, n);
    } else {
      var g := Kill(f, k, CollidingEntity(f.group, f.projectiles[k].pos).value);
      assert Sweep(f, k, n) == Sweep(g, k + 1, n);
      KillStep(f, k);
      SweepKeepsTransform(g, k + 1, n);
    }
  }

  /**
   * Each projectile the loop removes raised the score by exactly 50 and sent
   * exactly one score notification (new score, old score), in order.
   */
  lemma {:induction false} SweepScore(f: Frame, k: nat, n: nat)
    ensures var r := Sweep(f, k, n);
            && |r.projectiles| <= |f.projectiles|
            && r.score == f.score + KillScore * (|f.projectiles| - |r.projectiles|)
            && r.log == f.log + ScoreRun(f.score, |f.projectiles| - |r.projectiles|)
    decreases n - k, 1
  {
    if k >= n {
      assert ScoreRun(f.score, 0) == [] && f.log + [] == f.log;
    } else if k >= |f.projectiles| {
      assert Sweep(f, k, n) == Sweep(f, k + 1, n);
      SweepScore(f, k + 1, n);
    } else if CollidingEntity(f.group, f.projectiles[k].pos).None? {
      assert Sweep(f, k, n) == Sweep(f, k + 1, n);
      SweepScore(f, k + 1, n);
    } else {
      SweepScoreAfterKill(f, k, n);
    }
  }

  /** Helper of SweepScore: the loop from a projectile that hits. */
  lemma {:induction false} SweepScoreAfterKill(f: Frame, k: nat, n: nat)
    requires k < n && k < |f.projectiles|
    requires CollidingEntity(f.group, f.projectiles[k].pos).Some?
    ensures var r := Sweep(f, k, n);
            && |r.projectiles| <= |f.projectiles|
            && r.score == f.score + KillScore * (|f.projectiles| - |r.projectiles|)
            && r.log == f.log + ScoreRun(f.score, |f.projectiles| - |r.projectiles|)
    decreases n - k, 0
  {
    var g := Kill(f, k, CollidingEntity(f.group, f.projectiles[k].pos).value);
    assert Sweep(f, k, n) == Sweep(g, k + 1, n);
    SweepScore(g, k + 1, n);
    KillAccounting(f, g, Sweep(g, k + 1, n));
  }

  /**
   * Each kill removes one projectile and one member, raises the score by
   * exactly 50 and sends exactly one score notification (new score, old
   * score); nothing else about the formation changes, and no projectile or
   * member is created.
   */
  lemma SweepAccounting(f: Frame, k: nat, n: nat)
    requires WellFormed(f.group)
    ensures var r := Sweep(f, k, n);
            && |r.projectiles| <= |f.projectiles|
            && multiset(r.projectiles) <= multiset(f.projectiles)
            && |f.group.entities| - |r.group.entities| == |f.projectiles| - |r.projectiles|
            && multiset(r.group.entities) <= multiset(f.group.entities)
            && r.score == f.score + KillScore * (|f.projectiles| - |r.projectiles|)
            && r.log == f.log + ScoreRun(f.score, |f.projectiles| - |r.projectiles|)
            && WellFormed(r.group)
            && r.group.pos == f.group.pos && r.group.direction == f.group.direction
            && r.group.speedX == f.group.speedX && r.group.speedZ == f.group.speedZ
  {
    SweepProjectiles(f, k, n);
    SweepShape(f, k, n);
    SweepKeepsTransform(f, k, n);
    SweepScore(f, k, n);
  }

  /** Helper of SweepAccounting: the score and log bookkeeping of one kill followed by the rest of the loop. */
  lemma KillAccounting(f: Frame, g: Frame, r: Frame)
    requires |g.projectiles| == |f.projectiles| - 1
    requires g.score == f.score + KillScore && g.log == f.log + [ScoreChanged(f.score + KillScore, f.score)]
    requires |r.projectiles| <= |g.projectiles|
    requires r.score == g.score + KillScore * (|g.projectiles| - |r.projectiles|)
    requires r.log == g.log + ScoreRun(g.score, |g.projectiles| - |r.projectiles|)
    ensures r.score == f.score + KillScore * (|f.projectiles| - |r.projectiles|)
    ensures r.log == f.log + ScoreRun(f.score, |f.projectiles| - |r.projectiles|)
  {
    var m := |g.projectiles| - |r.projectiles|;
    assert ScoreRun(f.score, m + 1) == [ScoreChanged(f.score + KillScore, f.score)] + ScoreRun(f.score + KillScore, m);
  }

  /**
   * Because a hit skips the next projectile, a loop over L projectiles from
   * index k scores at most (L - k + 1) / 2 kills: two projectiles lined up
   * one behind the other in front of the same formation never both score there.
   */
  lemma {:induction false} SweepSkipBound(f: Frame, k: nat, n: nat)
    requires k <= |f.projectiles| + 1
    ensures |Sweep(f, k, n).projectiles| <= |f.projectiles|
    ensures 2 * SweepKills(f, k, n) <= |f.projectiles| - k + 1
    decreases n - k
  {
    if k >= n || k >= |f.projectiles| {
    } else if CollidingEntity(f.group, f.projectiles[k].pos).None? {
      SweepSkipBound(f, k + 1, n);
    } else {
      var g := Kill(f, k, CollidingEntity(f.group, f.projectiles[k].pos).value);
      SweepSkipBound(g, k + 1, n);
    }
  }

  /** The loop never touches a projectile below the index it has reached. */
  lemma {:induction false} SweepKeepsIndex(f: Frame, k: nat, n: nat, i: nat)
    requires i < k <= |f.projectiles|
    ensures i < |Sweep(f, k, n).projectiles|
    ensures Sweep(f, k, n).projectiles[i] == f.projectiles[i]
    decreases n - k
  {
    if k >= n || k == |f.projectiles| {
      assert Sweep(f, k, n) == f;
    } else {
      var g := Visit(f, k, n);
      assert g.projectiles[i] == f.projectiles[i];
      if k + 1 <= |g.projectiles| {
        SweepKeepsIndex(g, k + 1, n, i);
      } else {
        assert Sweep(g, k + 1, n) == g;
      }
      assert Sweep(f, k, n).projectiles[i] == Sweep(g, k + 1, n).projectiles[i] == g.projectiles[i];
    }
  }

  /**
   * One step of the loop: visiting index k leads to a frame g, one index
   * further on, at most one projectile shorter and holding no projectile
   * that f did not, with the projectiles below k where they were.
   */
  lemma Visit(f: Frame, k: nat, n: nat) returns (g: Frame)
    requires k < |f.projectiles| && k < n
    ensures Sweep(f, k, n) == Sweep(g, k + 1, n)
    ensures |f.projectiles| - 1 <= |g.projectiles| <= |f.projectiles|
    ensures multiset(g.projectiles) <= multiset(f.projectiles)
    ensures forall i :: 0 <= i < k ==> g.projectiles[i] == f.projectiles[i]
  {
    match CollidingEntity(f.group, f.projectiles[k].pos)
    case None =>
      g := f;
    case Some(enemy) =>
      g := Kill(f, k, enemy);
      SpliceAt(f.projectiles, k);
      assert f.projectiles == f.projectiles[..k] + [f.projectiles[k]] + f.projectiles[k + 1..];
  }

  /**
   * The projectile right behind a hitting one is not checked against this
   * formation: it slides into the index just visited and comes out of the
   * loop still in the list, at that index.
   */
  lemma HitSkipsFollower(f: Frame, k: nat, n: nat)
    requires k < n && k + 1 < |f.projectiles|
    requires CollidingEntity(f.group, f.projectiles[k].pos).Some?
    ensures k < |Sweep(f, k, n).projectiles|
    ensures Sweep(f, k, n).projectiles[k] == f.projectiles[k + 1]
  {
    var g := Kill(f, k, CollidingEntity(f.group, f.projectiles[k].pos).value);
    assert Sweep(f, k, n) == Sweep(g, k + 1, n);
    SweepKeepsIndex(g, k + 1, n, k);
  }

  // ---------------------------------------------------------------------------
  // Advancing every formation

  /** The `gameOver()` call: stops the loop and reports the current score. */
  function EndGame(w: World): World {
    w.(started := false, log := w.log + [GameOver(w.score, GameOverReason)])
  }

  /**
   * The body of `enemies.forEach` for formation i: advance it, resolve the
   * live projectiles against it, then test it against the deadline plane.
   */
  function StepGroup(w: World, i: nat, o: Oracle): World
    requires i < |w.groups|
  {
    var g := Advance(w.groups[i]);
    var f := Sweep(Frame(g, w.projectiles, w.score, w.log), 0, |w.projectiles|);
    var w' := w.(groups := w.groups[i := f.group], projectiles := f.projectiles, score := f.score, log := f.log);
    if o.crossesDeadline(f.group, w.finishPlane) then EndGame(w') else w'
  }

  /** The formations from index i on, in list order. */
  function AdvanceGroups(w: World, i: nat, o: Oracle): World
    decreases |w.groups| - i
  {
    if i >= |w.groups| then w else AdvanceGroups(StepGroup(w, i, o), i + 1, o)
  }

  predicate AllWellFormed(gs: seq<GroupView>) {
    forall i :: 0 <= i < |gs| ==> WellFormed(gs[i])
  }

  /** A notification `update` may send: one kill's score change, or the game-over report. */
  predicate TickEvent(e: Event) {
    || (e.ScoreChanged? && e.newScore == e.oldScore + KillScore)
    || (e.GameOver? && e.reason == GameOverReason)
  }

  /** `log` extends `before` by tick notifications only. */
  predicate ExtendsWithTickEvents(before: seq<Event>, log: seq<Event>) {
    |before| <= |log| && log[..|before|] == before
    && forall j :: |before| <= j < |log| ==> TickEvent(log[j])
  }

  lemma ExtendsTrans(a: seq<Event>, b: seq<Event>, c: seq<Event>)
    requires ExtendsWithTickEvents(a, b) && ExtendsWithTickEvents(b, c)
    ensures ExtendsWithTickEvents(a, c)
  {
    assert c[..|a|] == c[..|b|][..|a|];
  }

  lemma ScoreRunExtends(log: seq<Event>, s: int, m: nat)
    ensures ExtendsWithTickEvents(log, log + ScoreRun(s, m))
  {
    ScoreRunSteps(s, m);
    var r := log + ScoreRun(s, m);
    forall j | |log| <= j < |r| ensures TickEvent(r[j]) {
      assert r[j] == ScoreRun(s, m)[j - |log|];
    }
    assert r[..|log|] == log;
  }

  /** The game-over report appends one tick notification and changes nothing else that is counted. */
  lemma EndGameExtends(w: World)
    ensures ExtendsWithTickEvents(w.log, EndGame(w).log)
  {
    assert EndGame(w).log[..|w.log|] == w.log;
  }

  /** A whole sweep over a well-formed formation: the score and notification accounting in terms of the log. */
  lemma SweepExtends(f0: Frame)
    requires WellFormed(f0.group)
    ensures var f := Sweep(f0, 0, |f0.projectiles|);
            && WellFormed(f.group)
            && |f.projectiles| <= |f0.projectiles|
            && f.score == f0.score + KillScore * (|f0.projectiles| - |f.projectiles|)
            && ExtendsWithTickEvents(f0.log, f.log)
  {
    SweepAccounting(f0, 0, |f0.projectiles|);
    var f := Sweep(f0, 0, |f0.projectiles|);
    ScoreRunExtends(f0.log, f0.score, |f0.projectiles| - |f.projectiles|);
  }

  /**
   * One formation's step keeps the number of formations, scores 50 per
   * projectile it consumed, may only clear `started`, and only sends tick
   * notifications.
   */
  lemma StepGroupAccounting(w: World, i: nat, o: Oracle)
    requires i < |w.groups| && AllWellFormed(w.groups)
    ensures var r := StepGroup(w, i, o);
            && |r.groups| == |w.groups| && AllWellFormed(r.groups)
            && |r.projectiles| <= |w.projectiles|
            && r.score == w.score + KillScore * (|w.projectiles| - |r.projectiles|)
            && (r.started ==> w.started)
            && ExtendsWithTickEvents(w.log, r.log)
            && r.difficulty == w.difficulty && r.finishPlane == w.finishPlane
  {
    AdvanceWellFormed(w.groups[i]);
    var f0 := Frame(Advance(w.groups[i]), w.projectiles, w.score, w.log);
    SweepExtends(f0);
    var f := Sweep(f0, 0, |w.projectiles|);
    var w' := w.(groups := w.groups[i := f.group], projectiles := f.projectiles, score := f.score, log := f.log);
    if o.crossesDeadline(f.group, w.finishPlane) {
      EndGameExtends(w');
      ExtendsTrans(w.log, w'.log, EndGame(w').log);
    }
  }

  lemma {:induction false} AdvanceGroupsAccounting(w: World, i: nat, o: Oracle)
    requires AllWellFormed(w.groups)
    ensures var r := AdvanceGroups(w, i, o);
            && |r.groups| == |w.groups| && AllWellFormed(r.groups)
            && |r.projectiles| <= |w.projectiles|
            && r.score == w.score + KillScore * (|w.projectiles| - |r.projectiles|)
            && (r.started ==> w.started)
            && ExtendsWithTickEvents(w.log, r.log)
            && r.difficulty == w.difficulty && r.finishPlane == w.finishPlane
    decreases |w.groups| - i
  {
    if i >= |w.groups| {
      assert w.log[..|w.log|] == w.log;
    } else {
      StepGroupAccounting(w, i, o);
      var s := StepGroup(w, i, o);
      AdvanceGroupsAccounting(s, i + 1, o);
      ExtendsTrans(w.log, s.log, AdvanceGroups(s, i + 1, o).log);
    }
  }

  // ---------------------------------------------------------------------------
  // Waves and difficulty

  const WaveRows := 5
  const WaveCols := 5

  /** The grid options of `spawnNextWave`, with the formation speeds of the moment. */
  function WaveOptions(d: Difficulty): GridOptions {
    GridOptions(Vec3(20.0, 0.0, 20.0), Vec3(-30.0, 0.0, -250.0), EnemyOptions(5.0, 10.0),
                d.enemySpeedX, d.enemySpeedZ)
  }

  /** The formation `createGrid` builds for a wave. */
  function SpawnedView(d: Difficulty, roundedRandom: int): GroupView {
    GroupView(Origin, InitialDirection(roundedRandom), d.enemySpeedX, d.enemySpeedZ,
              Grid(GridLayout(WaveOptions(d)), WaveRows, WaveCols), false)
  }

  lemma SpawnedViewWellFormed(d: Difficulty, roundedRandom: int)
    ensures WellFormed(SpawnedView(d, roundedRandom))
    ensures |SpawnedView(d, roundedRandom).entities| == WaveRows * WaveCols
  {
    GridSize(GridLayout(WaveOptions(d)), WaveRows, WaveCols);
  }

  /** The difficulty after a wave has been spawned. */
  function NextDifficulty(d: Difficulty): Difficulty {
    Difficulty(d.enemySpeedX + 0.1, d.enemySpeedZ + 0.05,
               Max(0.01, d.fireTimeout - 0.09), Min(10.0, d.stepSize + 0.1))
  }

  /**
   * After a spawn the formations are faster, the fire timeout is never
   * below 0.01 and never grows, and the step size is never above 10 and never
   * shrinks (when it started at most 10).
   */
  lemma NextDifficultyBounds(d: Difficulty)
    ensures NextDifficulty(d).enemySpeedX == d.enemySpeedX + 0.1
    ensures NextDifficulty(d).enemySpeedZ == d.enemySpeedZ + 0.05
    ensures NextDifficulty(d).fireTimeout >= 0.01
    ensures d.fireTimeout >= 0.01 ==> NextDifficulty(d).fireTimeout <= d.fireTimeout
    ensures NextDifficulty(d).stepSize <= 10.0
    ensures d.stepSize <= 10.0 ==> NextDifficulty(d).stepSize >= d.stepSize
  {
  }

  function DifficultyAfter(d: Difficulty, waves: nat): Difficulty
    decreases waves
  {
    if waves == 0 then d else NextDifficulty(DifficultyAfter(d, waves - 1))
  }

  /** Over any number of waves the speeds grow linearly and the two player limits hold. */
  lemma {:induction false} DifficultyAfterBounds(d: Difficulty, waves: nat)
    ensures DifficultyAfter(d, waves).enemySpeedX == d.enemySpeedX + 0.1 * (waves as real)
    ensures DifficultyAfter(d, waves).enemySpeedZ == d.enemySpeedZ + 0.05 * (waves as real)
    ensures waves > 0 ==> DifficultyAfter(d, waves).fireTimeout >= 0.01
    ensures waves > 0 ==> DifficultyAfter(d, waves).stepSize <= 10.0
    ensures d.fireTimeout >= 0.01 ==> DifficultyAfter(d, waves).fireTimeout <= d.fireTimeout
    ensures d.stepSize <= 10.0 ==> DifficultyAfter(d, waves).stepSize >= d.stepSize
    decreases waves
  {
    if waves > 0 {
      DifficultyAfterBounds(d, waves - 1);
      NextDifficultyBounds(DifficultyAfter(d, waves - 1));
    }
  }

  /** `spawnNextWave()`: adds one formation built with the current speeds, then raises the difficulty. */
  function SpawnNextWave(w: World, roundedRandom: int): World {
    w.(groups := w.groups + [SpawnedView(w.difficulty, roundedRandom)],
       difficulty := NextDifficulty(w.difficulty))
  }

  // ---------------------------------------------------------------------------
  // The whole frame

  /** `projectiles.forEach(p => p.update())`: every projectile is stepped once, in place. */
  function AdvanceProjectiles(ps: seq<Projectile>, step: Projectile -> Projectile): (r: seq<Projectile>)
    ensures |r| == |ps|
    ensures forall i :: 0 <= i < |ps| ==> r[i] == step(ps[i])
  {
    seq(|ps|, i requires 0 <= i < |ps| => step(ps[i]))
  }

  /** `projectiles.filter(p => !p.deleted)`. */
  function LiveProjectiles(ps: seq<Projectile>): (r: seq<Projectile>)
    ensures |r| <= |ps|
    ensures forall i :: 0 <= i < |r| ==> !r[i].deleted
  {
    if ps == [] then []
    else (if ps[0].deleted then [] else [ps[0]]) + LiveProjectiles(ps[1..])
  }

  /**
   * The filter keeps exactly the projectiles not marked deleted, each as
   * often as it occurs, and changes nothing when none is marked.
   */
  lemma {:induction false} LiveProjectilesMembers(ps: seq<Projectile>)
    ensures forall p :: p in LiveProjectiles(ps) <==> p in ps && !p.deleted
    ensures multiset(LiveProjectiles(ps)) <= multiset(ps)
    ensures (forall i :: 0 <= i < |ps| ==> !ps[i].deleted) ==> LiveProjectiles(ps) == ps
  {
    if ps != [] {
      LiveProjectilesMembers(ps[1..]);
      assert ps == [ps[0]] + ps[1..];
      if forall i :: 0 <= i < |ps| ==> !ps[i].deleted {
        assert forall i :: 0 <= i < |ps[1..]| ==> !ps[1..][i].deleted by {
          forall i | 0 <= i < |ps[1..]| ensures !ps[1..][i].deleted { assert ps[1..][i] == ps[i + 1]; }
        }
      }
    }
  }

  /** The filter keeps the order: filtering a concatenation filters each part in turn. */
  lemma {:induction false} LiveProjectilesAppend(a: seq<Projectile>, b: seq<Projectile>)
    ensures LiveProjectiles(a + b) == LiveProjectiles(a) + LiveProjectiles(b)
  {
    if a == [] {
      assert a + b == b;
    } else {
      assert (a + b)[1..] == a[1..] + b;
      LiveProjectilesAppend(a[1..], b);
    }
  }

  /** `enemies.filter(e => !e.isEmpty)`. */
  function NonEmptyViews(gs: seq<GroupView>): (r: seq<GroupView>)
    ensures |r| <= |gs|
  {
    if gs == [] then []
    else (if gs[0].isEmpty then [] else [gs[0]]) + NonEmptyViews(gs[1..])
  }

  /** The filter keeps exactly the formations with members. */
  lemma NonEmptyViewsMembers(gs: seq<GroupView>)
    ensures forall v :: v in NonEmptyViews(gs) <==> v in gs && !v.isEmpty
    ensures AllWellFormed(gs) ==> AllWellFormed(NonEmptyViews(gs))
    ensures (forall i :: 0 <= i < |gs| ==> !gs[i].isEmpty) ==> NonEmptyViews(gs) == gs
  {
    NonEmptyViewsIn(gs);
    if AllWellFormed(gs) {
      var r := NonEmptyViews(gs);
      forall i | 0 <= i < |r| ensures WellFormed(r[i]) {
        assert r[i] in r;
      }
    }
    NonEmptyViewsKeepsAll(gs);
  }

  /** The filter commutes with concatenation: the kept formations keep their relative order. */
  lemma {:induction false} NonEmptyViewsAppend(a: seq<GroupView>, b: seq<GroupView>)
    ensures NonEmptyViews(a + b) == NonEmptyViews(a) + NonEmptyViews(b)
  {
    if a == [] {
      assert a + b == b;
    } else {
      assert (a + b)[1..] == a[1..] + b;
      NonEmptyViewsAppend(a[1..], b);
    }
  }

  /** The filter never duplicates a formation: each is kept at most as often as it occurs. */
  lemma {:induction false} NonEmptyViewsMultiset(gs: seq<GroupView>)
    ensures multiset(NonEmptyViews(gs)) <= multiset(gs)
  {
    if gs != [] {
      NonEmptyViewsMultiset(gs[1..]);
      assert gs == [gs[0]] + gs[1..];
    }
  }

  /** Helper of NonEmptyViewsMembers: membership in the filtered list. */
  lemma {:induction false} NonEmptyViewsIn(gs: seq<GroupView>)
    ensures forall v :: v in NonEmptyViews(gs) <==> v in gs && !v.isEmpty
  {
    if gs != [] {
      NonEmptyViewsIn(gs[1..]);
      assert gs == [gs[0]] + gs[1..];
    }
  }

  /** Helper of NonEmptyViewsMembers: with no empty formation the filter changes nothing. */
  lemma {:induction false} NonEmptyViewsKeepsAll(gs: seq<GroupView>)
    ensures (forall i :: 0 <= i < |gs| ==> !gs[i].isEmpty) ==> NonEmptyViews(gs) == gs
  {
    if gs != [] && forall i :: 0 <= i < |gs| ==> !gs[i].isEmpty {
      assert forall i :: 0 <= i < |gs[1..]| ==> !gs[1..][i].isEmpty by {
        forall i | 0 <= i < |gs[1..]| ensures !gs[1..][i].isEmpty { assert gs[1..][i] == gs[i + 1]; }
      }
      NonEmptyViewsKeepsAll(gs[1..]);
      assert gs == [gs[0]] + gs[1..];
    }
  }

  /**
   * `update()` after the player's own step: advance and filter the
   * projectiles, drop the empty formations, step every remaining formation,
   * and spawn a wave if no formation is left.
   */
  function TickWorld(w: World, o: Oracle, roundedRandom: int): World {
    var w1 := w.(projectiles := LiveProjectiles(AdvanceProjectiles(w.projectiles, o.advanceProjectile)),
                 groups := NonEmptyViews(w.groups));
    var w2 := AdvanceGroups(w1, 0, o);
    if |w2.groups| == 0 then SpawnNextWave(w2, roundedRandom) else w2
  }

  /**
   * The score of a frame rises by exactly 50 per projectile consumed, so by
   * at most 50 per live projectile: a projectile scores at most one kill per
   * frame, over all formations together.
   */
  lemma TickScore(w: World, o: Oracle, roundedRandom: int)
    requires AllWellFormed(w.groups)
    ensures var live := LiveProjectiles(AdvanceProjectiles(w.projectiles, o.advanceProjectile));
            var r := TickWorld(w, o, roundedRandom);
            && |r.projectiles| <= |live|
            && r.score == w.score + KillScore * (|live| - |r.projectiles|)
            && w.score <= r.score <= w.score + KillScore * |w.projectiles|
  {
    var w1 := w.(projectiles := LiveProjectiles(AdvanceProjectiles(w.projectiles, o.advanceProjectile)),
                 groups := NonEmptyViews(w.groups));
    NonEmptyViewsMembers(w.groups);
    AdvanceGroupsAccounting(w1, 0, o);
  }

  /** One projectile and any number of formations in range: the frame scores a single kill at most. */
  lemma OneProjectileOneKill(w: World, o: Oracle, roundedRandom: int)
    requires AllWellFormed(w.groups) && |w.projectiles| == 1
    ensures TickWorld(w, o, roundedRandom).score <= w.score + KillScore
  {
    TickScore(w, o, roundedRandom);
  }

  /**
   * A wave is spawned exactly when no formation had members at the start of
   * the frame; it is built with the speeds from before the increase.  A
   * formation emptied during the frame is still in the list at its end (it
   * is dropped by the next frame's filter), and the frame sends only kill
   * and game-over notifications.  At most one formation exists, if there
   * was at most one before.
   */
  lemma TickWaves(w: World, o: Oracle, roundedRandom: int)
    requires AllWellFormed(w.groups)
    ensures var r := TickWorld(w, o, roundedRandom);
            && (NonEmptyViews(w.groups) == [] ==>
                  && r.groups == [SpawnedView(w.difficulty, roundedRandom)]
                  && r.difficulty == NextDifficulty(w.difficulty))
            && (NonEmptyViews(w.groups) != [] ==>
                  && |r.groups| == |NonEmptyViews(w.groups)|
                  && r.difficulty == w.difficulty)
            && AllWellFormed(r.groups)
            && (|w.groups| <= 1 ==> |r.groups| <= 1)
            && (r.started ==> w.started)
            && ExtendsWithTickEvents(w.log, r.log)
  {
    var w1 := w.(projectiles := LiveProjectiles(AdvanceProjectiles(w.projectiles, o.advanceProjectile)),
                 groups := NonEmptyViews(w.groups));
    NonEmptyViewsMembers(w.groups);
    AdvanceGroupsAccounting(w1, 0, o);
    SpawnedViewWellFormed(w.difficulty, roundedRandom);
    var w2 := AdvanceGroups(w1, 0, o);
    if |w2.groups| == 0 {
      var r := SpawnNextWave(w2, roundedRandom);
      assert r.groups == [SpawnedView(w.difficulty, roundedRandom)];
      assert |w1.groups| == 0;
    }
  }

  /**
   * Scenario: once the only formation has lost its last member, the next
   * frame drops it and spawns exactly one new formation in its place.
   */
  lemma EmptiedFormationIsReplaced(w: World, o: Oracle, roundedRandom: int)
    requires |w.groups| == 1 && w.groups[0].isEmpty && WellFormed(w.groups[0])
    ensures TickWorld(w, o, roundedRandom).groups == [SpawnedView(w.difficulty, roundedRandom)]
  {
    assert NonEmptyViews(w.groups) == [] by {
      assert w.groups[1..] == [];
    }
    TickWaves(w, o, roundedRandom);
  }

  // ---------------------------------------------------------------------------
  // Device tilt

  /**
   * `handleDeviceOrientationChange`: the tilt in degrees is clamped to
   * [-40, 40] and mapped linearly onto [-70, 70].
   */
  function TiltToX(gamma: real): (x: real)
    ensures -70.0 <= x <= 70.0
    ensures -40.0 <= gamma <= 40.0 ==> x == gamma * 7.0 / 4.0
    ensures gamma <= -40.0 ==> x == -70.0
    ensures gamma >= 40.0 ==> x == 70.0
  {
    Clamp(gamma, -40.0, 40.0) / 80.0 * 140.0
  }

  /** Tilting further never moves the ship back. */
  lemma TiltToXMonotone(a: real, b: real)
    requires a <= b
    ensures TiltToX(a) <= TiltToX(b)
  {
  }
}
