/**
 * The game controller (src/game/Game.ts): the game state, the frame gate
 * in `render`, the per-frame `update`, wave spawning, scoring, pausing,
 * the level skip, the tilt input and the start of a new game.
 *
 * The host's delegate is an event log (`Tick.Event`): every notification the
 * controller would send is appended in order.  The formations are held as
 * values (`Formation.GroupView`); the changes the controller makes to them are
 * the ones the `EnemyGroup` methods are proved to make (see module
 * Formation).  A key handler is an `Action`; dispatching one performs what
 * the closure registered in `setupGameInputHandling` does.
 */
module Controller {
  import opened Basics
  import opened Projectiles
  import opened Players
  import opened Formation
  import opened Tick
  import opened Input

  /** The closures registered as key handlers. */
  datatype Action = MoveLeft | MoveRight | Fire | TogglePause | SkipLevel

  /** Held-key handlers: the arrows move the ship, space fires. */
  const HeldHandlers: map<int, Action> := map[LeftArrow := MoveLeft, RightArrow := MoveRight, Space := Fire]

  /** Key-up handlers: escape toggles the pause, L skips the level. */
  const SingleHandlers: map<int, Action> := map[Escape := TogglePause, KeyL := SkipLevel]

  /** An action that only touches the player. */
  predicate PlayerAction(a: Action) {
    a.MoveLeft? || a.MoveRight? || a.Fire?
  }

  // ---------------------------------------------------------------------------
  // What the held-key handlers do to the player

  /** The player state the handlers read and write. */
  datatype PlayerView = PlayerView(canShoot: bool, pos: Vec3, projectiles: seq<Projectile>, calls: seq<PlayerCall>,
                                   stepSize: real)

  /** A `move(direction)` call: recorded, and the ship goes where the motion puts it. */
  function MoveBy(v: PlayerView, direction: int, m: ShipMotion): PlayerView {
    var calls := v.calls + [MoveCall(direction)];
    v.(calls := calls, pos := m.move(v.pos, v.stepSize, calls))
  }

  /** One player action: a move call, or a shot through the fire gate. */
  function Perform(v: PlayerView, a: Action, m: ShipMotion): PlayerView {
    match a
    case MoveLeft => MoveBy(v, -1, m)
    case MoveRight => MoveBy(v, 1, m)
    case Fire =>
      if v.canShoot then v.(canShoot := false, projectiles := v.projectiles + [NewProjectile(v.pos)]) else v
    case _ => v
  }

  /** The actions in order, first to last. */
  function PerformAll(v: PlayerView, actions: seq<Action>, m: ShipMotion): PlayerView
    decreases |actions|
  {
    if actions == [] then v else PerformAll(Perform(v, actions[0], m), actions[1..], m)
  }

  /** The move calls a list of actions makes, in order. */
  function MoveCalls(actions: seq<Action>): seq<PlayerCall>
    decreases |actions|
  {
    if actions == [] then []
    else (match actions[0]
          case MoveLeft => [MoveCall(-1)]
          case MoveRight => [MoveCall(1)]
          case _ => []) + MoveCalls(actions[1..])
  }

  lemma {:induction false} PerformAllAppend(v: PlayerView, a: seq<Action>, b: seq<Action>, m: ShipMotion)
    ensures PerformAll(v, a + b, m) == PerformAll(PerformAll(v, a, m), b, m)
    decreases |a|
  {
    if a == [] {
      assert a + b == b;
    } else {
      assert (a + b)[1..] == a[1..] + b;
      PerformAllAppend(Perform(v, a[0], m), a[1..], b, m);
    }
  }

  /**
   * Holding keys for one frame makes one move call per held arrow, in order,
   * and fires at most one projectile: exactly one when the gate was open and
   * space is held, from wherever the ship is when the first shot is taken.
   * Without an arrow the ship stays where it was; the step size never changes.
   */
  lemma {:induction false} PerformAllEffect(v: PlayerView, actions: seq<Action>, m: ShipMotion)
    ensures PerformAll(v, actions, m).calls == v.calls + MoveCalls(actions)
    ensures PerformAll(v, actions, m).stepSize == v.stepSize
    ensures MoveCalls(actions) == [] ==> PerformAll(v, actions, m).pos == v.pos
    ensures v.canShoot && Fire in actions ==>
              && PerformAll(v, actions, m).projectiles
                 == v.projectiles + [NewProjectile(PerformAll(v, actions[..IndexOf(actions, Fire)], m).pos)]
              && !PerformAll(v, actions, m).canShoot
    ensures !(v.canShoot && Fire in actions) ==>
              && PerformAll(v, actions, m).projectiles == v.projectiles
              && PerformAll(v, actions, m).canShoot == v.canShoot
    decreases |actions|
  {
    if actions != [] {
      var u := Perform(v, actions[0], m);
      PerformAllEffect(u, actions[1..], m);
      assert Fire in actions <==> actions[0] == Fire || Fire in actions[1..] by {
        assert actions == [actions[0]] + actions[1..];
      }
      if actions[0].MoveLeft? || actions[0].MoveRight? {
        assert u.calls + MoveCalls(actions[1..]) == v.calls + MoveCalls(actions);
      }
      if v.canShoot && Fire in actions && actions[0] != Fire {
        var i := IndexOf(actions, Fire);
        assert i == IndexOf(actions[1..], Fire) + 1;
        assert actions[..i] == [actions[0]] + actions[1..][..i - 1];
        assert PerformAll(v, actions[..i], m) == PerformAll(u, actions[1..][..i - 1], m);
      } else if v.canShoot && actions[0] == Fire {
        assert actions[..0] == [];
      }
    }
  }

  /**
   * When every held-key handler only touches the player (as those that
   * `setupGameInputHandling` installs do), a frame's held actions can never
   * pause the game or skip the level.
   */
  lemma {:induction false} HeldActionsArePlayerActions(keys: seq<int>, handlers: map<int, Action>)
    requires forall k :: k in handlers ==> PlayerAction(handlers[k])
    ensures forall a :: a in HeldActions(keys, handlers) ==> PlayerAction(a)
    decreases |keys|
  {
    if keys != [] {
      HeldActionsArePlayerActions(keys[1..], handlers);
    }
  }

  // ---------------------------------------------------------------------------
  // The controller

  /** The finish plane: normal (0, 0, 1) through the origin. */
  const FinishPlane := Plane(Vec3(0.0, 0.0, 1.0), 0.0)

  /** The formation speeds of a new game state. */
  const InitialSpeedX := 0.3
  const InitialSpeedZ := 0.2

  class Game {
    var started: bool
    var paused: bool
    var score: int
    var player: Player
    var enemies: seq<GroupView>
    var finishPlane: Plane
    var enemyMovementSpeedX: real
    var enemyMovementSpeedZ: real
    var input: InputHandler<Action>
    /** The delegate's notifications, oldest first. */
    var log: seq<Event>
    /** Values for a new player's `fireTimeout` and `stepSize`, which Player.ts does not define. */
    const initialFireTimeout: real
    const initialStepSize: real
    /** Where a new player's `move` and `update` put the ship. */
    const motion: ShipMotion

    predicate Valid()
      reads this, input
    {
      && AllWellFormed(enemies)
      && input.Valid()
      && forall k :: k in input.keyHandlers ==> PlayerAction(input.keyHandlers[k])
    }

    /** The part of the state that a frame's `update` reads and writes. */
    function Snapshot(): World
      reads this, player
    {
      World(enemies, player.projectiles, score, started, log, finishPlane,
            Difficulty(enemyMovementSpeedX, enemyMovementSpeedZ, player.fireTimeout, player.stepSize))
    }

    function PlayerState(): PlayerView
      reads this, player
    {
      PlayerView(player.canShoot, player.pos, player.projectiles, player.calls, player.stepSize)
    }

    /**
     * `new Game(...)`: not started, not paused, no notification sent yet.
     * The state is the one `setupGameState` builds.
     */
    constructor (fireTimeout0: real, stepSize0: real, motion0: ShipMotion)
      ensures Valid()
      ensures !started && !paused && log == []
      ensures score == 0 && enemies == [] && finishPlane == FinishPlane
      ensures enemyMovementSpeedX == InitialSpeedX && enemyMovementSpeedZ == InitialSpeedZ
      ensures initialFireTimeout == fireTimeout0 && initialStepSize == stepSize0 && motion == motion0
    {
      initialFireTimeout := fireTimeout0;
      initialStepSize := stepSize0;
      motion := motion0;
      started := false;
      paused := false;
      log := [];
      score := 0;
      player := new Player(fireTimeout0, stepSize0, motion0);
      enemies := [];
      finishPlane := FinishPlane;
      enemyMovementSpeedX := InitialSpeedX;
      enemyMovementSpeedZ := InitialSpeedZ;
      input := new InputHandler();
    }

    /**
     * `setupGameState` / `resetGameState`: a new player, score 0, no
     * formations, the finish plane and the initial formation speeds.
     */
    method ResetGameState()
      requires Valid()
      modifies this
      ensures Valid()
      ensures fresh(player)
      ensures player.canShoot && player.projectiles == [] && player.pos == Vec3(0.0, 0.0, PlayerZ)
      ensures player.fireTimeout == initialFireTimeout && player.stepSize == initialStepSize
      ensures player.calls == [] && player.motion == motion
      ensures score == 0 && enemies == [] && finishPlane == FinishPlane
      ensures enemyMovementSpeedX == InitialSpeedX && enemyMovementSpeedZ == InitialSpeedZ
      ensures started == old(started) && paused == old(paused) && log == old(log) && input == old(input)
    {
      player := new Player(initialFireTimeout, initialStepSize, motion);
      score := 0;
      enemies := [];
      finishPlane := FinishPlane;
      enemyMovementSpeedX := InitialSpeedX;
      enemyMovementSpeedZ := InitialSpeedZ;
    }

    /** `pause()`: sets the flag and notifies, even when already paused. */
    method Pause()
      modifies this
      ensures paused && log == old(log) + [Paused]
      ensures started == old(started) && score == old(score) && player == old(player)
      ensures enemies == old(enemies) && input == old(input) && finishPlane == old(finishPlane)
      ensures enemyMovementSpeedX == old(enemyMovementSpeedX) && enemyMovementSpeedZ == old(enemyMovementSpeedZ)
    {
      paused := true;
      log := log + [Paused];
    }

    /** `resume()`: clears the flag and notifies, even when not paused. */
    method Resume()
      modifies this
      ensures !paused && log == old(log) + [Resumed]
      ensures started == old(started) && score == old(score) && player == old(player)
      ensures enemies == old(enemies) && input == old(input) && finishPlane == old(finishPlane)
      ensures enemyMovementSpeedX == old(enemyMovementSpeedX) && enemyMovementSpeedZ == old(enemyMovementSpeedZ)
    {
      paused := false;
      log := log + [Resumed];
    }

    /**
     * `startLevel()`: drops every formation.  The projectiles are only taken
     * off the scene; they stay in the player's list.
     */
    method StartLevel()
      modifies this
      ensures enemies == []
      ensures started == old(started) && paused == old(paused) && score == old(score) && log == old(log)
      ensures player == old(player) && input == old(input) && finishPlane == old(finishPlane)
      ensures enemyMovementSpeedX == old(enemyMovementSpeedX) && enemyMovementSpeedZ == old(enemyMovementSpeedZ)
    {
      enemies := [];
    }

    /** `gameOver()`: stops the frame loop and reports the current score. */
    method GameOver()
      modifies this
      ensures !started && log == old(log) + [Event.GameOver(score, GameOverReason)]
      ensures paused == old(paused) && score == old(score) && player == old(player)
      ensures enemies == old(enemies) && input == old(input) && finishPlane == old(finishPlane)
      ensures enemyMovementSpeedX == old(enemyMovementSpeedX) && enemyMovementSpeedZ == old(enemyMovementSpeedZ)
    {
      started := false;
      log := log + [Event.GameOver(score, GameOverReason)];
    }

    /** `updateScore(amount)`: adds to the score and reports the new and the old score. */
    method UpdateScore(amount: int)
      modifies this
      ensures score == old(score) + amount && log == old(log) + [ScoreChanged(score, old(score))]
      ensures started == old(started) && paused == old(paused) && player == old(player)
      ensures enemies == old(enemies) && input == old(input) && finishPlane == old(finishPlane)
      ensures enemyMovementSpeedX == old(enemyMovementSpeedX) && enemyMovementSpeedZ == old(enemyMovementSpeedZ)
    {
      var oldScore := score;
      score := score + amount;
      log := log + [ScoreChanged(score, oldScore)];
    }

    /** `onEnemyKilled(enemy)`: every kill is worth 50 points. */
    method OnEnemyKilled()
      modifies this
      ensures score == old(score) + KillScore && log == old(log) + [ScoreChanged(old(score) + KillScore, old(score))]
      ensures started == old(started) && paused == old(paused) && player == old(player)
      ensures enemies == old(enemies) && input == old(input) && finishPlane == old(finishPlane)
      ensures enemyMovementSpeedX == old(enemyMovementSpeedX) && enemyMovementSpeedZ == old(enemyMovementSpeedZ)
    {
      UpdateScore(KillScore);
    }

    /**
     * `handleDeviceOrientationChange(e)`: a missing or zero tilt is ignored;
     * otherwise the ship is placed at the clamped, scaled tilt.
     */
    method HandleDeviceOrientationChange(gamma: Option<real>)
      modifies player
      ensures gamma.None? || gamma == Some(0.0) ==> player.pos == old(player.pos)
      ensures gamma.Some? && gamma.value != 0.0 ==> player.pos == old(player.pos).(x := TiltToX(gamma.value))
      ensures -70.0 <= player.pos.x <= 70.0 || player.pos == old(player.pos)
      ensures player.canShoot == old(player.canShoot) && player.projectiles == old(player.projectiles)
      ensures player.calls == old(player.calls)
      ensures player.fireTimeout == old(player.fireTimeout) && player.stepSize == old(player.stepSize)
    {
      if gamma.None? || gamma.value == 0.0 {
        return;
      }
      player.pos := player.pos.(x := TiltToX(gamma.value));
    }

    /** `spawnNextWave()`: a 5x5 formation with the current speeds, then a harder game. */
    method SpawnNextWave(roundedRandom: int)
      requires AllWellFormed(enemies)
      modifies this, player
      ensures AllWellFormed(enemies)
      ensures Snapshot() == Tick.SpawnNextWave(old(Snapshot()), roundedRandom)
      ensures player.canShoot == old(player.canShoot) && player.pos == old(player.pos) && player.calls == old(player.calls)
      ensures paused == old(paused) && input == old(input) && player == old(player)
    {
      var d := Difficulty(enemyMovementSpeedX, enemyMovementSpeedZ, player.fireTimeout, player.stepSize);
      var group := CreateGrid(WaveRows, WaveCols, WaveOptions(d), roundedRandom);
      SpawnedViewWellFormed(d, roundedRandom);
      assert group.View() == SpawnedView(d, roundedRandom);
      enemies := enemies + [group.View()];
      enemyMovementSpeedX := enemyMovementSpeedX + 0.1;
      enemyMovementSpeedZ := enemyMovementSpeedZ + 0.05;
      player.fireTimeout := Max(0.01, player.fireTimeout - 0.09);
      player.stepSize := Min(10.0, player.stepSize + 0.1);
    }

    /**
     * The body of the projectile loop when projectile j hit `enemy`:
     * `group.removeEntity(enemy)`, `onEnemyKilled`, `splice(j, 1)`.
     */
    method KillWith(g0: GroupView, j: nat, enemy: Vec3) returns (g: GroupView)
      modifies this, player
      ensures Frame(g, player.projectiles, score, log) == Kill(Frame(g0, old(player.projectiles), old(score), old(log)), j, enemy)
      ensures started == old(started) && paused == old(paused) && player == old(player)
      ensures enemies == old(enemies) && input == old(input) && finishPlane == old(finishPlane)
      ensures enemyMovementSpeedX == old(enemyMovementSpeedX) && enemyMovementSpeedZ == old(enemyMovementSpeedZ)
      ensures player.canShoot == old(player.canShoot) && player.pos == old(player.pos) && player.calls == old(player.calls)
      ensures player.fireTimeout == old(player.fireTimeout) && player.stepSize == old(player.stepSize)
    {
      var members := RemoveFirst(g0.entities, enemy);
      g := g0.(entities := members, isEmpty := |members| == 0);
      OnEnemyKilled();
      player.projectiles := Splice(player.projectiles, j);
    }

    /**
     * The projectile loop of `update` for one formation, which has already
     * moved: `forEach` over the projectiles present when it starts, testing
     * each one that still exists, and on a hit removing the member, scoring
     * and splicing the projectile out.
     */
    method ResolveHits(g0: GroupView) returns (g: GroupView)
      modifies this, player
      ensures var f := Sweep(Frame(g0, old(player.projectiles), old(score), old(log)), 0, |old(player.projectiles)|);
              g == f.group && player.projectiles == f.projectiles && score == f.score && log == f.log
      ensures started == old(started) && paused == old(paused) && player == old(player)
      ensures enemies == old(enemies) && input == old(input) && finishPlane == old(finishPlane)
      ensures enemyMovementSpeedX == old(enemyMovementSpeedX) && enemyMovementSpeedZ == old(enemyMovementSpeedZ)
      ensures player.canShoot == old(player.canShoot) && player.pos == old(player.pos) && player.calls == old(player.calls)
      ensures player.fireTimeout == old(player.fireTimeout) && player.stepSize == old(player.stepSize)
    {
      g := g0;
      var n := |player.projectiles|;
      var j := 0;
      while j < n
        invariant 0 <= j <= n
        invariant Sweep(Frame(g, player.projectiles, score, log), j, n)
                  == Sweep(Frame(g0, old(player.projectiles), old(score), old(log)), 0, n)
        invariant started == old(started) && paused == old(paused) && player == old(player)
        invariant enemies == old(enemies) && input == old(input) && finishPlane == old(finishPlane)
        invariant enemyMovementSpeedX == old(enemyMovementSpeedX) && enemyMovementSpeedZ == old(enemyMovementSpeedZ)
        invariant player.canShoot == old(player.canShoot) && player.pos == old(player.pos) && player.calls == old(player.calls)
        invariant player.fireTimeout == old(player.fireTimeout) && player.stepSize == old(player.stepSize)
      {
        if j < |player.projectiles| {
          var proj := player.projectiles[j];
          var enemy := CollidingEntity(g, proj.pos);
          if enemy.Some? {
            g := KillWith(g, j, enemy.value);
          }
        }
        j := j + 1;
      }
    }

    /**
     * The body of `enemies.forEach` for formation i: `group.update()`, the
     * projectile loop, then the finish-plane test, which ends the game.
     */
    method StepFormation(i: nat, o: Oracle)
      requires i < |enemies|
      modifies this, player
      ensures Snapshot() == StepGroup(old(Snapshot()), i, o)
      ensures paused == old(paused) && input == old(input) && player == old(player)
      ensures player.canShoot == old(player.canShoot) && player.pos == old(player.pos) && player.calls == old(player.calls)
    {
      var group := Advance(enemies[i]);
      group := ResolveHits(group);
      enemies := enemies[i := group];
      if o.crossesDeadline(group, finishPlane) {
        GameOver();
      }
    }

    /** `p.update()` for every projectile, in order. */
    method UpdateProjectiles(o: Oracle)
      modifies player
      ensures player.projectiles == AdvanceProjectiles(old(player.projectiles), o.advanceProjectile)
      ensures player.canShoot == old(player.canShoot) && player.pos == old(player.pos) && player.calls == old(player.calls)
      ensures player.fireTimeout == old(player.fireTimeout) && player.stepSize == old(player.stepSize)
    {
      var i := 0;
      while i < |player.projectiles|
        invariant 0 <= i <= |player.projectiles| == |old(player.projectiles)|
        invariant forall k :: 0 <= k < i ==> player.projectiles[k] == o.advanceProjectile(old(player.projectiles)[k])
        invariant forall k :: i <= k < |player.projectiles| ==> player.projectiles[k] == old(player.projectiles)[k]
        invariant player.canShoot == old(player.canShoot) && player.pos == old(player.pos) && player.calls == old(player.calls)
        invariant player.fireTimeout == old(player.fireTimeout) && player.stepSize == old(player.stepSize)
      {
        player.projectiles := player.projectiles[i := o.advanceProjectile(player.projectiles[i])];
        i := i + 1;
      }
    }

    /**
     * `update()`: the player's own step, then the frame of module Tick —
     * projectiles advanced and filtered, empty formations dropped, every
     * formation stepped, and a new wave when none is left.
     */
    method Update(o: Oracle, roundedRandom: int)
      requires Valid()
      modifies this, player
      ensures Valid()
      ensures Snapshot() == TickWorld(old(Snapshot()), o, roundedRandom)
      ensures player.calls == old(player.calls) + [UpdateCall]
      ensures player.pos == player.motion.update(old(player.pos), old(player.stepSize), player.calls)
      ensures player.canShoot == old(player.canShoot)
      ensures paused == old(paused) && input == old(input) && player == old(player)
    {
      player.Update();
      ghost var shipPos := player.pos;
      UpdateProjectiles(o);
      player.projectiles := LiveProjectiles(player.projectiles);
      enemies := NonEmptyViews(enemies);
      NonEmptyViewsMembers(old(enemies));
      ghost var w1 := Snapshot();
      assert w1 == old(Snapshot()).(projectiles := LiveProjectiles(AdvanceProjectiles(old(player.projectiles), o.advanceProjectile)),
                                    groups := NonEmptyViews(old(enemies)));
      AdvanceGroupsAccounting(w1, 0, o);
      var i := 0;
      while i < |enemies|
        invariant 0 <= i <= |enemies| == |w1.groups|
        invariant AdvanceGroups(Snapshot(), i, o) == AdvanceGroups(w1, 0, o)
        invariant paused == old(paused) && input == old(input) && player == old(player)
        invariant player.calls == old(player.calls) + [UpdateCall]
        invariant player.canShoot == old(player.canShoot) && player.pos == shipPos
      {
        StepFormation(i, o);
        i := i + 1;
      }
      assert Snapshot() == AdvanceGroups(w1, 0, o);
      if |enemies| == 0 {
        SpawnNextWave(roundedRandom);
      }
    }

    /** What a registered handler does when invoked. */
    method Dispatch(a: Action)
      modifies this, player
      ensures PlayerAction(a) ==> PlayerState() == Perform(old(PlayerState()), a, player.motion)
      ensures PlayerAction(a) ==> paused == old(paused) && enemies == old(enemies) && log == old(log)
      ensures a == TogglePause ==> paused == !old(paused) && log == old(log) + [if old(paused) then Resumed else Paused]
      ensures a == TogglePause ==> enemies == old(enemies)
      ensures a == SkipLevel ==> enemies == [] && paused == old(paused) && log == old(log)
      ensures !PlayerAction(a) ==> PlayerState() == old(PlayerState())
      ensures started == old(started) && score == old(score) && player == old(player) && input == old(input)
      ensures finishPlane == old(finishPlane)
      ensures enemyMovementSpeedX == old(enemyMovementSpeedX) && enemyMovementSpeedZ == old(enemyMovementSpeedZ)
      ensures player.fireTimeout == old(player.fireTimeout) && player.stepSize == old(player.stepSize)
    {
      match a
      case MoveLeft => player.Move(-1);
      case MoveRight => player.Move(1);
      case Fire => player.Shoot();
      case TogglePause => if paused { Resume(); } else { Pause(); }
      case SkipLevel => StartLevel();
    }

    /** The held-key handlers of one frame, in the order `run` invokes them. */
    method DispatchHeld(actions: seq<Action>)
      requires forall a :: a in actions ==> PlayerAction(a)
      modifies this, player
      ensures PlayerState() == PerformAll(old(PlayerState()), actions, player.motion)
      ensures started == old(started) && paused == old(paused) && score == old(score) && log == old(log)
      ensures enemies == old(enemies) && player == old(player) && input == old(input) && finishPlane == old(finishPlane)
      ensures enemyMovementSpeedX == old(enemyMovementSpeedX) && enemyMovementSpeedZ == old(enemyMovementSpeedZ)
      ensures player.fireTimeout == old(player.fireTimeout) && player.stepSize == old(player.stepSize)
    {
      var i := 0;
      while i < |actions|
        invariant 0 <= i <= |actions|
        invariant PlayerState() == PerformAll(old(PlayerState()), actions[..i], player.motion)
        invariant started == old(started) && paused == old(paused) && score == old(score) && log == old(log)
        invariant enemies == old(enemies) && player == old(player) && input == old(input) && finishPlane == old(finishPlane)
        invariant enemyMovementSpeedX == old(enemyMovementSpeedX) && enemyMovementSpeedZ == old(enemyMovementSpeedZ)
        invariant player.fireTimeout == old(player.fireTimeout) && player.stepSize == old(player.stepSize)
      {
        ghost var before := PlayerState();
        Dispatch(actions[i]);
        PerformAllAppend(old(PlayerState()), actions[..i], [actions[i]], player.motion);
        assert actions[..i + 1] == actions[..i] + [actions[i]];
        assert PerformAll(before, [actions[i]], player.motion) == Perform(before, actions[i], player.motion);
        i := i + 1;
      }
      assert actions[..i] == actions;
    }

    /**
     * `render()`: nothing happens before the game starts; otherwise the held
     * keys are served, and unless the game is paused one `update` runs.
     */
    method Render(o: Oracle, roundedRandom: int)
      requires Valid()
      modifies this, player
      ensures Valid()
      ensures !old(started) ==> Snapshot() == old(Snapshot()) && PlayerState() == old(PlayerState())
      ensures old(started) && old(paused) ==>
                && PlayerState() == PerformAll(old(PlayerState()), HeldActions(input.pressedKeys, input.keyHandlers), player.motion)
                && Snapshot() == old(Snapshot()).(projectiles := player.projectiles)
      ensures old(started) && !old(paused) ==>
                var served := PerformAll(old(PlayerState()), HeldActions(input.pressedKeys, input.keyHandlers), player.motion);
                && Snapshot() == TickWorld(old(Snapshot()).(projectiles := served.projectiles), o, roundedRandom)
                && player.calls == served.calls + [UpdateCall]
                && player.pos == player.motion.update(served.pos, served.stepSize, player.calls)
                && player.canShoot == served.canShoot
      ensures paused == old(paused) && input == old(input) && player == old(player)
    {
      if !started {
        return;
      }
      var actions := input.Run();
      HeldActionsArePlayerActions(input.pressedKeys, input.keyHandlers);
      DispatchHeld(actions);
      if paused {
        return;
      }
      Update(o, roundedRandom);
    }

    /** `onKeyDown` of the game's input handler. */
    method OnKeyDown(code: int)
      requires Valid()
      modifies input
      ensures Valid()
      ensures input.pressedKeys == if code in old(input.pressedKeys) then old(input.pressedKeys) else old(input.pressedKeys) + [code]
      ensures input.keyHandlers == old(input.keyHandlers) && input.keySingleHandlers == old(input.keySingleHandlers)
    {
      input.OnKeyDown(code);
    }

    /**
     * `onKeyUp` of the game's input handler: the key is released and its
     * key-up handler, if any, runs once: escape resumes a paused game and
     * pauses a running one, L drops every formation.
     */
    method OnKeyUp(code: int)
      requires Valid()
      modifies this, player, input
      ensures Valid()
      ensures input == old(input) && player == old(player) && input.pressedKeys == Without(old(input.pressedKeys), code)
      ensures input.keyHandlers == old(input.keyHandlers) && input.keySingleHandlers == old(input.keySingleHandlers)
      ensures started == old(started) && score == old(score) && finishPlane == old(finishPlane)
      ensures enemyMovementSpeedX == old(enemyMovementSpeedX) && enemyMovementSpeedZ == old(enemyMovementSpeedZ)
      ensures player.fireTimeout == old(player.fireTimeout) && player.stepSize == old(player.stepSize)
      ensures code in input.keySingleHandlers && input.keySingleHandlers[code] == TogglePause ==>
                paused == !old(paused) && log == old(log) + [if old(paused) then Resumed else Paused]
                && enemies == old(enemies)
      ensures code in input.keySingleHandlers && input.keySingleHandlers[code] == SkipLevel ==>
                enemies == [] && paused == old(paused) && log == old(log)
      ensures code !in input.keySingleHandlers ==> Snapshot() == old(Snapshot()) && paused == old(paused)
      ensures code in input.keySingleHandlers && !PlayerAction(input.keySingleHandlers[code]) ==>
                PlayerState() == old(PlayerState())
    {
      var invoked := input.OnKeyUp(code);
      if invoked != [] {
        Dispatch(invoked[0]);
      }
    }

    /**
     * The part of `onStartGame` after the orientation request: notify the
     * host, build a fresh state, install the key handlers, start the loop
     * (whose first frame runs paused) and unpause.
     */
    method OnStartGame(o: Oracle, roundedRandom: int)
      requires Valid()
      modifies this
      ensures Valid()
      ensures started && !paused
      ensures log == old(log) + [StartGame]
      ensures fresh(player) && fresh(input)
      ensures score == 0 && enemies == [] && finishPlane == FinishPlane
      ensures enemyMovementSpeedX == InitialSpeedX && enemyMovementSpeedZ == InitialSpeedZ
      ensures player.canShoot && player.projectiles == [] && player.pos == Vec3(0.0, 0.0, PlayerZ)
      ensures player.calls == [] && player.motion == motion
      ensures player.fireTimeout == initialFireTimeout && player.stepSize == initialStepSize
      ensures input.pressedKeys == [] && input.keyHandlers == HeldHandlers && input.keySingleHandlers == SingleHandlers
    {
      log := log + [StartGame];
      ResetGameState();
      var handler := new InputHandler();
      handler.keyHandlers := HeldHandlers;
      handler.keySingleHandlers := SingleHandlers;
      input := handler;
      started := true;
      paused := true;
      StartLevel();
      Render(o, roundedRandom);
      paused := false;
    }
  }
}
