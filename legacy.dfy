/**
 * The older, self-contained game loop (src/game/Game.tsx): one flat list of
 * enemies sharing a horizontal offset, one list of projectiles, arrow keys
 * that move the ship by a fixed step, and a space bar that fires through a
 * fire gate.
 *
 * Its collision loop splices both lists inside two nested `forEach` loops.
 * `AsWrittenCollisions` reproduces that loop exactly; two counterexamples
 * show what it does that it evidently should not, and `Resolve` is the
 * corrected loop that the game object follows.
 */
module Legacy {
  import opened Basics
  import opened Enemies
  import opened Projectiles
  import opened Input

  /** The formation turns around beyond this offset. */
  const Swing := 50.0

  /** Horizontal distance the formation moves per frame. */
  const ShiftPerFrame := 0.2

  /** Extra y-rotation of every enemy per frame. */
  const SpinPerFrame := 0.01

  /** Distance a projectile flies per frame, towards negative z. */
  const FlightPerFrame := 0.5

  /** Half-width of the hit window in x. */
  const HitHalfWidth := 5.0

  /** Distance an arrow key moves the ship per frame. */
  const StepSize := 2.0

  /** The key handlers' closures. */
  datatype KeyAction = Left | Right | Shoot

  const Handlers: map<int, KeyAction> := map[LeftArrow := Left, RightArrow := Right, Space := Shoot]

  /** The grid that `setupGame` spawns. */
  const InitialGrid := SpawnOptions(5, 5, Vec3(20.0, 0.0, 20.0), Vec3(-30.0, 0.0, -150.0), EnemyOptions(5.0, 10.0))

  // ---------------------------------------------------------------------------
  // Key handlers

  /** What the key handlers read and write. */
  datatype Ship = Ship(pos: Vec3, canShoot: bool, projectiles: seq<Vec3>)

  /** One handler: move by StepSize, or the local `shoot`. */
  function Perform(s: Ship, a: KeyAction): Ship {
    match a
    case Left => s.(pos := s.pos.(x := s.pos.x - StepSize))
    case Right => s.(pos := s.pos.(x := s.pos.x + StepSize))
    case Shoot =>
      if s.canShoot then s.(canShoot := false, projectiles := s.projectiles + [CreateProjectile(s.pos)]) else s
  }

  function PerformAll(s: Ship, actions: seq<KeyAction>): Ship
    decreases |actions|
  {
    if actions == [] then s else PerformAll(Perform(s, actions[0]), actions[1..])
  }

  /** Right presses minus left presses. */
  function NetSteps(actions: seq<KeyAction>): int
    decreases |actions|
  {
    if actions == [] then 0
    else (if actions[0] == Right then 1 else if actions[0] == Left then -1 else 0) + NetSteps(actions[1..])
  }

  lemma {:induction false} PerformAllAppend(s: Ship, a: seq<KeyAction>, b: seq<KeyAction>)
    ensures PerformAll(s, a + b) == PerformAll(PerformAll(s, a), b)
    decreases |a|
  {
    if a == [] {
      assert a + b == b;
    } else {
      assert (a + b)[1..] == a[1..] + b;
      PerformAllAppend(Perform(s, a[0]), a[1..], b);
    }
  }

  /**
   * A frame's handlers move the ship by exactly 2 per arrow (right minus
   * left) and never in y or z, keep every earlier projectile, and add one
   * projectile exactly when the gate was open and space is held.
   */
  lemma {:induction false} PerformAllEffect(s: Ship, actions: seq<KeyAction>)
    ensures PerformAll(s, actions).pos.x == s.pos.x + StepSize * (NetSteps(actions) as real)
    ensures PerformAll(s, actions).pos.y == s.pos.y && PerformAll(s, actions).pos.z == s.pos.z
    ensures |PerformAll(s, actions).projectiles| == |s.projectiles| + (if s.canShoot && Shoot in actions then 1 else 0)
    ensures PerformAll(s, actions).projectiles[..|s.projectiles|] == s.projectiles
    ensures PerformAll(s, actions).canShoot == (s.canShoot && Shoot !in actions)
    decreases |actions|
  {
    if actions != [] {
      var u := Perform(s, actions[0]);
      PerformAllEffect(u, actions[1..]);
      assert Shoot in actions <==> actions[0] == Shoot || Shoot in actions[1..] by {
        assert actions == [actions[0]] + actions[1..];
      }
      var r := PerformAll(u, actions[1..]);
      assert r.projectiles[..|s.projectiles|] == r.projectiles[..|u.projectiles|][..|s.projectiles|];
    }
  }

  // ---------------------------------------------------------------------------
  // Motion

  /** The direction after the turn test: +1 left of -50, -1 right of +50. */
  function Turn(offset: real, direction: int): (d: int)
    ensures offset < -Swing ==> d == 1
    ensures offset > Swing ==> d == -1
    ensures -Swing <= offset <= Swing ==> d == direction
  {
    if offset > Swing then -1 else if offset < -Swing then 1 else direction
  }

  /** Once inside [-50.2, 50.2] the shared offset never leaves it. */
  lemma OffsetStaysInBand(offset: real, direction: int)
    requires direction == 1 || direction == -1
    requires -Swing - ShiftPerFrame <= offset <= Swing + ShiftPerFrame
    ensures var d := Turn(offset, direction);
            -Swing - ShiftPerFrame <= offset + ShiftPerFrame * (d as real) <= Swing + ShiftPerFrame
  {
  }

  /** `enemy.mesh.rotation.y += 0.01; enemy.mesh.position.x += stepX`. */
  function Shift(e: Enemy, stepX: real): Enemy {
    e.(mesh := Mesh(e.mesh.pos.(x := e.mesh.pos.x + stepX), e.mesh.rotationY + SpinPerFrame))
  }

  /** Every projectile `z -= 0.5`. */
  function Drift(ps: seq<Vec3>): seq<Vec3> {
    seq(|ps|, i requires 0 <= i < |ps| => ps[i].(z := ps[i].z - FlightPerFrame))
  }

  /** The projectile has reached or passed the enemy's depth and is within 5 of it in x. */
  predicate Collides(e: Enemy, p: Vec3) {
    e.mesh.pos.z - p.z >= 0.0 && Abs(e.mesh.pos.x - p.x) <= HitHalfWidth
  }

  // ---------------------------------------------------------------------------
  // The collision loop as written

  datatype Lists = Lists(enemies: seq<Enemy>, projectiles: seq<Vec3>)

  /**
   * The inner `projectiles.forEach` for the enemy `e` captured by the outer
   * loop at index i.  On a hit it splices projectile j AND whatever enemy is
   * at index i now, and it carries on testing `e` against the remaining
   * projectiles.  (The `y -= 70` on `e` is not modelled: by then `e` is out
   * of the list, and the test reads only x and z.)
   */
  function AsWrittenInner(l: Lists, e: Enemy, i: nat, j: nat, m: nat): Lists
    decreases m - j
  {
    if j >= m then l
    else if j >= |l.projectiles| then AsWrittenInner(l, e, i, j + 1, m)
    else if Collides(e, l.projectiles[j]) then
      AsWrittenInner(Lists(Splice(l.enemies, i), Splice(l.projectiles, j)), e, i, j + 1, m)
    else AsWrittenInner(l, e, i, j + 1, m)
  }

  /** The outer `enemies.forEach` from index i, for a loop that started with n enemies. */
  function AsWrittenOuter(l: Lists, stepX: real, i: nat, n: nat): Lists
    decreases n - i
  {
    if i >= n then l
    else if i >= |l.enemies| then AsWrittenOuter(l, stepX, i + 1, n)
    else
      var e := Shift(l.enemies[i], stepX);
      var l' := l.(enemies := l.enemies[i := e]);
      AsWrittenOuter(AsWrittenInner(l', e, i, 0, |l'.projectiles|), stepX, i + 1, n)
  }

  function AsWrittenCollisions(l: Lists, stepX: real): Lists {
    AsWrittenOuter(l, stepX, 0, |l.enemies|)
  }

  /** An enemy at (x, 0, 0). */
  function EnemyAt(x: real): Enemy {
    Enemy(Mesh(Vec3(x, 0.0, 0.0), 0.0), 10.0, true)
  }

  /**
   * Two projectiles that both hit the same enemy A, with a missing one
   * between them, remove A and also B, the enemy that moved into A's index,
   * although no projectile is anywhere near B.
   */
  lemma AsWrittenKillsNeighbour()
    ensures var l := Lists([EnemyAt(0.0), EnemyAt(100.0)],
                           [Vec3(0.0, 0.0, -1.0), Vec3(50.0, 0.0, -1.0), Vec3(0.0, 0.0, -1.0)]);
            && (forall p :: p in l.projectiles ==> !Collides(Shift(EnemyAt(100.0), ShiftPerFrame), p))
            && AsWrittenCollisions(l, ShiftPerFrame).enemies == []
  {
    var a := EnemyAt(0.0);
    var b := EnemyAt(100.0);
    var p1 := Vec3(0.0, 0.0, -1.0);
    var q := Vec3(50.0, 0.0, -1.0);
    var l := Lists([a, b], [p1, q, p1]);
    var a' := Shift(a, ShiftPerFrame);
    var l0 := l.(enemies := [a', b]);
    assert Collides(a', p1) && !Collides(a', q);
    assert AsWrittenOuter(l, ShiftPerFrame, 0, 2) == AsWrittenOuter(AsWrittenInner(l0, a', 0, 0, 3), ShiftPerFrame, 1, 2);
    var l1 := Lists([b], [q, p1]);
    assert Splice([a', b], 0) == [b] && Splice([p1, q, p1], 0) == [q, p1];
    assert AsWrittenInner(l0, a', 0, 0, 3) == AsWrittenInner(l1, a', 0, 1, 3);
    var l2 := Lists([], [q]);
    assert Splice([b], 0) == [] && Splice([q, p1], 1) == [q];
    assert AsWrittenInner(l1, a', 0, 1, 3) == AsWrittenInner(l2, a', 0, 2, 3);
    assert AsWrittenInner(l2, a', 0, 2, 3) == l2;
    assert AsWrittenOuter(l2, ShiftPerFrame, 1, 2) == l2;
  }

  /**
   * A hit on enemy A moves B into A's index, which the outer loop has
   * already visited: B is neither moved nor turned this frame.
   */
  lemma AsWrittenSkipsNextEnemy()
    ensures AsWrittenCollisions(Lists([EnemyAt(0.0), EnemyAt(100.0)], [Vec3(0.0, 0.0, -1.0)]), ShiftPerFrame).enemies
            == [EnemyAt(100.0)]
    ensures EnemyAt(100.0) != Shift(EnemyAt(100.0), ShiftPerFrame)
  {
    var a := EnemyAt(0.0);
    var b := EnemyAt(100.0);
    var p := Vec3(0.0, 0.0, -1.0);
    var l := Lists([a, b], [p]);
    var a' := Shift(a, ShiftPerFrame);
    var l0 := l.(enemies := [a', b]);
    assert Collides(a', p);
    assert AsWrittenOuter(l, ShiftPerFrame, 0, 2) == AsWrittenOuter(AsWrittenInner(l0, a', 0, 0, 1), ShiftPerFrame, 1, 2);
    var l1 := Lists([b], []);
    assert Splice([a', b], 0) == [b] && Splice([p], 0) == [];
    assert AsWrittenInner(l0, a', 0, 0, 1) == AsWrittenInner(l1, a', 0, 1, 1) == l1;
    assert AsWrittenOuter(l1, ShiftPerFrame, 1, 2) == AsWrittenOuter(l1, ShiftPerFrame, 2, 2) == l1;
  }

  // ---------------------------------------------------------------------------
  // The collision loop as intended

  /** The first projectile in list order that hits e, or -1. */
  function FirstCollision(e: Enemy, ps: seq<Vec3>): (j: int)
    ensures -1 <= j < |ps|
    ensures j >= 0 ==> Collides(e, ps[j])
  {
    if ps == [] then -1
    else if Collides(e, ps[0]) then 0
    else
      var k := FirstCollision(e, ps[1..]);
      if k == -1 then -1 else k + 1
  }

  /** The projectile found is the first that hits e, and -1 means that none does. */
  lemma {:induction false} FirstCollisionSpec(e: Enemy, ps: seq<Vec3>)
    ensures forall k :: 0 <= k < FirstCollision(e, ps) ==> !Collides(e, ps[k])
    ensures FirstCollision(e, ps) == -1 <==> forall k :: 0 <= k < |ps| ==> !Collides(e, ps[k])
  {
    if ps != [] && !Collides(e, ps[0]) {
      FirstCollisionSpec(e, ps[1..]);
      forall k | 0 < k < |ps| ensures ps[k] == ps[1..][k - 1] { }
    }
  }

  /**
   * Every enemy is moved once; the first projectile that hits it, if any,
   * is removed together with it, and a removed enemy is checked no further.
   */
  function Resolve(es: seq<Enemy>, ps: seq<Vec3>, stepX: real): Lists
    decreases |es|
  {
    if es == [] then Lists([], ps)
    else
      var e := Shift(es[0], stepX);
      var j := FirstCollision(e, ps);
      if j == -1 then
        var r := Resolve(es[1..], ps, stepX);
        Lists([e] + r.enemies, r.projectiles)
      else Resolve(es[1..], Splice(ps, j), stepX)
  }

  /** The corrected loop removes one projectile per enemy it removes, and never creates one. */
  lemma {:induction false} ResolveCounts(es: seq<Enemy>, ps: seq<Vec3>, stepX: real)
    ensures var r := Resolve(es, ps, stepX);
            && |r.enemies| <= |es|
            && |es| - |r.enemies| == |ps| - |r.projectiles|
            && multiset(r.projectiles) <= multiset(ps)
    decreases |es|
  {
    if es != [] {
      var j := FirstCollision(Shift(es[0], stepX), ps);
      if j == -1 {
        ResolveCounts(es[1..], ps, stepX);
      } else {
        ResolveCounts(es[1..], Splice(ps, j), stepX);
        assert ps == ps[..j] + [ps[j]] + ps[j + 1..];
        assert multiset(Splice(ps, j)) <= multiset(ps);
      }
    }
  }

  /** Every enemy that survives the corrected loop is an enemy moved exactly once. */
  lemma {:induction false} ResolveSurvivorsMoved(es: seq<Enemy>, ps: seq<Vec3>, stepX: real)
    ensures forall s :: s in Resolve(es, ps, stepX).enemies ==> exists i :: 0 <= i < |es| && s == Shift(es[i], stepX)
    decreases |es|
  {
    if es != [] {
      var e := Shift(es[0], stepX);
      var j := FirstCollision(e, ps);
      var ps' := if j == -1 then ps else Splice(ps, j);
      ResolveSurvivorsMoved(es[1..], ps', stepX);
      var r := Resolve(es[1..], ps', stepX);
      forall s | s in r.enemies ensures exists i :: 0 <= i < |es| && s == Shift(es[i], stepX) {
        var i :| 0 <= i < |es[1..]| && s == Shift(es[1..][i], stepX);
        assert s == Shift(es[i + 1], stepX);
      }
    }
  }

  /** No enemy that survives the corrected loop is touched by a projectile that survives it. */
  lemma {:induction false} ResolveSurvivorsUntouched(es: seq<Enemy>, ps: seq<Vec3>, stepX: real)
    ensures var r := Resolve(es, ps, stepX);
            forall s, p :: s in r.enemies && p in r.projectiles ==> !Collides(s, p)
    decreases |es|
  {
    if es != [] {
      var e := Shift(es[0], stepX);
      var j := FirstCollision(e, ps);
      if j == -1 {
        ResolveSurvivorsUntouched(es[1..], ps, stepX);
        ResolveCounts(es[1..], ps, stepX);
        FirstCollisionSpec(e, ps);
        var r := Resolve(es[1..], ps, stepX);
        forall p | p in r.projectiles ensures !Collides(e, p) {
          assert p in multiset(r.projectiles);
          assert p in ps;
        }
      } else {
        ResolveSurvivorsUntouched(es[1..], Splice(ps, j), stepX);
      }
    }
  }

  /** An enemy that no projectile touches survives, moved once, in its place in the order. */
  lemma {:induction false} ResolveKeepsUntouched(es: seq<Enemy>, ps: seq<Vec3>, stepX: real, i: nat)
    requires i < |es|
    requires forall p :: p in ps ==> !Collides(Shift(es[i], stepX), p)
    ensures Shift(es[i], stepX) in Resolve(es, ps, stepX).enemies
    decreases |es|, 1
  {
    var j := FirstCollision(Shift(es[0], stepX), ps);
    if i == 0 {
      FirstCollisionSpec(Shift(es[0], stepX), ps);
    } else if j == -1 {
      assert es[1..][i - 1] == es[i];
      ResolveKeepsUntouched(es[1..], ps, stepX, i - 1);
    } else {
      ResolveKeepsUntouchedAfterHit(es, ps, stepX, i, j);
    }
  }

  /** Helper of ResolveKeepsUntouched: the loop after an earlier enemy took projectile j. */
  lemma {:induction false} ResolveKeepsUntouchedAfterHit(es: seq<Enemy>, ps: seq<Vec3>, stepX: real, i: nat, j: nat)
    requires 0 < i < |es| && j < |ps| && j == FirstCollision(Shift(es[0], stepX), ps)
    requires forall p :: p in ps ==> !Collides(Shift(es[i], stepX), p)
    ensures Shift(es[i], stepX) in Resolve(es, ps, stepX).enemies
    decreases |es|, 0
  {
    assert es[1..][i - 1] == es[i];
    assert ps == ps[..j] + [ps[j]] + ps[j + 1..];
    forall p | p in Splice(ps, j) ensures !Collides(Shift(es[i], stepX), p) {
      assert p in multiset(Splice(ps, j));
    }
    ResolveKeepsUntouched(es[1..], Splice(ps, j), stepX, i - 1);
  }

  /** The two counterexamples above come out as intended in the corrected loop. */
  lemma ResolveFixesCounterexamples()
    ensures Shift(EnemyAt(100.0), ShiftPerFrame)
            in Resolve([EnemyAt(0.0), EnemyAt(100.0)],
                       [Vec3(0.0, 0.0, -1.0), Vec3(50.0, 0.0, -1.0), Vec3(0.0, 0.0, -1.0)], ShiftPerFrame).enemies
    ensures Resolve([EnemyAt(0.0), EnemyAt(100.0)], [Vec3(0.0, 0.0, -1.0)], ShiftPerFrame).enemies
            == [Shift(EnemyAt(100.0), ShiftPerFrame)]
  {
    var es := [EnemyAt(0.0), EnemyAt(100.0)];
    var ps := [Vec3(0.0, 0.0, -1.0), Vec3(50.0, 0.0, -1.0), Vec3(0.0, 0.0, -1.0)];
    forall p | p in ps ensures !Collides(Shift(es[1], ShiftPerFrame), p) { }
    ResolveKeepsUntouched(es, ps, ShiftPerFrame, 1);
    var p1 := [Vec3(0.0, 0.0, -1.0)];
    assert FirstCollision(Shift(es[0], ShiftPerFrame), p1) == 0;
    assert Splice(p1, 0) == [];
    assert es[1..] == [EnemyAt(100.0)] && es[1..][1..] == [];
    assert FirstCollision(Shift(es[1], ShiftPerFrame), []) == -1;
  }

  /** One step of the corrected loop at index i, where j is the first projectile hitting the moved enemy. */
  lemma ResolveAt(es: seq<Enemy>, ps: seq<Vec3>, i: nat, j: int, stepX: real)
    requires i < |es| && j == FirstCollision(Shift(es[i], stepX), ps)
    ensures j == -1 ==>
              var es' := es[i := Shift(es[i], stepX)];
              && es'[..i + 1] == es[..i] + [Shift(es[i], stepX)]
              && Resolve(es[i..], ps, stepX).enemies == [Shift(es[i], stepX)] + Resolve(es'[i + 1..], ps, stepX).enemies
              && Resolve(es[i..], ps, stepX).projectiles == Resolve(es'[i + 1..], ps, stepX).projectiles
    ensures j != -1 ==>
              var es' := es[..i] + es[i + 1..];
              && es'[..i] == es[..i]
              && Resolve(es[i..], ps, stepX) == Resolve(es'[i..], Splice(ps, j), stepX)
  {
    assert es[i..][0] == es[i] && es[i..][1..] == es[i + 1..];
    if j == -1 {
      assert es[i := Shift(es[i], stepX)][i + 1..] == es[i + 1..];
    } else {
      assert (es[..i] + es[i + 1..])[i..] == es[i + 1..];
    }
  }

  // ---------------------------------------------------------------------------
  // The game object

  /** The observable state of the game. */
  datatype State = State(ship: Ship, enemies: seq<Enemy>, offset: real, direction: int)

  /**
   * `updateGame` on the state, given the held-key handlers `run` invokes:
   * serve the keys, fly the projectiles, turn and move the shared offset,
   * then move the enemies and resolve the hits.
   */
  function Frame(s: State, actions: seq<KeyAction>): State {
    var ship := PerformAll(s.ship, actions);
    var d := Turn(s.offset, s.direction);
    var stepX := ShiftPerFrame * (d as real);
    var r := Resolve(s.enemies, Drift(ship.projectiles), stepX);
    State(ship.(projectiles := r.projectiles), r.enemies, s.offset + stepX, d)
  }

  /** `updateGame` as written: Frame with the nested collision loop of the source in place of Resolve. */
  function AsWrittenFrame(s: State, actions: seq<KeyAction>): State {
    var ship := PerformAll(s.ship, actions);
    var d := Turn(s.offset, s.direction);
    var stepX := ShiftPerFrame * (d as real);
    var r := AsWrittenCollisions(Lists(s.enemies, Drift(ship.projectiles)), stepX);
    State(ship.(projectiles := r.projectiles), r.enemies, s.offset + stepX, d)
  }

  /**
   * A whole frame as written, from a state whose projectiles reach the first
   * counterexample's positions after their flight, loses the enemy at
   * x = 100 that no projectile is near; the corrected frame keeps it.
   */
  lemma AsWrittenFrameKillsNeighbour(pos: Vec3, canShoot: bool)
    ensures var s := State(Ship(pos, canShoot, [Vec3(0.0, 0.0, -0.5), Vec3(50.0, 0.0, -0.5), Vec3(0.0, 0.0, -0.5)]),
                           [EnemyAt(0.0), EnemyAt(100.0)], 0.0, 1);
            && AsWrittenFrame(s, []).enemies == []
            && Shift(EnemyAt(100.0), ShiftPerFrame) in Frame(s, []).enemies
  {
    var ps := [Vec3(0.0, 0.0, -0.5), Vec3(50.0, 0.0, -0.5), Vec3(0.0, 0.0, -0.5)];
    var ship := Ship(pos, canShoot, ps);
    assert PerformAll(ship, []) == ship;
    assert Turn(0.0, 1) == 1;
    assert Drift(ps) == [Vec3(0.0, 0.0, -1.0), Vec3(50.0, 0.0, -1.0), Vec3(0.0, 0.0, -1.0)];
    AsWrittenKillsNeighbour();
    ResolveFixesCounterexamples();
  }

  class LegacyGame {
    var ship: Ship
    var enemies: seq<Enemy>
    var offset: real
    var direction: int
    var input: InputHandler<KeyAction>

    function View(): State
      reads this
    {
      State(ship, enemies, offset, direction)
    }

    predicate Valid()
      reads this, input
    {
      input.Valid() && (direction == 1 || direction == -1)
    }

    /**
     * `setupGame(scene)`: a 5x5 grid at (-30, 0, -150), no projectiles,
     * offset 0 moving left, and the arrow and space handlers.  The player
     * from `createPlayerInstance`, which Player.ts does not define, is given.
     */
    constructor (template: Mesh, playerPos: Vec3, playerCanShoot: bool)
      ensures Valid()
      ensures ship == Ship(playerPos, playerCanShoot, [])
      ensures offset == 0.0 && direction == -1
      ensures |enemies| == 25
      ensures forall i :: 0 <= i < |enemies| ==>
                enemies[i] == Placed(template, InitialGrid.enemyOptions, Grid(LayoutOf(InitialGrid), 5, 5)[i])
      ensures fresh(input) && input.pressedKeys == [] && input.keyHandlers == Handlers && input.keySingleHandlers == map[]
    {
      var spawned := SpawnEnemyGrid(template, InitialGrid);
      GridSize(LayoutOf(InitialGrid), 5, 5);
      ship := Ship(playerPos, playerCanShoot, []);
      enemies := spawned;
      offset := 0.0;
      direction := -1;
      var handler := new InputHandler();
      handler.keyHandlers := Handlers;
      input := handler;
    }

    /** The local `shoot`: a no-op while the gate is closed, else one projectile at the ship and the gate closes. */
    method FireShot()
      modifies this
      ensures !old(ship.canShoot) ==> ship == old(ship)
      ensures old(ship.canShoot) ==> ship == old(ship).(canShoot := false, projectiles := old(ship.projectiles) + [CreateProjectile(old(ship.pos))])
      ensures enemies == old(enemies) && offset == old(offset) && direction == old(direction) && input == old(input)
    {
      if !ship.canShoot {
        return;
      }
      ship := ship.(projectiles := ship.projectiles + [CreateProjectile(ship.pos)]);
      ship := ship.(canShoot := false);
    }

    /** The `setTimeout` callback 500 ms after a shot: the gate opens again. */
    method CooldownExpired()
      modifies this
      ensures ship == old(ship).(canShoot := true)
      ensures enemies == old(enemies) && offset == old(offset) && direction == old(direction) && input == old(input)
    {
      ship := ship.(canShoot := true);
    }

    /** The held-key handlers `run` invokes this frame, in order. */
    method ServeKeys() returns (actions: seq<KeyAction>)
      modifies this
      ensures actions == HeldActions(input.pressedKeys, input.keyHandlers)
      ensures ship == PerformAll(old(ship), actions)
      ensures enemies == old(enemies) && offset == old(offset) && direction == old(direction) && input == old(input)
    {
      actions := input.Run();
      var i := 0;
      while i < |actions|
        invariant 0 <= i <= |actions|
        invariant ship == PerformAll(old(ship), actions[..i])
        invariant enemies == old(enemies) && offset == old(offset) && direction == old(direction) && input == old(input)
        decreases |actions| - i
      {
        ghost var before := ship;
        match actions[i] {
          case Left => ship := ship.(pos := ship.pos.(x := ship.pos.x - StepSize));
          case Right => ship := ship.(pos := ship.pos.(x := ship.pos.x + StepSize));
          case Shoot => FireShot();
        }
        PerformAllAppend(old(ship), actions[..i], [actions[i]]);
        assert actions[..i + 1] == actions[..i] + [actions[i]];
        assert PerformAll(before, [actions[i]]) == Perform(before, actions[i]);
        i := i + 1;
      }
      assert actions[..i] == actions;
    }

    /** The projectile loop: every projectile moves 0.5 towards negative z. */
    method FlyProjectiles()
      modifies this
      ensures ship.projectiles == Drift(old(ship.projectiles))
      ensures |ship.projectiles| == |old(ship.projectiles)|
      ensures forall i :: 0 <= i < |ship.projectiles| ==>
                ship.projectiles[i] == old(ship.projectiles[i]).(z := old(ship.projectiles[i]).z - FlightPerFrame)
      ensures ship.pos == old(ship.pos) && ship.canShoot == old(ship.canShoot)
      ensures enemies == old(enemies) && offset == old(offset) && direction == old(direction) && input == old(input)
    {
      var i := 0;
      while i < |ship.projectiles|
        invariant 0 <= i <= |ship.projectiles| == |old(ship.projectiles)|
        invariant forall k :: 0 <= k < i ==> ship.projectiles[k] == old(ship.projectiles[k]).(z := old(ship.projectiles[k]).z - FlightPerFrame)
        invariant forall k :: i <= k < |ship.projectiles| ==> ship.projectiles[k] == old(ship.projectiles[k])
        invariant ship.pos == old(ship.pos) && ship.canShoot == old(ship.canShoot)
        invariant enemies == old(enemies) && offset == old(offset) && direction == old(direction) && input == old(input)
      {
        var p := ship.projectiles[i];
        ship := ship.(projectiles := ship.projectiles[i := p.(z := p.z - FlightPerFrame)]);
        i := i + 1;
      }
    }

    /** The first projectile that hits e, found by a forward scan. */
    static method FindHit(e: Enemy, ps: seq<Vec3>) returns (j: int)
      ensures -1 <= j < |ps|
      ensures j >= 0 ==> Collides(e, ps[j]) && forall k :: 0 <= k < j ==> !Collides(e, ps[k])
      ensures j == -1 <==> forall k :: 0 <= k < |ps| ==> !Collides(e, ps[k])
      ensures j == FirstCollision(e, ps)
    {
      j := 0;
      while j < |ps| && !Collides(e, ps[j])
        invariant 0 <= j <= |ps|
        invariant forall k :: 0 <= k < j ==> !Collides(e, ps[k])
      {
        j := j + 1;
      }
      if j == |ps| {
        j := -1;
      }
      FirstCollisionSpec(e, ps);
    }

    /** The corrected collision loop over the two lists: move each enemy, and on a hit remove it with the projectile that hit it. */
    static method ResolveLists(enemies0: seq<Enemy>, projectiles0: seq<Vec3>, stepX: real) returns (es: seq<Enemy>, ps: seq<Vec3>)
      ensures Lists(es, ps) == Resolve(enemies0, projectiles0, stepX)
    {
      es, ps := enemies0, projectiles0;
      var i := 0;
      while i < |es|
        invariant 0 <= i <= |es|
        invariant Resolve(enemies0, projectiles0, stepX)
                  == Lists(es[..i] + Resolve(es[i..], ps, stepX).enemies, Resolve(es[i..], ps, stepX).projectiles)
        decreases |es| - i
      {
        var e := Shift(es[i], stepX);
        var j := FindHit(e, ps);
        ResolveAt(es, ps, i, j, stepX);
        if j == -1 {
          es := es[i := e];
          i := i + 1;
        } else {
          ps := Splice(ps, j);
          es := es[..i] + es[i + 1..];
        }
      }
      assert es[i..] == [] && es[..i] == es;
    }

    /** The corrected collision loop applied to the game's enemies and the ship's projectiles. */
    method ResolveCollisions(stepX: real)
      modifies this
      ensures Lists(enemies, ship.projectiles) == Resolve(old(enemies), old(ship.projectiles), stepX)
      ensures ship.pos == old(ship.pos) && ship.canShoot == old(ship.canShoot)
      ensures offset == old(offset) && direction == old(direction) && input == old(input)
    {
      var es, ps := ResolveLists(enemies, ship.projectiles, stepX);
      enemies := es;
      ship := ship.(projectiles := ps);
    }

    /**
     * `updateGame(scene, game)`: the frame of `Frame`, with the corrected
     * collision loop.  The `remove()` the projectile loop calls past z = 500
     * takes no argument and removes nothing, so it is not modelled.
     */
    method UpdateGame()
      requires Valid()
      modifies this
      ensures Valid()
      ensures View() == Frame(old(View()), HeldActions(input.pressedKeys, input.keyHandlers))
      ensures input == old(input)
    {
      var actions := ServeKeys();
      ghost var served := ship;
      FlyProjectiles();
      if offset < -Swing {
        direction := 1;
      }
      if offset > Swing {
        direction := -1;
      }
      var enemyStepX := ShiftPerFrame * (direction as real);
      offset := offset + enemyStepX;
      ResolveCollisions(enemyStepX);
      assert ship == served.(projectiles := ship.projectiles);
    }
  }
}
