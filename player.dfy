/**
 * The player's ship (src/game/Player.ts).
 *
 * The class shown has the fire gate (`canShoot`), the live projectile list
 * and the mesh position.  The game controller also uses `update()`,
 * `move(direction)`, `stepSize` and `fireTimeout`, which that class does not
 * define: the two fields are kept as plain fields with caller-supplied
 * initial values, the two operations are recorded in the `calls` log, and
 * where they put the ship is decided by a caller-supplied `ShipMotion`.
 */
module Players {
  import opened Basics
  import opened Projectiles

  /** Initial depth of the ship's mesh. */
  const PlayerZ := 10.0

  /** A call to one of the player operations whose body is not part of this model. */
  datatype PlayerCall = MoveCall(direction: int) | UpdateCall

  /**
   * Where `move(direction)` and `update()` leave the ship, given its
   * position, its step size and every call made on it so far, the current
   * one included.  The whole history is passed so that any motion built up
   * by earlier calls (inertia, say) can be expressed.
   */
  datatype ShipMotion = ShipMotion(move: (Vec3, real, seq<PlayerCall>) -> Vec3,
                                   update: (Vec3, real, seq<PlayerCall>) -> Vec3)

  class Player {
    var canShoot: bool
    var pos: Vec3
    var projectiles: seq<Projectile>
    var stepSize: real
    var fireTimeout: real
    var calls: seq<PlayerCall>
    /** How `move` and `update` move the ship. */
    const motion: ShipMotion

    /** `new Player(scene)`: ready to fire, no projectiles, mesh at depth 10. */
    constructor (fireTimeout0: real, stepSize0: real, motion0: ShipMotion)
      ensures canShoot && projectiles == []
      ensures pos == Vec3(0.0, 0.0, PlayerZ)
      ensures fireTimeout == fireTimeout0 && stepSize == stepSize0
      ensures calls == [] && motion == motion0
    {
      motion := motion0;
      canShoot := true;
      pos := Vec3(0.0, 0.0, PlayerZ);
      projectiles := [];
      fireTimeout := fireTimeout0;
      stepSize := stepSize0;
      calls := [];
    }

    /**
     * `shoot()`: a no-op while the gate is closed; otherwise appends exactly
     * one projectile fired from the ship's position and closes the gate until
     * `CooldownExpired` runs.
     */
    method Shoot()
      modifies this
      ensures !old(canShoot) ==> unchanged(this)
      ensures old(canShoot) ==> !canShoot
      ensures old(canShoot) ==> projectiles == old(projectiles) + [NewProjectile(old(pos))]
      ensures pos == old(pos) && stepSize == old(stepSize) && fireTimeout == old(fireTimeout)
      ensures calls == old(calls)
    {
      if !canShoot {
        return;
      }
      var p := NewProjectile(pos);
      projectiles := projectiles + [p];
      canShoot := false;
    }

    /** The `setTimeout` callback, 500 ms after a successful shot: re-arms the gate. */
    method CooldownExpired()
      modifies this
      ensures canShoot
      ensures pos == old(pos) && projectiles == old(projectiles)
      ensures stepSize == old(stepSize) && fireTimeout == old(fireTimeout) && calls == old(calls)
    {
      canShoot := true;
    }

    /**
     * `move(direction)`: the call is recorded and the ship goes where the
     * motion puts it; the fire gate, the projectiles and the two settings
     * stay as they were.
     */
    method Move(direction: int)
      modifies this
      ensures calls == old(calls) + [MoveCall(direction)]
      ensures pos == motion.move(old(pos), stepSize, calls)
      ensures canShoot == old(canShoot) && projectiles == old(projectiles)
      ensures stepSize == old(stepSize) && fireTimeout == old(fireTimeout)
    {
      calls := calls + [MoveCall(direction)];
      pos := motion.move(pos, stepSize, calls);
    }

    /**
     * `update()`: the call is recorded and the ship goes where the motion
     * puts it; the fire gate, the projectiles and the two settings stay as
     * they were.
     */
    method Update()
      modifies this
      ensures calls == old(calls) + [UpdateCall]
      ensures pos == motion.update(old(pos), stepSize, calls)
      ensures canShoot == old(canShoot) && projectiles == old(projectiles)
      ensures stepSize == old(stepSize) && fireTimeout == old(fireTimeout)
    {
      calls := calls + [UpdateCall];
      pos := motion.update(pos, stepSize, calls);
    }
  }

  /**
   * Scenario: a shot while ready creates one projectile, a second shot before
   * the cooldown creates none, and after the cooldown the next shot succeeds.
   */
  method ShootCooldownScenario(p: Player)
    requires p.canShoot
    modifies p
    ensures |p.projectiles| == |old(p.projectiles)| + 2
    ensures !p.canShoot
  {
    var n := |p.projectiles|;
    p.Shoot();
    assert |p.projectiles| == n + 1;
    p.Shoot();
    assert |p.projectiles| == n + 1;
    p.CooldownExpired();
    p.Shoot();
  }
}
