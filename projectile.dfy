/**
 * Projectiles (src/game/Projectile.ts).
 *
 * A projectile is a value: the core never compares projectiles by identity,
 * it splices them out of lists by index.  `update()`, `deleted` and
 * `delete()` are used by the game controller but have no body in the
 * projectile class shown; the controller receives them as a caller-supplied
 * step function (see Tick.Oracle), and `deleted` is an uninterpreted flag
 * that only that step function sets.
 */
module Projectiles {
  import opened Basics

  datatype Projectile = Projectile(pos: Vec3, deleted: bool)

  /** `new THREE.Mesh(...)` starts at the scene origin. */
  const MeshDefault := Origin

  /** Height at which every projectile travels. */
  const ProjectileY := -5.0

  /**
   * `new Projectile(origin)`: only the x coordinate of the origin is copied;
   * y is fixed and z keeps the mesh default.
   */
  function NewProjectile(origin: Vec3): (p: Projectile)
    ensures p.pos.x == origin.x
    ensures p.pos.y == ProjectileY
    ensures p.pos.z == MeshDefault.z
    ensures !p.deleted
  {
    Projectile(Vec3(origin.x, ProjectileY, MeshDefault.z), false)
  }

  /** Two shooters at the same x fire identical projectiles, whatever their y and z. */
  lemma NewProjectileIgnoresYZ(a: Vec3, b: Vec3)
    ensures NewProjectile(a) == NewProjectile(b) <==> a.x == b.x
  {
  }

  /** `createProjectile(scene, origin)`: positions the new mesh at all three origin coordinates. */
  function CreateProjectile(origin: Vec3): (pos: Vec3)
    ensures pos.x == origin.x && pos.y == origin.y && pos.z == origin.z
  {
    Vec3(origin.x, origin.y, origin.z)
  }

  /**
   * The two constructions agree exactly when the origin already lies at the
   * projectile height and the mesh-default depth.
   */
  lemma ConstructionsAgree(origin: Vec3)
    ensures NewProjectile(origin).pos == CreateProjectile(origin)
            <==> origin.y == ProjectileY && origin.z == MeshDefault.z
  {
  }
}
