/**
 * The enemy formation (src/game/EnemyGroup.ts): a rigid group of enemies
 * that oscillates left and right while creeping towards the player, loses
 * members one at a time when they are hit, and answers hit queries.
 *
 * A member is represented by its position local to the group, the only part
 * of the member the formation reads or writes.  The members' own per-tick
 * `update()` (and the enemy class that defines it) is not part of this model.
 */
module Formation {
  import opened Basics
  import opened Enemies

  /** Beyond this |x| the formation turns around. */
  const TargetMovement := 25.0

  /** Half-width of the hit window, in x and in z. */
  const HitWindow := 10.0

  /** Field defaults of a new group. */
  const DefaultSpeedX := 0.4
  const DefaultSpeedZ := 0.2

  /** The observable state of a formation. */
  datatype GroupView = GroupView(pos: Vec3, direction: int, speedX: real, speedZ: real,
                                 entities: seq<Vec3>, isEmpty: bool)

  /** The direction is always a unit step, and `isEmpty` tells whether there are members. */
  predicate WellFormed(v: GroupView) {
    (v.direction == -1 || v.direction == 1) && v.isEmpty == (v.entities == [])
  }

  /** `IEnemyGridSpawnOptions` of EnemyGroup.ts. */
  datatype GridOptions = GridOptions(spacing: Vec3, origin: Vec3, enemyOptions: EnemyOptions,
                                     movementSpeedX: real, movementSpeedZ: real)

  function GridLayout(o: GridOptions): Layout {
    Layout(o.origin, o.spacing, o.enemyOptions.size)
  }

  /** `Math.round(Math.random()) === 0 ? -1 : 1`, given the rounded random number. */
  function InitialDirection(roundedRandom: int): (d: int)
    ensures d == -1 || d == 1
    ensures d == -1 <==> roundedRandom == 0
  {
    if roundedRandom == 0 then -1 else 1
  }

  // ---------------------------------------------------------------------------
  // Movement

  /** One oscillate-and-creep step of the group transform. */
  function Advance(v: GroupView): GroupView {
    var d := if v.pos.x > TargetMovement then -1
             else if v.pos.x < -TargetMovement then 1
             else v.direction;
    v.(direction := d,
       pos := Vec3(v.pos.x + v.speedX * (d as real), v.pos.y, v.pos.z + v.speedZ))
  }

  lemma AdvanceWellFormed(v: GroupView)
    requires WellFormed(v)
    ensures WellFormed(Advance(v))
    ensures Advance(v).entities == v.entities
  {
  }

  /** The band [-25 - speedX, 25 + speedX] that a formation never leaves once inside it. */
  predicate InBand(v: GroupView) {
    -TargetMovement - v.speedX <= v.pos.x <= TargetMovement + v.speedX
  }

  lemma AdvanceStaysInBand(v: GroupView)
    requires WellFormed(v) && v.speedX >= 0.0 && InBand(v)
    ensures InBand(Advance(v))
  {
  }

  function AdvanceN(v: GroupView, n: nat): GroupView
    decreases n
  {
    if n == 0 then v else Advance(AdvanceN(v, n - 1))
  }

  /**
   * However many ticks pass, a formation that starts in its band stays in it,
   * creeps by exactly n * speedZ, and keeps its members.
   */
  lemma {:induction false} AdvanceNStaysInBand(v: GroupView, n: nat)
    requires WellFormed(v) && v.speedX >= 0.0 && InBand(v)
    ensures WellFormed(AdvanceN(v, n)) && InBand(AdvanceN(v, n))
    ensures AdvanceN(v, n).pos.z == v.pos.z + (n as real) * v.speedZ
    ensures AdvanceN(v, n).entities == v.entities
    ensures AdvanceN(v, n).speedX == v.speedX && AdvanceN(v, n).speedZ == v.speedZ
    decreases n
  {
    if n > 0 {
      AdvanceNStaysInBand(v, n - 1);
      var u := AdvanceN(v, n - 1);
      AdvanceWellFormed(u);
      AdvanceStaysInBand(u);
      assert ((n - 1) as real) * v.speedZ + v.speedZ == (n as real) * v.speedZ;
    }
  }

  // ---------------------------------------------------------------------------
  // Membership

  /** `Array.prototype.indexOf`: the first index holding x, or -1. */
  function IndexOf<T(==)>(s: seq<T>, x: T): (i: int)
    ensures -1 <= i < |s|
    ensures i >= 0 ==> s[i] == x
    ensures i == -1 <==> x !in s
  {
    if s == [] then -1
    else if s[0] == x then 0
    else
      var k := IndexOf(s[1..], x);
      if k == -1 then -1 else k + 1
  }

  /** The index found is the first one: no earlier element equals x. */
  lemma {:induction false} IndexOfFirst<T>(s: seq<T>, x: T)
    ensures forall j :: 0 <= j < IndexOf(s, x) ==> s[j] != x
  {
    if s != [] && s[0] != x {
      IndexOfFirst(s[1..], x);
      forall j | 0 < j < IndexOf(s, x) ensures s[j] != x {
        assert s[j] == s[1..][j - 1];
      }
    }
  }

  /** The member list without the first copy of x (unchanged when x is absent). */
  function RemoveFirst<T(==)>(s: seq<T>, x: T): seq<T>
    decreases |s|
  {
    if s == [] then []
    else if s[0] == x then s[1..]
    else [s[0]] + RemoveFirst(s[1..], x)
  }

  /**
   * `removeEntity`'s own steps, `indexOf(x)` and then `splice(index, 1)` when
   * the index is not -1, compute exactly RemoveFirst.
   */
  lemma {:induction false} RemoveFirstAt<T>(s: seq<T>, x: T)
    ensures IndexOf(s, x) == -1 ==> RemoveFirst(s, x) == s
    ensures IndexOf(s, x) >= 0 ==> RemoveFirst(s, x) == s[..IndexOf(s, x)] + s[IndexOf(s, x) + 1..]
    decreases |s|
  {
    if s != [] && s[0] != x {
      RemoveFirstAt(s[1..], x);
      var k := IndexOf(s[1..], x);
      if k == -1 {
        assert s == [s[0]] + s[1..];
      } else {
        assert s[..k + 1] == [s[0]] + s[1..][..k];
        assert s[k + 2..] == s[1..][k + 1..];
      }
    }
  }

  /** A non-member leaves the list alone; otherwise the first copy of x, and only it, is cut out. */
  lemma RemoveFirstSpec<T>(s: seq<T>, x: T)
    ensures x !in s ==> RemoveFirst(s, x) == s
    ensures x in s ==> exists i :: 0 <= i < |s| && s[i] == x && x !in s[..i] && RemoveFirst(s, x) == s[..i] + s[i + 1..]
  {
    RemoveFirstAt(s, x);
    var i := IndexOf(s, x);
    if i != -1 {
      IndexOfFirst(s, x);
      assert x !in s[..i] by {
        forall j | 0 <= j < i ensures s[..i][j] != x { }
      }
    }
  }

  /** Removing x drops exactly one copy of x and nothing else. */
  lemma {:induction false} RemoveFirstMultiset<T>(s: seq<T>, x: T)
    ensures multiset(RemoveFirst(s, x)) == multiset(s) - multiset{x}
    ensures |RemoveFirst(s, x)| == if x in s then |s| - 1 else |s|
    decreases |s|
  {
    if s != [] {
      assert s == [s[0]] + s[1..];
      if s[0] != x {
        RemoveFirstMultiset(s[1..], x);
        assert x in s <==> x in s[1..];
      }
    }
  }

  // ---------------------------------------------------------------------------
  // Hit testing

  /** Member e is hit by a query point at (qx, qz) in group-local coordinates; y plays no part. */
  predicate InWindow(e: Vec3, qx: real, qz: real) {
    Abs(e.z - qz) <= HitWindow && Abs(e.x - qx) <= HitWindow
  }

  /** The first member in list order inside the window, or -1. */
  function FirstHit(s: seq<Vec3>, qx: real, qz: real): (i: int)
    ensures -1 <= i < |s|
    ensures i >= 0 ==> InWindow(s[i], qx, qz)
  {
    if s == [] then -1
    else if InWindow(s[0], qx, qz) then 0
    else
      var k := FirstHit(s[1..], qx, qz);
      if k == -1 then -1 else k + 1
  }

  /** The hit found is the first in list order, and -1 means that no member is in the window. */
  lemma {:induction false} FirstHitSpec(s: seq<Vec3>, qx: real, qz: real)
    ensures forall j :: 0 <= j < FirstHit(s, qx, qz) ==> !InWindow(s[j], qx, qz)
    ensures FirstHit(s, qx, qz) == -1 <==> forall j :: 0 <= j < |s| ==> !InWindow(s[j], qx, qz)
  {
    if s != [] && !InWindow(s[0], qx, qz) {
      FirstHitSpec(s[1..], qx, qz);
      forall j | 0 < j < |s| ensures s[j] == s[1..][j - 1] { }
    }
  }

  /**
   * `getCollidingEntity(pos)`: the query is moved into the group's local
   * space (x and z only), then the first member in list order within 10 of
   * it on both axes is returned; None exactly when there is no such member.
   */
  function CollidingEntity(v: GroupView, query: Vec3): Option<Vec3> {
    var i := FirstHit(v.entities, query.x - v.pos.x, query.z - v.pos.z);
    if i == -1 then None else Some(v.entities[i])
  }

  /** None exactly when no member is in the window; otherwise the first member in the window. */
  lemma CollidingEntitySpec(v: GroupView, query: Vec3)
    ensures var r := CollidingEntity(v, query);
            && (r.None? <==> forall j :: 0 <= j < |v.entities| ==> !InWindow(v.entities[j], query.x - v.pos.x, query.z - v.pos.z))
            && (r.Some? ==> exists i :: 0 <= i < |v.entities| && v.entities[i] == r.value
                              && InWindow(r.value, query.x - v.pos.x, query.z - v.pos.z)
                              && forall j :: 0 <= j < i ==> !InWindow(v.entities[j], query.x - v.pos.x, query.z - v.pos.z))
  {
    FirstHitSpec(v.entities, query.x - v.pos.x, query.z - v.pos.z);
  }

  /**
   * Removing the member that a hit query returned deletes exactly that
   * member's slot: an equal member earlier in the list would have been hit
   * first.
   */
  lemma RemoveHitMember(s: seq<Vec3>, qx: real, qz: real)
    requires FirstHit(s, qx, qz) >= 0
    ensures var i := FirstHit(s, qx, qz);
            RemoveFirst(s, s[i]) == s[..i] + s[i + 1..] && |RemoveFirst(s, s[i])| == |s| - 1
  {
    var i := FirstHit(s, qx, qz);
    FirstHitSpec(s, qx, qz);
    forall j | 0 <= j < i
      ensures s[j] != s[i]
    {
      assert !InWindow(s[j], qx, qz) && InWindow(s[i], qx, qz);
    }
    IndexOfFirst(s, s[i]);
    assert IndexOf(s, s[i]) == i;
    RemoveFirstAt(s, s[i]);
  }

  /** A hit removes exactly one member from the formation. */
  lemma RemoveCollidingEntity(v: GroupView, query: Vec3)
    requires CollidingEntity(v, query).Some?
    ensures |RemoveFirst(v.entities, CollidingEntity(v, query).value)| == |v.entities| - 1
    ensures multiset(RemoveFirst(v.entities, CollidingEntity(v, query).value))
            == multiset(v.entities) - multiset{CollidingEntity(v, query).value}
  {
    RemoveHitMember(v.entities, query.x - v.pos.x, query.z - v.pos.z);
    RemoveFirstMultiset(v.entities, CollidingEntity(v, query).value);
  }

  // ---------------------------------------------------------------------------
  // The formation object

  class EnemyGroup {
    var pos: Vec3
    var moveDirectionX: int
    var isEmpty: bool
    var entities: seq<Vec3>
    var movementSpeedX: real
    var movementSpeedZ: real

    function View(): GroupView
      reads this
    {
      GroupView(pos, moveDirectionX, movementSpeedX, movementSpeedZ, entities, isEmpty)
    }

    predicate Valid()
      reads this
    {
      WellFormed(View())
    }

    /** `new EnemyGroup(scene)`, with the random direction supplied by the caller. */
    constructor (roundedRandom: int)
      ensures Valid()
      ensures isEmpty && entities == []
      ensures pos == Origin && moveDirectionX == InitialDirection(roundedRandom)
      ensures movementSpeedX == DefaultSpeedX && movementSpeedZ == DefaultSpeedZ
    {
      pos := Origin;
      moveDirectionX := InitialDirection(roundedRandom);
      isEmpty := true;
      entities := [];
      movementSpeedX := DefaultSpeedX;
      movementSpeedZ := DefaultSpeedZ;
    }

    /** `add(enemy)`: appends the member; the group is no longer empty. */
    method Add(enemy: Vec3)
      requires Valid()
      modifies this
      ensures Valid()
      ensures entities == old(entities) + [enemy] && !isEmpty
      ensures pos == old(pos) && moveDirectionX == old(moveDirectionX)
      ensures movementSpeedX == old(movementSpeedX) && movementSpeedZ == old(movementSpeedZ)
    {
      entities := entities + [enemy];
      isEmpty := false;
    }

    /**
     * `removeEntity(enemy)`: deletes the first occurrence (a non-member leaves
     * the list as it is) and recomputes `isEmpty`.
     */
    method RemoveEntity(enemy: Vec3)
      requires Valid()
      modifies this
      ensures Valid()
      ensures entities == RemoveFirst(old(entities), enemy)
      ensures isEmpty == (entities == [])
      ensures pos == old(pos) && moveDirectionX == old(moveDirectionX)
      ensures movementSpeedX == old(movementSpeedX) && movementSpeedZ == old(movementSpeedZ)
    {
      RemoveFirstAt(entities, enemy);
      var index := IndexOf(entities, enemy);
      if index != -1 {
        entities := entities[..index] + entities[index + 1..];
      }
      isEmpty := |entities| == 0;
    }

    /**
     * `update()`: turns right when left of -25, left when right of +25, then
     * moves x by speedX in the current direction and z by speedZ.
     */
    method Update()
      requires Valid()
      modifies this
      ensures Valid()
      ensures View() == Advance(old(View()))
      ensures old(pos.x) < -TargetMovement ==> moveDirectionX == 1
      ensures old(pos.x) > TargetMovement ==> moveDirectionX == -1
      ensures -TargetMovement <= old(pos.x) <= TargetMovement ==> moveDirectionX == old(moveDirectionX)
      ensures pos == Vec3(old(pos.x) + movementSpeedX * (moveDirectionX as real), old(pos.y), old(pos.z) + movementSpeedZ)
      ensures entities == old(entities) && isEmpty == old(isEmpty)
      ensures movementSpeedX == old(movementSpeedX) && movementSpeedZ == old(movementSpeedZ)
    {
      if pos.x < -TargetMovement {
        moveDirectionX := 1;
      }
      if pos.x > TargetMovement {
        moveDirectionX := -1;
      }
      var enemyStepX := movementSpeedX * (moveDirectionX as real);
      pos := pos.(z := pos.z + movementSpeedZ);
      pos := pos.(x := pos.x + enemyStepX);
    }

    /**
     * `getCollidingEntity(pos)`: nothing exactly when no member is within the
     * window around the query taken into group-local x and z, and otherwise a
     * member inside it (the first, by CollidingEntitySpec).
     */
    function GetCollidingEntity(query: Vec3): (r: Option<Vec3>)
      reads this
      ensures r.None? <==> forall j :: 0 <= j < |entities| ==> !InWindow(entities[j], query.x - pos.x, query.z - pos.z)
      ensures r.Some? ==> r.value in entities && InWindow(r.value, query.x - pos.x, query.z - pos.z)
    {
      CollidingEntitySpec(View(), query);
      CollidingEntity(View(), query)
    }
  }

  /**
   * `EnemyGroup.createGrid(scene, rows, cols, options)`: a new group holding
   * one member per grid slot in row-major order, with the movement speeds
   * taken from the options.
   */
  method CreateGrid(rows: int, cols: int, options: GridOptions, roundedRandom: int) returns (group: EnemyGroup)
    ensures fresh(group) && group.Valid()
    ensures group.entities == Grid(GridLayout(options), rows, cols)
    ensures group.movementSpeedX == options.movementSpeedX && group.movementSpeedZ == options.movementSpeedZ
    ensures group.pos == Origin && group.moveDirectionX == InitialDirection(roundedRandom)
  {
    var l := GridLayout(options);
    group := new EnemyGroup(roundedRandom);
    group.movementSpeedX := options.movementSpeedX;
    group.movementSpeedZ := options.movementSpeedZ;
    var row := 0;
    while row < rows
      invariant row <= rows || row == 0
      invariant group.Valid() && group.entities == Grid(l, row, cols)
      invariant group.movementSpeedX == options.movementSpeedX && group.movementSpeedZ == options.movementSpeedZ
      invariant group.pos == Origin && group.moveDirectionX == InitialDirection(roundedRandom)
    {
      AddRow(group, l, row, cols);
      row := row + 1;
    }
  }

  /** The inner loop of `createGrid`: one member per column of row `row`, left to right. */
  method AddRow(group: EnemyGroup, l: Layout, row: int, cols: int)
    requires group.Valid()
    modifies group
    ensures group.Valid() && group.entities == old(group.entities) + GridRow(l, row, cols)
    ensures group.movementSpeedX == old(group.movementSpeedX) && group.movementSpeedZ == old(group.movementSpeedZ)
    ensures group.pos == old(group.pos) && group.moveDirectionX == old(group.moveDirectionX)
  {
    var col := 0;
    while col < cols
      invariant col <= cols || col == 0
      invariant group.Valid() && group.entities == old(group.entities) + GridRow(l, row, col)
      invariant group.movementSpeedX == old(group.movementSpeedX) && group.movementSpeedZ == old(group.movementSpeedZ)
      invariant group.pos == old(group.pos) && group.moveDirectionX == old(group.moveDirectionX)
    {
      group.Add(Slot(l, row, col));
      col := col + 1;
    }
    if col != cols {
      assert col == 0 && cols <= 0;
    }
  }
}
