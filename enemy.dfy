/**
 * Enemies and the grid layout (src/game/Enemy.ts).
 *
 * An enemy record holds a clone of the loaded enemy mesh, its health and its
 * own fire flag.  The loaded mesh (a GLTF asset kept in a module-global) is
 * a parameter here: `template`.  The grid layout is defined once and shared
 * with the enemy formation of EnemyGroup.ts, whose `createGrid` uses the same
 * formula.
 */
module Enemies {
  import opened Basics

  /** The part of a Three.js mesh the simulation reads or writes. */
  datatype Mesh = Mesh(pos: Vec3, rotationY: real)

  datatype Enemy = Enemy(mesh: Mesh, health: real, canShoot: bool)

  datatype EnemyOptions = EnemyOptions(size: real, initialHealth: real)

  /** The default argument of `createEnemyInstance`. */
  const DefaultEnemyOptions := EnemyOptions(5.0, 10.0)

  /** Where a grid is laid out: origin, gap between neighbours, and enemy size. */
  datatype Layout = Layout(origin: Vec3, spacing: Vec3, size: real)

  /** `IEnemyGridSpawnOptions` of Enemy.ts. */
  datatype SpawnOptions = SpawnOptions(rows: int, cols: int, spacing: Vec3, origin: Vec3, enemyOptions: EnemyOptions)

  function LayoutOf(o: SpawnOptions): Layout {
    Layout(o.origin, o.spacing, o.enemyOptions.size)
  }

  /** The position given to the enemy in row `row`, column `col`. */
  function Slot(l: Layout, row: int, col: int): Vec3 {
    Vec3(l.origin.x + (col as real) * (l.spacing.x + l.size),
         l.origin.y + l.spacing.y,
         l.origin.z + (row as real) * (l.spacing.z + l.size))
  }

  /** The first `cols` slots of row `row`, left to right. */
  function GridRow(l: Layout, row: int, cols: int): seq<Vec3>
    decreases cols
  {
    if cols <= 0 then [] else GridRow(l, row, cols - 1) + [Slot(l, row, cols - 1)]
  }

  /** The slots of the first `rows` rows, row after row (row-major order). */
  function Grid(l: Layout, rows: int, cols: int): seq<Vec3>
    decreases rows
  {
    if rows <= 0 then [] else Grid(l, rows - 1, cols) + GridRow(l, rows - 1, cols)
  }

  lemma {:induction false} GridRowAt(l: Layout, row: int, cols: int, c: int)
    requires 0 <= c < cols
    ensures |GridRow(l, row, cols)| == cols
    ensures GridRow(l, row, cols)[c] == Slot(l, row, c)
    decreases cols
  {
    if c < cols - 1 {
      GridRowAt(l, row, cols - 1, c);
    } else if cols > 1 {
      GridRowAt(l, row, cols - 1, 0);
    }
  }

  lemma {:induction false} GridRowSize(l: Layout, row: int, cols: int)
    ensures |GridRow(l, row, cols)| == if cols <= 0 then 0 else cols
    decreases cols
  {
    if cols > 0 {
      GridRowSize(l, row, cols - 1);
    }
  }

  /** A grid has rows * cols slots, and none at all when either count is not positive. */
  lemma {:induction false} GridSize(l: Layout, rows: int, cols: int)
    ensures |Grid(l, rows, cols)| == if rows <= 0 || cols <= 0 then 0 else rows * cols
    decreases rows
  {
    if rows > 0 {
      GridSize(l, rows - 1, cols);
      GridRowSize(l, rows - 1, cols);
      if cols > 0 {
        assert (rows - 1) * cols + cols == rows * cols;
      }
    }
  }

  /** Row-major order: slot (r, c) of the grid is its element number r * cols + c. */
  lemma {:induction false} GridAt(l: Layout, rows: int, cols: int, r: int, c: int)
    requires 0 <= r < rows && 0 <= c < cols
    ensures 0 <= r * cols + c < |Grid(l, rows, cols)|
    ensures Grid(l, rows, cols)[r * cols + c] == Slot(l, r, c)
    decreases rows
  {
    if r < rows - 1 {
      GridAt(l, rows - 1, cols, r, c);
      GridKeepsPrefix(l, rows, cols, r * cols + c);
    } else {
      GridSize(l, rows - 1, cols);
      var before := (rows - 1) * cols;
      assert r * cols + c == before + c;
      GridLastRow(l, rows, cols, c);
    }
  }

  /** Helper of GridAt: adding a row keeps the slots of the rows before it. */
  lemma GridKeepsPrefix(l: Layout, rows: int, cols: int, k: int)
    requires rows > 0 && 0 <= k < |Grid(l, rows - 1, cols)|
    ensures k < |Grid(l, rows, cols)| && Grid(l, rows, cols)[k] == Grid(l, rows - 1, cols)[k]
  {
  }

  /** Helper of GridAt: the last row follows the rows before it. */
  lemma GridLastRow(l: Layout, rows: int, cols: int, c: int)
    requires rows > 0 && 0 <= c < cols
    ensures |Grid(l, rows - 1, cols)| + c < |Grid(l, rows, cols)|
    ensures Grid(l, rows, cols)[|Grid(l, rows - 1, cols)| + c] == Slot(l, rows - 1, c)
  {
    GridRowAt(l, rows - 1, cols, c);
  }

  /** `createEnemyMesh(size)`: clones the loaded enemy mesh; the size is not used. */
  function CreateEnemyMesh(template: Mesh, size: real): Mesh {
    template
  }

  /**
   * `createEnemyInstance(options)`: a fresh enemy with the requested health
   * that may shoot; without options the defaults (size 5, health 10) apply.
   */
  function CreateEnemyInstance(template: Mesh, options: Option<EnemyOptions>): (e: Enemy)
    ensures e.canShoot
    ensures e.mesh == template
    ensures options.None? ==> e.health == 10.0
    ensures options.Some? ==> e.health == options.value.initialHealth
  {
    var o := if options.Some? then options.value else DefaultEnemyOptions;
    Enemy(CreateEnemyMesh(template, o.size), o.initialHealth, true)
  }

  /** The enemy size plays no part in the enemy created: only its health does. */
  lemma EnemyInstanceIgnoresSize(template: Mesh, a: EnemyOptions, b: EnemyOptions)
    ensures CreateEnemyInstance(template, Some(a)) == CreateEnemyInstance(template, Some(b))
            <==> a.initialHealth == b.initialHealth
  {
  }

  /** The enemy spawned into a grid slot: a fresh instance moved to that slot. */
  function Placed(template: Mesh, o: EnemyOptions, slot: Vec3): Enemy {
    var e := CreateEnemyInstance(template, Some(o));
    e.(mesh := e.mesh.(pos := slot))
  }

  /**
   * `spawnEnemyGrid(scene, options)`: one enemy per grid slot, in row-major
   * order, each with the configured health and able to shoot.
   */
  method SpawnEnemyGrid(template: Mesh, options: SpawnOptions) returns (enemies: seq<Enemy>)
    ensures |enemies| == |Grid(LayoutOf(options), options.rows, options.cols)|
    ensures forall i :: 0 <= i < |enemies| ==>
              enemies[i] == Placed(template, options.enemyOptions, Grid(LayoutOf(options), options.rows, options.cols)[i])
  {
    var l := LayoutOf(options);
    enemies := [];
    var row := 0;
    while row < options.rows
      invariant row <= options.rows || row == 0
      invariant |enemies| == |Grid(l, row, options.cols)|
      invariant forall i :: 0 <= i < |enemies| ==> enemies[i] == Placed(template, options.enemyOptions, Grid(l, row, options.cols)[i])
    {
      var col := 0;
      while col < options.cols
        invariant col <= options.cols || col == 0
        invariant |enemies| == |Grid(l, row, options.cols)| + |GridRow(l, row, col)|
        invariant forall i :: 0 <= i < |enemies| ==>
                    enemies[i] == Placed(template, options.enemyOptions, (Grid(l, row, options.cols) + GridRow(l, row, col))[i])
      {
        var enemy := CreateEnemyInstance(template, Some(options.enemyOptions));
        enemy := enemy.(mesh := enemy.mesh.(pos := Slot(l, row, col)));
        enemies := enemies + [enemy];
        col := col + 1;
      }
      assert Grid(l, row, options.cols) + GridRow(l, row, col) == Grid(l, row + 1, options.cols) by {
        if col != options.cols {
          assert col == 0 && options.cols <= 0;
        }
      }
      row := row + 1;
    }
  }

  /** Every enemy of a spawned grid has the configured health and may shoot. */
  lemma SpawnedEnemiesReady(template: Mesh, options: SpawnOptions, enemies: seq<Enemy>, i: int)
    requires |enemies| == |Grid(LayoutOf(options), options.rows, options.cols)|
    requires forall k :: 0 <= k < |enemies| ==>
               enemies[k] == Placed(template, options.enemyOptions, Grid(LayoutOf(options), options.rows, options.cols)[k])
    requires 0 <= i < |enemies|
    ensures enemies[i].health == options.enemyOptions.initialHealth && enemies[i].canShoot
    ensures enemies[i].mesh.rotationY == template.rotationY
  {
  }
}
