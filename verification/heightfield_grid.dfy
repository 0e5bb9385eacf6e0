/**
 * The N x N heightmap of `TerrainEngine`: one cell per lattice point holding a
 * position, a normal and a colour.  The grid is `seq<seq<Cell>>`, indexed
 * `g[i][j]` as the source's `heightmap[i, j]`.
 */
module HeightfieldGrid {
  import opened Vectors

  datatype Cell = Cell(position: Vec3, normal: Vec3, colour: Vec4)

  type Grid = seq<seq<Cell>>

  /** The grey colour every cell is created with. */
  const Grey: Vec4 := Vec4(0.5, 0.5, 0.5, 1.0)

  predicate IsGrid(g: Grid, n: int) {
    |g| == n && forall i :: 0 <= i < |g| ==> |g[i]| == n
  }

  predicate InGrid(n: int, i: int, j: int) {
    0 <= i < n && 0 <= j < n
  }

  /** Cells strictly inside the border: the only ones the 3 x 3 filters touch. */
  predicate Interior(n: int, i: int, j: int) {
    1 <= i <= n - 2 && 1 <= j <= n - 2
  }

  /** Row-major visiting order of the nested `for i { for j { ... } }` loops. */
  predicate Before(a: int, b: int, i: int, j: int) {
    a < i || (a == i && b < j)
  }

  /** Every cell sits at its lattice point: position.X == i and position.Z == j. */
  ghost predicate IsLattice(g: Grid, n: int)
    requires IsGrid(g, n)
  {
    forall i, j :: InGrid(n, i, j) ==> g[i][j].position.x == i as real && g[i][j].position.z == j as real
  }

  /** The constructor's allocation: cell (i, j) is at (i, 0, j) with a zero normal and grey colour. */
  function InitialGrid(n: nat): (g: Grid)
    ensures IsGrid(g, n)
    ensures IsLattice(g, n)
    ensures forall i, j :: InGrid(n, i, j) ==>
      g[i][j].position.y == 0.0 && g[i][j].normal == Zero3 && g[i][j].colour == Grey
  {
    seq(n, i requires 0 <= i < n => seq(n, j requires 0 <= j < n =>
      Cell(Vec3(i as real, 0.0, j as real), Zero3, Grey)))
  }

  /** Replace one cell; every other cell is unchanged. */
  function SetCell(g: Grid, n: int, i: int, j: int, c: Cell): (r: Grid)
    requires IsGrid(g, n) && InGrid(n, i, j)
    ensures IsGrid(r, n)
    ensures r[i][j] == c
    ensures forall a, b :: InGrid(n, a, b) && (a, b) != (i, j) ==> r[a][b] == g[a][b]
  {
    g[i := g[i][j := c]]
  }

  /** C#'s `(int)` conversion of a float: truncation toward zero. */
  function Trunc(x: real): (r: int)
    ensures x >= 0.0 ==> r as real <= x < r as real + 1.0
    ensures x < 0.0 ==> r as real - 1.0 < x <= r as real
  {
    if x >= 0.0 then x.Floor else -((-x).Floor)
  }

  lemma TruncOfInt(k: int)
    ensures Trunc(k as real) == k
  {
  }
}
