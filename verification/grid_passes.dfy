/**
 * The whole-grid passes `TerrainEngine` runs after midpoint displacement: the
 * Perlin-noise overlay, `TTO` (translate to origin) and the in-place 3 x 3
 * `smooth` filter.  Each is a nested row-major loop over the N x N grid.
 */
module GridPasses {
  import opened Vectors
  import opened RandomSource
  import opened HeightfieldGrid

  /** The exponent the summed noise is raised to. */
  const NoisePower: real := 4.0

  /** Four octaves of Perlin noise at (x, y, z) with weights 1, 1/2, 1/4, 1/8 and frequencies 1, 2, 4, 8. */
  function Octaves(o: Oracle, x: real, y: real, z: real): real {
    1.0 * o.noise(x, y, z) + 0.5 * o.noise(2.0 * x, 2.0 * y, 2.0 * z)
    + 0.25 * o.noise(4.0 * x, 4.0 * y, 4.0 * z) + 0.125 * o.noise(8.0 * x, 8.0 * y, 8.0 * z)
  }

  /** The offset added to cell (i, j) whose height is y: the loop indices, not the stored X and Z, feed the noise. */
  function NoiseOffset(o: Oracle, i: int, j: int, y: real): real {
    o.power(Octaves(o, i as real, j as real, y), NoisePower)
  }

  /**
   * The noise overlay of the constructor: every cell's X, Y and Z grow by the
   * same offset h, computed from the cell's indices and its height before
   * the pass; normals and colours are untouched, so X - Z is unchanged.
   */
  method NoiseOverlay(o: Oracle, g: Grid, n: int) returns (r: Grid)
    requires IsGrid(g, n)
    ensures IsGrid(r, n)
    ensures forall i, j :: 0 <= i < n && 0 <= j < n ==>
      var p := g[i][j].position;
      var h := NoiseOffset(o, i, j, p.y);
      && r[i][j].position.x - p.x == h && r[i][j].position.y - p.y == h && r[i][j].position.z - p.z == h
      && r[i][j].normal == g[i][j].normal && r[i][j].colour == g[i][j].colour
    ensures forall i, j :: 0 <= i < n && 0 <= j < n ==>
      r[i][j].position.x - r[i][j].position.z == g[i][j].position.x - g[i][j].position.z
  {
    r := g;
    var i := 0;
    while i < n
      invariant 0 <= i <= n && IsGrid(r, n)
      invariant forall a, b :: 0 <= a < i && 0 <= b < n ==> r[a][b] == Noisy(o, g[a][b], a, b)
      invariant forall a, b :: i <= a < n && 0 <= b < n ==> r[a][b] == g[a][b]
    {
      var row := r[i];
      var j := 0;
      while j < n
        invariant 0 <= j <= n && |row| == n
        invariant forall b :: 0 <= b < j ==> row[b] == Noisy(o, g[i][b], i, b)
        invariant forall b :: j <= b < n ==> row[b] == g[i][b]
      {
        var c := row[j];
        var h := NoiseOffset(o, i, j, c.position.y);
        row := row[j := c.(position := Vec3(c.position.x + h, c.position.y + h, c.position.z + h))];
        j := j + 1;
      }
      r := r[i := row];
      i := i + 1;
    }
  }

  /** Cell c at (i, j) after the overlay. */
  function Noisy(o: Oracle, c: Cell, i: int, j: int): Cell {
    var h := NoiseOffset(o, i, j, c.position.y);
    c.(position := Vec3(c.position.x + h, c.position.y + h, c.position.z + h))
  }

  /** C#'s `(N - 1) / 2` on ints, which truncates toward zero. */
  function CentreOffset(n: nat): (r: int)
    ensures n >= 1 ==> 0 <= 2 * r <= n - 1 <= 2 * r + 1
    ensures n == 0 ==> r == 0
  {
    if n - 1 >= 0 then (n - 1) / 2 else -((1 - n) / 2)
  }

  /**
   * `TTO`: subtract (N - 1) / 2 from every cell's X and Z; heights, normals and
   * colours are untouched.  On a lattice of odd side the middle cell lands on
   * the origin and opposite corners land on opposite points.
   */
  method Tto(g: Grid, n: int) returns (r: Grid)
    requires IsGrid(g, n)
    ensures IsGrid(r, n)
    ensures forall i, j :: 0 <= i < n && 0 <= j < n ==>
      && g[i][j].position.x - r[i][j].position.x == CentreOffset(n) as real
      && g[i][j].position.z - r[i][j].position.z == CentreOffset(n) as real
      && r[i][j].position.y == g[i][j].position.y
      && r[i][j].normal == g[i][j].normal && r[i][j].colour == g[i][j].colour
    ensures IsLattice(g, n) && n % 2 == 1 ==>
      var c := (n - 1) / 2;
      && r[c][c].position.x == 0.0 && r[c][c].position.z == 0.0
      && r[0][0].position.x == -r[n - 1][n - 1].position.x
      && r[0][0].position.z == -r[n - 1][n - 1].position.z
  {
    var off := CentreOffset(n) as real;
    r := g;
    var i := 0;
    while i < n
      invariant 0 <= i <= n && IsGrid(r, n)
      invariant forall a, b :: 0 <= a < i && 0 <= b < n ==> r[a][b] == Shifted(g[a][b], off)
      invariant forall a :: i <= a < n ==> r[a] == g[a]
    {
      var row := ShiftRow(r[i], off);
      r := r[i := row];
      i := i + 1;
    }
    TtoCentre(g, r, n);
  }

  /** One row of `TTO`: every cell shifted by the same offset. */
  method ShiftRow(row: seq<Cell>, off: real) returns (r: seq<Cell>)
    ensures |r| == |row|
    ensures forall b :: 0 <= b < |row| ==> r[b] == Shifted(row[b], off)
  {
    r := row;
    var j := 0;
    while j < |row|
      invariant 0 <= j <= |row| && |r| == |row|
      invariant forall b :: 0 <= b < j ==> r[b] == Shifted(row[b], off)
      invariant forall b :: j <= b < |row| ==> r[b] == row[b]
    {
      r := r[j := Shifted(r[j], off)];
      j := j + 1;
    }
  }

  /** After the shift, an odd lattice is centred on the origin. */
  lemma TtoCentre(g: Grid, r: Grid, n: int)
    requires IsGrid(g, n) && IsGrid(r, n)
    requires forall i, j :: 0 <= i < n && 0 <= j < n ==> r[i][j] == Shifted(g[i][j], CentreOffset(n) as real)
    ensures IsLattice(g, n) && n % 2 == 1 ==>
      var c := (n - 1) / 2;
      && r[c][c].position.x == 0.0 && r[c][c].position.z == 0.0
      && r[0][0].position.x == -r[n - 1][n - 1].position.x
      && r[0][0].position.z == -r[n - 1][n - 1].position.z
  {
  }

  /** Cell c with `off` taken from its X and Z. */
  function Shifted(c: Cell, off: real): Cell {
    c.(position := Vec3(c.position.x - off, c.position.y, c.position.z - off))
  }

  // ---------------------------------------------------------------------
  // smooth
  // ---------------------------------------------------------------------

  /**
   * The height of cell (a, b) as the in-place filter reads it while at (i, j):
   * cells it has already visited hold their new height (from r), the rest
   * still hold the old one (from g).
   */
  function Seen(g: Grid, r: Grid, n: int, a: int, b: int, i: int, j: int): real
    requires IsGrid(g, n) && IsGrid(r, n) && InGrid(n, a, b)
  {
    if Before(a, b, i, j) then r[a][b].position.y else g[a][b].position.y
  }

  /** The sum of the nine heights around interior cell (i, j), as read in place. */
  function SeenSum(g: Grid, r: Grid, n: int, i: int, j: int): real
    requires IsGrid(g, n) && IsGrid(r, n) && Interior(n, i, j)
  {
    Seen(g, r, n, i - 1, j - 1, i, j) + Seen(g, r, n, i, j - 1, i, j) + Seen(g, r, n, i + 1, j - 1, i, j)
    + Seen(g, r, n, i - 1, j, i, j) + Seen(g, r, n, i, j, i, j) + Seen(g, r, n, i + 1, j, i, j)
    + Seen(g, r, n, i - 1, j + 1, i, j) + Seen(g, r, n, i, j + 1, i, j) + Seen(g, r, n, i + 1, j + 1, i, j)
  }

  /**
   * The state of the in-place sweep just before it reaches (i, j): every
   * interior cell visited so far holds the mean of the nine heights around
   * it as they were read then; every other cell is untouched; and no visit
   * changes anything but a height.
   */
  ghost predicate Sweep(g: Grid, r: Grid, n: int, i: int, j: int)
    requires IsGrid(g, n) && IsGrid(r, n)
  {
    && (forall a, b :: 0 <= a < n && 0 <= b < n ==>
          && r[a][b].normal == g[a][b].normal && r[a][b].colour == g[a][b].colour
          && r[a][b].position.x == g[a][b].position.x && r[a][b].position.z == g[a][b].position.z
          && (!(1 <= a <= n - 2 && 1 <= b <= n - 2 && Before(a, b, i, j)) ==> r[a][b] == g[a][b]))
    && (forall a, b {:trigger SeenSum(g, r, n, a, b)} ::
          1 <= a <= n - 2 && 1 <= b <= n - 2 && Before(a, b, i, j) ==>
          r[a][b].position.y == SeenSum(g, r, n, a, b) / 9.0)
  }

  /** r is g smoothed in place: the sweep has visited every interior cell. */
  ghost predicate Smoothed(g: Grid, r: Grid, n: int)
    requires IsGrid(g, n) && IsGrid(r, n)
  {
    Sweep(g, r, n, n - 1, 0)
  }

  /** The sum of the nine heights around interior cell (i, j) of one grid. */
  function Sum9(g: Grid, n: int, i: int, j: int): real
    requires IsGrid(g, n) && Interior(n, i, j)
  {
    g[i - 1][j - 1].position.y + g[i][j - 1].position.y + g[i + 1][j - 1].position.y
    + g[i - 1][j].position.y + g[i][j].position.y + g[i + 1][j].position.y
    + g[i - 1][j + 1].position.y + g[i][j + 1].position.y + g[i + 1][j + 1].position.y
  }

  /**
   * `smooth`: the 3 x 3 box filter on heights, written back in place in
   * row-major order, so cells above and to the left contribute their new
   * heights.  Only interior heights change.
   */
  method Smooth(g: Grid, n: int) returns (r: Grid)
    requires IsGrid(g, n)
    ensures IsGrid(r, n)
    ensures Smoothed(g, r, n)
  {
    r := g;
    var i := 1;
    while i < n - 1
      invariant IsGrid(r, n) && 1 <= i && (n >= 2 ==> i <= n - 1)
      invariant Sweep(g, r, n, i, 1)
    {
      var j := 1;
      while j < n - 1
        invariant IsGrid(r, n) && 1 <= j <= n - 1
        invariant Sweep(g, r, n, i, j)
      {
        var y := Sum9(r, n, i, j) / 9.0;
        var r1 := SetCell(r, n, i, j, r[i][j].(position := r[i][j].position.(y := y)));
        SmoothStep(g, r, r1, n, i, j);
        r := r1;
        j := j + 1;
      }
      SweepNextRow(g, r, n, i);
      i := i + 1;
    }
    SweepDone(g, r, n, i);
  }

  /** One write of the sweep keeps the facts about every cell visited before it, and adds the cell itself. */
  lemma SmoothStep(g: Grid, r: Grid, r1: Grid, n: int, i: int, j: int)
    requires IsGrid(g, n) && IsGrid(r, n) && IsGrid(r1, n) && Interior(n, i, j)
    requires Sweep(g, r, n, i, j)
    requires r1[i][j] == r[i][j].(position := r[i][j].position.(y := Sum9(r, n, i, j) / 9.0))
    requires forall a, b :: InGrid(n, a, b) && (a, b) != (i, j) ==> r1[a][b] == r[a][b]
    ensures Sweep(g, r1, n, i, j + 1)
  {
    SmoothStepCells(g, r, r1, n, i, j);
    assert Sum9(r, n, i, j) == SeenSum(g, r1, n, i, j);
    forall a, b | 1 <= a <= n - 2 && 1 <= b <= n - 2 && Before(a, b, i, j + 1)
      ensures r1[a][b].position.y == SeenSum(g, r1, n, a, b) / 9.0
    {
      if (a, b) != (i, j) {
        SeenFrame(g, r, r1, n, a, b, i, j);
        assert r[a][b].position.y == SeenSum(g, r, n, a, b) / 9.0;
      }
    }
  }

  /** One write of the sweep changes only the height of (i, j). */
  lemma SmoothStepCells(g: Grid, r: Grid, r1: Grid, n: int, i: int, j: int)
    requires IsGrid(g, n) && IsGrid(r, n) && IsGrid(r1, n) && Interior(n, i, j)
    requires Sweep(g, r, n, i, j)
    requires r1[i][j] == r[i][j].(position := r[i][j].position.(y := Sum9(r, n, i, j) / 9.0))
    requires forall a, b :: InGrid(n, a, b) && (a, b) != (i, j) ==> r1[a][b] == r[a][b]
    ensures forall a, b :: 0 <= a < n && 0 <= b < n ==>
      && r1[a][b].normal == g[a][b].normal && r1[a][b].colour == g[a][b].colour
      && r1[a][b].position.x == g[a][b].position.x && r1[a][b].position.z == g[a][b].position.z
      && (!(1 <= a <= n - 2 && 1 <= b <= n - 2 && Before(a, b, i, j + 1)) ==> r1[a][b] == g[a][b])
  {
  }

  /** Writing (i, j) does not change what the sweep read at any cell it visited earlier. */
  lemma SeenFrame(g: Grid, r: Grid, r1: Grid, n: int, a: int, b: int, i: int, j: int)
    requires IsGrid(g, n) && IsGrid(r, n) && IsGrid(r1, n) && Interior(n, a, b) && Before(a, b, i, j)
    requires forall a', b' :: InGrid(n, a', b') && (a', b') != (i, j) ==> r1[a'][b'] == r[a'][b']
    ensures SeenSum(g, r1, n, a, b) == SeenSum(g, r, n, a, b)
  {
  }

  /** The end of an interior row is the start of the next one. */
  lemma SweepNextRow(g: Grid, r: Grid, n: int, i: int)
    requires IsGrid(g, n) && IsGrid(r, n) && 1 <= i <= n - 2
    requires Sweep(g, r, n, i, n - 1)
    ensures Sweep(g, r, n, i + 1, 1)
  {
    forall a, b | 1 <= a <= n - 2 && 1 <= b <= n - 2 && Before(a, b, i + 1, 1)
      ensures r[a][b].position.y == SeenSum(g, r, n, a, b) / 9.0
    {
      assert Before(a, b, i, n - 1);
    }
  }

  /** After the last interior row every interior cell has been visited. */
  lemma SweepDone(g: Grid, r: Grid, n: int, i: int)
    requires IsGrid(g, n) && IsGrid(r, n) && 1 <= i && (n >= 2 ==> i == n - 1)
    requires Sweep(g, r, n, i, 1)
    ensures Smoothed(g, r, n)
  {
    forall a, b | 1 <= a <= n - 2 && 1 <= b <= n - 2 && Before(a, b, n - 1, 0)
      ensures r[a][b].position.y == SeenSum(g, r, n, a, b) / 9.0
    {
      assert Before(a, b, i, 1);
    }
  }

  /** A field of equal heights c is left unchanged by the filter: every smoothed height is c. */
  lemma {:induction false} SmoothFlat(g: Grid, r: Grid, n: int, c: real)
    requires IsGrid(g, n) && IsGrid(r, n) && Smoothed(g, r, n)
    requires forall a, b :: 0 <= a < n && 0 <= b < n ==> g[a][b].position.y == c
    ensures forall a, b :: 0 <= a < n && 0 <= b < n ==> r[a][b].position.y == c
  {
    forall a, b | 0 <= a < n && 0 <= b < n
      ensures r[a][b].position.y == c
    {
      if Interior(n, a, b) {
        FlatAt(g, r, n, c, a, b);
      }
    }
  }

  /** SmoothFlat at one interior cell, by induction on the row-major order. */
  lemma {:induction false} FlatAt(g: Grid, r: Grid, n: int, c: real, i: int, j: int)
    requires IsGrid(g, n) && IsGrid(r, n) && Smoothed(g, r, n) && Interior(n, i, j)
    requires forall a, b :: 0 <= a < n && 0 <= b < n ==> g[a][b].position.y == c
    ensures r[i][j].position.y == c
    decreases i, j
  {
    forall a, b | i - 1 <= a <= i + 1 && j - 1 <= b <= j + 1 && Before(a, b, i, j)
      ensures r[a][b].position.y == c
    {
      if Interior(n, a, b) {
        FlatAt(g, r, n, c, a, b);
      }
    }
    assert SeenSum(g, r, n, i, j) == 9.0 * c;
  }
}
