/**
 * The `TerrainEngine` constructor: allocate a 129 x 129 grey lattice, displace
 * it by random midpoint displacement, overlay noise, translate it to the
 * origin and compute face and vertex normals.  Smoothing is switched off in
 * the constructor, so the pipeline does not call it.
 */
module TerrainEngine {
  import opened Wrappers
  import opened Vectors
  import opened RandomSource
  import opened HeightfieldGrid
  import opened MidpointDisplacement
  import opened GridPasses
  import opened NormalEstimator

  /** `TERRAIN_SIZE`, returned by `getTerrainSize`. */
  const TerrainSize: nat := 129

  /** The side minus one is 2^7, so the recursion covers the whole grid. */
  lemma TerrainSizeFits()
    ensures TerrainSize >= 3 && Pow2(7) == TerrainSize - 1 && IsPow2(TerrainSize - 1)
  {
    assert Pow2(1) == 2 && Pow2(2) == 4 && Pow2(3) == 8;
    assert Pow2(4) == 16 && Pow2(5) == 32 && Pow2(6) == 64;
  }

  /** One heightmap cell as it ends up: its X and Z still differ by i - j, its colour is the initial grey. */
  ghost predicate Placed(g: Grid, n: int)
    requires IsGrid(g, n)
  {
    forall i, j :: 0 <= i < n && 0 <= j < n ==>
      g[i][j].position.x - g[i][j].position.z == (i - j) as real && g[i][j].colour == Grey
  }

  /**
   * What the displacement, noise and translation passes leave in cell (i, j)
   * of a displaced lattice d: the noise offset h, computed from the indices
   * and the displaced height, is added to X, Y and Z, and the centring offset
   * is taken off X and Z; the normal is still zero and the colour grey.
   */
  ghost predicate Translated(o: Oracle, d: Grid, g: Grid, n: int)
    requires IsGrid(d, n) && IsGrid(g, n)
  {
    forall i, j :: 0 <= i < n && 0 <= j < n ==>
      var p := d[i][j].position;
      var h := NoiseOffset(o, i, j, p.y);
      var c := CentreOffset(n) as real;
      g[i][j] == Cell(Vec3(p.x + h - c, p.y + h, p.z + h - c), Zero3, Grey)
  }

  /**
   * The displaced lattice `RMPD` leaves, starting from draw 0: every cell at
   * its lattice X and Z, the corners holding the first four random heights
   * in the order TL, TR, BL, BR, with zero normals and grey colours.
   */
  ghost predicate Displaced(o: Oracle, d: Grid, n: int)
    requires IsGrid(d, n) && n >= 1
  {
    && IsLattice(d, n)
    && d[0][0].position.y == RandomHeight(o, Rng(0), MaxHeight).0
    && d[0][n - 1].position.y == RandomHeight(o, Rng(2), MaxHeight).0
    && d[n - 1][0].position.y == RandomHeight(o, Rng(4), MaxHeight).0
    && d[n - 1][n - 1].position.y == RandomHeight(o, Rng(6), MaxHeight).0
    && forall i, j :: 0 <= i < n && 0 <= j < n ==> d[i][j].normal == Zero3 && d[i][j].colour == Grey
  }

  /**
   * The 3 x 3 filter applied to the face normals f: interior cells take the
   * mean of the nine face normals around them, border cells keep f's.
   */
  ghost predicate Filtered(f: Grid, r: Grid, n: int)
    requires IsGrid(f, n) && IsGrid(r, n)
  {
    forall i, j :: 0 <= i < n && 0 <= j < n ==>
      if 1 <= i <= n - 2 && 1 <= j <= n - 2 then r[i][j] == f[i][j].(normal := Mean9(f, n, i, j))
      else r[i][j] == f[i][j]
  }

  /**
   * The constructor.  The ghost grids name the intermediate heightmaps:
   * `displaced` is what midpoint displacement leaves, `placed` what the
   * noise and the translation make of it.  The source never checks the
   * normalisation in `calculateNormal`; where it would divide by a zero
   * magnitude the model fails with the degenerate face instead.  Otherwise
   * the result holds `placed`'s cells with `setNormals`' face normals run
   * through the 3 x 3 filter, and, because `calculateV` drops the X
   * difference, every normal has X = Y = 0.
   */
  method Generate(o: Oracle) returns (r: Result<Grid, NormalError>, ghost displaced: Grid, ghost placed: Grid)
    ensures IsGrid(displaced, TerrainSize) && Displaced(o, displaced, TerrainSize)
    ensures IsGrid(placed, TerrainSize) && Translated(o, displaced, placed, TerrainSize) && Placed(placed, TerrainSize)
    ensures r.Failure? <==> Degenerate(o, placed, TerrainSize)
    ensures r.Success? <==> SetNormals(o, placed, TerrainSize).Success?
    ensures r.Success? ==> IsGrid(r.value, TerrainSize) && Placed(r.value, TerrainSize) && OnZAxis(r.value, TerrainSize)
    ensures r.Success? ==> IsGrid(r.value, TerrainSize) && Filtered(SetNormals(o, placed, TerrainSize).value, r.value, TerrainSize)
    ensures r.Success? ==> forall i, j :: 0 <= i < TerrainSize && 0 <= j < TerrainSize ==>
      r.value[i][j].position == placed[i][j].position
  {
    TerrainSizeFits();
    r, displaced, placed := Pipeline(o, TerrainSize);
  }

  /** The constructor's passes on any side N with N - 1 a power of two. */
  method Pipeline(o: Oracle, n: int) returns (r: Result<Grid, NormalError>, ghost displaced: Grid, ghost placed: Grid)
    requires n >= 3 && IsPow2(n - 1)
    ensures IsGrid(displaced, n) && Displaced(o, displaced, n)
    ensures IsGrid(placed, n) && Translated(o, displaced, placed, n) && Placed(placed, n)
    ensures r.Failure? <==> Degenerate(o, placed, n)
    ensures r.Success? <==> SetNormals(o, placed, n).Success?
    ensures r.Success? ==> IsGrid(r.value, n) && Placed(r.value, n) && OnZAxis(r.value, n)
    ensures r.Success? ==> IsGrid(r.value, n) && Filtered(SetNormals(o, placed, n).value, r.value, n)
    ensures r.Success? ==> forall i, j :: 0 <= i < n && 0 <= j < n ==>
      r.value[i][j].position == placed[i][j].position
  {
    var g0 := InitialGrid(n);
    var st := Rmpd(o, g0, n, Rng(0));
    displaced := st.grid;
    LatticePlaced(g0, st.grid, n);
    var g1 := NoiseOverlay(o, st.grid, n);
    NoisePlaced(st.grid, g1, n);
    var g2 := Tto(g1, n);
    TtoPlaced(g1, g2, n);
    placed := g2;
    TranslatedCells(o, st.grid, g1, g2, n);
    var faces := SetNormals(o, g2, n);
    if faces.Failure? {
      r := Failure(faces.error);
      return;
    }
    var g3 := VertexNormals(faces.value, n);
    NormalsPlaced(g2, faces.value, g3, n);
    SetNormalsOnZAxis(o, g2, n);
    VertexNormalsOnZAxis(faces.value, g3, n);
    r := Success(g3);
  }

  /** The noise and the translation, composed cell by cell. */
  lemma TranslatedCells(o: Oracle, d: Grid, g1: Grid, g2: Grid, n: int)
    requires IsGrid(d, n) && IsGrid(g1, n) && IsGrid(g2, n) && n >= 1
    requires forall i, j :: 0 <= i < n && 0 <= j < n ==> d[i][j].normal == Zero3 && d[i][j].colour == Grey
    requires forall i, j :: 0 <= i < n && 0 <= j < n ==>
      var p := d[i][j].position;
      var h := NoiseOffset(o, i, j, p.y);
      && g1[i][j].position.x - p.x == h && g1[i][j].position.y - p.y == h && g1[i][j].position.z - p.z == h
      && g1[i][j].normal == d[i][j].normal && g1[i][j].colour == d[i][j].colour
    requires forall i, j :: 0 <= i < n && 0 <= j < n ==>
      && g1[i][j].position.x - g2[i][j].position.x == CentreOffset(n) as real
      && g1[i][j].position.z - g2[i][j].position.z == CentreOffset(n) as real
      && g2[i][j].position.y == g1[i][j].position.y
      && g2[i][j].normal == g1[i][j].normal && g2[i][j].colour == g1[i][j].colour
    ensures Translated(o, d, g2, n)
    ensures OnZAxis(g2, n)
  {
  }

  /** Midpoint displacement leaves a lattice that kept the initial colours. */
  lemma LatticePlaced(g0: Grid, g: Grid, n: int)
    requires IsGrid(g0, n) && IsGrid(g, n) && IsLattice(g, n)
    requires forall i, j :: InGrid(n, i, j) ==> g0[i][j].colour == Grey
    requires forall i, j :: 0 <= i < n && 0 <= j < n ==> g[i][j].colour == g0[i][j].colour
    ensures Placed(g, n)
  {
    forall i, j | 0 <= i < n && 0 <= j < n
      ensures g[i][j].position.x - g[i][j].position.z == (i - j) as real && g[i][j].colour == Grey
    {
      assert InGrid(n, i, j);
    }
  }

  /** Adding the same offset to X and Z keeps X - Z. */
  lemma NoisePlaced(g: Grid, r: Grid, n: int)
    requires IsGrid(g, n) && IsGrid(r, n) && Placed(g, n)
    requires forall i, j :: 0 <= i < n && 0 <= j < n ==>
      r[i][j].position.x - r[i][j].position.z == g[i][j].position.x - g[i][j].position.z
      && r[i][j].colour == g[i][j].colour
    ensures Placed(r, n)
  {
  }

  /** Subtracting the same offset from X and Z keeps X - Z. */
  lemma TtoPlaced(g: Grid, r: Grid, n: int)
    requires IsGrid(g, n) && IsGrid(r, n) && Placed(g, n)
    requires forall i, j :: 0 <= i < n && 0 <= j < n ==>
      && g[i][j].position.x - r[i][j].position.x == CentreOffset(n) as real
      && g[i][j].position.z - r[i][j].position.z == CentreOffset(n) as real
      && r[i][j].colour == g[i][j].colour
    ensures Placed(r, n)
  {
  }

  /** Neither normal pass moves a cell or recolours it. */
  lemma NormalsPlaced(g: Grid, f: Grid, r: Grid, n: int)
    requires IsGrid(g, n) && IsGrid(f, n) && IsGrid(r, n) && Placed(g, n) && SamePlaces(g, f, n)
    requires forall i, j :: 0 <= i < n && 0 <= j < n ==>
      if 1 <= i <= n - 2 && 1 <= j <= n - 2 then r[i][j] == f[i][j].(normal := Mean9(f, n, i, j))
      else r[i][j] == f[i][j]
    ensures Placed(r, n)
    ensures forall i, j :: 0 <= i < n && 0 <= j < n ==> r[i][j].position == g[i][j].position
  {
  }
}
