/**
 * Random midpoint displacement (`RMPD`, `RMPD2` and their helpers `MID`,
 * `MID_CTR`, `ASG_HMAP`, `AVG_*`, `RND_MID`, `RND_CTR`).
 *
 * Points are `Vec3` with X the row and Z the column, as in the source.  `RMPD2`
 * recurses on real coordinates; the ghost integers `i0, j0, s` name the square
 * its four corners span (rows i0..i0+s, columns j0..j0+s), and its
 * precondition is that `s` is a power of two, at least 2, which is what makes
 * the source's stopping test `TM.Z - TL.Z == 1` reachable.
 */
module MidpointDisplacement {
  import opened Vectors
  import opened RandomSource
  import opened HeightfieldGrid

  const Roughness: real := 0.85
  const MaxHeight: real := 10.0
  const TScale: real := 0.025

  function Avg2(x: real, y: real): real { (x + y) / 2.0 }
  function Avg3(x: real, y: real, z: real): real { (x + y + z) / 3.0 }
  function Avg4(w: real, x: real, y: real, z: real): real { (w + x + y + z) / 4.0 }

  /** 2^k. */
  function Pow2(k: nat): (r: nat)
    ensures r >= 1
  {
    if k == 0 then 1 else 2 * Pow2(k - 1)
  }

  /** The side of the grid, N - 1, must be a power of two for the recursion to land on every cell. */
  ghost predicate IsPow2(s: int) {
    exists k: nat :: Pow2(k) == s
  }

  /** `RND_MID`: a sign, a random height scaled by TSCALE, plus the mean of three heights. */
  function RndMid(o: Oracle, rng: Rng, x: real, y: real, z: real, range: real): (r: (real, Rng))
    ensures r.1.draws == rng.draws + 3
    ensures var h := RandomHeight(o, Rng(rng.draws + 1), range).0;
      r.0 - Avg3(x, y, z) == h * TScale || r.0 - Avg3(x, y, z) == -(h * TScale)
  {
    var (sg, rng1) := Sign(o, rng);
    var (h, rng2) := RandomHeight(o, rng1, range);
    (sg as real * h * TScale + Avg3(x, y, z), rng2)
  }

  /** `RND_CTR`: a sign and a random height plus the mean of four heights. */
  function RndCtr(o: Oracle, rng: Rng, w: real, x: real, y: real, z: real, range: real): (r: (real, Rng))
    ensures r.1.draws == rng.draws + 3
    ensures var h := RandomHeight(o, Rng(rng.draws + 1), range).0;
      r.0 - Avg4(w, x, y, z) == h || r.0 - Avg4(w, x, y, z) == -h
  {
    var (sg, rng1) := Sign(o, rng);
    var (h, rng2) := RandomHeight(o, rng1, range);
    (sg as real * h + Avg4(w, x, y, z), rng2)
  }

  /** `MID_CTR`: the centre point, at the mean X and Z of the four corners, with a displaced height. */
  function MidCtr(o: Oracle, rng: Rng, a: Vec3, b: Vec3, c: Vec3, d: Vec3, range: real): (r: (Vec3, Rng))
    ensures r.0.x == Avg4(a.x, b.x, c.x, d.x) && r.0.z == Avg4(a.z, b.z, c.z, d.z)
    ensures r.1.draws == rng.draws + 3
    ensures r.0.y == RndCtr(o, rng, a.y, b.y, c.y, d.y, range).0
    ensures var h := RandomHeight(o, Rng(rng.draws + 1), range).0;
      r.0.y - Avg4(a.y, b.y, c.y, d.y) == h || r.0.y - Avg4(a.y, b.y, c.y, d.y) == -h
  {
    var (y, rng1) := RndCtr(o, rng, a.y, b.y, c.y, d.y, range);
    (Vec3(Avg4(a.x, b.x, c.x, d.x), y, Avg4(a.z, b.z, c.z, d.z)), rng1)
  }

  /**
   * `MID`: the midpoint of edge a-b.  A cell whose stored height is not the
   * sentinel 0 keeps that height and no random draw is made (first writer
   * wins); only a stored height of exactly 0 is recomputed.
   */
  function Mid(o: Oracle, g: Grid, n: int, rng: Rng, a: Vec3, b: Vec3, ctr: Vec3, range: real): (r: (Vec3, Rng))
    requires IsGrid(g, n)
    requires InGrid(n, Trunc(Avg2(a.x, b.x)), Trunc(Avg2(a.z, b.z)))
    ensures r.0.x == Avg2(a.x, b.x) && r.0.z == Avg2(a.z, b.z)
    ensures var stored := g[Trunc(r.0.x)][Trunc(r.0.z)].position.y;
      && (stored != 0.0 ==> r.0.y == stored && r.1 == rng)
      && (stored == 0.0 ==> r.1.draws == rng.draws + 3 && r.0.y == RndMid(o, rng, a.y, b.y, ctr.y, range).0)
  {
    var x := Avg2(a.x, b.x);
    var z := Avg2(a.z, b.z);
    if g[Trunc(x)][Trunc(z)].position.y == 0.0 then
      var (y, rng1) := RndMid(o, rng, a.y, b.y, ctr.y, range);
      (Vec3(x, y, z), rng1)
    else
      (Vec3(x, g[Trunc(x)][Trunc(z)].position.y, z), rng)
  }

  /** `ASG_HMAP`: store a point's X, Y and Z in the cell its truncated X and Z name. */
  function Assign(g: Grid, n: int, p: Vec3): (r: Grid)
    requires IsGrid(g, n) && InGrid(n, Trunc(p.x), Trunc(p.z))
    ensures IsGrid(r, n)
    ensures r[Trunc(p.x)][Trunc(p.z)].position == p
    ensures forall a, b :: InGrid(n, a, b) ==> r[a][b].normal == g[a][b].normal && r[a][b].colour == g[a][b].colour
    ensures forall a, b :: InGrid(n, a, b) && (a, b) != (Trunc(p.x), Trunc(p.z)) ==> r[a][b] == g[a][b]
  {
    var i := Trunc(p.x);
    var j := Trunc(p.z);
    SetCell(g, n, i, j, g[i][j].(position := p))
  }

  // ---------------------------------------------------------------------
  // Geometry of one recursive call
  // ---------------------------------------------------------------------

  predicate InSquare(a: int, b: int, i0: int, j0: int, s: int) {
    i0 <= a <= i0 + s && j0 <= b <= j0 + s
  }

  /** The point (i, j) of the lattice, with height y. */
  ghost predicate At(p: Vec3, i: int, j: int) {
    p.x == i as real && p.z == j as real
  }

  /** The four corners span rows i0..i0+s and columns j0..j0+s of an n x n grid, with s = 2^m, m >= 1. */
  ghost predicate Square(n: int, tl: Vec3, tr: Vec3, bl: Vec3, br: Vec3, i0: int, j0: int, s: int) {
    && s >= 2
    && 0 <= i0 && i0 + s < n && 0 <= j0 && j0 + s < n
    && At(tl, i0, j0) && At(tr, i0, j0 + s) && At(bl, i0 + s, j0) && At(br, i0 + s, j0 + s)
  }

  /** The five points of one step, and the generator state after drawing them. */
  datatype Midpoints = Midpoints(ctr: Vec3, lm: Vec3, rm: Vec3, tm: Vec3, bm: Vec3, rng: Rng)

  /** The centre and the left, right, top and bottom edge midpoints, in the source's order. */
  method Midpoints5(o: Oracle, g: Grid, n: int, rng: Rng, tl: Vec3, tr: Vec3, bl: Vec3, br: Vec3,
                    range: real, ghost i0: int, ghost j0: int, ghost s: int, ghost h: int) returns (m: Midpoints)
    requires IsGrid(g, n) && Square(n, tl, tr, bl, br, i0, j0, s) && s == 2 * h
    ensures At(m.ctr, i0 + h, j0 + h) && At(m.lm, i0 + h, j0) && At(m.rm, i0 + h, j0 + s)
      && At(m.tm, i0, j0 + h) && At(m.bm, i0 + s, j0 + h)
    ensures EdgesFirstWriter(g, n, m, i0, j0, h)
    ensures m.ctr.y == RndCtr(o, rng, tl.y, tr.y, bl.y, br.y, range).0
    ensures EdgesFresh(o, g, n, m, rng, tl, tr, bl, br, range, i0, j0, h)
    ensures rng.draws + 3 <= m.rng.draws <= rng.draws + 15
  {
    var (ctr, rng1) := MidCtr(o, rng, tl, tr, bl, br, range);
    TruncOfInt(i0); TruncOfInt(i0 + h); TruncOfInt(i0 + s);
    TruncOfInt(j0); TruncOfInt(j0 + h); TruncOfInt(j0 + s);
    assert Avg2(tl.x, bl.x) == (i0 + h) as real && Avg2(tl.z, bl.z) == j0 as real;
    var (lm, rng2) := Mid(o, g, n, rng1, tl, bl, ctr, range);
    assert rng2 == Rng(rng1.draws + MidCost(g[i0 + h][j0].position.y));
    assert Avg2(tr.x, br.x) == (i0 + h) as real && Avg2(tr.z, br.z) == (j0 + s) as real;
    var (rm, rng3) := Mid(o, g, n, rng2, tr, br, ctr, range);
    assert rng3 == Rng(rng2.draws + MidCost(g[i0 + h][j0 + s].position.y));
    assert Avg2(tl.x, tr.x) == i0 as real && Avg2(tl.z, tr.z) == (j0 + h) as real;
    var (tm, rng4) := Mid(o, g, n, rng3, tl, tr, ctr, range);
    assert rng4 == Rng(rng3.draws + MidCost(g[i0][j0 + h].position.y));
    assert Avg2(bl.x, br.x) == (i0 + s) as real && Avg2(bl.z, br.z) == (j0 + h) as real;
    var (bm, rng5) := Mid(o, g, n, rng4, bl, br, ctr, range);
    assert rng5 == Rng(rng4.draws + MidCost(g[i0 + s][j0 + h].position.y));
    m := Midpoints(ctr, lm, rm, tm, bm, rng5);
  }

  /** The first-writer facts `Midpoints5` gives for the four edge midpoints. */
  ghost predicate EdgesFirstWriter(g: Grid, n: int, m: Midpoints, i0: int, j0: int, h: int)
    requires IsGrid(g, n) && InGrid(n, i0, j0) && InGrid(n, i0 + 2 * h, j0 + 2 * h) && h >= 0
  {
    && (g[i0 + h][j0].position.y != 0.0 ==> m.lm.y == g[i0 + h][j0].position.y)
    && (g[i0 + h][j0 + 2 * h].position.y != 0.0 ==> m.rm.y == g[i0 + h][j0 + 2 * h].position.y)
    && (g[i0][j0 + h].position.y != 0.0 ==> m.tm.y == g[i0][j0 + h].position.y)
    && (g[i0 + 2 * h][j0 + h].position.y != 0.0 ==> m.bm.y == g[i0 + 2 * h][j0 + h].position.y)
  }

  /** The draws `MID` makes for an edge whose stored height is y: three for the sentinel 0, none otherwise. */
  function MidCost(y: real): nat {
    if y == 0.0 then 3 else 0
  }

  /**
   * The fresh-edge facts `Midpoints5` gives: the edges are visited left, right,
   * top, bottom after the centre's three draws, and an edge whose stored height
   * is 0 gets `RND_MID` of its two corners and the centre at the generator state
   * the earlier fresh edges leave.
   */
  ghost predicate EdgesFresh(o: Oracle, g: Grid, n: int, m: Midpoints, rng: Rng, tl: Vec3, tr: Vec3, bl: Vec3, br: Vec3,
                             range: real, i0: int, j0: int, h: int)
    requires IsGrid(g, n) && InGrid(n, i0, j0) && InGrid(n, i0 + 2 * h, j0 + 2 * h) && h >= 0
  {
    var sl := g[i0 + h][j0].position.y;
    var sr := g[i0 + h][j0 + 2 * h].position.y;
    var st := g[i0][j0 + h].position.y;
    var sb := g[i0 + 2 * h][j0 + h].position.y;
    var d1 := rng.draws + 3;
    var d2 := d1 + MidCost(sl);
    var d3 := d2 + MidCost(sr);
    var d4 := d3 + MidCost(st);
    && (sl == 0.0 ==> m.lm.y == RndMid(o, Rng(d1), tl.y, bl.y, m.ctr.y, range).0)
    && (sr == 0.0 ==> m.rm.y == RndMid(o, Rng(d2), tr.y, br.y, m.ctr.y, range).0)
    && (st == 0.0 ==> m.tm.y == RndMid(o, Rng(d3), tl.y, tr.y, m.ctr.y, range).0)
    && (sb == 0.0 ==> m.bm.y == RndMid(o, Rng(d4), bl.y, br.y, m.ctr.y, range).0)
    && m.rng.draws == d4 + MidCost(sb)
  }

  /** One of the nine points a step writes: rows i0, i0+h, i0+s by columns j0, j0+h, j0+s. */
  predicate Is9(a: int, b: int, i0: int, j0: int, s: int, h: int) {
    (a == i0 || a == i0 + h || a == i0 + s) && (b == j0 || b == j0 + h || b == j0 + s)
  }

  /** The first four `ASG_HMAP` calls of a step: the corners. */
  method WriteCorners(g: Grid, n: int, tl: Vec3, tr: Vec3, bl: Vec3, br: Vec3,
                      ghost i0: int, ghost j0: int, ghost s: int) returns (r: Grid)
    requires IsGrid(g, n) && Square(n, tl, tr, bl, br, i0, j0, s)
    ensures IsGrid(r, n)
    ensures && r[i0][j0].position == tl && r[i0][j0 + s].position == tr
      && r[i0 + s][j0].position == bl && r[i0 + s][j0 + s].position == br
    ensures forall a, b :: InGrid(n, a, b) ==> r[a][b].normal == g[a][b].normal && r[a][b].colour == g[a][b].colour
    ensures forall a, b :: InGrid(n, a, b) && !Is9(a, b, i0, j0, s, s) ==> r[a][b] == g[a][b]
  {
    TruncOfInt(i0); TruncOfInt(i0 + s);
    TruncOfInt(j0); TruncOfInt(j0 + s);
    var g1 := Assign(g, n, tl);
    var g2 := Assign(g1, n, tr);
    var g3 := Assign(g2, n, bl);
    r := Assign(g3, n, br);
  }

  /** The last five `ASG_HMAP` calls of a step: the edge midpoints, then the centre. */
  method WriteMids(g: Grid, n: int, m: Midpoints, ghost i0: int, ghost j0: int, ghost s: int, ghost h: int)
    returns (r: Grid)
    requires IsGrid(g, n) && s == 2 * h && h >= 1 && 0 <= i0 && i0 + s < n && 0 <= j0 && j0 + s < n
    requires At(m.ctr, i0 + h, j0 + h) && At(m.lm, i0 + h, j0) && At(m.rm, i0 + h, j0 + s)
      && At(m.tm, i0, j0 + h) && At(m.bm, i0 + s, j0 + h)
    ensures IsGrid(r, n)
    ensures && r[i0 + h][j0].position == m.lm && r[i0 + h][j0 + s].position == m.rm
      && r[i0][j0 + h].position == m.tm && r[i0 + s][j0 + h].position == m.bm
      && r[i0 + h][j0 + h].position == m.ctr
    ensures forall a, b :: InGrid(n, a, b) ==> r[a][b].normal == g[a][b].normal && r[a][b].colour == g[a][b].colour
    ensures forall a, b :: InGrid(n, a, b) && !IsMid(a, b, i0, j0, h) ==> r[a][b] == g[a][b]
  {
    TruncOfInt(i0); TruncOfInt(i0 + h); TruncOfInt(i0 + s);
    TruncOfInt(j0); TruncOfInt(j0 + h); TruncOfInt(j0 + s);
    var g1 := Assign(g, n, m.lm);
    var g2 := Assign(g1, n, m.rm);
    var g3 := Assign(g2, n, m.tm);
    var g4 := Assign(g3, n, m.bm);
    r := Assign(g4, n, m.ctr);
  }

  /** The centre or one of the four edge midpoints of a square of side 2h. */
  predicate IsMid(a: int, b: int, i0: int, j0: int, h: int) {
    (a == i0 + h && (b == j0 || b == j0 + h || b == j0 + 2 * h)) || (b == j0 + h && (a == i0 || a == i0 + 2 * h))
  }

  /** The nine `ASG_HMAP` calls of one step, in the source's order. */
  method Write9(g: Grid, n: int, tl: Vec3, tr: Vec3, bl: Vec3, br: Vec3, m: Midpoints,
                ghost i0: int, ghost j0: int, ghost s: int, ghost h: int) returns (r: Grid)
    requires IsGrid(g, n) && Square(n, tl, tr, bl, br, i0, j0, s) && s == 2 * h
    requires At(m.ctr, i0 + h, j0 + h) && At(m.lm, i0 + h, j0) && At(m.rm, i0 + h, j0 + s)
      && At(m.tm, i0, j0 + h) && At(m.bm, i0 + s, j0 + h)
    ensures IsGrid(r, n)
    ensures && r[i0][j0].position == tl && r[i0][j0 + s].position == tr
      && r[i0 + s][j0].position == bl && r[i0 + s][j0 + s].position == br
      && r[i0 + h][j0].position == m.lm && r[i0 + h][j0 + s].position == m.rm
      && r[i0][j0 + h].position == m.tm && r[i0 + s][j0 + h].position == m.bm
      && r[i0 + h][j0 + h].position == m.ctr
    ensures forall a, b :: InGrid(n, a, b) ==> r[a][b].normal == g[a][b].normal && r[a][b].colour == g[a][b].colour
    ensures forall a, b :: InGrid(n, a, b) && !Is9(a, b, i0, j0, s, h) ==> r[a][b] == g[a][b]
  {
    var g1 := WriteCorners(g, n, tl, tr, bl, br, i0, j0, s);
    r := WriteMids(g1, n, m, i0, j0, s, h);
  }

  /** The nine writes of one step: the nine positions set, nothing else touched. */
  ghost predicate Wrote9(g: Grid, g1: Grid, n: int, tl: Vec3, tr: Vec3, bl: Vec3, br: Vec3, m: Midpoints,
                         i0: int, j0: int, h: int)
    requires IsGrid(g, n) && IsGrid(g1, n) && InGrid(n, i0, j0) && InGrid(n, i0 + 2 * h, j0 + 2 * h) && h >= 0
  {
    && Holds9(g1, n, tl, tr, bl, br, m, i0, j0, h)
    && (forall a, b :: 0 <= a < n && 0 <= b < n ==> g1[a][b].normal == g[a][b].normal && g1[a][b].colour == g[a][b].colour)
    && (forall a, b :: 0 <= a < n && 0 <= b < n && !Is9(a, b, i0, j0, 2 * h, h) ==> g1[a][b] == g[a][b])
  }

  /** The nine points of a step sit where the quadrant calls expect them. */
  ghost predicate Holds9(g: Grid, n: int, tl: Vec3, tr: Vec3, bl: Vec3, br: Vec3, m: Midpoints, i0: int, j0: int, h: int)
    requires IsGrid(g, n) && InGrid(n, i0, j0) && InGrid(n, i0 + 2 * h, j0 + 2 * h) && h >= 0
  {
    && g[i0][j0].position == tl && g[i0][j0 + 2 * h].position == tr
    && g[i0 + 2 * h][j0].position == bl && g[i0 + 2 * h][j0 + 2 * h].position == br
    && g[i0 + h][j0].position == m.lm && g[i0 + h][j0 + 2 * h].position == m.rm
    && g[i0][j0 + h].position == m.tm && g[i0 + 2 * h][j0 + h].position == m.bm
    && g[i0 + h][j0 + h].position == m.ctr
  }

  // ---------------------------------------------------------------------
  // The recursion
  // ---------------------------------------------------------------------

  /** The heightmap together with the state of the random generator. */
  datatype Gen = Gen(grid: Grid, rng: Rng)

  /**
   * The effect of a call on the rectangle of rows i0..i0+rows and columns
   * j0..j0+cols: normals and colours are untouched everywhere, every cell of
   * the rectangle holds X == row and Z == column, and every cell outside it
   * is untouched.
   */
  ghost predicate Confined(g: Grid, r: Grid, n: int, i0: int, j0: int, rows: int, cols: int)
    requires IsGrid(g, n) && IsGrid(r, n)
  {
    forall a, b :: 0 <= a < n && 0 <= b < n ==>
      && r[a][b].normal == g[a][b].normal && r[a][b].colour == g[a][b].colour
      && if i0 <= a <= i0 + rows && j0 <= b <= j0 + cols
         then r[a][b].position.x == a as real && r[a][b].position.z == b as real
         else r[a][b] == g[a][b]
  }

  /** Every height already set (not the sentinel 0) is kept. */
  ghost predicate KeepsSetHeights(g: Grid, r: Grid, n: int)
    requires IsGrid(g, n) && IsGrid(r, n)
  {
    forall a, b :: 0 <= a < n && 0 <= b < n && g[a][b].position.y != 0.0 ==> r[a][b].position.y == g[a][b].position.y
  }

  /** No cell strictly inside the square has been written yet. */
  ghost predicate FreshInside(g: Grid, n: int, i0: int, j0: int, s: int)
    requires IsGrid(g, n)
  {
    forall a, b :: 0 <= a < n && 0 <= b < n && i0 < a < i0 + s && j0 < b < j0 + s ==> g[a][b].position.y == 0.0
  }

  /** No cell strictly inside any of the four quadrants has been written yet. */
  ghost predicate FreshQuadrants(g: Grid, n: int, i0: int, j0: int, h: int)
    requires IsGrid(g, n)
  {
    FreshInside(g, n, i0, j0, h) && FreshInside(g, n, i0, j0 + h, h)
    && FreshInside(g, n, i0 + h, j0, h) && FreshInside(g, n, i0 + h, j0 + h, h)
  }

  /** Each corner cell is either unset or already holds the corner's height. */
  ghost predicate CornersAgree(g: Grid, n: int, tl: Vec3, tr: Vec3, bl: Vec3, br: Vec3, i0: int, j0: int, s: int)
    requires IsGrid(g, n) && InGrid(n, i0, j0) && InGrid(n, i0 + s, j0 + s)
  {
    && (g[i0][j0].position.y == 0.0 || g[i0][j0].position.y == tl.y)
    && (g[i0][j0 + s].position.y == 0.0 || g[i0][j0 + s].position.y == tr.y)
    && (g[i0 + s][j0].position.y == 0.0 || g[i0 + s][j0].position.y == bl.y)
    && (g[i0 + s][j0 + s].position.y == 0.0 || g[i0 + s][j0 + s].position.y == br.y)
  }

  /** After a call, the four corner cells hold the four corner points. */
  ghost predicate CornersHeld(r: Grid, n: int, tl: Vec3, tr: Vec3, bl: Vec3, br: Vec3, i0: int, j0: int, s: int)
    requires IsGrid(r, n) && InGrid(n, i0, j0) && InGrid(n, i0 + s, j0 + s)
  {
    r[i0][j0].position == tl && r[i0][j0 + s].position == tr
    && r[i0 + s][j0].position == bl && r[i0 + s][j0 + s].position == br
  }

  /**
   * Two quadrants side by side: six lattice points on rows i and i+h at
   * columns j0, j0+h and j0+2h, with h = 2^m, m >= 1.
   */
  ghost predicate Beside(n: int, p0: Vec3, p1: Vec3, p2: Vec3, q0: Vec3, q1: Vec3, q2: Vec3,
                         i: int, j0: int, h: int) {
    && h >= 2
    && 0 <= i && i + h < n && 0 <= j0 && j0 + 2 * h < n
    && At(p0, i, j0) && At(p1, i, j0 + h) && At(p2, i, j0 + 2 * h)
    && At(q0, i + h, j0) && At(q1, i + h, j0 + h) && At(q2, i + h, j0 + 2 * h)
  }

  /** The six cells of two side-by-side quadrants hold the six points. */
  ghost predicate Holds6(g: Grid, n: int, p0: Vec3, p1: Vec3, p2: Vec3, q0: Vec3, q1: Vec3, q2: Vec3,
                         i: int, j0: int, h: int)
    requires IsGrid(g, n) && InGrid(n, i, j0) && InGrid(n, i + h, j0 + 2 * h) && h >= 0
  {
    && g[i][j0].position == p0 && g[i][j0 + h].position == p1 && g[i][j0 + 2 * h].position == p2
    && g[i + h][j0].position == q0 && g[i + h][j0 + h].position == q1 && g[i + h][j0 + 2 * h].position == q2
  }

  // ---------------------------------------------------------------------
  // Facts about one step and about the recursive calls
  // ---------------------------------------------------------------------

  /** A step keeps every height already set, given an unset inside and agreeing corners. */
  lemma StepKeeps(n: int, g: Grid, g1: Grid, tl: Vec3, tr: Vec3, bl: Vec3, br: Vec3, m: Midpoints,
                  i0: int, j0: int, h: int)
    requires IsGrid(g, n) && IsGrid(g1, n) && h >= 1
    requires InGrid(n, i0, j0) && InGrid(n, i0 + 2 * h, j0 + 2 * h)
    requires Wrote9(g, g1, n, tl, tr, bl, br, m, i0, j0, h)
    requires EdgesFirstWriter(g, n, m, i0, j0, h)
    ensures FreshInside(g, n, i0, j0, 2 * h) && CornersAgree(g, n, tl, tr, bl, br, i0, j0, 2 * h) ==>
      KeepsSetHeights(g, g1, n)
  {
  }

  /** The insides of the four quadrants are not among the nine points just written. */
  lemma StepFresh(n: int, g: Grid, g1: Grid, i0: int, j0: int, h: int)
    requires IsGrid(g, n) && IsGrid(g1, n) && h >= 1
    requires forall a, b :: InGrid(n, a, b) && !Is9(a, b, i0, j0, 2 * h, h) ==> g1[a][b] == g[a][b]
    ensures FreshInside(g, n, i0, j0, 2 * h) ==> FreshQuadrants(g1, n, i0, j0, h)
  {
  }

  /** The nine writes followed by calls confined to the square are confined to the square. */
  lemma StepConfined(n: int, g: Grid, g1: Grid, c: Grid, tl: Vec3, tr: Vec3, bl: Vec3, br: Vec3, m: Midpoints,
                     i0: int, j0: int, h: int)
    requires IsGrid(g, n) && IsGrid(g1, n) && IsGrid(c, n) && h >= 1
    requires InGrid(n, i0, j0) && InGrid(n, i0 + 2 * h, j0 + 2 * h)
    requires Wrote9(g, g1, n, tl, tr, bl, br, m, i0, j0, h)
    requires Confined(g1, c, n, i0, j0, 2 * h, 2 * h)
    ensures Confined(g, c, n, i0, j0, 2 * h, 2 * h)
  {
  }

  /** Set heights survive two calls when they survive each. */
  lemma KeepsChain(n: int, g: Grid, g1: Grid, c: Grid)
    requires IsGrid(g, n) && IsGrid(g1, n) && IsGrid(c, n)
    requires KeepsSetHeights(g, g1, n) && KeepsSetHeights(g1, c, n)
    ensures KeepsSetHeights(g, c, n)
  {
  }

  /** Calls confined to two squares side by side are together confined to the rectangle they make. */
  lemma ConfinedBeside(n: int, g1: Grid, g2: Grid, g3: Grid, i: int, j0: int, h: int)
    requires IsGrid(g1, n) && IsGrid(g2, n) && IsGrid(g3, n) && h >= 1
    requires Confined(g1, g2, n, i, j0, h, h) && Confined(g2, g3, n, i, j0 + h, h, h)
    ensures Confined(g1, g3, n, i, j0, h, 2 * h)
  {
    forall a: int, b: int | 0 <= a < n && 0 <= b < n
      ensures && g3[a][b].normal == g1[a][b].normal && g3[a][b].colour == g1[a][b].colour
              && if i <= a <= i + h && j0 <= b <= j0 + 2 * h
                 then g3[a][b].position.x == a as real && g3[a][b].position.z == b as real
                 else g3[a][b] == g1[a][b]
    {
      if !(i <= a <= i + h && j0 + h <= b <= j0 + 2 * h) {
        assert g3[a][b] == g2[a][b];
      }
    }
  }

  /** Calls confined to two rectangles one above the other are together confined to the square they make. */
  lemma ConfinedAbove(n: int, g1: Grid, g2: Grid, g3: Grid, i0: int, j0: int, h: int)
    requires IsGrid(g1, n) && IsGrid(g2, n) && IsGrid(g3, n) && h >= 1
    requires Confined(g1, g2, n, i0, j0, h, 2 * h) && Confined(g2, g3, n, i0 + h, j0, h, 2 * h)
    ensures Confined(g1, g3, n, i0, j0, 2 * h, 2 * h)
  {
    forall a: int, b: int | 0 <= a < n && 0 <= b < n
      ensures && g3[a][b].normal == g1[a][b].normal && g3[a][b].colour == g1[a][b].colour
              && if i0 <= a <= i0 + 2 * h && j0 <= b <= j0 + 2 * h
                 then g3[a][b].position.x == a as real && g3[a][b].position.z == b as real
                 else g3[a][b] == g1[a][b]
    {
      if !(i0 + h <= a <= i0 + 2 * h && j0 <= b <= j0 + 2 * h) {
        assert g3[a][b] == g2[a][b];
      }
    }
  }

  /** A call confined to a rectangle T keeps the inside of any square S whose inside misses T unset. */
  lemma FreshAfterConfined(n: int, ga: Grid, gb: Grid, i0: int, j0: int, s: int,
                           ti: int, tj: int, rows: int, cols: int)
    requires IsGrid(ga, n) && IsGrid(gb, n)
    requires Confined(ga, gb, n, ti, tj, rows, cols) && FreshInside(ga, n, i0, j0, s)
    requires i0 + s <= ti || ti + rows <= i0 || j0 + s <= tj || tj + cols <= j0
    ensures FreshInside(gb, n, i0, j0, s)
  {
  }

  /** The facts about two side-by-side quadrant calls add up to the facts about the pair. */
  lemma BesideCompose(n: int, g1: Grid, g2: Grid, g3: Grid, p0: Vec3, p1: Vec3, p2: Vec3,
                      q0: Vec3, q1: Vec3, q2: Vec3, i: int, j0: int, h: int)
    requires IsGrid(g1, n) && IsGrid(g2, n) && IsGrid(g3, n)
    requires h >= 1 && 0 <= i && i + h < n && 0 <= j0 && j0 + 2 * h < n
    requires Holds6(g1, n, p0, p1, p2, q0, q1, q2, i, j0, h)
    requires Confined(g1, g2, n, i, j0, h, h) && CornersHeld(g2, n, p0, p1, q0, q1, i, j0, h)
    requires FreshInside(g1, n, i, j0, h) && CornersAgree(g1, n, p0, p1, q0, q1, i, j0, h) ==>
      KeepsSetHeights(g1, g2, n)
    requires Confined(g2, g3, n, i, j0 + h, h, h) && CornersHeld(g3, n, p1, p2, q1, q2, i, j0 + h, h)
    requires FreshInside(g2, n, i, j0 + h, h) && CornersAgree(g2, n, p1, p2, q1, q2, i, j0 + h, h) ==>
      KeepsSetHeights(g2, g3, n)
    ensures Confined(g1, g3, n, i, j0, h, 2 * h)
    ensures Holds6(g3, n, p0, p1, p2, q0, q1, q2, i, j0, h)
    ensures FreshInside(g1, n, i, j0, h) && FreshInside(g1, n, i, j0 + h, h) ==> KeepsSetHeights(g1, g3, n)
  {
    ConfinedBeside(n, g1, g2, g3, i, j0, h);
    if FreshInside(g1, n, i, j0, h) && FreshInside(g1, n, i, j0 + h, h) {
      assert CornersAgree(g1, n, p0, p1, q0, q1, i, j0, h);
      FreshAfterConfined(n, g1, g2, i, j0 + h, h, i, j0, h, h);
      assert CornersAgree(g2, n, p1, p2, q1, q2, i, j0 + h, h);
      KeepsChain(n, g1, g2, g3);
    }
  }

  /** The facts about the top and bottom pairs of quadrant calls add up to the facts about the square. */
  lemma QuadrantsCompose(n: int, g1: Grid, g2: Grid, g3: Grid,
                         tl: Vec3, tr: Vec3, bl: Vec3, br: Vec3, m: Midpoints, i0: int, j0: int, h: int)
    requires IsGrid(g1, n) && IsGrid(g2, n) && IsGrid(g3, n)
    requires h >= 1 && 0 <= i0 && i0 + 2 * h < n && 0 <= j0 && j0 + 2 * h < n
    requires Holds9(g1, n, tl, tr, bl, br, m, i0, j0, h)
    requires Confined(g1, g2, n, i0, j0, h, 2 * h) && Holds6(g2, n, tl, m.tm, tr, m.lm, m.ctr, m.rm, i0, j0, h)
    requires FreshInside(g1, n, i0, j0, h) && FreshInside(g1, n, i0, j0 + h, h) ==> KeepsSetHeights(g1, g2, n)
    requires Confined(g2, g3, n, i0 + h, j0, h, 2 * h) && Holds6(g3, n, m.lm, m.ctr, m.rm, bl, m.bm, br, i0 + h, j0, h)
    requires FreshInside(g2, n, i0 + h, j0, h) && FreshInside(g2, n, i0 + h, j0 + h, h) ==> KeepsSetHeights(g2, g3, n)
    ensures Confined(g1, g3, n, i0, j0, 2 * h, 2 * h)
    ensures CornersHeld(g3, n, tl, tr, bl, br, i0, j0, 2 * h)
    ensures FreshQuadrants(g1, n, i0, j0, h) ==> KeepsSetHeights(g1, g3, n)
  {
    ConfinedAbove(n, g1, g2, g3, i0, j0, h);
    if FreshQuadrants(g1, n, i0, j0, h) {
      FreshAfterConfined(n, g1, g2, i0 + h, j0, h, i0, j0, h, 2 * h);
      FreshAfterConfined(n, g1, g2, i0 + h, j0 + h, h, i0, j0, h, 2 * h);
      KeepsChain(n, g1, g2, g3);
    }
  }

  /** After the top pair, the bottom pair's six cells hold its six points. */
  lemma BelowHeld(n: int, g1: Grid, g2: Grid, tl: Vec3, tr: Vec3, bl: Vec3, br: Vec3, m: Midpoints,
                  i0: int, j0: int, h: int)
    requires IsGrid(g1, n) && IsGrid(g2, n)
    requires h >= 1 && 0 <= i0 && i0 + 2 * h < n && 0 <= j0 && j0 + 2 * h < n
    requires Holds9(g1, n, tl, tr, bl, br, m, i0, j0, h)
    requires Confined(g1, g2, n, i0, j0, h, 2 * h) && Holds6(g2, n, tl, m.tm, tr, m.lm, m.ctr, m.rm, i0, j0, h)
    ensures Holds6(g2, n, m.lm, m.ctr, m.rm, bl, m.bm, br, i0 + h, j0, h)
  {
  }

  /** A step that recurses: the nine writes followed by the quadrant calls. */
  lemma StepThen(n: int, g: Grid, g1: Grid, c: Grid, tl: Vec3, tr: Vec3, bl: Vec3, br: Vec3, m: Midpoints,
                 i0: int, j0: int, h: int)
    requires IsGrid(g, n) && IsGrid(g1, n) && IsGrid(c, n)
    requires h >= 1 && InGrid(n, i0, j0) && InGrid(n, i0 + 2 * h, j0 + 2 * h)
    requires Wrote9(g, g1, n, tl, tr, bl, br, m, i0, j0, h) && EdgesFirstWriter(g, n, m, i0, j0, h)
    requires Confined(g1, c, n, i0, j0, 2 * h, 2 * h)
    requires FreshQuadrants(g1, n, i0, j0, h) ==> KeepsSetHeights(g1, c, n)
    ensures Confined(g, c, n, i0, j0, 2 * h, 2 * h)
    ensures FreshInside(g, n, i0, j0, 2 * h) && CornersAgree(g, n, tl, tr, bl, br, i0, j0, 2 * h) ==>
      KeepsSetHeights(g, c, n)
  {
    StepConfined(n, g, g1, c, tl, tr, bl, br, m, i0, j0, h);
    StepKeeps(n, g, g1, tl, tr, bl, br, m, i0, j0, h);
    StepFresh(n, g, g1, i0, j0, h);
    if FreshInside(g, n, i0, j0, 2 * h) && CornersAgree(g, n, tl, tr, bl, br, i0, j0, 2 * h) {
      KeepsChain(n, g, g1, c);
    }
  }

  /** A step on a 2 x 2 square: the nine writes are the whole call. */
  lemma StepBase(n: int, g: Grid, g1: Grid, tl: Vec3, tr: Vec3, bl: Vec3, br: Vec3, m: Midpoints,
                 i0: int, j0: int)
    requires IsGrid(g, n) && IsGrid(g1, n) && Square(n, tl, tr, bl, br, i0, j0, 2)
    requires At(m.ctr, i0 + 1, j0 + 1) && At(m.lm, i0 + 1, j0) && At(m.rm, i0 + 1, j0 + 2)
      && At(m.tm, i0, j0 + 1) && At(m.bm, i0 + 2, j0 + 1)
    requires Wrote9(g, g1, n, tl, tr, bl, br, m, i0, j0, 1) && EdgesFirstWriter(g, n, m, i0, j0, 1)
    ensures Confined(g, g1, n, i0, j0, 2, 2)
    ensures CornersHeld(g1, n, tl, tr, bl, br, i0, j0, 2)
    ensures FreshInside(g, n, i0, j0, 2) && CornersAgree(g, n, tl, tr, bl, br, i0, j0, 2) ==>
      KeepsSetHeights(g, g1, n)
  {
    StepKeeps(n, g, g1, tl, tr, bl, br, m, i0, j0, 1);
  }

  /** A side 2^m with m >= 1 is twice a half side 2^(m-1). */
  lemma Halve(s: int, k: nat) returns (h: int)
    requires s >= 2 && s == Pow2(k)
    ensures k >= 1 && s == 2 * h && h == Pow2(k - 1)
  {
    h := Pow2(k - 1);
  }

  /** The top midpoint sits one column from the corner exactly when the square is 2 x 2. */
  lemma HalfStep(h: int, tl: Vec3, tm: Vec3, i0: int, j0: int)
    requires h >= 1
    requires At(tl, i0, j0) && At(tm, i0, j0 + h)
    ensures tm.z - tl.z != 1.0 ==> h >= 2
    ensures tm.z - tl.z == 1.0 ==> h == 1
  {
  }

  /**
   * `RMPD2`: displace the centre and edge midpoints of the square, write the
   * nine points, shrink the range by 2^-ROUGHNESS and recurse into the four
   * quadrants until the half side is 1.  Every write stays in the grid, every
   * cell of the square ends at its own lattice X and Z, nothing outside the
   * square changes, and on a square whose inside is still unset every height
   * that was already set survives: shared edges are written by the first
   * quadrant that reaches them.
   */
  method Rmpd2(o: Oracle, n: int, st: Gen, tl: Vec3, tr: Vec3, bl: Vec3, br: Vec3, range: real,
               ghost i0: int, ghost j0: int, ghost s: int, ghost k: nat) returns (r: Gen)
    requires IsGrid(st.grid, n) && Square(n, tl, tr, bl, br, i0, j0, s) && s == Pow2(k)
    ensures IsGrid(r.grid, n)
    ensures Confined(st.grid, r.grid, n, i0, j0, s, s)
    ensures CornersHeld(r.grid, n, tl, tr, bl, br, i0, j0, s)
    ensures FreshInside(st.grid, n, i0, j0, s) && CornersAgree(st.grid, n, tl, tr, bl, br, i0, j0, s) ==>
      KeepsSetHeights(st.grid, r.grid, n)
    ensures r.rng.draws >= st.rng.draws + 3
    decreases k, 3
  {
    ghost var h := Halve(s, k);
    var m := Midpoints5(o, st.grid, n, st.rng, tl, tr, bl, br, range, i0, j0, s, h);
    r := WriteAndRecurse(o, n, st.grid, tl, tr, bl, br, m, range, i0, j0, h, k);
  }

  /**
   * The rest of one `RMPD2` call once the five points are drawn: write the
   * nine points, shrink the range and recurse into the quadrants unless the
   * half side is 1.
   */
  method WriteAndRecurse(o: Oracle, n: int, g: Grid, tl: Vec3, tr: Vec3, bl: Vec3, br: Vec3, m: Midpoints,
                         range: real, ghost i0: int, ghost j0: int, ghost h: int, ghost k: nat) returns (r: Gen)
    requires IsGrid(g, n) && Square(n, tl, tr, bl, br, i0, j0, 2 * h) && k >= 1 && h == Pow2(k - 1)
    requires At(m.ctr, i0 + h, j0 + h) && At(m.lm, i0 + h, j0) && At(m.rm, i0 + h, j0 + 2 * h)
      && At(m.tm, i0, j0 + h) && At(m.bm, i0 + 2 * h, j0 + h)
    requires EdgesFirstWriter(g, n, m, i0, j0, h)
    ensures IsGrid(r.grid, n)
    ensures Confined(g, r.grid, n, i0, j0, 2 * h, 2 * h)
    ensures CornersHeld(r.grid, n, tl, tr, bl, br, i0, j0, 2 * h)
    ensures FreshInside(g, n, i0, j0, 2 * h) && CornersAgree(g, n, tl, tr, bl, br, i0, j0, 2 * h) ==>
      KeepsSetHeights(g, r.grid, n)
    ensures r.rng.draws >= m.rng.draws
    decreases k, 2
  {
    var g1 := Write9(g, n, tl, tr, bl, br, m, i0, j0, 2 * h, h);
    var range2 := o.power(2.0, -Roughness) * range;
    HalfStep(h, tl, m.tm, i0, j0);
    if m.tm.z - tl.z != 1.0 {
      r := Quadrants(o, n, Gen(g1, m.rng), tl, tr, bl, br, m, range2, i0, j0, h, k - 1);
      StepThen(n, g, g1, r.grid, tl, tr, bl, br, m, i0, j0, h);
    } else {
      StepBase(n, g, g1, tl, tr, bl, br, m, i0, j0);
      r := Gen(g1, m.rng);
    }
  }

  /** The four recursive calls of `RMPD2`, in the source's order: top left, top right, bottom left, bottom right. */
  method Quadrants(o: Oracle, n: int, st: Gen, tl: Vec3, tr: Vec3, bl: Vec3, br: Vec3, m: Midpoints,
                   range: real, ghost i0: int, ghost j0: int, ghost h: int, ghost k: nat) returns (r: Gen)
    requires IsGrid(st.grid, n) && h >= 2 && h == Pow2(k) && Square(n, tl, tr, bl, br, i0, j0, 2 * h)
    requires At(m.ctr, i0 + h, j0 + h) && At(m.lm, i0 + h, j0) && At(m.rm, i0 + h, j0 + 2 * h)
      && At(m.tm, i0, j0 + h) && At(m.bm, i0 + 2 * h, j0 + h)
    requires Holds9(st.grid, n, tl, tr, bl, br, m, i0, j0, h)
    ensures IsGrid(r.grid, n)
    ensures Confined(st.grid, r.grid, n, i0, j0, 2 * h, 2 * h)
    ensures CornersHeld(r.grid, n, tl, tr, bl, br, i0, j0, 2 * h)
    ensures FreshQuadrants(st.grid, n, i0, j0, h) ==> KeepsSetHeights(st.grid, r.grid, n)
    ensures r.rng.draws >= st.rng.draws + 12
    decreases k + 1, 1
  {
    var top := Pair(o, n, st, tl, m.tm, tr, m.lm, m.ctr, m.rm, range, i0, j0, h, k);
    BelowHeld(n, st.grid, top.grid, tl, tr, bl, br, m, i0, j0, h);
    var bottom := Pair(o, n, top, m.lm, m.ctr, m.rm, bl, m.bm, br, range, i0 + h, j0, h, k);
    QuadrantsCompose(n, st.grid, top.grid, bottom.grid, tl, tr, bl, br, m, i0, j0, h);
    r := bottom;
  }

  /** Two side-by-side recursive calls of `RMPD2`: the left quadrant, then the right. */
  method Pair(o: Oracle, n: int, st: Gen, p0: Vec3, p1: Vec3, p2: Vec3, q0: Vec3, q1: Vec3, q2: Vec3,
              range: real, ghost i: int, ghost j0: int, ghost h: int, ghost k: nat) returns (r: Gen)
    requires IsGrid(st.grid, n) && Beside(n, p0, p1, p2, q0, q1, q2, i, j0, h) && h == Pow2(k)
    requires Holds6(st.grid, n, p0, p1, p2, q0, q1, q2, i, j0, h)
    ensures IsGrid(r.grid, n)
    ensures Confined(st.grid, r.grid, n, i, j0, h, 2 * h)
    ensures Holds6(r.grid, n, p0, p1, p2, q0, q1, q2, i, j0, h)
    ensures FreshInside(st.grid, n, i, j0, h) && FreshInside(st.grid, n, i, j0 + h, h) ==>
      KeepsSetHeights(st.grid, r.grid, n)
    ensures r.rng.draws >= st.rng.draws + 6
    decreases k + 1, 0
  {
    var left := Rmpd2(o, n, st, p0, p1, q0, q1, range, i, j0, h, k);
    var right := Rmpd2(o, n, left, p1, p2, q1, q2, range, i, j0 + h, h, k);
    BesideCompose(n, st.grid, left.grid, right.grid, p0, p1, p2, q0, q1, q2, i, j0, h);
    r := right;
  }

  /**
   * `RMPD`: draw the corner heights with range MAXHEIGHT in the order top
   * left, top right, bottom left, bottom right, then run `RMPD2` on the whole
   * grid.  Every cell ends at its lattice point, normals and colours are
   * untouched, and the corners keep the heights drawn for them.
   */
  method Rmpd(o: Oracle, g: Grid, n: int, rng: Rng) returns (r: Gen)
    requires IsGrid(g, n) && n >= 3 && IsPow2(n - 1)
    ensures IsGrid(r.grid, n) && IsLattice(r.grid, n)
    ensures forall i, j :: 0 <= i < n && 0 <= j < n ==>
      r.grid[i][j].normal == g[i][j].normal && r.grid[i][j].colour == g[i][j].colour
    ensures r.grid[0][0].position.y == RandomHeight(o, rng, MaxHeight).0
    ensures r.grid[0][n - 1].position.y == RandomHeight(o, Rng(rng.draws + 2), MaxHeight).0
    ensures r.grid[n - 1][0].position.y == RandomHeight(o, Rng(rng.draws + 4), MaxHeight).0
    ensures r.grid[n - 1][n - 1].position.y == RandomHeight(o, Rng(rng.draws + 6), MaxHeight).0
    ensures r.rng.draws >= rng.draws + 11
  {
    var (y0, rng1) := RandomHeight(o, rng, MaxHeight);
    var (y1, rng2) := RandomHeight(o, rng1, MaxHeight);
    var (y2, rng3) := RandomHeight(o, rng2, MaxHeight);
    var (y3, rng4) := RandomHeight(o, rng3, MaxHeight);
    var last := (n - 1) as real;
    var tl := Vec3(0.0, y0, 0.0);
    var tr := Vec3(0.0, y1, last);
    var bl := Vec3(last, y2, 0.0);
    var br := Vec3(last, y3, last);
    ghost var k: nat :| Pow2(k) == n - 1;
    r := Rmpd2(o, n, Gen(g, rng4), tl, tr, bl, br, MaxHeight, 0, 0, n - 1, k);
  }
}
