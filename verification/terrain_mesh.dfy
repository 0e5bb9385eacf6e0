/**
 * The mesh `Terrain.Initialise` builds from the heightmap: a flat vertex
 * array indexed w * i + j with running bounds, and a triangle list of six
 * vertices per grid quad.  Also `getMin`/`getMax` and the ground clamp of
 * `Terrain.Update`, which lifts the camera above the terrain.
 */
module TerrainMesh {
  import opened Vectors
  import opened HeightfieldGrid

  // ---------------------------------------------------------------------
  // getMin / getMax
  // ---------------------------------------------------------------------

  /** `getMin`: the smaller of the two, `prevMin` on a tie. */
  function GetMin(value: real, prevMin: real): (r: real)
    ensures r <= value && r <= prevMin
    ensures r == value || r == prevMin
  {
    if value < prevMin then value else prevMin
  }

  /** `getMax`: the larger of the two, `prevMax` on a tie. */
  function GetMax(value: real, prevMax: real): (r: real)
    ensures r >= value && r >= prevMax
    ensures r == value || r == prevMax
  {
    if value > prevMax then value else prevMax
  }

  /** On a tie both keep the previous bound; otherwise the new value wins exactly when it is beyond it. */
  lemma GetMinMaxTies(value: real, prev: real)
    ensures GetMin(value, prev) == value <==> value <= prev
    ensures GetMax(value, prev) == value <==> value >= prev
    ensures GetMin(value, prev) == -GetMax(-value, -prev)
  {
  }

  // ---------------------------------------------------------------------
  // Index arithmetic
  // ---------------------------------------------------------------------

  /** Where cell (i, j) goes in the flat array. */
  function Flat(w: int, i: int, j: int): int { w * i + j }

  lemma MulMono(a: int, b: int, c: int)
    requires 0 <= a && b <= c
    ensures a * b <= a * c
  {
    assert a * c - a * b == a * (c - b);
  }

  /** Every cell of a w x w grid has a place in the w * w array. */
  lemma FlatInRange(w: int, i: int, j: int)
    requires 0 <= i < w && 0 <= j < w
    ensures 0 <= Flat(w, i, j) < w * w
  {
    MulMono(w, 0, i);
    MulMono(w, i + 1, w);
    assert w * (i + 1) == w * i + w;
  }

  /** A cell in an earlier row has an earlier place. */
  lemma FlatRowOrder(w: int, i: int, j: int, a: int, b: int)
    requires 0 <= i < w && 0 <= j < w && 0 <= a < w && 0 <= b < w
    ensures i < a ==> Flat(w, i, j) < Flat(w, a, b)
  {
    if i < a {
      MulMono(w, i + 1, a);
      assert w * (i + 1) == w * i + w;
    }
  }

  /** Distinct cells have distinct places. */
  lemma FlatInjective(w: int, i: int, j: int, a: int, b: int)
    requires 0 <= i < w && 0 <= j < w && 0 <= a < w && 0 <= b < w
    ensures Flat(w, i, j) == Flat(w, a, b) ==> i == a && j == b
  {
    FlatRowOrder(w, i, j, a, b);
    FlatRowOrder(w, a, b, i, j);
  }

  /** Vertex (i, j) of a w x w array. */
  function VertexAt(vt: seq<Vertex>, w: int, i: int, j: int): Vertex
    requires |vt| == w * w && 0 <= i < w && 0 <= j < w
  {
    FlatInRange(w, i, j);
    vt[Flat(w, i, j)]
  }

  // ---------------------------------------------------------------------
  // The vertex array and its bounds
  // ---------------------------------------------------------------------

  /** The colour and texture coordinate every terrain vertex is given. */
  const VertexColour: Vec4 := Vec4(0.13, 0.5, 0.2, 1.0)
  const VertexUV: Vec2 := Vec2(0.5, 0.5)

  /** The bounds start at these sentinels. */
  const MinSentinel: Vec3 := Vec3(1000.0, 1000.0, 1000.0)
  const MaxSentinel: Vec3 := Vec3(-1000.0, -1000.0, -1000.0)

  /** Cell c as a vertex: position and normal with w = 1. */
  function TerrainVertex(c: Cell): (v: Vertex)
    ensures v.position == Point4(c.position) && v.normal == Point4(c.normal)
  {
    Vertex(Point4(c.position), Point4(c.normal), VertexUV, VertexColour)
  }

  /** Componentwise a <= b. */
  predicate Below(a: Vec3, b: Vec3) {
    a.x <= b.x && a.y <= b.y && a.z <= b.z
  }

  /** Each component of v is the sentinel's or that of some cell visited before (i, j). */
  ghost predicate Witnessed(v: Vec3, sentinel: Vec3, g: Grid, w: int, i: int, j: int)
    requires IsGrid(g, w)
  {
    && (v.x == sentinel.x || exists a, b :: 0 <= a < w && 0 <= b < w && Before(a, b, i, j) && g[a][b].position.x == v.x)
    && (v.y == sentinel.y || exists a, b :: 0 <= a < w && 0 <= b < w && Before(a, b, i, j) && g[a][b].position.y == v.y)
    && (v.z == sentinel.z || exists a, b :: 0 <= a < w && 0 <= b < w && Before(a, b, i, j) && g[a][b].position.z == v.z)
  }

  /** The bounds after looking at one more point. */
  function Widen(lo: Vec3, hi: Vec3, p: Vec3): (r: (Vec3, Vec3))
    ensures Below(r.0, lo) && Below(r.0, p) && Below(hi, r.1) && Below(p, r.1)
  {
    (Vec3(GetMin(p.x, lo.x), GetMin(p.y, lo.y), GetMin(p.z, lo.z)),
     Vec3(GetMax(p.x, hi.x), GetMax(p.y, hi.y), GetMax(p.z, hi.z)))
  }

  /** The vertices of the cells visited before (i, j) are in place. */
  ghost predicate Copied(g: Grid, w: int, vt: seq<Vertex>, i: int, j: int)
    requires IsGrid(g, w) && |vt| == w * w
  {
    forall a, b :: 0 <= a < w && 0 <= b < w && Before(a, b, i, j) ==> VertexAt(vt, w, a, b) == TerrainVertex(g[a][b])
  }

  /** The bounds enclose the sentinels and every cell visited before (i, j). */
  ghost predicate Bounded(g: Grid, w: int, lo: Vec3, hi: Vec3, i: int, j: int)
    requires IsGrid(g, w)
  {
    && (forall a, b :: 0 <= a < w && 0 <= b < w && Before(a, b, i, j) ==>
          Below(lo, g[a][b].position) && Below(g[a][b].position, hi))
    && Below(lo, MinSentinel) && Below(MaxSentinel, hi)
  }

  /**
   * The first loop of `Terrain.Initialise`: `vt[w * i + j]` is cell (i, j) as
   * a vertex, and the bounds end componentwise below (above) every cell and
   * the sentinel, each component being the sentinel or some cell's.
   */
  method BuildVertices(g: Grid, w: int) returns (vt: seq<Vertex>, lo: Vec3, hi: Vec3)
    requires IsGrid(g, w)
    ensures |vt| == w * w
    ensures forall i, j :: 0 <= i < w && 0 <= j < w ==> VertexAt(vt, w, i, j) == TerrainVertex(g[i][j])
    ensures forall i, j :: 0 <= i < w && 0 <= j < w ==> Below(lo, g[i][j].position) && Below(g[i][j].position, hi)
    ensures Below(lo, MinSentinel) && Below(MaxSentinel, hi)
    ensures Witnessed(lo, MinSentinel, g, w, w, 0) && Witnessed(hi, MaxSentinel, g, w, w, 0)
  {
    lo, hi := MinSentinel, MaxSentinel;
    vt := seq(w * w, _ => ZeroVertex);
    var i := 0;
    while i < w
      invariant 0 <= i <= w && |vt| == w * w
      invariant Copied(g, w, vt, i, 0) && Bounded(g, w, lo, hi, i, 0)
      invariant Witnessed(lo, MinSentinel, g, w, i, 0) && Witnessed(hi, MaxSentinel, g, w, i, 0)
    {
      var j := 0;
      while j < w
        invariant 0 <= j <= w && |vt| == w * w
        invariant Copied(g, w, vt, i, j) && Bounded(g, w, lo, hi, i, j)
        invariant Witnessed(lo, MinSentinel, g, w, i, j) && Witnessed(hi, MaxSentinel, g, w, i, j)
      {
        vt, lo, hi := VisitCell(g, w, vt, lo, hi, i, j);
        j := j + 1;
      }
      RowDone(g, w, vt, lo, hi, i);
      i := i + 1;
    }
  }

  /** One pass of the inner loop body: place vertex (i, j) and widen the bounds by its position. */
  method VisitCell(g: Grid, w: int, vt: seq<Vertex>, lo: Vec3, hi: Vec3, i: int, j: int)
    returns (vt1: seq<Vertex>, lo1: Vec3, hi1: Vec3)
    requires IsGrid(g, w) && 0 <= i < w && 0 <= j < w && |vt| == w * w
    requires Copied(g, w, vt, i, j) && Bounded(g, w, lo, hi, i, j)
    requires Witnessed(lo, MinSentinel, g, w, i, j) && Witnessed(hi, MaxSentinel, g, w, i, j)
    ensures |vt1| == w * w
    ensures Copied(g, w, vt1, i, j + 1) && Bounded(g, w, lo1, hi1, i, j + 1)
    ensures Witnessed(lo1, MinSentinel, g, w, i, j + 1) && Witnessed(hi1, MaxSentinel, g, w, i, j + 1)
  {
    FlatInRange(w, i, j);
    var k := Flat(w, i, j);
    vt1 := vt[k := TerrainVertex(g[i][j])];
    CopyStep(g, w, vt, vt1, i, j);
    var p := vt1[k].position;
    var b := Widen(lo, hi, Vec3(p.x, p.y, p.z));
    lo1, hi1 := b.0, b.1;
    BoundStep(g, w, lo, hi, lo1, hi1, i, j);
    WitnessStep(g, w, lo, lo1, MinSentinel, i, j);
    WitnessStep(g, w, hi, hi1, MaxSentinel, i, j);
  }

  lemma CopyStep(g: Grid, w: int, vt: seq<Vertex>, vt1: seq<Vertex>, i: int, j: int)
    requires IsGrid(g, w) && 0 <= i < w && 0 <= j < w && |vt| == w * w
    requires Copied(g, w, vt, i, j)
    requires 0 <= Flat(w, i, j) < w * w && vt1 == vt[Flat(w, i, j) := TerrainVertex(g[i][j])]
    ensures Copied(g, w, vt1, i, j + 1)
  {
    forall a, b | 0 <= a < w && 0 <= b < w && Before(a, b, i, j + 1)
      ensures VertexAt(vt1, w, a, b) == TerrainVertex(g[a][b])
    {
      FlatInRange(w, a, b);
      FlatInjective(w, i, j, a, b);
    }
  }

  lemma BoundStep(g: Grid, w: int, lo: Vec3, hi: Vec3, lo1: Vec3, hi1: Vec3, i: int, j: int)
    requires IsGrid(g, w) && 0 <= i < w && 0 <= j < w
    requires Bounded(g, w, lo, hi, i, j)
    requires (lo1, hi1) == Widen(lo, hi, g[i][j].position)
    ensures Bounded(g, w, lo1, hi1, i, j + 1)
  {
    forall a, b | 0 <= a < w && 0 <= b < w && Before(a, b, i, j + 1)
      ensures Below(lo1, g[a][b].position) && Below(g[a][b].position, hi1)
    {
      if Before(a, b, i, j) {
        assert Below(lo, g[a][b].position) && Below(g[a][b].position, hi);
      }
    }
  }

  /** A component that is the old one or the new cell's stays witnessed. */
  lemma WitnessStep(g: Grid, w: int, v: Vec3, v1: Vec3, sentinel: Vec3, i: int, j: int)
    requires IsGrid(g, w) && 0 <= i < w && 0 <= j < w
    requires Witnessed(v, sentinel, g, w, i, j)
    requires var p := g[i][j].position;
      (v1.x == v.x || v1.x == p.x) && (v1.y == v.y || v1.y == p.y) && (v1.z == v.z || v1.z == p.z)
    ensures Witnessed(v1, sentinel, g, w, i, j + 1)
  {
    assert Before(i, j, i, j + 1);
    assert forall a, b :: Before(a, b, i, j) ==> Before(a, b, i, j + 1);
  }

  /** The end of a row is the start of the next. */
  lemma RowDone(g: Grid, w: int, vt: seq<Vertex>, lo: Vec3, hi: Vec3, i: int)
    requires IsGrid(g, w) && 0 <= i < w && |vt| == w * w
    requires Copied(g, w, vt, i, w) && Bounded(g, w, lo, hi, i, w)
    requires Witnessed(lo, MinSentinel, g, w, i, w) && Witnessed(hi, MaxSentinel, g, w, i, w)
    ensures Copied(g, w, vt, i + 1, 0) && Bounded(g, w, lo, hi, i + 1, 0)
    ensures Witnessed(lo, MinSentinel, g, w, i + 1, 0) && Witnessed(hi, MaxSentinel, g, w, i + 1, 0)
  {
    assert forall a, b :: 0 <= b < w ==> (Before(a, b, i, w) <==> Before(a, b, i + 1, 0));
  }

  // ---------------------------------------------------------------------
  // The triangle list
  // ---------------------------------------------------------------------

  /** The colour every triangle-list vertex is given. */
  const TriangleColour: Vec4 := Vec4(0.3, 0.7, 0.5, 1.0)

  /** The six cells of quad (i, j), in emission order: two triangles sharing the diagonal. */
  function CornerCell(i: int, j: int, t: int): (int, int)
    requires 0 <= t < 6
  {
    [(i, j), (i, j + 1), (i + 1, j + 1), (i + 1, j + 1), (i + 1, j), (i, j)][t]
  }

  /** The texture coordinate of each of the six. */
  function CornerUV(t: int): Vec2
    requires 0 <= t < 6
  {
    [Vec2(0.0, 0.0), Vec2(0.0, 1.0), Vec2(1.0, 1.0), Vec2(1.0, 1.0), Vec2(1.0, 0.0), Vec2(0.0, 0.0)][t]
  }

  /** The array index the source computes for corner t of quad (i, j). */
  function QuadIndex(w: int, i: int, j: int, t: int): int
    requires 0 <= t < 6
  {
    [i * w + j, i * w + (j + 1), (i + 1) * w + (j + 1), (i + 1) * w + (j + 1), (i + 1) * w + j, i * w + j][t]
  }

  /** Every index the triangle loop reads is the flat place of a grid cell, so within the array. */
  lemma QuadIndexInRange(w: int, i: int, j: int, t: int)
    requires 0 <= i < w - 1 && 0 <= j < w - 1 && 0 <= t < 6
    ensures var (a, b) := CornerCell(i, j, t);
      && 0 <= a < w && 0 <= b < w
      && QuadIndex(w, i, j, t) == Flat(w, a, b)
      && 0 <= QuadIndex(w, i, j, t) < w * w
  {
    var (a, b) := CornerCell(i, j, t);
    assert i * w == w * i && (i + 1) * w == w * (i + 1);
    FlatInRange(w, a, b);
  }

  /** Number of quads of a w x w grid. */
  function Quads(w: int): nat {
    if w >= 1 then (w - 1) * (w - 1) else 0
  }

  /** Where corner t of quad (i, j) lands in the triangle list. */
  function Slot(w: int, i: int, j: int, t: int): int { 6 * ((w - 1) * i + j) + t }

  /** Corner t of quad (i, j): the vertex at its index, with its own UV and the triangle colour. */
  function TriVertex(vt: seq<Vertex>, w: int, i: int, j: int, t: int): Vertex
    requires |vt| == w * w && 0 <= i < w - 1 && 0 <= j < w - 1 && 0 <= t < 6
  {
    QuadIndexInRange(w, i, j, t);
    var v := vt[QuadIndex(w, i, j, t)];
    Vertex(v.position, v.normal, CornerUV(t), TriangleColour)
  }

  ghost predicate Emitted(vt: seq<Vertex>, w: int, vl: seq<Vertex>, i: int, j: int)
    requires |vt| == w * w
  {
    forall a, b, t :: 0 <= a < w - 1 && 0 <= b < w - 1 && 0 <= t < 6 && Before(a, b, i, j) ==>
      0 <= Slot(w, a, b, t) < |vl| && vl[Slot(w, a, b, t)] == TriVertex(vt, w, a, b, t)
  }

  /** Quads visited before (i, j) fill the slots below quad (i, j)'s. */
  lemma SlotBefore(w: int, a: int, b: int, i: int, j: int, t: int)
    requires 0 <= a && 0 <= b < w - 1 && 0 <= j && 0 <= t < 6 && Before(a, b, i, j)
    ensures 0 <= Slot(w, a, b, t) < 6 * ((w - 1) * i + j)
  {
    MulMono(w - 1, 0, a);
    if a < i {
      MulMono(w - 1, a + 1, i);
      assert (w - 1) * (a + 1) == (w - 1) * a + (w - 1);
    }
  }

  /**
   * The second loop of `Terrain.Initialise`: six vertices per quad, row by
   * row; corner t of quad (i, j) copies the position and normal at its index.
   */
  method TriangleList(vt: seq<Vertex>, w: int) returns (vl: seq<Vertex>)
    requires |vt| == w * w
    ensures |vl| == 6 * Quads(w)
    ensures Emitted(vt, w, vl, w - 1, 0)
  {
    vl := [];
    var i := 0;
    while i < w - 1
      invariant 0 <= i && (w >= 1 ==> i <= w - 1)
      invariant |vl| == 6 * ((w - 1) * i) && Emitted(vt, w, vl, i, 0)
    {
      var j := 0;
      while j < w - 1
        invariant 0 <= j <= w - 1
        invariant |vl| == 6 * ((w - 1) * i + j) && Emitted(vt, w, vl, i, j)
      {
        var six := seq(6, t requires 0 <= t < 6 => TriVertex(vt, w, i, j, t));
        EmitStep(vt, w, vl, six, i, j);
        vl := vl + six;
        j := j + 1;
      }
      assert (w - 1) * i + (w - 1) == (w - 1) * (i + 1);
      EmitRowDone(vt, w, vl, i);
      i := i + 1;
    }
    if w >= 1 {
      assert Quads(w) == (w - 1) * i;
    }
  }

  lemma EmitRowDone(vt: seq<Vertex>, w: int, vl: seq<Vertex>, i: int)
    requires |vt| == w * w && Emitted(vt, w, vl, i, w - 1)
    ensures Emitted(vt, w, vl, i + 1, 0)
  {
    forall a, b, t | 0 <= a < w - 1 && 0 <= b < w - 1 && 0 <= t < 6 && Before(a, b, i + 1, 0)
      ensures 0 <= Slot(w, a, b, t) < |vl| && vl[Slot(w, a, b, t)] == TriVertex(vt, w, a, b, t)
    {
      assert Before(a, b, i, w - 1);
    }
  }

  lemma EmitStep(vt: seq<Vertex>, w: int, vl: seq<Vertex>, six: seq<Vertex>, i: int, j: int)
    requires |vt| == w * w && 0 <= i < w - 1 && 0 <= j < w - 1
    requires |vl| == 6 * ((w - 1) * i + j) && Emitted(vt, w, vl, i, j)
    requires |six| == 6 && forall t :: 0 <= t < 6 ==> six[t] == TriVertex(vt, w, i, j, t)
    ensures Emitted(vt, w, vl + six, i, j + 1)
  {
    forall a, b, t | 0 <= a < w - 1 && 0 <= b < w - 1 && 0 <= t < 6 && Before(a, b, i, j + 1)
      ensures 0 <= Slot(w, a, b, t) < |vl + six| && (vl + six)[Slot(w, a, b, t)] == TriVertex(vt, w, a, b, t)
    {
      if Before(a, b, i, j) {
        SlotBefore(w, a, b, i, j, t);
      } else {
        assert a == i && b == j && Slot(w, a, b, t) == |vl| + t;
      }
    }
  }

  /**
   * Read against the grid, quad (i, j) is the triangles (i, j), (i, j+1),
   * (i+1, j+1) and (i+1, j+1), (i+1, j), (i, j) of heightmap points.
   */
  lemma TrianglesOfGrid(g: Grid, w: int, vt: seq<Vertex>, vl: seq<Vertex>, i: int, j: int, t: int)
    requires IsGrid(g, w) && |vt| == w * w
    requires forall a, b :: 0 <= a < w && 0 <= b < w ==>
      VertexAt(vt, w, a, b) == TerrainVertex(g[a][b])
    requires Emitted(vt, w, vl, w - 1, 0)
    requires 0 <= i < w - 1 && 0 <= j < w - 1 && 0 <= t < 6
    ensures var (a, b) := CornerCell(i, j, t);
      && 0 <= Slot(w, i, j, t) < |vl|
      && vl[Slot(w, i, j, t)].position == Point4(g[a][b].position)
      && vl[Slot(w, i, j, t)].normal == Point4(g[a][b].normal)
      && vl[Slot(w, i, j, t)].texUV == CornerUV(t) && vl[Slot(w, i, j, t)].colour == TriangleColour
  {
    assert Before(i, j, w - 1, 0);
    QuadIndexInRange(w, i, j, t);
  }

  // ---------------------------------------------------------------------
  // The ground clamp of `Terrain.Update`
  // ---------------------------------------------------------------------

  /** Vertex (i, j) lies in the camera's unit column: truncated X and Z agree. */
  predicate UnderCamera(vt: seq<Vertex>, w: int, cam: Vec3, i: int, j: int)
    requires |vt| == w * w && 0 <= i < w && 0 <= j < w
  {
    var p := VertexAt(vt, w, i, j).position;
    Trunc(p.x) == Trunc(cam.x) && Trunc(p.z) == Trunc(cam.z)
  }

  /** Vertex (i, j) is the first under the camera in row-major order. */
  ghost predicate FirstUnder(vt: seq<Vertex>, w: int, cam: Vec3, i: int, j: int)
    requires |vt| == w * w && 0 <= i < w && 0 <= j < w
  {
    && UnderCamera(vt, w, cam, i, j)
    && forall a, b :: 0 <= a < w && 0 <= b < w && Before(a, b, i, j) ==> !UnderCamera(vt, w, cam, a, b)
  }

  /** The height the camera is lifted to over a vertex at height y. */
  const CameraLift: real := 0.5

  /**
   * The clamp: find the first vertex under the camera; if the camera is below
   * it, put the camera half a unit above it.  The camera's new height is
   * returned; with no vertex under it, the height is unchanged.
   */
  method GroundClamp(vt: seq<Vertex>, w: nat, cam: Vec3) returns (camY: real)
    requires |vt| == w * w
    ensures camY >= cam.y
    ensures (forall a, b :: 0 <= a < w && 0 <= b < w ==> !UnderCamera(vt, w, cam, a, b)) ==> camY == cam.y
    ensures forall a, b :: 0 <= a < w && 0 <= b < w && FirstUnder(vt, w, cam, a, b) ==>
      var y := VertexAt(vt, w, a, b).position.y;
      camY == (if cam.y < y then y + CameraLift else cam.y)
  {
    camY := cam.y;
    var i := 0;
    while i < w
      invariant 0 <= i <= w
      invariant forall a, b :: 0 <= a < w && 0 <= b < w && a < i ==> !UnderCamera(vt, w, cam, a, b)
    {
      var j := 0;
      while j < w
        invariant 0 <= j <= w
        invariant forall a, b :: 0 <= a < w && 0 <= b < w && Before(a, b, i, j) ==> !UnderCamera(vt, w, cam, a, b)
      {
        var p := VertexAt(vt, w, i, j).position;
        if Trunc(p.x) == Trunc(cam.x) && Trunc(p.z) == Trunc(cam.z) {
          if camY < p.y {
            camY := p.y + CameraLift;
          }
          assert FirstUnder(vt, w, cam, i, j);
          FirstUnderUnique(vt, w, cam, i, j);
          return;
        }
        j := j + 1;
      }
      i := i + 1;
    }
  }

  /** At most one vertex is first under the camera. */
  lemma FirstUnderUnique(vt: seq<Vertex>, w: int, cam: Vec3, i: int, j: int)
    requires |vt| == w * w && 0 <= i < w && 0 <= j < w && FirstUnder(vt, w, cam, i, j)
    ensures forall a, b :: 0 <= a < w && 0 <= b < w && FirstUnder(vt, w, cam, a, b) ==> a == i && b == j
  {
  }
}
