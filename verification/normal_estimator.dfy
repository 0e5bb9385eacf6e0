/**
 * Normals of the heightfield: `calculateV`, `crossProd`, `calculateNormal`,
 * `assignNormals`, `setNormals` and `vertexNormals` of `TerrainEngine`.
 *
 * The code is modelled as written.  `calculateV` assigns X twice, so the edge
 * vector is (dZ, dY, 0); the cross product of two such vectors therefore has
 * zero X and Y, and a face whose three heights agree has a zero normal, whose
 * magnitude is zero.
 */
module NormalEstimator {
  import opened Wrappers
  import opened Vectors
  import opened RandomSource
  import opened HeightfieldGrid

  /** `calculateV(p2, p1)`: X is set to the X difference and then overwritten with the Z difference. */
  function CalculateV(p2: Vec3, p1: Vec3): (v: Vec3)
    ensures v.x == p2.z - p1.z && v.y == p2.y - p1.y && v.z == 0.0
  {
    var v := Zero3;
    var v := v.(x := p2.x - p1.x);
    var v := v.(y := p2.y - p1.y);
    var v := v.(x := p2.z - p1.z);
    v
  }

  function Dot(a: Vec3, b: Vec3): real {
    a.x * b.x + a.y * b.y + a.z * b.z
  }

  /** `crossProd(p1, p2)`: perpendicular to both arguments. */
  function CrossProd(p1: Vec3, p2: Vec3): (r: Vec3)
    ensures Dot(r, p1) == 0.0 && Dot(r, p2) == 0.0
  {
    Vec3(p1.y * p2.z - p2.y * p1.z, -(p1.x * p2.z - p2.x * p1.z), p1.x * p2.y - p2.x * p1.y)
  }

  /** Swapping the arguments of `crossProd` negates every component. */
  lemma CrossAnticommutes(p1: Vec3, p2: Vec3)
    ensures CrossProd(p2, p1) == Vec3(-CrossProd(p1, p2).x, -CrossProd(p1, p2).y, -CrossProd(p1, p2).z)
  {
  }

  /** The cross product of two `calculateV` edges has zero X and Y; its Z is the 2 x 2 determinant of (dZ, dY). */
  lemma EdgeCross(a: Vec3, b: Vec3, c: Vec3, d: Vec3)
    ensures var u := CalculateV(a, b); var w := CalculateV(c, d);
      && CrossProd(u, w).x == 0.0 && CrossProd(u, w).y == 0.0
      && CrossProd(u, w).z == u.x * w.y - w.x * u.y
  {
  }

  /** The un-normalised normal of the face v1, v2, v3: (v2 - v1) x (v3 - v2). */
  function FaceCross(v1: Vec3, v2: Vec3, v3: Vec3): Vec3 {
    CrossProd(CalculateV(v2, v1), CalculateV(v3, v2))
  }

  /** A face whose three corners share one height has a zero cross product. */
  lemma FlatFaceDegenerate(v1: Vec3, v2: Vec3, v3: Vec3)
    requires v1.y == v2.y == v3.y
    ensures FaceCross(v1, v2, v3) == Zero3
  {
    EdgeCross(v2, v1, v3, v2);
  }

  /**
   * With `Math.Sqrt(0) == 0`, a face whose corners share one height has
   * magnitude 0: it is where the source divides by zero, and the model
   * gives None.
   */
  lemma FlatFaceNone(o: Oracle, v1: Vec3, v2: Vec3, v3: Vec3)
    requires v1.y == v2.y == v3.y && o.sqrt(0.0) == 0.0
    ensures CalculateNormal(o, v1, v2, v3).None?
  {
    FlatFaceDegenerate(v1, v2, v3);
    assert Dot(Zero3, Zero3) == 0.0;
  }

  /**
   * `calculateNormal`: the face's cross product divided by its magnitude (the
   * oracle's square root of its squared length).  A zero magnitude, where the
   * source divides by zero, gives None.
   */
  function CalculateNormal(o: Oracle, v1: Vec3, v2: Vec3, v3: Vec3): (r: Option<Vec3>)
    ensures var c := FaceCross(v1, v2, v3); var m := o.sqrt(Dot(c, c));
      && (r.None? <==> m == 0.0)
      && (r.Some? ==> r.value.x == 0.0 && r.value.y == 0.0 && r.value.z * m == c.z)
  {
    var c := FaceCross(v1, v2, v3);
    EdgeCross(v2, v1, v3, v2);
    var m := o.sqrt(Dot(c, c));
    if m == 0.0 then None else Some(Vec3(c.x / m, c.y / m, c.z / m))
  }

  /**
   * `assignNormals` on one normal: a zero normal takes the face normal, any
   * other moves to the midpoint between itself and the face normal.
   */
  function Merge(prev: Vec3, t: Vec3): (r: Vec3)
    ensures prev == Zero3 ==> r == t
    ensures prev != Zero3 ==> r.x - prev.x == t.x - r.x && r.y - prev.y == t.y - r.y && r.z - prev.z == t.z - r.z
  {
    if prev.x == 0.0 && prev.y == 0.0 && prev.z == 0.0 then t
    else Vec3((prev.x + t.x) / 2.0, (prev.y + t.y) / 2.0, (prev.z + t.z) / 2.0)
  }

  /** Merging a normal into itself changes nothing. */
  lemma MergeSame(t: Vec3)
    ensures Merge(t, t) == t
  {
  }

  /** `assignNormals(i, j, temp)`: merge the face normal into cell (i, j); no other cell and no position changes. */
  function AssignNormals(g: Grid, n: int, i: int, j: int, t: Vec3): (r: Grid)
    requires IsGrid(g, n) && InGrid(n, i, j)
    ensures IsGrid(r, n)
    ensures r[i][j] == g[i][j].(normal := Merge(g[i][j].normal, t))
    ensures forall a, b :: InGrid(n, a, b) && (a, b) != (i, j) ==> r[a][b] == g[a][b]
  {
    SetCell(g, n, i, j, g[i][j].(normal := Merge(g[i][j].normal, t)))
  }

  // ---------------------------------------------------------------------
  // setNormals
  // ---------------------------------------------------------------------

  /** The two triangles of quad (i, j): (i, j+1), (i, j), (i+1, j) and (i+1, j), (i+1, j+1), (i, j+1). */
  datatype Tri = First | Second

  /** One `assignNormals` call: the quad, the triangle whose normal it takes, and the target cell. */
  datatype Visit = Visit(qi: int, qj: int, tri: Tri, ti: int, tj: int)

  /** The four calls for quad (i, j), in the source's order. */
  function QuadVisits(i: int, j: int): seq<Visit> {
    [Visit(i, j, First, i, j), Visit(i, j, First, i, j + 1), Visit(i, j, First, i + 1, j),
     Visit(i, j, Second, i + 1, j + 1)]
  }

  /** The calls for quads (i, 0) .. (i, m - 1). */
  function RowVisits(i: int, m: int): seq<Visit>
    decreases m
  {
    if m <= 0 then [] else RowVisits(i, m - 1) + QuadVisits(i, m - 1)
  }

  /** The calls of the nested loops over quad rows 0 .. rows - 1, each of m quads. */
  function Visits(rows: int, m: int): seq<Visit>
    decreases rows
  {
    if rows <= 0 then [] else Visits(rows - 1, m) + RowVisits(rows - 1, m)
  }

  /** Every call of row i targets a cell of the quad it comes from, and only Second targets (i+1, j+1). */
  lemma {:induction false} RowVisitsShape(i: int, m: int)
    ensures forall v :: v in RowVisits(i, m) ==>
      && v.qi == i && 0 <= v.qj < m
      && (v.tri == Second <==> (v.ti, v.tj) == (v.qi + 1, v.qj + 1))
      && v.qi <= v.ti <= v.qi + 1 && v.qj <= v.tj <= v.qj + 1
    decreases m
  {
    if m > 0 {
      RowVisitsShape(i, m - 1);
    }
  }

  /** The shape of every call of the loops: its quad is in range and its target is a corner of it. */
  lemma {:induction false} VisitsShape(rows: int, m: int)
    ensures forall v :: v in Visits(rows, m) ==>
      && 0 <= v.qi < rows && 0 <= v.qj < m
      && (v.tri == Second <==> (v.ti, v.tj) == (v.qi + 1, v.qj + 1))
      && v.qi <= v.ti <= v.qi + 1 && v.qj <= v.tj <= v.qj + 1
    decreases rows
  {
    if rows > 0 {
      VisitsShape(rows - 1, m);
      RowVisitsShape(rows - 1, m);
    }
  }

  /** Quad (i, j) of row i is visited. */
  lemma {:induction false} QuadInRow(i: int, j: int, m: int)
    requires 0 <= j < m
    ensures forall v :: v in QuadVisits(i, j) ==> v in RowVisits(i, m)
    decreases m
  {
    if j < m - 1 {
      QuadInRow(i, j, m - 1);
    }
  }

  /** Quad (i, j) is visited by the loops over rows 0 .. rows - 1. */
  lemma {:induction false} QuadInVisits(i: int, j: int, rows: int, m: int)
    requires 0 <= i < rows && 0 <= j < m
    ensures forall v :: v in QuadVisits(i, j) ==> v in Visits(rows, m)
    decreases rows
  {
    if i < rows - 1 {
      QuadInVisits(i, j, rows - 1, m);
    } else {
      QuadInRow(i, j, m);
    }
  }

  /** `setNormals` reaches every cell of an N x N grid, N >= 2, at least once. */
  lemma ReachesEveryCell(n: int, a: int, b: int)
    requires n >= 2 && InGrid(n, a, b)
    ensures exists v :: v in Visits(n - 1, n - 1) && v.ti == a && v.tj == b
  {
    var i := if a == n - 1 then a - 1 else a;
    var j := if b == n - 1 then b - 1 else b;
    QuadInVisits(i, j, n - 1, n - 1);
    var v := if a == i && b == j then Visit(i, j, First, i, j)
      else if a == i then Visit(i, j, First, i, j + 1)
      else if b == j then Visit(i, j, First, i + 1, j)
      else Visit(i, j, Second, i + 1, j + 1);
    assert v in QuadVisits(i, j);
  }

  /** The normal of triangle `tri` of quad (i, j), computed from the positions of its corners. */
  function FaceNormal(o: Oracle, g: Grid, n: int, i: int, j: int, tri: Tri): Option<Vec3>
    requires IsGrid(g, n) && 0 <= i && i + 1 < n && 0 <= j && j + 1 < n
  {
    match tri
    case First => CalculateNormal(o, g[i][j + 1].position, g[i][j].position, g[i + 1][j].position)
    case Second => CalculateNormal(o, g[i + 1][j].position, g[i + 1][j + 1].position, g[i][j + 1].position)
  }

  /** Where the source divides by a zero magnitude: the quad whose face is degenerate. */
  datatype NormalError = DegenerateFace(qi: int, qj: int)

  /** A call whose quad lies in the grid and whose target is a corner of that quad. */
  predicate Fits(n: int, v: Visit) {
    0 <= v.qi && v.qi + 1 < n && 0 <= v.qj && v.qj + 1 < n
    && v.qi <= v.ti <= v.qi + 1 && v.qj <= v.tj <= v.qj + 1
  }

  /** Every call of vs fits the grid. */
  predicate AllFit(n: int, vs: seq<Visit>) {
    forall k :: 0 <= k < |vs| ==> Fits(n, vs[k])
  }

  /** The calls in order, each computing its face normal and merging it into its target. */
  function ApplyVisits(o: Oracle, g: Grid, n: int, vs: seq<Visit>): (r: Result<Grid, NormalError>)
    requires IsGrid(g, n) && AllFit(n, vs)
    decreases |vs|
  {
    if |vs| == 0 then Success(g)
    else
      var v := vs[0];
      assert Fits(n, v) && AllFit(n, vs[1..]);
      match FaceNormal(o, g, n, v.qi, v.qj, v.tri)
      case None => Failure(DegenerateFace(v.qi, v.qj))
      case Some(t) => ApplyVisits(o, AssignNormals(g, n, v.ti, v.tj, t), n, vs[1..])
  }

  /** Positions and colours agree cell by cell. */
  ghost predicate SamePlaces(g: Grid, r: Grid, n: int)
    requires IsGrid(g, n) && IsGrid(r, n)
  {
    forall a, b :: 0 <= a < n && 0 <= b < n ==> r[a][b].position == g[a][b].position && r[a][b].colour == g[a][b].colour
  }

  /** Grids with the same positions have the same face normals. */
  lemma SamePlacesSameFaces(o: Oracle, g: Grid, r: Grid, n: int, i: int, j: int, tri: Tri)
    requires IsGrid(g, n) && IsGrid(r, n) && SamePlaces(g, r, n) && 0 <= i && i + 1 < n && 0 <= j && j + 1 < n
    ensures FaceNormal(o, r, n, i, j, tri) == FaceNormal(o, g, n, i, j, tri)
  {
    assert r[i][j].position == g[i][j].position && r[i][j + 1].position == g[i][j + 1].position;
    assert r[i + 1][j].position == g[i + 1][j].position && r[i + 1][j + 1].position == g[i + 1][j + 1].position;
  }

  /** Some call in vs meets a degenerate face of g. */
  ghost predicate HitsDegenerate(o: Oracle, g: Grid, n: int, vs: seq<Visit>)
    requires IsGrid(g, n) && AllFit(n, vs)
  {
    exists k :: 0 <= k < |vs| && FaceNormal(o, g, n, vs[k].qi, vs[k].qj, vs[k].tri).None?
  }

  /**
   * Applying the calls succeeds exactly when none of them meets a degenerate
   * face, and then changes only normals.
   */
  lemma {:induction false} ApplyVisitsSpec(o: Oracle, g: Grid, n: int, vs: seq<Visit>)
    requires IsGrid(g, n) && AllFit(n, vs)
    ensures ApplyVisits(o, g, n, vs).Failure? <==> HitsDegenerate(o, g, n, vs)
    ensures ApplyVisits(o, g, n, vs).Success? ==>
      IsGrid(ApplyVisits(o, g, n, vs).value, n) && SamePlaces(g, ApplyVisits(o, g, n, vs).value, n)
    decreases |vs|
  {
    if |vs| > 0 {
      var v := vs[0];
      assert Fits(n, v) && AllFit(n, vs[1..]);
      match FaceNormal(o, g, n, v.qi, v.qj, v.tri)
      case None =>
        assert FaceNormal(o, g, n, vs[0].qi, vs[0].qj, vs[0].tri).None?;
      case Some(t) =>
        var g1 := AssignNormals(g, n, v.ti, v.tj, t);
        assert SamePlaces(g, g1, n);
        ApplyVisitsSpec(o, g1, n, vs[1..]);
        HitsAfterAssign(o, g, g1, n, vs);
    }
  }

  /** After a merge that keeps positions, the rest of the calls meet a degenerate face exactly when all of them do. */
  lemma HitsAfterAssign(o: Oracle, g: Grid, g1: Grid, n: int, vs: seq<Visit>)
    requires IsGrid(g, n) && IsGrid(g1, n) && SamePlaces(g, g1, n) && |vs| > 0
    requires AllFit(n, vs)
    requires FaceNormal(o, g, n, vs[0].qi, vs[0].qj, vs[0].tri).Some?
    ensures AllFit(n, vs[1..])
    ensures HitsDegenerate(o, g1, n, vs[1..]) <==> HitsDegenerate(o, g, n, vs)
  {
    assert AllFit(n, vs[1..]);
    forall k | 0 <= k < |vs|
      ensures FaceNormal(o, g1, n, vs[k].qi, vs[k].qj, vs[k].tri) == FaceNormal(o, g, n, vs[k].qi, vs[k].qj, vs[k].tri)
    {
      assert Fits(n, vs[k]);
      SamePlacesSameFaces(o, g, g1, n, vs[k].qi, vs[k].qj, vs[k].tri);
    }
    if HitsDegenerate(o, g, n, vs) {
      var k :| 0 <= k < |vs| && FaceNormal(o, g, n, vs[k].qi, vs[k].qj, vs[k].tri).None?;
      assert vs[1..][k - 1] == vs[k];
    }
    if HitsDegenerate(o, g1, n, vs[1..]) {
      var k :| 0 <= k < |vs[1..]| && FaceNormal(o, g1, n, vs[1..][k].qi, vs[1..][k].qj, vs[1..][k].tri).None?;
      assert vs[1..][k] == vs[k + 1];
    }
  }

  /** Some triangle of the grid has a zero magnitude. */
  ghost predicate Degenerate(o: Oracle, g: Grid, n: int)
    requires IsGrid(g, n)
  {
    exists i, j, tri :: 0 <= i < n - 1 && 0 <= j < n - 1 && FaceNormal(o, g, n, i, j, tri).None?
  }

  /**
   * With `Math.Sqrt(0) == 0`, a grid whose first quad is level is degenerate:
   * `setNormals` fails on it, where the source would store NaN normals.
   */
  lemma LevelQuadDegenerate(o: Oracle, g: Grid, n: int)
    requires IsGrid(g, n) && n >= 2 && o.sqrt(0.0) == 0.0
    requires g[0][0].position.y == g[0][1].position.y == g[1][0].position.y
    ensures Degenerate(o, g, n)
  {
    FlatFaceNone(o, g[0][1].position, g[0][0].position, g[1][0].position);
    assert FaceNormal(o, g, n, 0, 0, First).None?;
  }

  /**
   * `setNormals`: for each quad in row-major order, the first triangle's
   * normal is merged into (i, j), (i, j+1) and (i+1, j), the second's into
   * (i+1, j+1).  It fails exactly when some triangle is degenerate; otherwise
   * only normals change.
   */
  function SetNormals(o: Oracle, g: Grid, n: int): (r: Result<Grid, NormalError>)
    requires IsGrid(g, n)
    ensures r.Failure? <==> Degenerate(o, g, n)
    ensures r.Success? ==> IsGrid(r.value, n) && SamePlaces(g, r.value, n)
  {
    var vs := Visits(n - 1, n - 1);
    VisitsFit(n);
    ApplyVisitsSpec(o, g, n, vs);
    DegenerateIsHit(o, g, n);
    HitIsDegenerate(o, g, n);
    ApplyVisits(o, g, n, vs)
  }

  /** Every call of the loops over an N x N grid fits it. */
  lemma VisitsFit(n: int)
    ensures AllFit(n, Visits(n - 1, n - 1))
  {
    VisitsShape(n - 1, n - 1);
    var vs := Visits(n - 1, n - 1);
    forall k | 0 <= k < |vs|
      ensures Fits(n, vs[k])
    {
      assert vs[k] in vs;
    }
  }

  /** A degenerate triangle is one the loops compute. */
  lemma DegenerateIsHit(o: Oracle, g: Grid, n: int)
    requires IsGrid(g, n)
    requires AllFit(n, Visits(n - 1, n - 1))
    ensures Degenerate(o, g, n) ==> HitsDegenerate(o, g, n, Visits(n - 1, n - 1))
  {
    if Degenerate(o, g, n) {
      var i, j, tri :| 0 <= i < n - 1 && 0 <= j < n - 1 && FaceNormal(o, g, n, i, j, tri).None?;
      var v := VisitOf(i, j, tri, n);
      var vs := Visits(n - 1, n - 1);
      var k :| 0 <= k < |vs| && vs[k] == v;
      assert FaceNormal(o, g, n, vs[k].qi, vs[k].qj, vs[k].tri).None?;
    }
  }

  /** Each triangle of quad (i, j) is computed by some call of the loops. */
  lemma VisitOf(i: int, j: int, tri: Tri, n: int) returns (v: Visit)
    requires 0 <= i < n - 1 && 0 <= j < n - 1
    ensures v in Visits(n - 1, n - 1) && v.qi == i && v.qj == j && v.tri == tri
  {
    QuadInVisits(i, j, n - 1, n - 1);
    var q := QuadVisits(i, j);
    v := if tri == First then q[0] else q[3];
    assert v in q;
  }

  /** Every triangle the loops compute lies in the grid. */
  lemma HitIsDegenerate(o: Oracle, g: Grid, n: int)
    requires IsGrid(g, n)
    requires AllFit(n, Visits(n - 1, n - 1))
    ensures HitsDegenerate(o, g, n, Visits(n - 1, n - 1)) ==> Degenerate(o, g, n)
  {
    var vs := Visits(n - 1, n - 1);
    if HitsDegenerate(o, g, n, vs) {
      var k :| 0 <= k < |vs| && FaceNormal(o, g, n, vs[k].qi, vs[k].qj, vs[k].tri).None?;
      assert Fits(n, vs[k]);
    }
  }

  /**
   * The normal cell (a, b) ends with, read from the call list: starting from
   * acc, the face normal of every call that targets (a, b) is merged in, in
   * call order.  Faces are computed from g's positions, which the calls never
   * move.
   */
  function MergedAt(o: Oracle, g: Grid, n: int, vs: seq<Visit>, a: int, b: int, acc: Vec3): Vec3
    requires IsGrid(g, n) && AllFit(n, vs)
    decreases |vs|
  {
    if |vs| == 0 then acc
    else
      var v := vs[0];
      assert Fits(n, v) && AllFit(n, vs[1..]);
      var next := match FaceNormal(o, g, n, v.qi, v.qj, v.tri)
        case Some(t) => if v.ti == a && v.tj == b then Merge(acc, t) else acc
        case None => acc;
      MergedAt(o, g, n, vs[1..], a, b, next)
  }

  /** Grids with the same positions give the same merged normals. */
  lemma {:induction false} MergedAtSamePlaces(o: Oracle, g: Grid, g1: Grid, n: int, vs: seq<Visit>, a: int, b: int, acc: Vec3)
    requires IsGrid(g, n) && IsGrid(g1, n) && SamePlaces(g, g1, n) && AllFit(n, vs)
    ensures MergedAt(o, g1, n, vs, a, b, acc) == MergedAt(o, g, n, vs, a, b, acc)
    decreases |vs|
  {
    if |vs| > 0 {
      var v := vs[0];
      assert Fits(n, v) && AllFit(n, vs[1..]);
      SamePlacesSameFaces(o, g, g1, n, v.qi, v.qj, v.tri);
      var next := match FaceNormal(o, g, n, v.qi, v.qj, v.tri)
        case Some(t) => if v.ti == a && v.tj == b then Merge(acc, t) else acc
        case None => acc;
      MergedAtSamePlaces(o, g, g1, n, vs[1..], a, b, next);
    }
  }

  /** On success, every cell's normal is its starting normal with its calls' face normals merged in, in order. */
  lemma {:induction false} ApplyVisitsNormals(o: Oracle, g: Grid, n: int, vs: seq<Visit>)
    requires IsGrid(g, n) && AllFit(n, vs)
    ensures ApplyVisits(o, g, n, vs).Success? ==>
      IsGrid(ApplyVisits(o, g, n, vs).value, n)
      && forall a, b :: 0 <= a < n && 0 <= b < n ==>
           ApplyVisits(o, g, n, vs).value[a][b].normal == MergedAt(o, g, n, vs, a, b, g[a][b].normal)
    decreases |vs|
  {
    ApplyVisitsSpec(o, g, n, vs);
    if |vs| > 0 {
      var v := vs[0];
      assert Fits(n, v) && AllFit(n, vs[1..]);
      match FaceNormal(o, g, n, v.qi, v.qj, v.tri)
      case None =>
      case Some(t) =>
        var g1 := AssignNormals(g, n, v.ti, v.tj, t);
        assert SamePlaces(g, g1, n);
        ApplyVisitsNormals(o, g1, n, vs[1..]);
        if ApplyVisits(o, g, n, vs).Success? {
          var r: Grid := ApplyVisits(o, g, n, vs).value;
          assert r == ApplyVisits(o, g1, n, vs[1..]).value;
          forall a, b | 0 <= a < n && 0 <= b < n
            ensures r[a][b].normal == MergedAt(o, g, n, vs, a, b, g[a][b].normal)
          {
            MergedAtSamePlaces(o, g, g1, n, vs[1..], a, b, g1[a][b].normal);
            var next := if v.ti == a && v.tj == b then Merge(g[a][b].normal, t) else g[a][b].normal;
            assert g1[a][b].normal == next;
            assert MergedAt(o, g, n, vs, a, b, g[a][b].normal) == MergedAt(o, g, n, vs[1..], a, b, next);
          }
        }
    }
  }

  /**
   * What `setNormals` leaves in each cell: on success, the cell's normal is
   * its starting normal with the face normal of each call that targets it
   * merged in, in the loops' order.
   */
  lemma SetNormalsMerges(o: Oracle, g: Grid, n: int)
    requires IsGrid(g, n)
    ensures AllFit(n, Visits(n - 1, n - 1))
    ensures SetNormals(o, g, n).Success? ==>
      forall a, b :: 0 <= a < n && 0 <= b < n ==>
        SetNormals(o, g, n).value[a][b].normal == MergedAt(o, g, n, Visits(n - 1, n - 1), a, b, g[a][b].normal)
  {
    VisitsFit(n);
    ApplyVisitsNormals(o, g, n, Visits(n - 1, n - 1));
  }

  /** Normals lying on the Z axis (X = Y = 0). */
  ghost predicate OnZAxis(g: Grid, n: int)
    requires IsGrid(g, n)
  {
    forall a, b :: 0 <= a < n && 0 <= b < n ==> g[a][b].normal.x == 0.0 && g[a][b].normal.y == 0.0
  }

  /** Every face normal lies on the Z axis, so merging them in keeps a normal on it. */
  lemma {:induction false} MergedAtOnZAxis(o: Oracle, g: Grid, n: int, vs: seq<Visit>, a: int, b: int, acc: Vec3)
    requires IsGrid(g, n) && AllFit(n, vs) && acc.x == 0.0 && acc.y == 0.0
    ensures MergedAt(o, g, n, vs, a, b, acc).x == 0.0 && MergedAt(o, g, n, vs, a, b, acc).y == 0.0
    decreases |vs|
  {
    if |vs| > 0 {
      var v := vs[0];
      assert Fits(n, v) && AllFit(n, vs[1..]);
      var next := match FaceNormal(o, g, n, v.qi, v.qj, v.tri)
        case Some(t) => if v.ti == a && v.tj == b then Merge(acc, t) else acc
        case None => acc;
      MergedAtOnZAxis(o, g, n, vs[1..], a, b, next);
    }
  }

  /**
   * Because `calculateV` leaves every edge vector with Z = 0, `setNormals`
   * keeps normals on the Z axis: starting from normals with X = Y = 0 (the
   * constructor's zero normals), every normal it produces has X = Y = 0.
   */
  lemma SetNormalsOnZAxis(o: Oracle, g: Grid, n: int)
    requires IsGrid(g, n) && OnZAxis(g, n)
    ensures SetNormals(o, g, n).Success? ==> OnZAxis(SetNormals(o, g, n).value, n)
  {
    SetNormalsMerges(o, g, n);
    if SetNormals(o, g, n).Success? {
      forall a, b | 0 <= a < n && 0 <= b < n
        ensures SetNormals(o, g, n).value[a][b].normal.x == 0.0 && SetNormals(o, g, n).value[a][b].normal.y == 0.0
      {
        MergedAtOnZAxis(o, g, n, Visits(n - 1, n - 1), a, b, g[a][b].normal);
      }
    }
  }

  /** The 3 x 3 filter keeps normals on the Z axis. */
  lemma VertexNormalsOnZAxis(g: Grid, r: Grid, n: int)
    requires IsGrid(g, n) && IsGrid(r, n) && OnZAxis(g, n)
    requires forall i, j :: 0 <= i < n && 0 <= j < n ==>
      if 1 <= i <= n - 2 && 1 <= j <= n - 2 then r[i][j] == g[i][j].(normal := Mean9(g, n, i, j))
      else r[i][j] == g[i][j]
    ensures OnZAxis(r, n)
  {
  }

  // ---------------------------------------------------------------------
  // vertexNormals
  // ---------------------------------------------------------------------

  /** The mean of the nine normals around interior cell (i, j). */
  function Mean9(g: Grid, n: int, i: int, j: int): (m: Vec3)
    requires IsGrid(g, n) && Interior(n, i, j)
  {
    var s := [g[i - 1][j - 1].normal, g[i][j - 1].normal, g[i + 1][j - 1].normal,
              g[i - 1][j].normal, g[i][j].normal, g[i + 1][j].normal,
              g[i - 1][j + 1].normal, g[i][j + 1].normal, g[i + 1][j + 1].normal];
    Vec3((s[0].x + s[1].x + s[2].x + s[3].x + s[4].x + s[5].x + s[6].x + s[7].x + s[8].x) / 9.0,
         (s[0].y + s[1].y + s[2].y + s[3].y + s[4].y + s[5].y + s[6].y + s[7].y + s[8].y) / 9.0,
         (s[0].z + s[1].z + s[2].z + s[3].z + s[4].z + s[5].z + s[6].z + s[7].z + s[8].z) / 9.0)
  }

  /** Nine equal normals average to themselves. */
  lemma Mean9Constant(g: Grid, n: int, i: int, j: int, v: Vec3)
    requires IsGrid(g, n) && Interior(n, i, j)
    requires forall a, b :: i - 1 <= a <= i + 1 && j - 1 <= b <= j + 1 ==> g[a][b].normal == v
    ensures Mean9(g, n, i, j) == v
  {
    assert g[i - 1][j - 1].normal == v && g[i][j - 1].normal == v && g[i + 1][j - 1].normal == v;
    assert g[i - 1][j].normal == v && g[i][j].normal == v && g[i + 1][j].normal == v;
    assert g[i - 1][j + 1].normal == v && g[i][j + 1].normal == v && g[i + 1][j + 1].normal == v;
  }

  /**
   * `vertexNormals`: every interior normal becomes the mean of the nine
   * normals around it, read from a snapshot taken before the pass, so the
   * result does not depend on the visiting order.  Border cells and all
   * positions and colours are untouched.
   */
  method VertexNormals(g: Grid, n: int) returns (r: Grid)
    requires IsGrid(g, n)
    ensures IsGrid(r, n)
    ensures forall i, j :: 0 <= i < n && 0 <= j < n ==>
      if 1 <= i <= n - 2 && 1 <= j <= n - 2 then r[i][j] == g[i][j].(normal := Mean9(g, n, i, j))
      else r[i][j] == g[i][j]
  {
    r := g;
    var i := 1;
    while i < n - 1
      invariant IsGrid(r, n) && 1 <= i && (n >= 2 ==> i <= n - 1)
      invariant forall a :: 0 <= a < n ==> if 1 <= a < i then AveragedRow(g, n, a, r[a]) else r[a] == g[a]
    {
      var row := NormalRow(g, n, i);
      r := r[i := row];
      i := i + 1;
    }
    forall a, b | 0 <= a < n && 0 <= b < n
      ensures if 1 <= a <= n - 2 && 1 <= b <= n - 2 then r[a][b] == g[a][b].(normal := Mean9(g, n, a, b))
              else r[a][b] == g[a][b]
    {
      if 1 <= a <= n - 2 {
        assert AveragedRow(g, n, a, r[a]);
      }
    }
  }

  /** Row a with every interior normal replaced by the mean of the nine around it. */
  ghost predicate AveragedRow(g: Grid, n: int, a: int, row: seq<Cell>)
    requires IsGrid(g, n) && 1 <= a <= n - 2
  {
    && |row| == n
    && forall b :: 0 <= b < n ==>
         if 1 <= b <= n - 2 then row[b] == g[a][b].(normal := Mean9(g, n, a, b)) else row[b] == g[a][b]
  }

  /** One row of `vertexNormals`, reading only the snapshot g. */
  method NormalRow(g: Grid, n: int, i: int) returns (row: seq<Cell>)
    requires IsGrid(g, n) && 1 <= i <= n - 2
    ensures AveragedRow(g, n, i, row)
  {
    row := g[i];
    var j := 1;
    while j < n - 1
      invariant |row| == n && 1 <= j <= n - 1
      invariant forall b :: 0 <= b < n ==>
        if 1 <= b < j then row[b] == g[i][b].(normal := Mean9(g, n, i, b)) else row[b] == g[i][b]
    {
      row := row[j := row[j].(normal := Mean9(g, n, i, j))];
      j := j + 1;
    }
  }

  /** A grid whose normals all equal v keeps them all equal to v. */
  lemma VertexNormalsKeepConstant(g: Grid, r: Grid, n: int, v: Vec3)
    requires IsGrid(g, n) && IsGrid(r, n)
    requires forall a, b :: 0 <= a < n && 0 <= b < n ==> g[a][b].normal == v
    requires forall i, j :: 0 <= i < n && 0 <= j < n ==>
      if 1 <= i <= n - 2 && 1 <= j <= n - 2 then r[i][j] == g[i][j].(normal := Mean9(g, n, i, j))
      else r[i][j] == g[i][j]
    ensures forall a, b :: 0 <= a < n && 0 <= b < n ==> r[a][b].normal == v
  {
    forall a, b | 1 <= a <= n - 2 && 1 <= b <= n - 2
      ensures Mean9(g, n, a, b) == v
    {
      Mean9Constant(g, n, a, b, v);
    }
  }
}
