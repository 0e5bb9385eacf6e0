/**
 * The imported meshes: `CubeImport` and `Skydome` load a text `.x` file with
 * `X_Mesh_Loader` and de-index it in `Initialise`, one output vertex per
 * entry of the index list, swapping Y and Z on the way.  The skydome also
 * scales by 256 and lowers by 50, and carries no normals.
 */
module MeshImport {
  import opened Wrappers
  import opened Vectors
  import opened XMeshLoader

  /**
   * What the two constructors run: tokenise the file's lines, then read the
   * vertices and faces, the normals and the texture coordinates in turn.
   */
  method LoadMesh(p: Parsers, lines: seq<string>) returns (r: Result<Loader, LoadError>)
    ensures var toks := Tokenise(lines);
      r.Success? <==>
        && ReadMeshTokens(p, EmptyLoader.(tokens := toks)).Success?
        && ScanFrom(p, toks, NormalsHeader, 3, 3, 0, Scan([], 0)).Success?
        && ScanFrom(p, toks, UVHeader, 4, 2, 0, Scan([], 0)).Success?
    ensures r.Success? ==> r.value.indices == ReadMeshTokens(p, EmptyLoader.(tokens := Tokenise(lines))).value.indices
    ensures r.Success? ==>
      && r.value.tokens == Tokenise(lines)
      && |r.value.indices| % 3 == 0
      && (var s := ScanFrom(p, r.value.tokens, MeshHeader, 3, 3, 0, Scan([], 0));
          s.Success? && r.value.vertices == s.value.values)
      && (var s := ScanFrom(p, r.value.tokens, NormalsHeader, 3, 3, 0, Scan([], 0));
          s.Success? && r.value.normals == s.value.values)
      && (var s := ScanFrom(p, r.value.tokens, UVHeader, 4, 2, 0, Scan([], 0));
          s.Success? && r.value.texUV == s.value.values)
  {
    var l0 := ReadSourceFile(EmptyLoader, lines);
    assert l0 == EmptyLoader.(tokens := Tokenise(lines));
    var l1 :- ReadMeshTokens(p, l0);
    ghost var toks := Tokenise(lines);
    assert l1.tokens == toks && l1.normals == [] && l1.texUV == [] && |l1.indices| % 3 == 0;
    var l2 :- ReadMeshNormalTokens(p, l1);
    assert l2 == l1.(normals := l2.normals);
    var l3 :- ReadMeshTextureUVTokens(p, l2);
    assert l3 == l2.(texUV := l3.texUV);
    r := Success(l3);
  }

  /** Point m of a flat x, y, z list. */
  function Point(xs: seq<real>, m: int): Vec3
    requires 0 <= m && 3 * m + 2 < |xs|
  {
    Vec3(xs[3 * m], xs[3 * m + 1], xs[3 * m + 2])
  }

  /** Coordinate pair m of a flat u, v list. */
  function UV(uvs: seq<real>, m: int): Vec2
    requires 0 <= m && 2 * m + 1 < |uvs|
  {
    Vec2(uvs[2 * m], uvs[2 * m + 1])
  }

  // ---------------------------------------------------------------------
  // CubeImport
  // ---------------------------------------------------------------------

  /** The white every cube vertex is given. */
  const White: Vec4 := Vec4(1.0, 1.0, 1.0, 1.0)

  /** Index m names a vertex, a normal and a texture coordinate. */
  predicate CubeFits(l: Loader, m: int) {
    0 <= m && 3 * m + 2 < |l.vertices| && 3 * m + 2 < |l.normals| && 2 * m + 1 < |l.texUV|
  }

  /** A point with Y and Z exchanged, as a homogeneous point. */
  function SwapYZ(v: Vec3): Vec4 {
    Vec4(v.x, v.z, v.y, 1.0)
  }

  /**
   * The loop of `CubeImport.Initialise`: entry n is the vertex, normal and
   * texture coordinate its index names, Y and Z swapped, w = 1, white.  An
   * index that names nothing makes the source throw, hence the precondition.
   */
  method CubeVertices(l: Loader) returns (vt: seq<Vertex>)
    requires forall n :: 0 <= n < |l.indices| ==> CubeFits(l, l.indices[n])
    ensures |vt| == |l.indices|
    ensures forall n :: 0 <= n < |vt| ==>
      var m := l.indices[n];
      && CubeFits(l, m)
      && vt[n].position == Vec4(l.vertices[3 * m], l.vertices[3 * m + 2], l.vertices[3 * m + 1], 1.0)
      && vt[n].normal == Vec4(l.normals[3 * m], l.normals[3 * m + 2], l.normals[3 * m + 1], 1.0)
      && vt[n].texUV == Vec2(l.texUV[2 * m], l.texUV[2 * m + 1])
      && vt[n].colour == White
  {
    vt := seq(|l.indices|, _ => ZeroVertex);
    var n := 0;
    while n < |l.indices|
      invariant 0 <= n <= |l.indices| && |vt| == |l.indices|
      invariant forall k :: 0 <= k < n ==>
        var m := l.indices[k];
        vt[k] == Vertex(SwapYZ(Point(l.vertices, m)), SwapYZ(Point(l.normals, m)), UV(l.texUV, m), White)
    {
      var m := l.indices[n];
      vt := vt[n := Vertex(SwapYZ(Point(l.vertices, m)), SwapYZ(Point(l.normals, m)), UV(l.texUV, m), White)];
      n := n + 1;
    }
  }

  /** Swapping back recovers the loaded point and normal: the de-indexing loses nothing. */
  lemma CubeRecoversMesh(l: Loader, vt: seq<Vertex>, n: int)
    requires forall k :: 0 <= k < |l.indices| ==> CubeFits(l, l.indices[k])
    requires |vt| == |l.indices| && 0 <= n < |vt|
    requires var m := l.indices[n];
      && CubeFits(l, m)
      && vt[n].position == Vec4(l.vertices[3 * m], l.vertices[3 * m + 2], l.vertices[3 * m + 1], 1.0)
      && vt[n].normal == Vec4(l.normals[3 * m], l.normals[3 * m + 2], l.normals[3 * m + 1], 1.0)
    ensures var m := l.indices[n];
      && Vec3(vt[n].position.x, vt[n].position.z, vt[n].position.y) == Point(l.vertices, m)
      && Vec3(vt[n].normal.x, vt[n].normal.z, vt[n].normal.y) == Point(l.normals, m)
  {
  }

  /** Entries with the same index are the same vertex. */
  lemma CubeSharedIndex(l: Loader, vt: seq<Vertex>, n1: int, n2: int)
    requires forall k :: 0 <= k < |l.indices| ==> CubeFits(l, l.indices[k])
    requires |vt| == |l.indices| && 0 <= n1 < |vt| && 0 <= n2 < |vt|
    requires forall n :: 0 <= n < |vt| ==>
      var m := l.indices[n];
      && CubeFits(l, m)
      && vt[n].position == Vec4(l.vertices[3 * m], l.vertices[3 * m + 2], l.vertices[3 * m + 1], 1.0)
      && vt[n].normal == Vec4(l.normals[3 * m], l.normals[3 * m + 2], l.normals[3 * m + 1], 1.0)
      && vt[n].texUV == Vec2(l.texUV[2 * m], l.texUV[2 * m + 1])
      && vt[n].colour == White
    requires l.indices[n1] == l.indices[n2]
    ensures vt[n1] == vt[n2]
  {
  }

  // ---------------------------------------------------------------------
  // Skydome
  // ---------------------------------------------------------------------

  /** The skydome vertex: a position and a texture coordinate only. */
  datatype SkyVertex = SkyVertex(position: Vec4, texUV: Vec2)

  const SkyScale: real := 256.0
  const SkyDrop: real := 50.0

  predicate SkyFits(l: Loader, m: int) {
    0 <= m && 3 * m + 2 < |l.vertices| && 2 * m + 1 < |l.texUV|
  }

  /**
   * The loop of `Skydome.Initialise`: entry n is its index's point, Y and Z
   * swapped, scaled by 256 and lowered by 50, with its texture coordinate.
   */
  method SkyVertices(l: Loader) returns (vt: seq<SkyVertex>)
    requires forall n :: 0 <= n < |l.indices| ==> SkyFits(l, l.indices[n])
    ensures |vt| == |l.indices|
    ensures forall n :: 0 <= n < |vt| ==>
      var m := l.indices[n];
      && SkyFits(l, m)
      && vt[n].position == Vec4(l.vertices[3 * m] * SkyScale, l.vertices[3 * m + 2] * SkyScale - SkyDrop,
                                l.vertices[3 * m + 1] * SkyScale, 1.0)
      && vt[n].texUV == Vec2(l.texUV[2 * m], l.texUV[2 * m + 1])
  {
    vt := seq(|l.indices|, _ => SkyVertex(Vec4(0.0, 0.0, 0.0, 0.0), Vec2(0.0, 0.0)));
    var n := 0;
    while n < |l.indices|
      invariant 0 <= n <= |l.indices| && |vt| == |l.indices|
      invariant forall k :: 0 <= k < n ==> vt[k] == SkyPoint(l, l.indices[k])
    {
      vt := vt[n := SkyPoint(l, l.indices[n])];
      n := n + 1;
    }
  }

  function SkyPoint(l: Loader, m: int): SkyVertex
    requires SkyFits(l, m)
  {
    var p := Point(l.vertices, m);
    SkyVertex(Vec4(p.x * SkyScale, p.z * SkyScale - SkyDrop, p.y * SkyScale, 1.0), UV(l.texUV, m))
  }

  /** Undoing the lowering, the scale and the swap recovers the loaded point. */
  lemma SkyRecoversMesh(l: Loader, vt: seq<SkyVertex>, n: int)
    requires forall k :: 0 <= k < |l.indices| ==> SkyFits(l, l.indices[k])
    requires |vt| == |l.indices| && 0 <= n < |vt|
    requires var m := l.indices[n];
      && SkyFits(l, m)
      && vt[n].position == Vec4(l.vertices[3 * m] * SkyScale, l.vertices[3 * m + 2] * SkyScale - SkyDrop,
                             l.vertices[3 * m + 1] * SkyScale, 1.0)
    ensures var q := vt[n].position;
      Vec3(q.x / SkyScale, q.z / SkyScale, (q.y + SkyDrop) / SkyScale) == Point(l.vertices, l.indices[n])
  {
  }
}
