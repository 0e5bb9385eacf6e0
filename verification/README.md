# Swordfish terrain core in Dafny

Swordfish is a small SharpDX demo engine. Nearly all of it is device, shader and input glue. This project models the parts that are pure logic, in these modules:

- **`TerrainEngine`** (`terrain_engine.dfy`, built on `HeightfieldGrid`, `RandomSource`, `MidpointDisplacement`, `GridPasses` and `NormalEstimator`). It is the heightfield generator. It allocates an N x N grid of cells, each at (i, 0, j) with a zero normal and a grey colour. It then runs these passes in order:
  - recursive random midpoint displacement (`RMPD`, `RMPD2`, `MID`, `MID_CTR`, `ASG_HMAP`);
  - a Perlin-noise overlay;
  - translation to the origin (`TTO`);
  - face normals (`setNormals`, `calculateV`, `crossProd`, `calculateNormal`, `assignNormals`);
  - the snapshot-based 3 x 3 normal filter (`vertexNormals`).

  The in-place `smooth` filter is modelled too. The constructor has its calls commented out, so the pipeline does not run it.
- **`XMeshLoader`** (`x_mesh_loader.dfy`). It is the text `.x` token reader `X_Mesh_Loader`:
  - it splits lines on space, comma, semicolon and tab, and drops empty pieces;
  - it scans for `Mesh {`, `MeshNormals {` and `MeshTextureCoords {` blocks;
  - it reads the face index list after the last vertex block.
- **`MeshImport`** (`mesh_import.dfy`). It holds the loading sequence that `CubeImport` and `Skydome` run, and their de-indexing loops. Both loops swap Y and Z. The skydome loop also scales by 256 and lowers by 50.
- **`TerrainMesh`** (`terrain_mesh.dfy`). It holds the mesh that `Terrain.Initialise` builds from the heightmap:
  - the flat `w * i + j` vertex array with running bounds;
  - the six-vertex-per-quad triangle list;
  - `getMin` and `getMax`;
  - the camera ground clamp of `Terrain.Update`.
- **`ArcCamera`** (`arc_camera.dfy`). It models the clamped zoom distance and rotation state of the orbit camera.
- **`BBCorners`** (`bb_corners.dfy`). It holds the 20-entry line strip over a bounding box's eight corners.

Modelling conventions:

- Floats are `real`.
- `System.Random` is a counter of draws. What each draw returns comes from an `Oracle` value, which also supplies Box–Muller, Perlin noise, `Math.Pow` and `Math.Sqrt`.
- Grids are `seq<seq<Cell>>`, and each pass returns the new grid.
- Where the loader throws, the model returns a `Failure`. This covers a token index past the end of the list and a failed number conversion.
- `calculateNormal` divides by the normal's magnitude. When that magnitude is 0, C# float division throws nothing: it yields NaN or infinity. The model returns a `Failure` naming the degenerate face instead (see "Left out").
- The index bounds that the de-indexing loops of `CubeImport` and `Skydome` need are preconditions, as are the grid bounds of the heightmap writes. The source would throw on a violation.

## Model

| member | source | states |
|---|---|---|
| RandomSource.Sign | Swordfish/TerrainEngine.cs:211-221 | The result is +1 exactly when the `Next(0, 2)` draw is even, and -1 otherwise. It consumes one draw. |
| RandomSource.NormalDist | Swordfish/TerrainEngine.cs:541-551 | The sample minus the mean equals sigma times the Box–Muller value of the next two uniform draws. It consumes two draws. |
| RandomSource.RandomHeight | Swordfish/TerrainEngine.cs:201-208 | A normal sample with mean `range` and deviation `range / 32`. It consumes two draws. |
| HeightfieldGrid.InitialGrid | Swordfish/TerrainEngine.cs:46-58 | An N x N lattice: cell (i, j) has X = i, Z = j, Y = 0, a zero normal and the grey colour. |
| HeightfieldGrid.Trunc | Swordfish/TerrainEngine.cs:509-511 | C#'s `(int)` of a float: the integer next to x toward zero. |
| MidpointDisplacement.RndMid | Swordfish/TerrainEngine.cs:495-499 | The mean of the three heights, displaced by plus or minus TSCALE times a random height. It consumes three draws. |
| MidpointDisplacement.RndCtr | Swordfish/TerrainEngine.cs:501-505 | The mean of the four heights, displaced by plus or minus a random height. It consumes three draws. |
| MidpointDisplacement.MidCtr | Swordfish/TerrainEngine.cs:532-538 | The centre lies at the mean X and Z of the four corners. Its height is RND_CTR of the four corner heights, which is their mean plus or minus the random height of the second draw. It consumes three draws. |
| MidpointDisplacement.Mid | Swordfish/TerrainEngine.cs:515-529 | First writer wins. A stored height other than 0 is reused and no draw is made. Only a stored 0 is recomputed with `RND_MID`. X and Z are the edge's means. |
| MidpointDisplacement.Assign | Swordfish/TerrainEngine.cs:507-512 | The cell named by the truncated X and Z receives the point. Every other cell, and every normal and colour, is unchanged. |
| MidpointDisplacement.Midpoints5 | Swordfish/TerrainEngine.cs:160-172 | On a square of side 2h, the centre and the four edge midpoints sit at their lattice points. The centre's height is RND_CTR of the corner heights at the starting generator state. Each edge midpoint keeps a height already stored there. The edges are visited left, right, top, bottom. An edge whose stored height is 0 gets RND_MID of its two corners and the centre, at the generator state after three draws for the centre and three for each earlier fresh edge. The total is 3 to 15 draws. |
| MidpointDisplacement.Write9 | Swordfish/TerrainEngine.cs:180-188 | The nine `ASG_HMAP` calls leave the nine points in their cells and nothing else changed. |
| MidpointDisplacement.StepKeeps | Swordfish/TerrainEngine.cs:177-188 | On a square whose inside is still unset, and whose corners agree with what is stored, one step keeps every height already set. |
| MidpointDisplacement.BesideCompose | Swordfish/TerrainEngine.cs:193-196 | The confinement and height-keeping facts of two side-by-side quadrant calls combine into those of the pair. |
| MidpointDisplacement.QuadrantsCompose | Swordfish/TerrainEngine.cs:193-196 | The facts of the top and bottom pairs combine into those of the whole square. |
| MidpointDisplacement.Rmpd2 | Swordfish/TerrainEngine.cs:146-198 | Requires a square of side 2^k, k >= 1. The recursion terminates and every write stays inside the grid. Every cell of the square ends with X = row and Z = column. Nothing outside the square changes, and the corners hold the corner points. On an unset inside, heights already set survive. |
| MidpointDisplacement.WriteAndRecurse | Swordfish/TerrainEngine.cs:176-197 | Once the five points are drawn, the nine writes and the quadrant recursion stay inside the square. They keep the corners, and on an unset inside they keep heights already set. They draw only forward. |
| MidpointDisplacement.Quadrants | Swordfish/TerrainEngine.cs:191-197 | The four recursive calls, in order, are together confined to the square and keep its corners. |
| MidpointDisplacement.Pair | Swordfish/TerrainEngine.cs:193-196 | Two side-by-side recursive calls are confined to their rectangle and keep its six points. |
| MidpointDisplacement.Rmpd | Swordfish/TerrainEngine.cs:110-143 | Requires N - 1 to be a power of two. The whole grid ends as a lattice with normals and colours untouched. The four corners hold the heights drawn for them in the order TL, TR, BL, BR. |
| GridPasses.NoiseOverlay | Swordfish/TerrainEngine.cs:67-88 | Each cell's X, Y and Z grow by the same noise offset, computed from (i, j) and the prior height. So X - Z is unchanged, and normals and colours are untouched. |
| GridPasses.CentreOffset | Swordfish/TerrainEngine.cs:233-234 | C#'s truncating `(N - 1) / 2`: twice the result is N - 1 or N - 2. |
| GridPasses.Tto | Swordfish/TerrainEngine.cs:224-236 | X and Z of every cell drop by the offset, and Y, normal and colour are unchanged. An odd lattice ends centred on the origin, with opposite corners opposite. |
| GridPasses.TtoCentre | Swordfish/TerrainEngine.cs:224-236 | After the shift, an odd lattice's middle cell is at the origin and its corners are mirror images. |
| GridPasses.Smooth | Swordfish/TerrainEngine.cs:239-259 | An in-place row-major sweep. Each interior height becomes the 9-cell sum / 9 as read at that moment, with cells already visited holding their new height. Border cells and all X, Z, normals and colours are untouched. |
| GridPasses.SmoothStep | Swordfish/TerrainEngine.cs:245-257 | One write of the sweep keeps everything said about earlier cells and adds the current cell. |
| GridPasses.SmoothFlat | Swordfish/TerrainEngine.cs:239-259 | A field of equal heights is a fixed point of the filter. |
| NormalEstimator.CalculateV | Swordfish/TerrainEngine.cs:300-309 | As written, X is overwritten with the Z difference, so the vector is (dZ, dY, 0). |
| NormalEstimator.CrossProd | Swordfish/TerrainEngine.cs:288-297 | The result is perpendicular to both arguments. |
| NormalEstimator.CrossAnticommutes | Swordfish/TerrainEngine.cs:288-297 | Swapping the arguments negates the result. |
| NormalEstimator.EdgeCross | Swordfish/TerrainEngine.cs:288-309 | The cross product of two `calculateV` vectors has zero X and Y, and Z = a*d - c*b. |
| NormalEstimator.FlatFaceDegenerate | Swordfish/TerrainEngine.cs:313-341 | A face with three equal heights has a zero cross product. |
| NormalEstimator.FlatFaceNone | Swordfish/TerrainEngine.cs:313-341 | Given `Math.Sqrt(0) == 0`, a face with three equal heights has magnitude 0. That is the source's divide-by-zero, and `calculateNormal` gives None. |
| NormalEstimator.CalculateNormal | Swordfish/TerrainEngine.cs:313-341 | None exactly when the magnitude is 0. Otherwise the normal is the cross product divided by its magnitude, with X = Y = 0. |
| NormalEstimator.Merge | Swordfish/TerrainEngine.cs:344-360 | A zero normal takes the face normal. Any other normal moves to the midpoint between itself and the face normal. |
| NormalEstimator.MergeSame | Swordfish/TerrainEngine.cs:352-359 | Merging a normal into itself leaves it unchanged. |
| NormalEstimator.AssignNormals | Swordfish/TerrainEngine.cs:344-360 | Only cell (i, j)'s normal changes, by Merge. |
| NormalEstimator.RowVisitsShape | Swordfish/TerrainEngine.cs:268-282 | Every call in a row targets a corner of its quad, and only the second triangle targets (i+1, j+1). |
| NormalEstimator.VisitsShape | Swordfish/TerrainEngine.cs:266-283 | Every call of the nested loops has its quad in range and its target on a corner of that quad. Only the second triangle goes to (i+1, j+1). |
| NormalEstimator.ReachesEveryCell | Swordfish/TerrainEngine.cs:266-283 | Every cell of an N x N grid, N >= 2, is the target of at least one call. |
| NormalEstimator.ApplyVisitsSpec | Swordfish/TerrainEngine.cs:270-281 | Applying the calls fails exactly when one of them meets a degenerate face. Otherwise only normals change. |
| NormalEstimator.LevelQuadDegenerate | Swordfish/TerrainEngine.cs:262-341 | Given `Math.Sqrt(0) == 0`, a grid whose first quad has three equal heights at (0, 0), (0, 1) and (1, 0) is degenerate, so `setNormals` fails on it. |
| NormalEstimator.SetNormals | Swordfish/TerrainEngine.cs:262-285 | Fails exactly when some triangle of the grid is degenerate. Otherwise positions and colours are unchanged. |
| NormalEstimator.ApplyVisitsNormals | Swordfish/TerrainEngine.cs:270-281 | When the calls succeed, each cell's normal is its starting normal with the face normal of every call that targets it merged in, in call order. |
| NormalEstimator.SetNormalsMerges | Swordfish/TerrainEngine.cs:262-285 | On success, cell (a, b)'s normal is its starting normal with the face normals of the loops' calls on (a, b) merged in, in row-major order. |
| NormalEstimator.MergedAtOnZAxis | Swordfish/TerrainEngine.cs:300-360 | Face normals have X = Y = 0, so merging them into a normal with X = Y = 0 keeps it so. |
| NormalEstimator.SetNormalsOnZAxis | Swordfish/TerrainEngine.cs:262-360 | Because `calculateV` drops the X difference, `setNormals` on normals with X = Y = 0 (the constructor's zero normals) produces only normals with X = Y = 0. |
| NormalEstimator.VertexNormalsOnZAxis | Swordfish/TerrainEngine.cs:389-425 | The 3 x 3 filter keeps every normal with X = Y = 0. |
| NormalEstimator.VertexNormals | Swordfish/TerrainEngine.cs:363-427 | Each interior normal becomes the mean of the nine normals of the pre-pass snapshot, so visiting order does not matter. Border cells and all positions and colours are unchanged. |
| NormalEstimator.NormalRow | Swordfish/TerrainEngine.cs:389-425 | One interior row of the filter reads only the snapshot. |
| NormalEstimator.VertexNormalsKeepConstant | Swordfish/TerrainEngine.cs:389-425 | A grid whose normals are all equal keeps them equal. |
| TerrainEngine.TerrainSizeFits | Swordfish/TerrainEngine.cs:35 | 129 - 1 = 2^7, so the recursion covers the whole grid. |
| TerrainEngine.Generate | Swordfish/TerrainEngine.cs:32-101 | The constructor. `displaced` is the lattice that midpoint displacement leaves, with the corners holding draws 0, 2, 4 and 6. Each `placed` cell is its displaced cell with the noise offset h added to X, Y and Z and (N - 1) / 2 taken off X and Z, a zero normal and grey. The result fails exactly when `placed` has a degenerate face, i.e. when `setNormals` fails on it. On success the positions are `placed`'s. Interior normals are the mean of the nine face normals around them, and border normals are the face normals. Every normal has X = Y = 0. |
| TerrainEngine.Pipeline | Swordfish/TerrainEngine.cs:46-101 | The same passes and the same intermediate grids for any N with N - 1 a power of two. |
| TerrainEngine.LatticePlaced | Swordfish/TerrainEngine.cs:61 | After midpoint displacement every cell has X - Z = i - j and the initial grey. |
| TerrainEngine.NormalsPlaced | Swordfish/TerrainEngine.cs:97-100 | Neither normal pass moves or recolours a cell. |
| XMeshLoader.Split | Swordfish/X_Mesh_Loader.cs:34-50 | `String.Split`: one more piece than delimiters, and no piece contains a delimiter. |
| XMeshLoader.SplitJoin | Swordfish/X_Mesh_Loader.cs:50 | Gluing the pieces back with the delimiters found gives the line back. |
| XMeshLoader.NonEmptyFrom | Swordfish/X_Mesh_Loader.cs:52-61 | Every kept piece is one of the line's pieces. |
| XMeshLoader.TokensWellFormed | Swordfish/X_Mesh_Loader.cs:43-64 | No token is empty or contains a delimiter. |
| XMeshLoader.TokeniseAppend | Swordfish/X_Mesh_Loader.cs:43-64 | The tokens of a file are the tokens of its first part followed by those of the rest, in line order. |
| XMeshLoader.ReadSourceFile | Swordfish/X_Mesh_Loader.cs:30-65 | The tokens of every line are appended in line order, and the output lists are untouched. |
| XMeshLoader.LineTokens | Swordfish/X_Mesh_Loader.cs:50-61 | One line's tokens are its split pieces with the empty ones dropped. |
| XMeshLoader.ReadInt | Swordfish/X_Mesh_Loader.cs:108-111 | Fails exactly when the index is outside the list or the token is not an int. Otherwise returns its value. |
| XMeshLoader.ReadReal | Swordfish/X_Mesh_Loader.cs:95-97 | Fails exactly when the index is outside the list or the token is not a float. Otherwise returns its value. |
| XMeshLoader.ReadRealsSpec | Swordfish/X_Mesh_Loader.cs:93-99 | Reading m floats succeeds exactly when the m tokens exist and parse. It then yields their values in order. |
| XMeshLoader.ScanAppends | Swordfish/X_Mesh_Loader.cs:74-101 | The scan only appends. Starting from earlier floats gives those floats followed by a fresh scan's floats, and any failure is the same. |
| XMeshLoader.NoHeaderNoBlock | Swordfish/X_Mesh_Loader.cs:74-101 | With no header word ahead, the scan reads nothing. |
| XMeshLoader.BlockRead | Swordfish/X_Mesh_Loader.cs:77-99 | At `header {` at i, the count is at i + 2 + skip and parses. Exactly width * count floats follow it. A successful scan keeps them in order after the earlier floats. |
| XMeshLoader.ScanReaches | Swordfish/X_Mesh_Loader.cs:74-101 | A successful scan passes through every later position, with floats that extend the ones it had. |
| XMeshLoader.BlockInScan | Swordfish/X_Mesh_Loader.cs:74-101 | In a successful scan from the start, every `header {` block's count parses. Its width * count floats, read from the tokens after the count, appear in order among the scan's floats. |
| XMeshLoader.HeadersDistinct | Swordfish/X_Mesh_Loader.cs:68-77 | The header words `Mesh`, `MeshNormals` and `MeshTextureCoords` differ, so no reader fires on another block's header. |
| XMeshLoader.ReadFacesSpec | Swordfish/X_Mesh_Loader.cs:114-126 | Each face skips one token and then yields three ints from the next three tokens. |
| XMeshLoader.ReadFacesOverrun | Swordfish/X_Mesh_Loader.cs:114-126 | A face whose corner token is missing fails the read. |
| XMeshLoader.ReadIndexTokens | Swordfish/X_Mesh_Loader.cs:108-127 | On success the count at pos parses and indices grow by exactly three per face, from the corner tokens. Earlier indices are kept and nothing else changes. An out-of-range pos fails there. |
| XMeshLoader.ReadMeshTokens | Swordfish/X_Mesh_Loader.cs:68-105 | Succeeds exactly when the `Mesh` scan and the face read after it both succeed. Vertices grow by the floats of every `Mesh {` block: 3 header tokens skipped, 3 floats per vertex. The faces are read from just after the last block, or from 0. |
| XMeshLoader.ReadMeshNormalTokens | Swordfish/X_Mesh_Loader.cs:130-163 | Succeeds exactly when the `MeshNormals` scan does. Normals grow by its floats (3 skipped, 3 per normal) and nothing else changes. |
| XMeshLoader.ReadMeshTextureUVTokens | Swordfish/X_Mesh_Loader.cs:166-200 | Succeeds exactly when the `MeshTextureCoords` scan does. texUV grows by its floats (4 skipped, 2 per pair) and nothing else changes. |
| XMeshLoader.NormalsBlock | Swordfish/X_Mesh_Loader.cs:130-163 | After a successful call, every `MeshNormals {` block has its count five tokens on. The 3 * count floats after the count are appended, in order, to the normals. |
| XMeshLoader.UVBlock | Swordfish/X_Mesh_Loader.cs:166-200 | After a successful call, every `MeshTextureCoords {` block has its count six tokens on. The 2 * count floats after the count are appended, in order, to texUV. |
| XMeshLoader.NormalsTwice | Swordfish/X_Mesh_Loader.cs:156-158 | A second call appends the same normals again and never replaces the first ones. |
| XMeshLoader.NoMeshNoVertices | Swordfish/X_Mesh_Loader.cs:70-104 | Without a `Mesh` token no vertex is read, and faces are read from position 0. |
| XMeshLoader.HeaderLast | Swordfish/X_Mesh_Loader.cs:77 | A header word as the last token makes the scan fail, whatever blocks come before it. With no earlier header word, the `tokens[i + 1]` lookahead is the failure. |
| XMeshLoader.CountOverrun | Swordfish/X_Mesh_Loader.cs:89-98 | A count that runs past the end of the list fails the scan. |
| MeshImport.LoadMesh | Swordfish/CubeImport.cs:79-84 | Loading succeeds exactly when the vertex-and-face read of the file's tokens, the MeshNormals scan and the MeshTextureCoords scan all succeed. After loading, the tokens are the file's tokens. The indices are exactly the faces that read produced, a multiple of 3 in number. Vertices, normals and texUV are exactly what the three scans read. |
| MeshImport.CubeVertices | Swordfish/CubeImport.cs:111-133 | One vertex per index. Entry n holds the vertex and normal of index m with Y and Z swapped and w = 1, UV (uv[2m], uv[2m+1]) and colour white. Every index must fit all three lists. |
| MeshImport.CubeRecoversMesh | Swordfish/CubeImport.cs:114-124 | Swapping back recovers the loaded point and normal. |
| MeshImport.CubeSharedIndex | Swordfish/CubeImport.cs:111-133 | Entries with the same index are the same vertex. |
| MeshImport.SkyVertices | Swordfish/Skydome.cs:71-87 | One vertex per index. Entry n is (256 v[3m], 256 v[3m+2] - 50, 256 v[3m+1], 1) with UV (uv[2m], uv[2m+1]), and no normal. |
| MeshImport.SkyRecoversMesh | Swordfish/Skydome.cs:76-79 | Undoing the drop, the scale and the swap recovers the loaded point. |
| TerrainMesh.GetMin | Swordfish/Terrain.cs:130-138 | At most both arguments, and equal to one of them. |
| TerrainMesh.GetMax | Swordfish/Terrain.cs:141-149 | At least both arguments, and equal to one of them. |
| TerrainMesh.GetMinMaxTies | Swordfish/Terrain.cs:130-149 | `getMin` returns `value` exactly when value <= prevMin, so a tie leaves the old bound. `getMax` is symmetric, and `getMin` is `getMax` mirrored. |
| TerrainMesh.FlatInRange | Swordfish/Terrain.cs:167-173 | `w * i + j` lies in [0, w * w) for every cell. |
| TerrainMesh.FlatInjective | Swordfish/Terrain.cs:173 | Distinct cells get distinct places. |
| TerrainMesh.TerrainVertex | Swordfish/Terrain.cs:173-185 | Position and normal are the cell's with w = 1. |
| TerrainMesh.Widen | Swordfish/Terrain.cs:189-195 | The new bounds enclose both the old bounds and the point. |
| TerrainMesh.BuildVertices | Swordfish/Terrain.cs:158-197 | `vt[w * i + j]` is cell (i, j) as a vertex. `minV` is below every cell and 1000, and `maxV` is above every cell and -1000. Each component is the sentinel or some cell's. |
| TerrainMesh.QuadIndexInRange | Swordfish/Terrain.cs:204-280 | Each of the six indices computed for quad (i, j) is the flat place of a grid cell, so it lies within the array. |
| TerrainMesh.TriangleList | Swordfish/Terrain.cs:199-295 | The list has 6 * (w - 1)^2 entries. Corner t of quad (i, j) copies the vertex at its index, with its own UV and the triangle colour. |
| TerrainMesh.TrianglesOfGrid | Swordfish/Terrain.cs:199-295 | Read against the grid, quad (i, j) emits the points (i, j), (i, j+1), (i+1, j+1), (i+1, j+1), (i+1, j), (i, j). |
| TerrainMesh.GroundClamp | Swordfish/Terrain.cs:615-641 | The camera never drops. With no vertex under it, its height is unchanged. Otherwise the first vertex in row-major order whose truncated X and Z match decides: camY becomes that Y + 0.5 only when camY was below that Y. |
| TerrainMesh.FirstUnderUnique | Swordfish/Terrain.cs:636-640 | At most one vertex is the first under the camera. |
| ArcCamera.Clamp | Swordfish/ArcCamera.cs:37-45 | Never above the upper bound, and not below the lower bound when the bounds are ordered. A value in range is returned unchanged. |
| ArcCamera.ClampIdempotent | Swordfish/ArcCamera.cs:37-45 | Clamping twice is clamping once. |
| ArcCamera.ClampCrossed | Swordfish/ArcCamera.cs:37-45 | With crossed bounds the upper bound wins, because it is tested last. |
| ArcCamera.SetDistance | Swordfish/ArcCamera.cs:31-46 | Stores the bounds. With minDist <= maxDist the distance lands in [minDist, maxDist], equal to dist when dist is already in range. Nothing else changes. |
| ArcCamera.SetRotation | Swordfish/ArcCamera.cs:48-64 | Stores x as given and the bounds, and clamps y into [minY, maxY]. Nothing else changes. |
| ArcCamera.SetTarget | Swordfish/ArcCamera.cs:66-69 | Only the target changes. |
| ArcCamera.ApplyZoom | Swordfish/ArcCamera.cs:71-84 | The bounds never change and ordered bounds keep the distance inside them. An in-range step is taken exactly, and an overshoot lands on the bound it crossed. |
| ArcCamera.ZoomUndo | Swordfish/ArcCamera.cs:71-84 | Zooming in range and back restores the camera. |
| ArcCamera.ApplyRotation | Swordfish/ArcCamera.cs:86-100 | The yaw is added to yRotation unclamped. The pitch is added to xRotation, which snaps to yMin + 0.0001 or yMax - 0.0001 when it crosses a bound. So with yMin + 0.0002 <= yMax it stays inside. Nothing else changes. |
| ArcCamera.YawUndo | Swordfish/ArcCamera.cs:86-100 | Turning by a yaw and back restores the camera. |
| ArcCamera.NewArcCamera | Swordfish/ArcCamera.cs:22-29 | Target at the origin and position (50, 30, 40). Distance 5 within [1, 200], both angles 0, and rotation bounds -pi/2 and pi/2 as floats. |
| ArcCamera.ZoomsStayInRange | Swordfish/ArcCamera.cs:71-84 | Any sequence of zooms from bounds [1, 200] keeps the distance within them. |
| BBCorners.StripNamesCorners | Swordfish/BBCorners.cs:34-58 | The strip has 20 entries and each names one of the eight corners. It starts at corner 0 and ends at corner 3. |
| BBCorners.NewBBCorners | Swordfish/BBCorners.cs:21-59 | The box is built from (minV, maxV). Entry k is corner p[k] with w = 1, for p = 0,1,2,3, 0,4,7,3, 0,1,5,4, 7,6,5,1, 2,6,7,3. |
| BBCorners.EveryCornerDrawn | Swordfish/BBCorners.cs:35-58 | Each of the eight corners appears in the strip. |
| BBCorners.GettersReturnConstructed | Swordfish/BBCorners.cs:61-69 | `getBoundingBox` returns the box from (minV, maxV), and `getBB8Corners` returns the 20 stored corners with w = 1. |

## Left out

- Float rounding, NaN and infinities: every float is a real. The `(float)` casts between double and float are identities. Constants use their decimal values, except pi/2, which is the float value 1.57079637050628662109375 that `(float)Math.PI / 2.0f` computes.
- int32 overflow: the loader's `i + 5` and the mesh's `w * i + j` are unbounded. For token counts and grid sizes they stay far below 2^31.
- MeshImport.CubeVertices and MeshImport.SkyVertices: `3 * m` and `2 * m` are unbounded, while m is a face index read from the file. In C#, an index above 715827882 wraps `3 * m`: 1431655766 gives 2, so the source reads `vertices[2..4]`. The model's precondition rejects that index instead. It assumes exporter-produced files, whose indices name real vertices. An index out of range, which the source throws on, is likewise a precondition.
- `System.Random`, Box–Muller's `Math.Log` and `Math.Sin`, `PerlinNoise.noise`, `Math.Pow` and `Math.Sqrt` are library code. They are fields of an `Oracle` parameter, and the seed 11092016 only fixes which oracle applies.
- `File.ReadAllLines` and UTF-8 decoding: the file is a sequence of lines given as input.
- `Convert.ToInt32` and `Convert.ToSingle` are partial functions given as input (`Parsers`).
- NormalEstimator.CalculateNormal: the source divides by a zero magnitude and carries NaN normals on. The model returns None, and `setNormals` fails. Given how `calculateV` is written, a face of three equal heights has a zero cross product. The model takes `Math.Sqrt` from the oracle, so that face has magnitude 0 only when the oracle's square root of 0 is 0. `FlatFaceNone` and `LevelQuadDegenerate` state it under that condition.
- XMeshLoader.ReadMeshTokens, ReadIndexTokens, ReadMeshNormalTokens and ReadMeshTextureUVTokens: on a `Failure` the model drops the values the source appended before throwing. After a successful call the lists are exactly as the source leaves them.
- `smooth` is modelled, but the pipeline does not call it, because the constructor's calls are commented out.
- `ParticleDeposition` is dead code (its call is commented out) and is not modelled.
- `ArcCamera.GetViewMatrix`, FPSCamera.cs, `Terrain.rayPick` and all `Render`, `Update` and `CleanUp` code are SharpDX geometry, device or input handling. The ground clamp takes the camera position as a parameter and returns its new height.
- BBCorners.NewBBCorners: `BoundingBox.GetCorners` is library code, so the eight corners are a parameter in its order. The model does not prove that consecutive strip entries are box edges, because that depends on the library's corner order.
- The console `print*` methods of the loader and GameEngine.cs, Cube.cs, Triangle.cs, ImageLoader.cs and DXInput.cs are not part of this model.

Where the code and its comments or design differ, the model follows the code:

- `calculateV` assigns X twice, so edge vectors are (dZ, dY, 0), not (dX, dY, dZ), and every face normal is (0, 0, ±1).
- `smooth` is in place, so cells already visited contribute their new heights.
- `SetRotation` clamps `yRotation` against yMin and yMax, while `ApplyRotation` clamps `xRotation` against the same bounds.
