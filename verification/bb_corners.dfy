/**
 * `BBCorners`: the bounding box of the terrain and a 20-vertex line strip
 * over its eight corners.  The corners come from SharpDX's
 * `BoundingBox.GetCorners`, so they are a parameter here: eight points in
 * the library's order.
 */
module BBCorners {
  import opened Vectors

  /** SharpDX's `BoundingBox`, kept as the two points it is built from. */
  datatype Box = Box(minimum: Vec3, maximum: Vec3)

  /** The strip's vertex positions and the box. */
  datatype BBCorners = BBCorners(box: Box, strip: seq<Vec4>)

  /** Which corner each of the twenty strip entries takes. */
  const Strip: seq<int> := [0, 1, 2, 3, 0, 4, 7, 3, 0, 1, 5, 4, 7, 6, 5, 1, 2, 6, 7, 3]

  /** Every entry names one of the eight corners; the strip starts at corner 0 and ends at corner 3. */
  lemma StripNamesCorners()
    ensures |Strip| == 20
    ensures forall k :: 0 <= k < |Strip| ==> 0 <= Strip[k] < 8
    ensures Strip[0] == 0 && Strip[19] == 3
  {
  }

  /** The constructor: entry k is corner Strip[k] with w = 1. */
  function NewBBCorners(minV: Vec3, maxV: Vec3, corners: seq<Vec3>): (r: BBCorners)
    requires |corners| == 8
    ensures r.box == Box(minV, maxV)
    ensures |r.strip| == 20
    ensures forall k :: 0 <= k < 20 ==> r.strip[k] == Point4(corners[Strip[k]])
  {
    StripNamesCorners();
    BBCorners(Box(minV, maxV), seq(20, k requires 0 <= k < 20 => Point4(corners[Strip[k]])))
  }

  /** Each of the eight corners is drawn at least once. */
  lemma EveryCornerDrawn(minV: Vec3, maxV: Vec3, corners: seq<Vec3>, c: int)
    requires |corners| == 8 && 0 <= c < 8
    ensures exists k :: 0 <= k < 20 && NewBBCorners(minV, maxV, corners).strip[k] == Point4(corners[c])
  {
    var at := [0, 1, 2, 3, 5, 10, 13, 6];
    assert Strip[at[c]] == c;
    assert NewBBCorners(minV, maxV, corners).strip[at[c]] == Point4(corners[c]);
  }

  /** `getBB8Corners`. */
  function GetBB8Corners(b: BBCorners): seq<Vec4> { b.strip }

  /** `getBoundingBox`. */
  function GetBoundingBox(b: BBCorners): Box { b.box }

  /** The getters hand back what the constructor was given, unchanged. */
  lemma GettersReturnConstructed(minV: Vec3, maxV: Vec3, corners: seq<Vec3>)
    requires |corners| == 8
    ensures var b := NewBBCorners(minV, maxV, corners);
      && GetBoundingBox(b) == Box(minV, maxV)
      && |GetBB8Corners(b)| == 20
      && forall k :: 0 <= k < 20 ==>
           (GetBB8Corners(b)[k].w == 1.0
            && Vec3(GetBB8Corners(b)[k].x, GetBB8Corners(b)[k].y, GetBB8Corners(b)[k].z) == corners[Strip[k]])
  {
  }
}
