/**
 * `ArcCamera`'s clamped state: a zoom distance kept between two bounds and a
 * pair of rotation angles.  The view matrix is SharpDX geometry and is not
 * part of this model.  Every operation returns the camera it leaves behind.
 */
module ArcCamera {
  import opened Vectors

  datatype ArcCamera = ArcCamera(
    position: Vec3, target: Vec3,
    distance: real, minDistance: real, maxDistance: real,
    xRotation: real, yRotation: real, yMin: real, yMax: real)

  /** pi / 2 as the float the constructor computes: `(float)Math.PI / 2.0f`. */
  const HalfPi: real := 1.57079637050628662109375

  /** The margin `ApplyRotation` keeps from a bound it hits. */
  const Snap: real := 0.0001

  /** `if (v < lo) v = lo; if (v > hi) v = hi;`, in that order. */
  function Clamp(v: real, lo: real, hi: real): (r: real)
    ensures r <= hi
    ensures lo <= hi ==> lo <= r
    ensures lo <= v <= hi ==> r == v
    ensures r == v || r == lo || r == hi
  {
    var a := if v < lo then lo else v;
    if a > hi then hi else a
  }

  /** Clamping a clamped value again changes nothing. */
  lemma ClampIdempotent(v: real, lo: real, hi: real)
    requires lo <= hi
    ensures Clamp(Clamp(v, lo, hi), lo, hi) == Clamp(v, lo, hi)
  {
  }

  /** With the bounds crossed, the upper bound wins, because it is checked last. */
  lemma ClampCrossed(v: real, lo: real, hi: real)
    requires hi < lo
    ensures Clamp(v, lo, hi) == hi
  {
  }

  /** The distance lies between its bounds. */
  predicate ValidDistance(c: ArcCamera) {
    c.minDistance <= c.distance <= c.maxDistance
  }

  /** `SetDistance`: store the bounds and the distance clamped into them; nothing else changes. */
  function SetDistance(c: ArcCamera, dist: real, minDist: real, maxDist: real): (r: ArcCamera)
    ensures r == c.(distance := r.distance, minDistance := minDist, maxDistance := maxDist)
    ensures minDist <= maxDist ==> ValidDistance(r)
    ensures minDist <= dist <= maxDist ==> r.distance == dist
    ensures r.distance == dist || r.distance == minDist || r.distance == maxDist
  {
    c.(distance := Clamp(dist, minDist, maxDist), minDistance := minDist, maxDistance := maxDist)
  }

  /** `SetRotation`: store x as given and the bounds, and clamp y into them. */
  function SetRotation(c: ArcCamera, x: real, y: real, minY: real, maxY: real): (r: ArcCamera)
    ensures r == c.(xRotation := x, yRotation := r.yRotation, yMin := minY, yMax := maxY)
    ensures minY <= maxY ==> minY <= r.yRotation <= maxY
    ensures minY <= y <= maxY ==> r.yRotation == y
    ensures r.yRotation == y || r.yRotation == minY || r.yRotation == maxY
  {
    c.(xRotation := x, yRotation := Clamp(y, minY, maxY), yMin := minY, yMax := maxY)
  }

  /** `SetTarget`: only the target changes. */
  function SetTarget(c: ArcCamera, tgt: Vec3): (r: ArcCamera)
    ensures r.target == tgt && r == c.(target := r.target)
  {
    c.(target := tgt)
  }

  /**
   * `ApplyZoom`: add the delta to the distance and clamp it into the stored
   * bounds, which do not change; a step that stays in range is taken exactly.
   */
  function ApplyZoom(c: ArcCamera, zoomDelta: real): (r: ArcCamera)
    ensures r == c.(distance := r.distance)
    ensures c.minDistance <= c.maxDistance ==> ValidDistance(r)
    ensures c.minDistance <= c.distance + zoomDelta <= c.maxDistance ==> r.distance == c.distance + zoomDelta
    ensures c.distance + zoomDelta < c.minDistance && c.minDistance <= c.maxDistance ==> r.distance == c.minDistance
    ensures c.distance + zoomDelta > c.maxDistance ==> r.distance == c.maxDistance
  {
    c.(distance := Clamp(c.distance + zoomDelta, c.minDistance, c.maxDistance))
  }

  /** Zooming in range and back returns to the same camera. */
  lemma ZoomUndo(c: ArcCamera, d: real)
    requires ValidDistance(c) && c.minDistance <= c.distance + d <= c.maxDistance
    ensures ApplyZoom(ApplyZoom(c, d), -d) == c
  {
  }

  /**
   * `ApplyRotation`: the yaw is added to yRotation with no clamp; the pitch is
   * added to xRotation, which is then kept inside the yMin/yMax bounds by
   * snapping to just inside the bound it crossed.
   */
  function ApplyRotation(c: ArcCamera, yawDelta: real, pitchDelta: real): (r: ArcCamera)
    ensures r == c.(xRotation := r.xRotation, yRotation := c.yRotation + yawDelta)
    ensures c.yMin <= c.xRotation + pitchDelta <= c.yMax ==> r.xRotation == c.xRotation + pitchDelta
    ensures c.xRotation + pitchDelta < c.yMin && c.yMin + Snap <= c.yMax ==> r.xRotation == c.yMin + Snap
    ensures c.xRotation + pitchDelta > c.yMax ==> r.xRotation == c.yMax - Snap
    ensures c.yMin + 2.0 * Snap <= c.yMax ==> c.yMin <= r.xRotation <= c.yMax
  {
    var x := c.xRotation + pitchDelta;
    var x1 := if x < c.yMin then c.yMin + Snap else x;
    var x2 := if x1 > c.yMax then c.yMax - Snap else x1;
    c.(xRotation := x2, yRotation := c.yRotation + yawDelta)
  }

  /** Turning by a yaw and back restores the camera when the pitch is left alone and in range. */
  lemma YawUndo(c: ArcCamera, yaw: real)
    requires c.yMin <= c.xRotation <= c.yMax
    ensures ApplyRotation(ApplyRotation(c, yaw, 0.0), -yaw, 0.0) == c
  {
  }

  /**
   * The constructor: looking at the origin from (50, 30, 40), distance 5 within
   * [1, 200], both angles 0 and rotation bounds -pi/2 and pi/2.
   */
  function NewArcCamera(): (c: ArcCamera)
    ensures c.target == Zero3 && c.position == Vec3(50.0, 30.0, 40.0)
    ensures c.distance == 5.0 && c.minDistance == 1.0 && c.maxDistance == 200.0 && ValidDistance(c)
    ensures c.xRotation == 0.0 && c.yRotation == 0.0 && c.yMin == -HalfPi && c.yMax == HalfPi
  {
    var c0 := ArcCamera(Vec3(50.0, 30.0, 40.0), Zero3, 0.0, 0.0, 0.0, 0.0, 0.0, 0.0, 0.0);
    var c1 := SetDistance(c0, 5.0, 1.0, 200.0);
    SetRotation(c1, 0.0, 0.0, -HalfPi, HalfPi)
  }

  /** From the constructor on, any sequence of zooms keeps the distance in [1, 200]. */
  lemma {:induction false} ZoomsStayInRange(c: ArcCamera, deltas: seq<real>)
    requires c.minDistance == 1.0 && c.maxDistance == 200.0 && ValidDistance(c)
    ensures var r := Zooms(c, deltas);
      r.minDistance == 1.0 && r.maxDistance == 200.0 && 1.0 <= r.distance <= 200.0
    decreases |deltas|
  {
    if |deltas| > 0 {
      ZoomsStayInRange(ApplyZoom(c, deltas[0]), deltas[1..]);
    }
  }

  /** The camera after zooming by each delta in turn. */
  function Zooms(c: ArcCamera, deltas: seq<real>): ArcCamera
    decreases |deltas|
  {
    if |deltas| == 0 then c else Zooms(ApplyZoom(c, deltas[0]), deltas[1..])
  }
}
