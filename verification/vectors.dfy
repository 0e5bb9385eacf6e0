/** The SharpDX vector structs used by the engine, with every float taken as a real. */
module Vectors {

  datatype Vec2 = Vec2(x: real, y: real)

  datatype Vec3 = Vec3(x: real, y: real, z: real)

  datatype Vec4 = Vec4(x: real, y: real, z: real, w: real)

  const Zero3: Vec3 := Vec3(0.0, 0.0, 0.0)

  /** `new Vector4(v, 1.0f)`: a point in homogeneous form. */
  function Point4(v: Vec3): (r: Vec4)
    ensures r.w == 1.0
    ensures Vec3(r.x, r.y, r.z) == v
  {
    Vec4(v.x, v.y, v.z, 1.0)
  }

  /** The vertex struct of the mesh classes: position, normal, texture coordinate and colour. */
  datatype Vertex = Vertex(position: Vec4, normal: Vec4, texUV: Vec2, colour: Vec4)

  /** The all-zero struct a fresh `Vertex[]` holds. */
  const ZeroVertex: Vertex := Vertex(Vec4(0.0, 0.0, 0.0, 0.0), Vec4(0.0, 0.0, 0.0, 0.0), Vec2(0.0, 0.0), Vec4(0.0, 0.0, 0.0, 0.0))
}
