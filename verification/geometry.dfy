/** Three-component vectors shared by the physics body and the scene nodes. */
module Geometry {

  datatype Vec3 = Vec3(x: real, y: real, z: real)

  const Zero: Vec3 := Vec3(0.0, 0.0, 0.0)

  /** The world up axis (0, 1, 0) against which contact normals are tested. */
  const UpAxis: Vec3 := Vec3(0.0, 1.0, 0.0)

  function Abs(v: real): (r: real)
    ensures r >= 0.0
    ensures r == v || r == -v
  {
    if v < 0.0 then -v else v
  }

  /** Distance between two points of the real line. */
  function Dist(a: real, b: real): (r: real)
    ensures r >= 0.0
    ensures r == 0.0 <==> a == b
  {
    Abs(a - b)
  }

  function Negate(v: Vec3): (r: Vec3)
    ensures r.x + v.x == 0.0 && r.y + v.y == 0.0 && r.z + v.z == 0.0
  {
    Vec3(-v.x, -v.y, -v.z)
  }

  /** Dot product; against the up axis it picks out the Y component. */
  function Dot(a: Vec3, b: Vec3): (r: real)
    ensures b == UpAxis ==> r == a.y
  {
    a.x * b.x + a.y * b.y + a.z * b.z
  }
}
