/** Three- and four-component vectors and column-major 4x4 matrices over the
    reals, standing in for glm::vec3, glm::vec4 and glm::mat4. */
module Vectors {

  datatype Vec3 = Vec3(x: real, y: real, z: real)

  datatype Vec4 = Vec4(x: real, y: real, z: real, w: real)

  /** A 4x4 matrix given column by column, the layout of glm::mat4. */
  datatype Mat4 = Mat4(col0: Vec4, col1: Vec4, col2: Vec4, col3: Vec4)

  const Zero3: Vec3 := Vec3(0.0, 0.0, 0.0)

  function Add(a: Vec3, b: Vec3): Vec3 {
    Vec3(a.x + b.x, a.y + b.y, a.z + b.z)
  }

  function Scale(v: Vec3, s: real): Vec3 {
    Vec3(v.x * s, v.y * s, v.z * s)
  }

  function Neg(v: Vec3): Vec3 {
    Vec3(-v.x, -v.y, -v.z)
  }

  function Cross(a: Vec3, b: Vec3): Vec3 {
    Vec3(a.y * b.z - a.z * b.y, a.z * b.x - a.x * b.z, a.x * b.y - a.y * b.x)
  }

  function Dot(a: Vec3, b: Vec3): real {
    a.x * b.x + a.y * b.y + a.z * b.z
  }

  /** The homogeneous vector (v, w). */
  function Extend(v: Vec3, w: real): (r: Vec4)
    ensures Xyz(r) == v && r.w == w
  {
    Vec4(v.x, v.y, v.z, w)
  }

  /** The first three components of a homogeneous vector. */
  function Xyz(v: Vec4): Vec3 {
    Vec3(v.x, v.y, v.z)
  }

  /** A cross product is perpendicular to both of its factors. */
  lemma CrossIsOrthogonal(a: Vec3, b: Vec3)
    ensures Dot(Cross(a, b), a) == 0.0
    ensures Dot(Cross(a, b), b) == 0.0
  {
  }
}
