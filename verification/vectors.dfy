/** Exact 3D vector arithmetic standing in for the floating-point `Vector3r`. */
module Vectors {

  /** A position, velocity or displacement with exact real coordinates. */
  datatype Vec3 = Vec3(x: real, y: real, z: real)

  const Zero: Vec3 := Vec3(0.0, 0.0, 0.0)

  function Add(a: Vec3, b: Vec3): Vec3 {
    Vec3(a.x + b.x, a.y + b.y, a.z + b.z)
  }

  function Sub(a: Vec3, b: Vec3): Vec3 {
    Vec3(a.x - b.x, a.y - b.y, a.z - b.z)
  }

  function Scale(c: real, a: Vec3): Vec3 {
    Vec3(c * a.x, c * a.y, c * a.z)
  }

  lemma AddAssoc(a: Vec3, b: Vec3, c: Vec3)
    ensures Add(Add(a, b), c) == Add(a, Add(b, c))
  {
  }

  lemma ScaleDistributes(k: real, a: Vec3, b: Vec3)
    ensures Add(Scale(k, a), Scale(k, b)) == Scale(k, Add(a, b))
  {
  }

  lemma ScaleStep(k: real, a: Vec3)
    ensures Add(Scale(k, a), a) == Scale(k + 1.0, a)
  {
  }

  lemma ScaleZero(v: Vec3, a: Vec3)
    ensures Add(v, Scale(0.0, a)) == v
  {
  }
}
