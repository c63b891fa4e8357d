/** Three-component vectors over the reals, with the vector algebra the camera
    relies on: componentwise sum and difference, scaling, dot and cross product. */
module Vectors {

  datatype Vec3 = Vec3(x: real, y: real, z: real)

  function Add(a: Vec3, b: Vec3): Vec3 {
    Vec3(a.x + b.x, a.y + b.y, a.z + b.z)
  }

  function Sub(a: Vec3, b: Vec3): Vec3 {
    Vec3(a.x - b.x, a.y - b.y, a.z - b.z)
  }

  /** `a * k`, every component multiplied by the scalar `k`. */
  function Scale(a: Vec3, k: real): Vec3 {
    Vec3(a.x * k, a.y * k, a.z * k)
  }

  function Dot(a: Vec3, b: Vec3): real {
    a.x * b.x + a.y * b.y + a.z * b.z
  }

  /** The right-handed cross product `a × b`. */
  function Cross(a: Vec3, b: Vec3): Vec3 {
    Vec3(a.y * b.z - a.z * b.y, a.z * b.x - a.x * b.z, a.x * b.y - a.y * b.x)
  }

  /** The cross product is perpendicular to both of its arguments. */
  lemma CrossOrthogonal(a: Vec3, b: Vec3)
    ensures Dot(Cross(a, b), a) == 0.0 && Dot(a, Cross(a, b)) == 0.0
    ensures Dot(Cross(a, b), b) == 0.0 && Dot(b, Cross(a, b)) == 0.0
  {
  }

  /** Scaling either argument scales the dot product. */
  lemma DotScale(a: Vec3, k: real, b: Vec3)
    ensures Dot(Scale(a, k), b) == k * Dot(a, b)
    ensures Dot(b, Scale(a, k)) == k * Dot(a, b)
  {
  }

  /** Lagrange's identity: |a × b|² = |a|²|b|² − (a·b)². */
  lemma Lagrange(a: Vec3, b: Vec3)
    ensures Dot(Cross(a, b), Cross(a, b)) == Dot(a, a) * Dot(b, b) - Dot(a, b) * Dot(a, b)
  {
  }
}
