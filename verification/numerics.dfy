/** The floating-point library calls the camera makes, kept abstract.

    `cos` and `sin` are the C library's trigonometric functions, and
    `inverseSqrt` is the reciprocal square root through which glm defines
    `normalize(v) = v * inversesqrt(dot(v, v))`. The model fixes no numeric
    values for any of them: a `MathLib` is supplied from outside, and a
    property that needs a fact about the real functions names that fact as a
    predicate below. */
module Numerics {
  import opened Vectors

  datatype MathLib = MathLib(cos: real -> real, sin: real -> real, inverseSqrt: real -> real)

  /** glm's degrees-to-radians factor, π / 180. */
  const RadiansPerDegree: real := 0.01745329251994329576923690768489

  /** Degrees to radians: a change of unit, so dividing by the factor gives
      the degrees back, and the sign is kept. */
  function Radians(degrees: real): (r: real)
    ensures r / RadiansPerDegree == degrees
    ensures r < 0.0 <==> degrees < 0.0
  {
    degrees * RadiansPerDegree
  }

  /** glm's normalize: it only rescales, so the result is parallel to `v`. */
  function Normalize(m: MathLib, v: Vec3): (r: Vec3)
    ensures Cross(r, v) == Vec3(0.0, 0.0, 0.0)
  {
    Scale(v, m.inverseSqrt(Dot(v, v)))
  }

  /** `sin² t + cos² t = 1` for every angle, as for the real functions. */
  ghost predicate Pythagorean(m: MathLib) {
    forall t :: m.sin(t) * m.sin(t) + m.cos(t) * m.cos(t) == 1.0
  }

  /** For every positive `s`, `inverseSqrt(s)` is the positive root of
      `k² · s = 1`, as for the real 1/√s. */
  ghost predicate ExactInverseSqrt(m: MathLib) {
    forall s :: s > 0.0 ==> m.inverseSqrt(s) > 0.0 && m.inverseSqrt(s) * m.inverseSqrt(s) * s == 1.0
  }

  /** With an exact inverse square root, normalizing a non-zero vector gives a
      unit vector. */
  lemma NormalizeUnit(m: MathLib, v: Vec3)
    requires ExactInverseSqrt(m)
    requires Dot(v, v) > 0.0
    ensures Dot(Normalize(m, v), Normalize(m, v)) == 1.0
  {
    var k := m.inverseSqrt(Dot(v, v));
    DotScale(v, k, Scale(v, k));
    DotScale(v, k, v);
    assert Dot(Normalize(m, v), Normalize(m, v)) == k * k * Dot(v, v);
  }

  /** With an exact inverse square root, normalizing keeps the sense of a
      non-zero vector: the result points the same way as `v`, not against it. */
  lemma NormalizeSameSense(m: MathLib, v: Vec3)
    requires ExactInverseSqrt(m)
    requires Dot(v, v) > 0.0
    ensures Dot(Normalize(m, v), v) > 0.0
  {
    var k := m.inverseSqrt(Dot(v, v));
    DotScale(v, k, v);
    PositiveProduct(k, Dot(v, v));
  }

  /** With an exact inverse square root, a unit vector is its own
      normalization. */
  lemma NormalizeFixesUnit(m: MathLib, v: Vec3)
    requires ExactInverseSqrt(m)
    requires Dot(v, v) == 1.0
    ensures Normalize(m, v) == v
  {
    var k := m.inverseSqrt(Dot(v, v));
    assert k > 0.0 && k * k == 1.0;
    PositiveUnitRoot(k);
  }

  lemma PositiveProduct(a: real, b: real)
    requires a > 0.0 && b > 0.0
    ensures a * b > 0.0
  {
  }

  lemma PositiveUnitRoot(k: real)
    requires k > 0.0 && k * k == 1.0
    ensures k == 1.0
  {
    // (k - 1)(k + 1) = 0 with k + 1 > 0
    assert (k - 1.0) * (k + 1.0) == 0.0;
  }
}
