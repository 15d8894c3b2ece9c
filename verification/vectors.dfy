/** Exact real-valued vectors. The source computes in single precision;
    the model uses unbounded reals so that structural facts can be stated
    without rounding. */
module Vectors {

  datatype Vec2 = Vec2(x: real, y: real)

  datatype Vec3 = Vec3(x: real, y: real, z: real)

  const Zero3: Vec3 := Vec3(0.0, 0.0, 0.0)
  const One3: Vec3 := Vec3(1.0, 1.0, 1.0)
  const UnitX: Vec3 := Vec3(1.0, 0.0, 0.0)
  const UnitY: Vec3 := Vec3(0.0, 1.0, 0.0)

  function Add(a: Vec3, b: Vec3): Vec3 {
    Vec3(a.x + b.x, a.y + b.y, a.z + b.z)
  }

  function Sub(a: Vec3, b: Vec3): Vec3 {
    Vec3(a.x - b.x, a.y - b.y, a.z - b.z)
  }

  function Scale(a: Vec3, s: real): Vec3 {
    Vec3(a.x * s, a.y * s, a.z * s)
  }

  function Dot(a: Vec3, b: Vec3): real {
    a.x * b.x + a.y * b.y + a.z * b.z
  }

  function Cross(a: Vec3, b: Vec3): Vec3 {
    Vec3(a.y * b.z - a.z * b.y, a.z * b.x - a.x * b.z, a.x * b.y - a.y * b.x)
  }

  function LengthSquared(a: Vec3): real {
    Dot(a, a)
  }

  function Sub2(a: Vec2, b: Vec2): Vec2 {
    Vec2(a.x - b.x, a.y - b.y)
  }

  function Abs(r: real): real {
    if r < 0.0 then -r else r
  }

  /** `Vector3.Normalize` multiplies by one over the length. The length itself
      (a square root) is left to the caller as `invLength`, which only has to
      be non-negative: that is all the structural facts below depend on. */
  function Normalize(a: Vec3, invLength: Vec3 -> real): Vec3 {
    Scale(a, invLength(a))
  }

  /** A squared length is never negative. */
  lemma LengthSquaredNonNegative(a: Vec3)
    ensures LengthSquared(a) >= 0.0
  {
    assert a.x * a.x >= 0.0 && a.y * a.y >= 0.0 && a.z * a.z >= 0.0;
  }

  /** A vector and its normalized form never point apart: their dot product
      is the (non-negative) inverse length times the squared length. */
  lemma NormalizeAligned(a: Vec3, invLength: Vec3 -> real)
    requires invLength(a) >= 0.0
    ensures Dot(a, Normalize(a, invLength)) >= 0.0
  {
    var s := invLength(a);
    calc {
      Dot(a, Normalize(a, invLength));
      a.x * (a.x * s) + a.y * (a.y * s) + a.z * (a.z * s);
      { assert a.x * (a.x * s) == (a.x * a.x) * s;
        assert a.y * (a.y * s) == (a.y * a.y) * s;
        assert a.z * (a.z * s) == (a.z * a.z) * s; }
      (a.x * a.x + a.y * a.y + a.z * a.z) * s;
    }
    LengthSquaredNonNegative(a);
  }
}

/** 4x4 matrices are kept as symbolic terms naming how they were built.
    OpenTK's numeric `LookAt`, perspective and transform constructions are
    outside the model; two matrices built from the same arguments are equal,
    which is all the model relies on. */
module Matrices {
  import opened Vectors

  datatype Mat4 =
    | ZeroMatrix
    | LookAt(eye: Vec3, target: Vec3, up: Vec3)
    | Perspective(fovDegrees: real, aspect: real, near: real, far: real)
      /** Scale * RotationX * RotationY * RotationZ * Translation, angles in degrees. */
    | ModelTransform(scale: Vec3, rotationDegrees: Vec3, translation: Vec3)
}
