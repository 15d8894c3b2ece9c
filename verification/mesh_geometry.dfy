/** Orientation facts about triangles: the winding predicate the meshes
    are checked against, and the orientation and UV determinant of each
    triangle the window spells out as literals. */
module MeshGeometry {
  import opened Vectors
  import Tangents

  /** A triangle with corners `p0`, `p1`, `p2` and corner normals `n0`,
      `n1`, `n2` carries one and the same normal, and its corners turn
      counter-clockwise seen from the side that normal points to: the edge
      cross product `(p1 - p0) x (p2 - p0)` has a positive component along
      the normal. This is the side OpenGL treats as the front face under
      its default counter-clockwise convention. */
  predicate Winds(p0: Vec3, p1: Vec3, p2: Vec3, n0: Vec3, n1: Vec3, n2: Vec3) {
    && n1 == n0 && n2 == n0
    && Dot(Cross(Sub(p1, p0), Sub(p2, p0)), n0) > 0.0
  }

  /** Swapping two corners reverses the winding: a triangle and its mirror
      image cannot both face along the same normal. */
  lemma SwapReversesWinding(p0: Vec3, p1: Vec3, p2: Vec3, n: Vec3)
    requires Winds(p0, p1, p2, n, n, n)
    ensures !Winds(p0, p2, p1, n, n, n)
  {
    var e1 := Sub(p1, p0);
    var e2 := Sub(p2, p0);
    assert Cross(e2, e1) == Scale(Cross(e1, e2), -1.0);
    assert Dot(Scale(Cross(e1, e2), -1.0), n) == -Dot(Cross(e1, e2), n);
  }

  /** Rotating the corners keeps the winding. */
  lemma RotationKeepsWinding(p0: Vec3, p1: Vec3, p2: Vec3, n: Vec3)
    requires Winds(p0, p1, p2, n, n, n)
    ensures Winds(p1, p2, p0, n, n, n)
  {
    assert Cross(Sub(p2, p1), Sub(p0, p1)) == Cross(Sub(p1, p0), Sub(p2, p0));
  }

  // The cube's twelve triangles and the plane's two, one lemma each: the
  // corners as the window lists them, and the normal they carry.

  lemma FrontFirstCounterClockwise(p0: Vec3, p1: Vec3, p2: Vec3, normal: Vec3)
    requires p0 == Vec3(-0.5, -0.5, 0.5) && p1 == Vec3(0.5, -0.5, 0.5) && p2 == Vec3(0.5, 0.5, 0.5)
    requires normal == Vec3(0.0, 0.0, 1.0)
    ensures Winds(p0, p1, p2, normal, normal, normal)
  {
  }

  lemma FrontSecondCounterClockwise(p0: Vec3, p1: Vec3, p2: Vec3, normal: Vec3)
    requires p0 == Vec3(0.5, 0.5, 0.5) && p1 == Vec3(-0.5, 0.5, 0.5) && p2 == Vec3(-0.5, -0.5, 0.5)
    requires normal == Vec3(0.0, 0.0, 1.0)
    ensures Winds(p0, p1, p2, normal, normal, normal)
  {
  }

  lemma BackFirstCounterClockwise(p0: Vec3, p1: Vec3, p2: Vec3, normal: Vec3)
    requires p0 == Vec3(0.5, -0.5, -0.5) && p1 == Vec3(-0.5, -0.5, -0.5) && p2 == Vec3(-0.5, 0.5, -0.5)
    requires normal == Vec3(0.0, 0.0, -1.0)
    ensures Winds(p0, p1, p2, normal, normal, normal)
  {
  }

  lemma BackSecondCounterClockwise(p0: Vec3, p1: Vec3, p2: Vec3, normal: Vec3)
    requires p0 == Vec3(-0.5, 0.5, -0.5) && p1 == Vec3(0.5, 0.5, -0.5) && p2 == Vec3(0.5, -0.5, -0.5)
    requires normal == Vec3(0.0, 0.0, -1.0)
    ensures Winds(p0, p1, p2, normal, normal, normal)
  {
  }

  lemma LeftFirstCounterClockwise(p0: Vec3, p1: Vec3, p2: Vec3, normal: Vec3)
    requires p0 == Vec3(-0.5, -0.5, -0.5) && p1 == Vec3(-0.5, -0.5, 0.5) && p2 == Vec3(-0.5, 0.5, 0.5)
    requires normal == Vec3(-1.0, 0.0, 0.0)
    ensures Winds(p0, p1, p2, normal, normal, normal)
  {
  }

  lemma LeftSecondCounterClockwise(p0: Vec3, p1: Vec3, p2: Vec3, normal: Vec3)
    requires p0 == Vec3(-0.5, 0.5, 0.5) && p1 == Vec3(-0.5, 0.5, -0.5) && p2 == Vec3(-0.5, -0.5, -0.5)
    requires normal == Vec3(-1.0, 0.0, 0.0)
    ensures Winds(p0, p1, p2, normal, normal, normal)
  {
  }

  lemma RightFirstCounterClockwise(p0: Vec3, p1: Vec3, p2: Vec3, normal: Vec3)
    requires p0 == Vec3(0.5, -0.5, 0.5) && p1 == Vec3(0.5, -0.5, -0.5) && p2 == Vec3(0.5, 0.5, -0.5)
    requires normal == Vec3(1.0, 0.0, 0.0)
    ensures Winds(p0, p1, p2, normal, normal, normal)
  {
  }

  lemma RightSecondCounterClockwise(p0: Vec3, p1: Vec3, p2: Vec3, normal: Vec3)
    requires p0 == Vec3(0.5, 0.5, -0.5) && p1 == Vec3(0.5, 0.5, 0.5) && p2 == Vec3(0.5, -0.5, 0.5)
    requires normal == Vec3(1.0, 0.0, 0.0)
    ensures Winds(p0, p1, p2, normal, normal, normal)
  {
  }

  lemma TopFirstCounterClockwise(p0: Vec3, p1: Vec3, p2: Vec3, normal: Vec3)
    requires p0 == Vec3(-0.5, 0.5, 0.5) && p1 == Vec3(0.5, 0.5, 0.5) && p2 == Vec3(0.5, 0.5, -0.5)
    requires normal == Vec3(0.0, 1.0, 0.0)
    ensures Winds(p0, p1, p2, normal, normal, normal)
  {
  }

  lemma TopSecondCounterClockwise(p0: Vec3, p1: Vec3, p2: Vec3, normal: Vec3)
    requires p0 == Vec3(0.5, 0.5, -0.5) && p1 == Vec3(-0.5, 0.5, -0.5) && p2 == Vec3(-0.5, 0.5, 0.5)
    requires normal == Vec3(0.0, 1.0, 0.0)
    ensures Winds(p0, p1, p2, normal, normal, normal)
  {
  }

  lemma BottomFirstCounterClockwise(p0: Vec3, p1: Vec3, p2: Vec3, normal: Vec3)
    requires p0 == Vec3(-0.5, -0.5, -0.5) && p1 == Vec3(0.5, -0.5, -0.5) && p2 == Vec3(0.5, -0.5, 0.5)
    requires normal == Vec3(0.0, -1.0, 0.0)
    ensures Winds(p0, p1, p2, normal, normal, normal)
  {
  }

  lemma BottomSecondCounterClockwise(p0: Vec3, p1: Vec3, p2: Vec3, normal: Vec3)
    requires p0 == Vec3(0.5, -0.5, 0.5) && p1 == Vec3(-0.5, -0.5, 0.5) && p2 == Vec3(-0.5, -0.5, -0.5)
    requires normal == Vec3(0.0, -1.0, 0.0)
    ensures Winds(p0, p1, p2, normal, normal, normal)
  {
  }

  lemma PlaneFirstCounterClockwise(p0: Vec3, p1: Vec3, p2: Vec3, normal: Vec3)
    requires p0 == Vec3(10.0, 0.0, 10.0) && p1 == Vec3(10.0, 0.0, -10.0) && p2 == Vec3(-10.0, 0.0, -10.0)
    requires normal == Vec3(0.0, 1.0, 0.0)
    ensures Winds(p0, p1, p2, normal, normal, normal)
  {
  }

  lemma PlaneSecondCounterClockwise(p0: Vec3, p1: Vec3, p2: Vec3, normal: Vec3)
    requires p0 == Vec3(-10.0, 0.0, -10.0) && p1 == Vec3(-10.0, 0.0, 10.0) && p2 == Vec3(10.0, 0.0, 10.0)
    requires normal == Vec3(0.0, 1.0, 0.0)
    ensures Winds(p0, p1, p2, normal, normal, normal)
  {
  }

  /** Corner `k` of the unit square, or of its vertical mirror image. */
  function SquareCorner(k: nat, flipped: bool): Vec2
    requires k < 4
  {
    var uv := [Vec2(0.0, 0.0), Vec2(1.0, 0.0), Vec2(1.0, 1.0), Vec2(0.0, 1.0)][k];
    if flipped then Vec2(uv.x, 1.0 - uv.y) else uv
  }

  /** The UV determinant `ComputeTangents` divides by, for a triangle's
      corner texture coordinates. */
  function UVDeterminant(uv0: Vec2, uv1: Vec2, uv2: Vec2): real {
    Tangents.Denominator(Sub2(uv1, uv0), Sub2(uv2, uv0))
  }

  // The two halves of the unit square, corners 0, 1, 2 and 2, 3, 0, have
  // UV determinant 1; mirrored vertically, -1.

  lemma SquareFirstHalf(uv0: Vec2, uv1: Vec2, uv2: Vec2)
    requires uv0 == Vec2(0.0, 0.0) && uv1 == Vec2(1.0, 0.0) && uv2 == Vec2(1.0, 1.0)
    ensures UVDeterminant(uv0, uv1, uv2) == 1.0
  {
  }

  lemma SquareSecondHalf(uv2: Vec2, uv3: Vec2, uv0: Vec2)
    requires uv2 == Vec2(1.0, 1.0) && uv3 == Vec2(0.0, 1.0) && uv0 == Vec2(0.0, 0.0)
    ensures UVDeterminant(uv2, uv3, uv0) == 1.0
  {
  }

  lemma MirroredFirstHalf(uv0: Vec2, uv1: Vec2, uv2: Vec2)
    requires uv0 == Vec2(0.0, 1.0) && uv1 == Vec2(1.0, 1.0) && uv2 == Vec2(1.0, 0.0)
    ensures UVDeterminant(uv0, uv1, uv2) == -1.0
  {
  }

  lemma MirroredSecondHalf(uv2: Vec2, uv3: Vec2, uv0: Vec2)
    requires uv2 == Vec2(1.0, 0.0) && uv3 == Vec2(0.0, 0.0) && uv0 == Vec2(0.0, 1.0)
    ensures UVDeterminant(uv2, uv3, uv0) == -1.0
  {
  }

  // The plane's two triangles, corners 2, 1, 0 and 0, 3, 2, have UV
  // determinant -25.

  lemma PlaneFirstHalf(uv2: Vec2, uv1: Vec2, uv0: Vec2)
    requires uv2 == Vec2(5.0, 5.0) && uv1 == Vec2(5.0, 0.0) && uv0 == Vec2(0.0, 0.0)
    ensures UVDeterminant(uv2, uv1, uv0) == -25.0
  {
  }

  lemma PlaneSecondHalf(uv0: Vec2, uv3: Vec2, uv2: Vec2)
    requires uv0 == Vec2(0.0, 0.0) && uv3 == Vec2(0.0, 5.0) && uv2 == Vec2(5.0, 5.0)
    ensures UVDeterminant(uv0, uv3, uv2) == -25.0
  {
  }
}
