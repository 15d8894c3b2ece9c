/** The two meshes `MainWindow.OnLoad` spells out as literals: a unit cube
    with a separate set of four vertices per face, and a 20 by 20 floor
    plane in the XZ-plane. */
module SceneMeshes {
  import opened Vectors
  import opened MeshGeometry
  import Tangents

  /** A literal mesh: three floats per position and per normal, two per
      texture coordinate, three indices per triangle. */
  datatype MeshData = MeshData(vertices: seq<real>, normals: seq<real>, texCoords: seq<real>, indices: seq<nat>)

  /** `n` vertices with a position, a normal and a texture coordinate each,
      and whole triangles over them. */
  predicate WellFormed(m: MeshData, n: nat) {
    && |m.vertices| == 3 * n && |m.normals| == 3 * n && |m.texCoords| == 2 * n
    && |m.indices| % 3 == 0
    && forall j :: 0 <= j < |m.indices| ==> m.indices[j] < n
  }

  function TriangleCount(m: MeshData): nat {
    |m.indices| / 3
  }

  /** Triangle `t` of a mesh winds along its normal. */
  predicate WindsAlongNormal(m: MeshData, n: nat, t: nat)
    requires WellFormed(m, n) && t < TriangleCount(m)
  {
    var c := Tangents.Corners(m.indices, t);
    Winds(Tangents.Position(m.vertices, c.0), Tangents.Position(m.vertices, c.1), Tangents.Position(m.vertices, c.2),
          Tangents.NormalAt(m.normals, c.0), Tangents.NormalAt(m.normals, c.1), Tangents.NormalAt(m.normals, c.2))
  }

  /** The texture coordinates of triangle `t` span an area large enough
      that `ComputeTangents` does not skip it. */
  predicate UVsNondegenerate(uvs: seq<real>, indices: seq<nat>, t: nat)
    requires 3 * t + 3 <= |indices|
    requires forall j :: 0 <= j < |indices| ==> 2 * indices[j] + 2 <= |uvs|
  {
    var c := Tangents.Corners(indices, t);
    var uv0 := Tangents.TexCoord(uvs, c.0);
    Abs(Tangents.Denominator(Sub2(Tangents.TexCoord(uvs, c.1), uv0), Sub2(Tangents.TexCoord(uvs, c.2), uv0))) >= Tangents.Epsilon
  }

  // ---------------------------------------------------------------------
  // The cube

  // Each list is written face by face (front, back, left, right, top,
  // bottom), four vertices per face, as in the source.

  const CubeVertices: seq<real> :=
      [-0.5, -0.5,  0.5,   0.5, -0.5,  0.5,   0.5,  0.5,  0.5,  -0.5,  0.5,  0.5]
    + [ 0.5, -0.5, -0.5,  -0.5, -0.5, -0.5,  -0.5,  0.5, -0.5,   0.5,  0.5, -0.5]
    + [-0.5, -0.5, -0.5,  -0.5, -0.5,  0.5,  -0.5,  0.5,  0.5,  -0.5,  0.5, -0.5]
    + [ 0.5, -0.5,  0.5,   0.5, -0.5, -0.5,   0.5,  0.5, -0.5,   0.5,  0.5,  0.5]
    + [-0.5,  0.5,  0.5,   0.5,  0.5,  0.5,   0.5,  0.5, -0.5,  -0.5,  0.5, -0.5]
    + [-0.5, -0.5, -0.5,   0.5, -0.5, -0.5,   0.5, -0.5,  0.5,  -0.5, -0.5,  0.5]

  const CubeNormals: seq<real> :=
      [ 0.0,  0.0,  1.0,   0.0,  0.0,  1.0,   0.0,  0.0,  1.0,   0.0,  0.0,  1.0]
    + [ 0.0,  0.0, -1.0,   0.0,  0.0, -1.0,   0.0,  0.0, -1.0,   0.0,  0.0, -1.0]
    + [-1.0,  0.0,  0.0,  -1.0,  0.0,  0.0,  -1.0,  0.0,  0.0,  -1.0,  0.0,  0.0]
    + [ 1.0,  0.0,  0.0,   1.0,  0.0,  0.0,   1.0,  0.0,  0.0,   1.0,  0.0,  0.0]
    + [ 0.0,  1.0,  0.0,   0.0,  1.0,  0.0,   0.0,  1.0,  0.0,   0.0,  1.0,  0.0]
    + [ 0.0, -1.0,  0.0,   0.0, -1.0,  0.0,   0.0, -1.0,  0.0,   0.0, -1.0,  0.0]

  /** Two triangles per face, corners 0, 1, 2 and 2, 3, 0 of its square. */
  const CubeIndices: seq<nat> :=
      [ 0,  1,  2,  2,  3,  0]
    + [ 4,  5,  6,  6,  7,  4]
    + [ 8,  9, 10, 10, 11,  8]
    + [12, 13, 14, 14, 15, 12]
    + [16, 17, 18, 18, 19, 16]
    + [20, 21, 22, 22, 23, 20]

  /** The unit square every face maps onto. */
  const FaceSquare: seq<real> := [0.0, 0.0,  1.0, 0.0,  1.0, 1.0,  0.0, 1.0]

  const CubeTexCoords: seq<real> :=
    FaceSquare + FaceSquare + FaceSquare + FaceSquare + FaceSquare + FaceSquare

  const Cube: MeshData := MeshData(CubeVertices, CubeNormals, CubeTexCoords, CubeIndices)

  /** The cube has 24 vertices, each with a position, a normal and a texture
      coordinate, and 12 triangles whose indices are all below 24. */
  lemma CubeWellFormed()
    ensures WellFormed(Cube, 24) && |CubeIndices| == 36 && TriangleCount(Cube) == 12
  {
  }

  /** A mesh of `faces` two-triangle faces whose every face winds along its
      normal winds along its normal in every triangle. */
  lemma FacesWind(m: MeshData, n: nat, faces: nat)
    requires WellFormed(m, n) && TriangleCount(m) == 2 * faces
    requires forall f :: 0 <= f < faces ==> WindsAlongNormal(m, n, 2 * f) && WindsAlongNormal(m, n, 2 * f + 1)
    ensures forall t :: 0 <= t < TriangleCount(m) ==> WindsAlongNormal(m, n, t)
  {
    forall t | 0 <= t < TriangleCount(m)
      ensures WindsAlongNormal(m, n, t)
    {
      var f := t / 2;
      assert t == 2 * f || t == 2 * f + 1;
    }
  }

  /** Every cube triangle faces outward along its face normal, so back-face
      culling keeps the outside of the cube. */
  lemma CubeWinding()
    ensures WellFormed(Cube, 24) && TriangleCount(Cube) == 12
    ensures forall t :: 0 <= t < 12 ==> WindsAlongNormal(Cube, 24, t)
  {
    CubeWellFormed();
    forall f | 0 <= f < 6
      ensures WindsAlongNormal(Cube, 24, 2 * f) && WindsAlongNormal(Cube, 24, 2 * f + 1)
    {
      CubeFaceWinds(f);
    }
    FacesWind(Cube, 24, 6);
  }

  /** Both triangles of face `f` wind along its normal. */
  lemma CubeFaceWinds(f: nat)
    requires f < 6
    ensures WellFormed(Cube, 24) && WindsAlongNormal(Cube, 24, 2 * f) && WindsAlongNormal(Cube, 24, 2 * f + 1)
  {
    if f == 0 {
      FrontFirstWinds(); FrontSecondWinds();
    } else if f == 1 {
      BackFirstWinds(); BackSecondWinds();
    } else if f == 2 {
      LeftFirstWinds(); LeftSecondWinds();
    } else if f == 3 {
      RightFirstWinds(); RightSecondWinds();
    } else if f == 4 {
      TopFirstWinds(); TopSecondWinds();
    } else {
      BottomFirstWinds(); BottomSecondWinds();
    }
  }

  /** Triangle `t` has corners `p0`, `p1`, `p2`, all with normal `normal`. */
  predicate CornersAre(m: MeshData, n: nat, t: nat, p0: Vec3, p1: Vec3, p2: Vec3, normal: Vec3)
    requires WellFormed(m, n) && t < TriangleCount(m)
  {
    var c := Tangents.Corners(m.indices, t);
    && Tangents.Position(m.vertices, c.0) == p0 && Tangents.Position(m.vertices, c.1) == p1
    && Tangents.Position(m.vertices, c.2) == p2 && Tangents.NormalAt(m.normals, c.0) == normal
    && Tangents.NormalAt(m.normals, c.1) == normal && Tangents.NormalAt(m.normals, c.2) == normal
  }

  /** Once its corners are known, whether triangle `t` winds along its
      normal is a question about those corners alone. */
  lemma WindsAlongNormalIff(m: MeshData, n: nat, t: nat, p0: Vec3, p1: Vec3, p2: Vec3, normal: Vec3)
    requires WellFormed(m, n) && t < TriangleCount(m)
    requires CornersAre(m, n, t, p0, p1, p2, normal)
    ensures WindsAlongNormal(m, n, t) == Winds(p0, p1, p2, normal, normal, normal)
  {
  }

  // The triangles one by one, two per face: each reads its three corners
  // and their normal off the literal lists.

  /** The corners of the front face and their normal. */
  lemma FrontCorners()
    ensures |CubeVertices| == 72 && |CubeNormals| == 72
    ensures Tangents.Position(CubeVertices, 0) == Vec3(-0.5, -0.5, 0.5) && Tangents.NormalAt(CubeNormals, 0) == Vec3(0.0, 0.0, 1.0)
    ensures Tangents.Position(CubeVertices, 1) == Vec3(0.5, -0.5, 0.5) && Tangents.NormalAt(CubeNormals, 1) == Vec3(0.0, 0.0, 1.0)
    ensures Tangents.Position(CubeVertices, 2) == Vec3(0.5, 0.5, 0.5) && Tangents.NormalAt(CubeNormals, 2) == Vec3(0.0, 0.0, 1.0)
    ensures Tangents.Position(CubeVertices, 3) == Vec3(-0.5, 0.5, 0.5) && Tangents.NormalAt(CubeNormals, 3) == Vec3(0.0, 0.0, 1.0)
  {
  }

  lemma FrontFirstWinds()
    ensures WellFormed(Cube, 24) && WindsAlongNormal(Cube, 24, 0)
  {
    CubeWellFormed();
    assert Tangents.Corners(CubeIndices, 0) == (0, 1, 2);
    FrontCorners();
    WindsAlongNormalIff(Cube, 24, 0, Vec3(-0.5, -0.5, 0.5), Vec3(0.5, -0.5, 0.5), Vec3(0.5, 0.5, 0.5), Vec3(0.0, 0.0, 1.0));
    MeshGeometry.FrontFirstCounterClockwise(Vec3(-0.5, -0.5, 0.5), Vec3(0.5, -0.5, 0.5), Vec3(0.5, 0.5, 0.5), Vec3(0.0, 0.0, 1.0));
  }

  lemma FrontSecondWinds()
    ensures WellFormed(Cube, 24) && WindsAlongNormal(Cube, 24, 1)
  {
    CubeWellFormed();
    assert Tangents.Corners(CubeIndices, 1) == (2, 3, 0);
    FrontCorners();
    WindsAlongNormalIff(Cube, 24, 1, Vec3(0.5, 0.5, 0.5), Vec3(-0.5, 0.5, 0.5), Vec3(-0.5, -0.5, 0.5), Vec3(0.0, 0.0, 1.0));
    MeshGeometry.FrontSecondCounterClockwise(Vec3(0.5, 0.5, 0.5), Vec3(-0.5, 0.5, 0.5), Vec3(-0.5, -0.5, 0.5), Vec3(0.0, 0.0, 1.0));
  }

  /** The corners of the back face and their normal. */
  lemma BackCorners()
    ensures |CubeVertices| == 72 && |CubeNormals| == 72
    ensures Tangents.Position(CubeVertices, 4) == Vec3(0.5, -0.5, -0.5) && Tangents.NormalAt(CubeNormals, 4) == Vec3(0.0, 0.0, -1.0)
    ensures Tangents.Position(CubeVertices, 5) == Vec3(-0.5, -0.5, -0.5) && Tangents.NormalAt(CubeNormals, 5) == Vec3(0.0, 0.0, -1.0)
    ensures Tangents.Position(CubeVertices, 6) == Vec3(-0.5, 0.5, -0.5) && Tangents.NormalAt(CubeNormals, 6) == Vec3(0.0, 0.0, -1.0)
    ensures Tangents.Position(CubeVertices, 7) == Vec3(0.5, 0.5, -0.5) && Tangents.NormalAt(CubeNormals, 7) == Vec3(0.0, 0.0, -1.0)
  {
  }

  lemma BackFirstWinds()
    ensures WellFormed(Cube, 24) && WindsAlongNormal(Cube, 24, 2)
  {
    CubeWellFormed();
    assert Tangents.Corners(CubeIndices, 2) == (4, 5, 6);
    BackCorners();
    WindsAlongNormalIff(Cube, 24, 2, Vec3(0.5, -0.5, -0.5), Vec3(-0.5, -0.5, -0.5), Vec3(-0.5, 0.5, -0.5), Vec3(0.0, 0.0, -1.0));
    MeshGeometry.BackFirstCounterClockwise(Vec3(0.5, -0.5, -0.5), Vec3(-0.5, -0.5, -0.5), Vec3(-0.5, 0.5, -0.5), Vec3(0.0, 0.0, -1.0));
  }

  lemma BackSecondWinds()
    ensures WellFormed(Cube, 24) && WindsAlongNormal(Cube, 24, 3)
  {
    CubeWellFormed();
    assert Tangents.Corners(CubeIndices, 3) == (6, 7, 4);
    BackCorners();
    WindsAlongNormalIff(Cube, 24, 3, Vec3(-0.5, 0.5, -0.5), Vec3(0.5, 0.5, -0.5), Vec3(0.5, -0.5, -0.5), Vec3(0.0, 0.0, -1.0));
    MeshGeometry.BackSecondCounterClockwise(Vec3(-0.5, 0.5, -0.5), Vec3(0.5, 0.5, -0.5), Vec3(0.5, -0.5, -0.5), Vec3(0.0, 0.0, -1.0));
  }

  /** The corners of the left face and their normal. */
  lemma LeftCorners()
    ensures |CubeVertices| == 72 && |CubeNormals| == 72
    ensures Tangents.Position(CubeVertices, 8) == Vec3(-0.5, -0.5, -0.5) && Tangents.NormalAt(CubeNormals, 8) == Vec3(-1.0, 0.0, 0.0)
    ensures Tangents.Position(CubeVertices, 9) == Vec3(-0.5, -0.5, 0.5) && Tangents.NormalAt(CubeNormals, 9) == Vec3(-1.0, 0.0, 0.0)
    ensures Tangents.Position(CubeVertices, 10) == Vec3(-0.5, 0.5, 0.5) && Tangents.NormalAt(CubeNormals, 10) == Vec3(-1.0, 0.0, 0.0)
    ensures Tangents.Position(CubeVertices, 11) == Vec3(-0.5, 0.5, -0.5) && Tangents.NormalAt(CubeNormals, 11) == Vec3(-1.0, 0.0, 0.0)
  {
  }

  lemma LeftFirstWinds()
    ensures WellFormed(Cube, 24) && WindsAlongNormal(Cube, 24, 4)
  {
    CubeWellFormed();
    assert Tangents.Corners(CubeIndices, 4) == (8, 9, 10);
    LeftCorners();
    WindsAlongNormalIff(Cube, 24, 4, Vec3(-0.5, -0.5, -0.5), Vec3(-0.5, -0.5, 0.5), Vec3(-0.5, 0.5, 0.5), Vec3(-1.0, 0.0, 0.0));
    MeshGeometry.LeftFirstCounterClockwise(Vec3(-0.5, -0.5, -0.5), Vec3(-0.5, -0.5, 0.5), Vec3(-0.5, 0.5, 0.5), Vec3(-1.0, 0.0, 0.0));
  }

  lemma LeftSecondWinds()
    ensures WellFormed(Cube, 24) && WindsAlongNormal(Cube, 24, 5)
  {
    CubeWellFormed();
    assert Tangents.Corners(CubeIndices, 5) == (10, 11, 8);
    LeftCorners();
    WindsAlongNormalIff(Cube, 24, 5, Vec3(-0.5, 0.5, 0.5), Vec3(-0.5, 0.5, -0.5), Vec3(-0.5, -0.5, -0.5), Vec3(-1.0, 0.0, 0.0));
    MeshGeometry.LeftSecondCounterClockwise(Vec3(-0.5, 0.5, 0.5), Vec3(-0.5, 0.5, -0.5), Vec3(-0.5, -0.5, -0.5), Vec3(-1.0, 0.0, 0.0));
  }

  /** The corners of the right face and their normal. */
  lemma RightCorners()
    ensures |CubeVertices| == 72 && |CubeNormals| == 72
    ensures Tangents.Position(CubeVertices, 12) == Vec3(0.5, -0.5, 0.5) && Tangents.NormalAt(CubeNormals, 12) == Vec3(1.0, 0.0, 0.0)
    ensures Tangents.Position(CubeVertices, 13) == Vec3(0.5, -0.5, -0.5) && Tangents.NormalAt(CubeNormals, 13) == Vec3(1.0, 0.0, 0.0)
    ensures Tangents.Position(CubeVertices, 14) == Vec3(0.5, 0.5, -0.5) && Tangents.NormalAt(CubeNormals, 14) == Vec3(1.0, 0.0, 0.0)
    ensures Tangents.Position(CubeVertices, 15) == Vec3(0.5, 0.5, 0.5) && Tangents.NormalAt(CubeNormals, 15) == Vec3(1.0, 0.0, 0.0)
  {
  }

  lemma RightFirstWinds()
    ensures WellFormed(Cube, 24) && WindsAlongNormal(Cube, 24, 6)
  {
    CubeWellFormed();
    assert Tangents.Corners(CubeIndices, 6) == (12, 13, 14);
    RightCorners();
    WindsAlongNormalIff(Cube, 24, 6, Vec3(0.5, -0.5, 0.5), Vec3(0.5, -0.5, -0.5), Vec3(0.5, 0.5, -0.5), Vec3(1.0, 0.0, 0.0));
    MeshGeometry.RightFirstCounterClockwise(Vec3(0.5, -0.5, 0.5), Vec3(0.5, -0.5, -0.5), Vec3(0.5, 0.5, -0.5), Vec3(1.0, 0.0, 0.0));
  }

  lemma RightSecondWinds()
    ensures WellFormed(Cube, 24) && WindsAlongNormal(Cube, 24, 7)
  {
    CubeWellFormed();
    assert Tangents.Corners(CubeIndices, 7) == (14, 15, 12);
    RightCorners();
    WindsAlongNormalIff(Cube, 24, 7, Vec3(0.5, 0.5, -0.5), Vec3(0.5, 0.5, 0.5), Vec3(0.5, -0.5, 0.5), Vec3(1.0, 0.0, 0.0));
    MeshGeometry.RightSecondCounterClockwise(Vec3(0.5, 0.5, -0.5), Vec3(0.5, 0.5, 0.5), Vec3(0.5, -0.5, 0.5), Vec3(1.0, 0.0, 0.0));
  }

  /** The corners of the top face and their normal. */
  lemma TopCorners()
    ensures |CubeVertices| == 72 && |CubeNormals| == 72
    ensures Tangents.Position(CubeVertices, 16) == Vec3(-0.5, 0.5, 0.5) && Tangents.NormalAt(CubeNormals, 16) == Vec3(0.0, 1.0, 0.0)
    ensures Tangents.Position(CubeVertices, 17) == Vec3(0.5, 0.5, 0.5) && Tangents.NormalAt(CubeNormals, 17) == Vec3(0.0, 1.0, 0.0)
    ensures Tangents.Position(CubeVertices, 18) == Vec3(0.5, 0.5, -0.5) && Tangents.NormalAt(CubeNormals, 18) == Vec3(0.0, 1.0, 0.0)
    ensures Tangents.Position(CubeVertices, 19) == Vec3(-0.5, 0.5, -0.5) && Tangents.NormalAt(CubeNormals, 19) == Vec3(0.0, 1.0, 0.0)
  {
  }

  lemma TopFirstWinds()
    ensures WellFormed(Cube, 24) && WindsAlongNormal(Cube, 24, 8)
  {
    CubeWellFormed();
    assert Tangents.Corners(CubeIndices, 8) == (16, 17, 18);
    TopCorners();
    WindsAlongNormalIff(Cube, 24, 8, Vec3(-0.5, 0.5, 0.5), Vec3(0.5, 0.5, 0.5), Vec3(0.5, 0.5, -0.5), Vec3(0.0, 1.0, 0.0));
    MeshGeometry.TopFirstCounterClockwise(Vec3(-0.5, 0.5, 0.5), Vec3(0.5, 0.5, 0.5), Vec3(0.5, 0.5, -0.5), Vec3(0.0, 1.0, 0.0));
  }

  lemma TopSecondWinds()
    ensures WellFormed(Cube, 24) && WindsAlongNormal(Cube, 24, 9)
  {
    CubeWellFormed();
    assert Tangents.Corners(CubeIndices, 9) == (18, 19, 16);
    TopCorners();
    WindsAlongNormalIff(Cube, 24, 9, Vec3(0.5, 0.5, -0.5), Vec3(-0.5, 0.5, -0.5), Vec3(-0.5, 0.5, 0.5), Vec3(0.0, 1.0, 0.0));
    MeshGeometry.TopSecondCounterClockwise(Vec3(0.5, 0.5, -0.5), Vec3(-0.5, 0.5, -0.5), Vec3(-0.5, 0.5, 0.5), Vec3(0.0, 1.0, 0.0));
  }

  /** The corners of the bottom face and their normal. */
  lemma BottomCorners()
    ensures |CubeVertices| == 72 && |CubeNormals| == 72
    ensures Tangents.Position(CubeVertices, 20) == Vec3(-0.5, -0.5, -0.5) && Tangents.NormalAt(CubeNormals, 20) == Vec3(0.0, -1.0, 0.0)
    ensures Tangents.Position(CubeVertices, 21) == Vec3(0.5, -0.5, -0.5) && Tangents.NormalAt(CubeNormals, 21) == Vec3(0.0, -1.0, 0.0)
    ensures Tangents.Position(CubeVertices, 22) == Vec3(0.5, -0.5, 0.5) && Tangents.NormalAt(CubeNormals, 22) == Vec3(0.0, -1.0, 0.0)
    ensures Tangents.Position(CubeVertices, 23) == Vec3(-0.5, -0.5, 0.5) && Tangents.NormalAt(CubeNormals, 23) == Vec3(0.0, -1.0, 0.0)
  {
  }

  lemma BottomFirstWinds()
    ensures WellFormed(Cube, 24) && WindsAlongNormal(Cube, 24, 10)
  {
    CubeWellFormed();
    assert Tangents.Corners(CubeIndices, 10) == (20, 21, 22);
    BottomCorners();
    WindsAlongNormalIff(Cube, 24, 10, Vec3(-0.5, -0.5, -0.5), Vec3(0.5, -0.5, -0.5), Vec3(0.5, -0.5, 0.5), Vec3(0.0, -1.0, 0.0));
    MeshGeometry.BottomFirstCounterClockwise(Vec3(-0.5, -0.5, -0.5), Vec3(0.5, -0.5, -0.5), Vec3(0.5, -0.5, 0.5), Vec3(0.0, -1.0, 0.0));
  }

  lemma BottomSecondWinds()
    ensures WellFormed(Cube, 24) && WindsAlongNormal(Cube, 24, 11)
  {
    CubeWellFormed();
    assert Tangents.Corners(CubeIndices, 11) == (22, 23, 20);
    BottomCorners();
    WindsAlongNormalIff(Cube, 24, 11, Vec3(0.5, -0.5, 0.5), Vec3(-0.5, -0.5, 0.5), Vec3(-0.5, -0.5, -0.5), Vec3(0.0, -1.0, 0.0));
    MeshGeometry.BottomSecondCounterClockwise(Vec3(0.5, -0.5, 0.5), Vec3(-0.5, -0.5, 0.5), Vec3(-0.5, -0.5, -0.5), Vec3(0.0, -1.0, 0.0));
  }

  /** Once the corners of triangle `t` and their UVs are known, whether it
      is skipped is a question about those UVs' determinant alone. */
  lemma UVsNondegenerateIff(uvs: seq<real>, indices: seq<nat>, t: nat, i0: nat, i1: nat, i2: nat, uv0: Vec2, uv1: Vec2, uv2: Vec2)
    requires 3 * t + 3 <= |indices|
    requires forall j :: 0 <= j < |indices| ==> 2 * indices[j] + 2 <= |uvs|
    requires Tangents.Corners(indices, t) == (i0, i1, i2)
    requires 2 * i0 + 2 <= |uvs| && 2 * i1 + 2 <= |uvs| && 2 * i2 + 2 <= |uvs|
    requires Tangents.TexCoord(uvs, i0) == uv0 && Tangents.TexCoord(uvs, i1) == uv1 && Tangents.TexCoord(uvs, i2) == uv2
    ensures UVsNondegenerate(uvs, indices, t) == (Abs(UVDeterminant(uv0, uv1, uv2)) >= Tangents.Epsilon)
  {
  }

  /** A mesh made of `faces` squares, four vertices and two triangles each,
      laid out like the cube: triangle `2f` has corners 0, 1, 2 of square
      `f` and triangle `2f + 1` corners 2, 3, 0, and every square's vertices
      sit on the corners of the unit square (mirrored when `flipped`). */
  predicate SquareFaces(uvs: seq<real>, indices: seq<nat>, faces: nat, flipped: bool) {
    && |indices| == 6 * faces && |uvs| == 8 * faces
    && (forall j :: 0 <= j < |indices| ==> 2 * indices[j] + 2 <= |uvs|)
    && (forall t :: 0 <= t < 2 * faces ==>
          Tangents.Corners(indices, t) == (2 * t, 2 * t + 1, if t % 2 == 0 then 2 * t + 2 else 2 * t - 2))
    && (forall i :: 0 <= i < 4 * faces ==> Tangents.TexCoord(uvs, i) == SquareCorner(i % 4, flipped))
  }

  /** No triangle of such a mesh is skipped by `ComputeTangents`: each is
      half of the unit square, with UV determinant 1, or -1 once mirrored. */
  lemma SquareFacesNondegenerate(uvs: seq<real>, indices: seq<nat>, faces: nat, flipped: bool)
    requires SquareFaces(uvs, indices, faces, flipped)
    ensures forall t :: 0 <= t < 2 * faces ==> UVsNondegenerate(uvs, indices, t)
  {
    forall t | 0 <= t < 2 * faces
      ensures UVsNondegenerate(uvs, indices, t)
    {
      SquareHalfNondegenerate(uvs, indices, faces, flipped, t);
    }
  }

  lemma SquareHalfNondegenerate(uvs: seq<real>, indices: seq<nat>, faces: nat, flipped: bool, t: nat)
    requires SquareFaces(uvs, indices, faces, flipped) && t < 2 * faces
    ensures UVsNondegenerate(uvs, indices, t)
  {
    var f := t / 2;
    if t % 2 == 0 {
      assert 2 * t == 4 * f;
      SquareHalfCorners(uvs, indices, faces, flipped, t, 4 * f, 4 * f + 1, 4 * f + 2);
      if flipped {
        UVsNondegenerateIff(uvs, indices, t, 4 * f, 4 * f + 1, 4 * f + 2, Vec2(0.0, 1.0), Vec2(1.0, 1.0), Vec2(1.0, 0.0));
        MirroredFirstHalf(Vec2(0.0, 1.0), Vec2(1.0, 1.0), Vec2(1.0, 0.0));
      } else {
        UVsNondegenerateIff(uvs, indices, t, 4 * f, 4 * f + 1, 4 * f + 2, Vec2(0.0, 0.0), Vec2(1.0, 0.0), Vec2(1.0, 1.0));
        SquareFirstHalf(Vec2(0.0, 0.0), Vec2(1.0, 0.0), Vec2(1.0, 1.0));
      }
    } else {
      assert 2 * t == 4 * f + 2;
      SquareHalfCorners(uvs, indices, faces, flipped, t, 4 * f + 2, 4 * f + 3, 4 * f);
      if flipped {
        UVsNondegenerateIff(uvs, indices, t, 4 * f + 2, 4 * f + 3, 4 * f, Vec2(1.0, 0.0), Vec2(0.0, 0.0), Vec2(0.0, 1.0));
        MirroredSecondHalf(Vec2(1.0, 0.0), Vec2(0.0, 0.0), Vec2(0.0, 1.0));
      } else {
        UVsNondegenerateIff(uvs, indices, t, 4 * f + 2, 4 * f + 3, 4 * f, Vec2(1.0, 1.0), Vec2(0.0, 1.0), Vec2(0.0, 0.0));
        SquareSecondHalf(Vec2(1.0, 1.0), Vec2(0.0, 1.0), Vec2(0.0, 0.0));
      }
    }
  }

  /** The corners of triangle `t` of such a mesh and their UVs, as literals. */
  lemma SquareHalfCorners(uvs: seq<real>, indices: seq<nat>, faces: nat, flipped: bool, t: nat, i0: nat, i1: nat, i2: nat)
    requires SquareFaces(uvs, indices, faces, flipped) && t < 2 * faces
    requires (i0, i1, i2) == if t % 2 == 0 then (2 * t, 2 * t + 1, 2 * t + 2) else (2 * t, 2 * t + 1, 2 * t - 2)
    ensures 3 * t + 3 <= |indices| && Tangents.Corners(indices, t) == (i0, i1, i2)
    ensures 2 * i0 + 2 <= |uvs| && 2 * i1 + 2 <= |uvs| && 2 * i2 + 2 <= |uvs|
    ensures var (a, b, c) := if flipped then (Vec2(0.0, 1.0), Vec2(1.0, 1.0), Vec2(1.0, 0.0)) else (Vec2(0.0, 0.0), Vec2(1.0, 0.0), Vec2(1.0, 1.0));
      var e := if flipped then Vec2(0.0, 0.0) else Vec2(0.0, 1.0);
      if t % 2 == 0 then
        Tangents.TexCoord(uvs, i0) == a && Tangents.TexCoord(uvs, i1) == b && Tangents.TexCoord(uvs, i2) == c
      else
        Tangents.TexCoord(uvs, i0) == c && Tangents.TexCoord(uvs, i1) == e && Tangents.TexCoord(uvs, i2) == a
  {
    var f := t / 2;
    if t % 2 == 0 {
      assert i0 % 4 == 0 && i1 % 4 == 1 && i2 % 4 == 2 by {
        assert i0 == 4 * f;
      }
    } else {
      assert i0 % 4 == 2 && i1 % 4 == 3 && i2 % 4 == 0 by {
        assert i0 == 4 * f + 2 && i1 == 4 * f + 3 && i2 == 4 * f;
      }
    }
  }

  /** No cube triangle is skipped by `ComputeTangents`, whether or not its
      texture coordinates have been flipped vertically. */
  lemma CubeUVsNondegenerate(flipped: bool)
    ensures var uvs := if flipped then Tangents.FlipV(CubeTexCoords) else CubeTexCoords;
      && |uvs| == 48
      && (forall j :: 0 <= j < |CubeIndices| ==> 2 * CubeIndices[j] + 2 <= |uvs|)
      && forall t :: 0 <= t < 12 ==> UVsNondegenerate(uvs, CubeIndices, t)
  {
    var uvs := if flipped then Tangents.FlipV(CubeTexCoords) else CubeTexCoords;
    CubeSquareFaces(flipped);
    SquareFacesNondegenerate(uvs, CubeIndices, 6, flipped);
  }

  /** The cube is six such squares. */
  lemma CubeSquareFaces(flipped: bool)
    ensures SquareFaces(if flipped then Tangents.FlipV(CubeTexCoords) else CubeTexCoords, CubeIndices, 6, flipped)
  {
    CubeWellFormed();
    CubeIndicesAlternate();
    CubeTexCoordsOnSquare(flipped);
  }

  lemma CubeIndicesAlternate()
    ensures |CubeIndices| == 36
    ensures forall t :: 0 <= t < 12 ==>
      Tangents.Corners(CubeIndices, t) == (2 * t, 2 * t + 1, if t % 2 == 0 then 2 * t + 2 else 2 * t - 2)
  {
    forall t | 0 <= t < 12
      ensures Tangents.Corners(CubeIndices, t) == (2 * t, 2 * t + 1, if t % 2 == 0 then 2 * t + 2 else 2 * t - 2)
    {
      var f := t / 2;
      CubeFaceCorners(f);
      if t % 2 == 0 {
        assert t == 2 * f;
      } else {
        assert t == 2 * f + 1;
      }
    }
  }

  lemma CubeTexCoordsOnSquare(flipped: bool)
    ensures var uvs := if flipped then Tangents.FlipV(CubeTexCoords) else CubeTexCoords;
      |uvs| == 48 && forall i :: 0 <= i < 24 ==> Tangents.TexCoord(uvs, i) == SquareCorner(i % 4, flipped)
  {
    var uvs := if flipped then Tangents.FlipV(CubeTexCoords) else CubeTexCoords;
    forall i | 0 <= i < 24
      ensures Tangents.TexCoord(uvs, i) == SquareCorner(i % 4, flipped)
    {
      CubeCornerUV(flipped, i / 4, i % 4);
    }
  }

  /** Face `f` of the cube is split along the diagonal from its corner 2 to
      its corner 0. */
  lemma CubeFaceCorners(f: nat)
    requires f < 6
    ensures |CubeIndices| == 36
    ensures Tangents.Corners(CubeIndices, 2 * f) == (4 * f, 4 * f + 1, 4 * f + 2)
    ensures Tangents.Corners(CubeIndices, 2 * f + 1) == (4 * f + 2, 4 * f + 3, 4 * f)
  {
    if f == 0 {
      assert CubeIndices[..6] == [0, 1, 2, 2, 3, 0];
    } else if f == 1 {
      assert CubeIndices[6..12] == [4, 5, 6, 6, 7, 4];
    } else if f == 2 {
      assert CubeIndices[12..18] == [8, 9, 10, 10, 11, 8];
    } else if f == 3 {
      assert CubeIndices[18..24] == [12, 13, 14, 14, 15, 12];
    } else if f == 4 {
      assert CubeIndices[24..30] == [16, 17, 18, 18, 19, 16];
    } else {
      assert CubeIndices[30..] == [20, 21, 22, 22, 23, 20];
    }
  }

  /** Every face of the cube maps its four vertices onto the corners of the
      unit square, in order. */
  lemma CubeFaceUVs(f: nat)
    requires f < 6
    ensures |CubeTexCoords| == 48 && CubeTexCoords[8 * f..8 * f + 8] == FaceSquare
  {
    if f == 0 {
    } else if f == 1 {
    } else if f == 2 {
    } else if f == 3 {
    } else if f == 4 {
    } else {
    }
  }

  /** The unit square's corners as `FaceSquare` lists them. */
  lemma FaceSquareCorners(k: nat)
    requires k < 4
    ensures |FaceSquare| == 8 && Tangents.TexCoord(FaceSquare, k) == SquareCorner(k, false)
  {
    if k == 0 {
    } else if k == 1 {
    } else if k == 2 {
    } else {
    }
  }

  /** Flipping a texture-coordinate list mirrors each of its coordinates
      vertically. */
  lemma FlipVTexCoord(uvs: seq<real>, i: nat)
    requires 2 * i + 2 <= |uvs|
    ensures |Tangents.FlipV(uvs)| == |uvs|
    ensures Tangents.TexCoord(Tangents.FlipV(uvs), i) == Vec2(Tangents.TexCoord(uvs, i).x, 1.0 - Tangents.TexCoord(uvs, i).y)
  {
    assert (2 * i) % 2 == 0 && (2 * i + 1) % 2 == 1;
  }

  /** Vertex `4f + k` of the cube sits on corner `k` of the unit square, or
      of its mirror image once flipped. */
  lemma CubeCornerUV(flipped: bool, f: nat, k: nat)
    requires f < 6 && k < 4
    ensures var uvs := if flipped then Tangents.FlipV(CubeTexCoords) else CubeTexCoords;
      |uvs| == 48 && Tangents.TexCoord(uvs, 4 * f + k) == SquareCorner(k, flipped)
  {
    CubeFaceUVs(f);
    FaceSquareCorners(k);
    var i := 4 * f + k;
    var face := CubeTexCoords[8 * f..8 * f + 8];
    assert face[2 * k] == CubeTexCoords[2 * i] && face[2 * k + 1] == CubeTexCoords[2 * i + 1];
    assert Tangents.TexCoord(CubeTexCoords, i) == SquareCorner(k, false);
    if flipped {
      FlipVTexCoord(CubeTexCoords, i);
    }
  }

  // ---------------------------------------------------------------------
  // The plane

  /** A square in the XZ-plane, from -10 to 10 on both axes. */
  const PlaneVertices: seq<real> := [
    -10.0, 0.0, -10.0,   10.0, 0.0, -10.0,   10.0, 0.0, 10.0,   -10.0, 0.0, 10.0]

  const PlaneNormals: seq<real> := [
    0.0, 1.0, 0.0,   0.0, 1.0, 0.0,   0.0, 1.0, 0.0,   0.0, 1.0, 0.0]

  const PlaneIndices: seq<nat> := [2, 1, 0, 0, 3, 2]

  /** The texture repeats five times along each side. */
  const PlaneTexCoords: seq<real> := [0.0, 0.0,  5.0, 0.0,  5.0, 5.0,  0.0, 5.0]

  const Plane: MeshData := MeshData(PlaneVertices, PlaneNormals, PlaneTexCoords, PlaneIndices)

  /** The plane has 4 vertices and 2 triangles whose indices are below 4. */
  lemma PlaneWellFormed()
    ensures WellFormed(Plane, 4) && |PlaneIndices| == 6 && TriangleCount(Plane) == 2
  {
  }


  /** Both plane triangles face +Y, the direction of its normals. */
  lemma PlaneWinding()
    ensures WellFormed(Plane, 4) && TriangleCount(Plane) == 2
    ensures forall t :: 0 <= t < 2 ==> WindsAlongNormal(Plane, 4, t)
  {
    PlaneWellFormed();
    forall f | 0 <= f < 1
      ensures WindsAlongNormal(Plane, 4, 2 * f) && WindsAlongNormal(Plane, 4, 2 * f + 1)
    {
      PlaneFaceWinds(f);
    }
    FacesWind(Plane, 4, 1);
  }

  /** The plane's one face: both its triangles wind along the normal. */
  lemma PlaneFaceWinds(f: nat)
    requires f < 1
    ensures WellFormed(Plane, 4) && WindsAlongNormal(Plane, 4, 2 * f) && WindsAlongNormal(Plane, 4, 2 * f + 1)
  {
    assert f == 0;
    PlaneFirstWinds();
    PlaneSecondWinds();
  }

  lemma PlaneFirstWinds()
    ensures WellFormed(Plane, 4) && WindsAlongNormal(Plane, 4, 0)
  {
    PlaneWellFormed();
    assert Tangents.Corners(PlaneIndices, 0) == (2, 1, 0);
    WindsAlongNormalIff(Plane, 4, 0, Vec3(10.0, 0.0, 10.0), Vec3(10.0, 0.0, -10.0), Vec3(-10.0, 0.0, -10.0), Vec3(0.0, 1.0, 0.0));
    MeshGeometry.PlaneFirstCounterClockwise(Vec3(10.0, 0.0, 10.0), Vec3(10.0, 0.0, -10.0), Vec3(-10.0, 0.0, -10.0), Vec3(0.0, 1.0, 0.0));
  }

  lemma PlaneSecondWinds()
    ensures WellFormed(Plane, 4) && WindsAlongNormal(Plane, 4, 1)
  {
    PlaneWellFormed();
    assert Tangents.Corners(PlaneIndices, 1) == (0, 3, 2);
    WindsAlongNormalIff(Plane, 4, 1, Vec3(-10.0, 0.0, -10.0), Vec3(-10.0, 0.0, 10.0), Vec3(10.0, 0.0, 10.0), Vec3(0.0, 1.0, 0.0));
    MeshGeometry.PlaneSecondCounterClockwise(Vec3(-10.0, 0.0, -10.0), Vec3(-10.0, 0.0, 10.0), Vec3(10.0, 0.0, 10.0), Vec3(0.0, 1.0, 0.0));
  }

  /** Neither plane triangle is skipped by `ComputeTangents`. */
  lemma PlaneUVsNondegenerate()
    ensures forall j :: 0 <= j < |PlaneIndices| ==> 2 * PlaneIndices[j] + 2 <= |PlaneTexCoords|
    ensures forall t :: 0 <= t < 2 ==> UVsNondegenerate(PlaneTexCoords, PlaneIndices, t)
  {
    PlaneFirstUVs();
    PlaneSecondUVs();
    forall t | 0 <= t < 2
      ensures UVsNondegenerate(PlaneTexCoords, PlaneIndices, t)
    {
      assert t == 0 || t == 1;
    }
  }

  lemma PlaneFirstUVs()
    ensures forall j :: 0 <= j < |PlaneIndices| ==> 2 * PlaneIndices[j] + 2 <= |PlaneTexCoords|
    ensures UVsNondegenerate(PlaneTexCoords, PlaneIndices, 0)
  {
    assert Tangents.Corners(PlaneIndices, 0) == (2, 1, 0);
    UVsNondegenerateIff(PlaneTexCoords, PlaneIndices, 0, 2, 1, 0, Vec2(5.0, 5.0), Vec2(5.0, 0.0), Vec2(0.0, 0.0));
    PlaneFirstHalf(Vec2(5.0, 5.0), Vec2(5.0, 0.0), Vec2(0.0, 0.0));
  }

  lemma PlaneSecondUVs()
    ensures forall j :: 0 <= j < |PlaneIndices| ==> 2 * PlaneIndices[j] + 2 <= |PlaneTexCoords|
    ensures UVsNondegenerate(PlaneTexCoords, PlaneIndices, 1)
  {
    assert Tangents.Corners(PlaneIndices, 1) == (0, 3, 2);
    UVsNondegenerateIff(PlaneTexCoords, PlaneIndices, 1, 0, 3, 2, Vec2(0.0, 0.0), Vec2(0.0, 5.0), Vec2(5.0, 5.0));
    PlaneSecondHalf(Vec2(0.0, 0.0), Vec2(0.0, 5.0), Vec2(5.0, 5.0));
  }
}
