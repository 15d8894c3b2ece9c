/** `RenderableObject.ComputeTangents`: the optional in-place V flip of the
    texture coordinates, the per-triangle tangent accumulation with its
    degenerate-triangle skip, and the per-vertex Gram-Schmidt step that
    produces one (x, y, z, w) tangent per vertex. Floats are exact reals; the
    square root inside `Normalize` is a caller-supplied non-negative scale. */
module Tangents {
  import opened Results
  import opened Vectors

  /** `1e-6f`: the single-precision value nearest to one millionth,
      8796093 / 2^43. */
  const Epsilon: real := 8796093.0 / 8796093022208.0

  /** Any exception the computation can throw (a null texture-coordinate
      list or an index outside a list); the exception type is not kept. */
  datatype TangentError = ReadFailure

  // ---------------------------------------------------------------------
  // The V flip

  /** `for (i = 1; i < uv.Count; i += 2) uv[i] = 1 - uv[i]`. */
  function FlipV(uvs: seq<real>): (r: seq<real>)
    ensures |r| == |uvs|
    ensures forall i :: 0 <= i < |uvs| && i % 2 == 0 ==> r[i] == uvs[i]
    ensures forall i :: 0 <= i < |uvs| && i % 2 == 1 ==> r[i] + uvs[i] == 1.0
  {
    seq(|uvs|, i requires 0 <= i < |uvs| => if i % 2 == 1 then 1.0 - uvs[i] else uvs[i])
  }

  /** Flipping twice restores the list. */
  lemma FlipVTwice(uvs: seq<real>)
    ensures FlipV(FlipV(uvs)) == uvs
  {
    var r := FlipV(FlipV(uvs));
    forall i | 0 <= i < |uvs|
      ensures r[i] == uvs[i]
    {
      if i % 2 == 1 {
        assert FlipV(uvs)[i] + uvs[i] == 1.0;
      }
    }
  }

  // ---------------------------------------------------------------------
  // One triangle

  function Position(vertices: seq<real>, i: nat): Vec3
    requires 3 * i + 3 <= |vertices|
  {
    Vec3(vertices[3 * i], vertices[3 * i + 1], vertices[3 * i + 2])
  }

  function TexCoord(uvs: seq<real>, i: nat): Vec2
    requires 2 * i + 2 <= |uvs|
  {
    Vec2(uvs[2 * i], uvs[2 * i + 1])
  }

  /** The three corners of triangle `t`, read from `indices[3t..3t+3]`. */
  function Corners(indices: seq<nat>, t: nat): (c: (nat, nat, nat))
    requires 3 * t + 3 <= |indices|
  {
    (indices[3 * t], indices[3 * t + 1], indices[3 * t + 2])
  }

  /** `deltaUV1.X * deltaUV2.Y - deltaUV2.X * deltaUV1.Y`. */
  function Denominator(d1: Vec2, d2: Vec2): real {
    d1.x * d2.y - d2.x * d1.y
  }

  /** The per-triangle tangent and bitangent, or `None` for a triangle whose
      UV determinant is below `1e-6f` in magnitude. */
  datatype Frame = Frame(tangent: Vec3, bitangent: Vec3)

  function TriangleFrame(p0: Vec3, p1: Vec3, p2: Vec3, uv0: Vec2, uv1: Vec2, uv2: Vec2): (f: Option<Frame>)
    ensures f.None? <==> Abs(Denominator(Sub2(uv1, uv0), Sub2(uv2, uv0))) < Epsilon
  {
    var e1 := Sub(p1, p0);
    var e2 := Sub(p2, p0);
    var d1 := Sub2(uv1, uv0);
    var d2 := Sub2(uv2, uv0);
    var denom := Denominator(d1, d2);
    if Abs(denom) < Epsilon then None
    else
      var f := 1.0 / denom;
      Some(Frame(Scale(Sub(Scale(e1, d2.y), Scale(e2, d1.y)), f),
                 Scale(Add(Scale(e1, -d2.x), Scale(e2, d1.x)), f)))
  }

  /** The accumulators `tanAccum` and `bitanAccum`, one entry per vertex. */
  datatype Accum = Accum(tan: seq<Vec3>, bitan: seq<Vec3>)

  function Zeros(n: nat): (z: seq<Vec3>)
    ensures |z| == n && forall i :: 0 <= i < n ==> z[i] == Zero3
  {
    seq(n, i => Zero3)
  }

  function AddAt(acc: seq<Vec3>, i: nat, v: Vec3): seq<Vec3>
    requires i < |acc|
  {
    acc[i := Add(acc[i], v)]
  }

  /** How many corners of a triangle are vertex `j`. */
  function Occurrences(c: (nat, nat, nat), j: nat): nat {
    (if c.0 == j then 1 else 0) + (if c.1 == j then 1 else 0) + (if c.2 == j then 1 else 0)
  }

  /** `acc[i0] += v; acc[i1] += v; acc[i2] += v;` */
  function AddCorners(acc: seq<Vec3>, c: (nat, nat, nat), v: Vec3): (r: seq<Vec3>)
    requires c.0 < |acc| && c.1 < |acc| && c.2 < |acc|
    ensures |r| == |acc|
    ensures forall j :: 0 <= j < |acc| ==> r[j] == Add(acc[j], Scale(v, Occurrences(c, j) as real))
  {
    var r := AddAt(AddAt(AddAt(acc, c.0, v), c.1, v), c.2, v);
    forall j | 0 <= j < |acc|
      ensures r[j] == Add(acc[j], Scale(v, Occurrences(c, j) as real))
    {
      var n := Occurrences(c, j);
      assert n <= 3;
      if n == 0 {
        assert r[j] == acc[j];
      } else if n == 1 {
        assert r[j] == Add(acc[j], v);
      } else if n == 2 {
        assert r[j] == Add(Add(acc[j], v), v);
      } else {
        assert r[j] == Add(Add(Add(acc[j], v), v), v);
      }
    }
    r
  }

  /** The inputs the accumulation loop reads. */
  datatype Mesh = Mesh(vertices: seq<real>, uvs: seq<real>, indices: seq<nat>)

  function VertexCount(m: Mesh): nat {
    |m.vertices| / 3
  }

  /** Every read of the triangle loop stays inside its list. */
  predicate TrianglesReadable(m: Mesh) {
    && |m.indices| % 3 == 0
    && forall j :: 0 <= j < |m.indices| ==>
         m.indices[j] < VertexCount(m) && 2 * m.indices[j] + 2 <= |m.uvs|
  }

  function FrameOf(m: Mesh, t: nat): Option<Frame>
    requires TrianglesReadable(m) && 3 * t + 3 <= |m.indices|
  {
    var c := Corners(m.indices, t);
    TriangleFrame(Position(m.vertices, c.0), Position(m.vertices, c.1), Position(m.vertices, c.2),
                  TexCoord(m.uvs, c.0), TexCoord(m.uvs, c.1), TexCoord(m.uvs, c.2))
  }

  /** The frame of every triangle, in order. */
  function Frames(m: Mesh): (frames: seq<Option<Frame>>)
    requires TrianglesReadable(m)
    ensures |frames| == |m.indices| / 3
    ensures forall t :: 0 <= t < |frames| ==> frames[t] == FrameOf(m, t)
  {
    seq(|m.indices| / 3, t requires 0 <= t < |m.indices| / 3 => FrameOf(m, t))
  }

  /** One iteration of the triangle loop, given the triangle's frame: a
      degenerate triangle is skipped; any other adds its tangent to each of
      its three corners, so a vertex gains the tangent once per corner it
      occupies. */
  function AccumulateTriangle(m: Mesh, acc: Accum, t: nat, frame: Option<Frame>): (r: Accum)
    requires TrianglesReadable(m) && 3 * t + 3 <= |m.indices|
    requires |acc.tan| == VertexCount(m) && |acc.bitan| == VertexCount(m)
    ensures |r.tan| == VertexCount(m) && |r.bitan| == VertexCount(m)
    ensures frame.None? ==> r == acc
    ensures frame.Some? ==> forall j :: 0 <= j < VertexCount(m) ==>
      r.tan[j] == Add(acc.tan[j], Scale(frame.value.tangent, Occurrences(Corners(m.indices, t), j) as real))
  {
    var c := Corners(m.indices, t);
    assert c.0 == m.indices[3 * t] && c.1 == m.indices[3 * t + 1] && c.2 == m.indices[3 * t + 2];
    match frame
    case None => acc
    case Some(f) => Accum(AddCorners(acc.tan, c, f.tangent), AddCorners(acc.bitan, c, f.bitangent))
  }

  /** The accumulators after the first `n` triangles, whose frames are
      `frames`. */
  function AccumulateUpTo(m: Mesh, frames: seq<Option<Frame>>, n: nat): (r: Accum)
    requires TrianglesReadable(m) && 3 * n <= |m.indices| && n <= |frames|
    ensures |r.tan| == VertexCount(m) && |r.bitan| == VertexCount(m)
  {
    if n == 0 then Accum(Zeros(VertexCount(m)), Zeros(VertexCount(m)))
    else AccumulateTriangle(m, AccumulateUpTo(m, frames, n - 1), n - 1, frames[n - 1])
  }

  /** What triangle `t`, with frame `frame`, contributes to vertex `j`. */
  function Contribution(m: Mesh, t: nat, frame: Option<Frame>, j: nat): Vec3
    requires 3 * t + 3 <= |m.indices|
  {
    match frame
    case None => Zero3
    case Some(f) => Scale(f.tangent, Occurrences(Corners(m.indices, t), j) as real)
  }

  /** Reference definition: the sum over the first `n` triangles of what
      each contributes to vertex `j`. */
  function TangentSum(m: Mesh, frames: seq<Option<Frame>>, n: nat, j: nat): Vec3
    requires 3 * n <= |m.indices| && n <= |frames|
  {
    if n == 0 then Zero3 else Add(TangentSum(m, frames, n - 1, j), Contribution(m, n - 1, frames[n - 1], j))
  }

  /** The accumulated tangent of a vertex is the sum of the contributions of
      the non-degenerate triangles it is a corner of. */
  lemma {:induction false} AccumulateIsSum(m: Mesh, frames: seq<Option<Frame>>, n: nat, j: nat)
    requires TrianglesReadable(m) && 3 * n <= |m.indices| && n <= |frames| && j < VertexCount(m)
    ensures AccumulateUpTo(m, frames, n).tan[j] == TangentSum(m, frames, n, j)
    decreases n
  {
    if n > 0 {
      AccumulateIsSum(m, frames, n - 1, j);
    }
  }

  /** The triangle loop over a mesh's own frames. */
  lemma AccumulateMeshIsSum(m: Mesh, j: nat)
    requires TrianglesReadable(m) && j < VertexCount(m)
    ensures var n := |m.indices| / 3;
      AccumulateUpTo(m, Frames(m), n).tan[j] == TangentSum(m, Frames(m), n, j)
  {
    AccumulateIsSum(m, Frames(m), |m.indices| / 3, j);
  }

  // ---------------------------------------------------------------------
  // One vertex

  /** The second loop for one vertex: fall back to +X for a tiny tangent,
      remove the normal's component, normalize, rebuild the bitangent as
      `normalize(cross(n, t))`, and take the handedness from the sign of
      `dot(cross(n, t), b)`. The accumulated bitangent is replaced before it
      is read, so it is not an input. */
  function FinishVertex(n: Vec3, t: Vec3, invLength: Vec3 -> real): (r: seq<real>)
    requires forall v :: invLength(v) >= 0.0
    ensures |r| == 4 && r[3] == 1.0
  {
    var t1 := if LengthSquared(t) < Epsilon then UnitX else t;
    var t2 := Normalize(Sub(t1, Scale(n, Dot(n, t1))), invLength);
    var c := Cross(n, t2);
    var b := Normalize(c, invLength);
    NormalizeAligned(c, invLength);
    var handedness := if Dot(c, b) < 0.0 then -1.0 else 1.0;
    [t2.x, t2.y, t2.z, handedness]
  }

  function NormalAt(normals: seq<real>, i: nat): Vec3
    requires 3 * i + 3 <= |normals|
  {
    Vec3(normals[3 * i], normals[3 * i + 1], normals[3 * i + 2])
  }

  /** The tangent list after the first `n` iterations of the second loop. */
  function FinishUpTo(normals: seq<real>, tan: seq<Vec3>, n: nat, invLength: Vec3 -> real): (r: seq<real>)
    requires n <= |tan| && 3 * n <= |normals|
    requires forall v :: invLength(v) >= 0.0
    ensures |r| == 4 * n
    ensures forall i :: 0 <= i < n ==> r[4 * i + 3] == 1.0
    ensures forall i, k :: 0 <= i < n && 0 <= k < 4 ==>
      r[4 * i + k] == FinishVertex(NormalAt(normals, i), tan[i], invLength)[k]
  {
    if n == 0 then []
    else
      var prev := FinishUpTo(normals, tan, n - 1, invLength);
      var last := FinishVertex(NormalAt(normals, n - 1), tan[n - 1], invLength);
      prev + last
  }

  // ---------------------------------------------------------------------
  // The whole method

  /** The texture coordinates the triangle loop reads; with no triangles a
      missing list is never read. */
  function OrEmpty(uvs: Option<seq<real>>): seq<real> {
    if uvs.Some? then uvs.value else []
  }

  /** What `ComputeTangents` leaves behind: the (possibly flipped) texture
      coordinates, which it modified in place, and the new tangent list. */
  datatype Output = Output(uvs: Option<seq<real>>, tangents: seq<real>)

  /** No read of `ComputeTangents` fails: the texture coordinates exist
      (or are never touched), the index list is whole triangles naming
      existing vertices with texture coordinates, and there is a normal for
      every vertex. */
  predicate CanCompute(vertices: seq<real>, normals: seq<real>, uvs: Option<seq<real>>, indices: seq<nat>, flipV: bool) {
    && (flipV || |indices| > 0 ==> uvs.Some?)
    && |indices| % 3 == 0
    && |normals| >= 3 * (|vertices| / 3)
    && (forall j :: 0 <= j < |indices| ==> indices[j] < |vertices| / 3)
    && (uvs.Some? ==> forall j :: 0 <= j < |indices| ==> 2 * indices[j] + 2 <= |uvs.value|)
  }

  /** `ComputeTangents(normals, flipV)`. It fails exactly when a read would
      fail; otherwise the texture coordinates are flipped exactly when
      `flipV` is set, and the tangent list holds one (x, y, z, w) per vertex
      with handedness w = +1 everywhere, each entry computed from the vertex's
      normal and accumulated tangent only. */
  function ComputeTangents(vertices: seq<real>, normals: seq<real>, uvs: Option<seq<real>>, indices: seq<nat>,
                           flipV: bool, invLength: Vec3 -> real): (r: Result<Output, TangentError>)
    requires forall v :: invLength(v) >= 0.0
    ensures r.Err? <==> !CanCompute(vertices, normals, uvs, indices, flipV)
    ensures r.Ok? ==> r.value.uvs == if flipV then Some(FlipV(uvs.value)) else uvs
    ensures r.Ok? ==> |r.value.tangents| == 4 * (|vertices| / 3)
    ensures r.Ok? ==> forall i :: 0 <= i < |vertices| / 3 ==> r.value.tangents[4 * i + 3] == 1.0
    ensures r.Ok? ==>
      var m := Mesh(vertices, OrEmpty(r.value.uvs), indices);
      var acc := AccumulateUpTo(m, Frames(m), |indices| / 3);
      forall i, k :: 0 <= i < |vertices| / 3 && 0 <= k < 4 ==>
        r.value.tangents[4 * i + k] == FinishVertex(NormalAt(normals, i), acc.tan[i], invLength)[k]
  {
    if !CanCompute(vertices, normals, uvs, indices, flipV) then Err(ReadFailure)
    else
      var uvs' := if flipV then Some(FlipV(uvs.value)) else uvs;
      var m := Mesh(vertices, OrEmpty(uvs'), indices);
      assert TrianglesReadable(m);
      var acc := AccumulateUpTo(m, Frames(m), |indices| / 3);
      Ok(Output(uvs', FinishUpTo(normals, acc.tan, |vertices| / 3, invLength)))
  }
}
