/** The interleaved vertex buffer `RenderableObject.InitializeBuffers`
    uploads: per vertex a position (3 floats), a normal (3), a texture
    coordinate (2, when the object has texture coordinates) and a tangent
    (4, when it has a normal map), together with the stride and the
    attribute pointers that tell the GPU how to read it back. */
module VertexLayout {
  import opened Results

  /** `stride = TextureCoordinants != null ? (normalTexture != -1 ? 12 : 8) : 6`. */
  function Stride(hasUV: bool, hasNormalMap: bool): nat {
    if hasUV then (if hasNormalMap then 12 else 8) else 6
  }

  /** How many floats the interleave loop appends per vertex. */
  function VertexSize(hasUV: bool, hasNormalMap: bool): nat {
    3 + 3 + (if hasUV then 2 else 0) + (if hasNormalMap then 4 else 0)
  }

  /** One `VertexAttribPointer(location, size, ..., offset)`, in floats. */
  datatype Attribute = Attribute(location: nat, size: nat, offset: nat)

  /** The attribute pointers, in the order they are declared: position at
      location 0, normal at 1, texture coordinate at 2 when present, tangent
      at 3 when there is a normal map. When a normal map implies texture
      coordinates the attributes tile one vertex record exactly: each starts
      where the previous one ends, the first at 0 and the last ending at the
      stride. */
  function Attributes(hasUV: bool, hasNormalMap: bool): (a: seq<Attribute>)
    ensures |a| == 2 + (if hasUV then 1 else 0) + (if hasNormalMap then 1 else 0)
    ensures a[0] == Attribute(0, 3, 0) && a[1] == Attribute(1, 3, 3)
    ensures forall k :: 0 <= k < |a| ==> a[k].location == if k == 2 && !hasUV then 3 else k
    ensures (hasNormalMap ==> hasUV) ==>
      && (forall k :: 0 < k < |a| ==> a[k].offset == a[k - 1].offset + a[k - 1].size)
      && a[|a| - 1].offset + a[|a| - 1].size == Stride(hasUV, hasNormalMap)
      && Stride(hasUV, hasNormalMap) == VertexSize(hasUV, hasNormalMap)
  {
    [Attribute(0, 3, 0), Attribute(1, 3, 3)]
      + (if hasUV then [Attribute(2, 2, 6)] else [])
      + (if hasNormalMap then [Attribute(3, 4, 8)] else [])
  }

  /** A normal map without texture coordinates breaks the layout: the loop
      appends 10 floats per vertex, the stride says 6, and the tangent
      attribute reads floats 8..11 of a 6-float record. */
  lemma NormalMapWithoutUVsMisaligned()
    ensures VertexSize(false, true) == 10 && Stride(false, true) == 6
    ensures var a := Attributes(false, true)[2];
      a.location == 3 && a.offset + a.size > Stride(false, true)
  {
  }

  // ---------------------------------------------------------------------
  // The interleave loop

  datatype LayoutError = ArgumentOutOfRange

  /** The lists the loop reads. `uvs` is `None` for a null
      `TextureCoordinants`; `tangents` is `None` when there is no normal map
      (the tangent list is then never read). */
  datatype Source = Source(vertices: seq<real>, normals: seq<real>, uvs: Option<seq<real>>, tangents: Option<seq<real>>)

  function VertexCount(s: Source): nat {
    |s.vertices| / 3
  }

  function RecordSize(s: Source): nat {
    VertexSize(s.uvs.Some?, s.tangents.Some?)
  }

  /** Every `GetRange` of the loop stays inside its list. */
  predicate Readable(s: Source) {
    && |s.normals| >= 3 * VertexCount(s)
    && (s.uvs.Some? ==> |s.uvs.value| >= 2 * VertexCount(s))
    && (s.tangents.Some? ==> |s.tangents.value| >= 4 * VertexCount(s))
  }

  /** The floats appended for vertex `i`. */
  function Record(s: Source, i: nat): (r: seq<real>)
    requires Readable(s) && i < VertexCount(s)
    ensures |r| == RecordSize(s)
  {
    s.vertices[3 * i .. 3 * i + 3]
      + s.normals[3 * i .. 3 * i + 3]
      + (if s.uvs.Some? then s.uvs.value[2 * i .. 2 * i + 2] else [])
      + (if s.tangents.Some? then s.tangents.value[4 * i .. 4 * i + 4] else [])
  }

  /** The buffer after the first `n` iterations. */
  function InterleaveUpTo(s: Source, n: nat): (r: seq<real>)
    requires Readable(s) && n <= VertexCount(s)
    ensures |r| == n * RecordSize(s)
  {
    if n == 0 then [] else InterleaveUpTo(s, n - 1) + Record(s, n - 1)
  }

  /** The interleave loop: fails exactly when some `GetRange` would run past
      the end of its list, and otherwise produces one record per vertex. */
  function Interleave(s: Source): (r: Result<seq<real>, LayoutError>)
    ensures r.Ok? <==> Readable(s)
    ensures r.Ok? ==> |r.value| == VertexCount(s) * RecordSize(s)
  {
    if Readable(s) then Ok(InterleaveUpTo(s, VertexCount(s))) else Err(ArgumentOutOfRange)
  }

  lemma MulMono(i: nat, n: nat, f: nat)
    requires i < n
    ensures i * f + f <= n * f
  {
    assert n * f == (n - 1) * f + f;
    if i < n - 1 {
      MulMono(i, n - 1, f);
    }
  }

  /** Float `k` of record `i` sits at `i * RecordSize + k` of the buffer. */
  lemma {:induction false} InterleaveAt(s: Source, n: nat, i: nat, k: nat)
    requires Readable(s) && n <= VertexCount(s) && i < n && k < RecordSize(s)
    ensures i * RecordSize(s) + k < |InterleaveUpTo(s, n)|
    ensures InterleaveUpTo(s, n)[i * RecordSize(s) + k] == Record(s, i)[k]
    decreases n
  {
    var f := RecordSize(s);
    var prev := InterleaveUpTo(s, n - 1);
    assert InterleaveUpTo(s, n) == prev + Record(s, n - 1);
    assert |prev| == (n - 1) * f;
    if i < n - 1 {
      MulMono(i, n - 1, f);
      InterleaveAt(s, n - 1, i, k);
    } else {
      assert i * f + k == |prev| + k;
    }
  }

  /** The component attribute `location` describes, for vertex `i`. */
  function Component(s: Source, location: nat, i: nat, k: nat): real
    requires Readable(s) && i < VertexCount(s) && location <= 3
    requires k < [3, 3, 2, 4][location]
    requires location == 2 ==> s.uvs.Some?
    requires location == 3 ==> s.tangents.Some?
  {
    if location == 0 then s.vertices[3 * i + k]
    else if location == 1 then s.normals[3 * i + k]
    else if location == 2 then s.uvs.value[2 * i + k]
    else s.tangents.value[4 * i + k]
  }

  /** Where each attribute points into a record: position at 0, normal at
      3, texture coordinate at 6, tangent at 8. */
  lemma AttributeAt(hasUV: bool, hasNormalMap: bool, m: nat)
    requires m < |Attributes(hasUV, hasNormalMap)|
    ensures var a := Attributes(hasUV, hasNormalMap)[m];
      && a.location <= 3
      && (a.location == 0 ==> a.offset == 0 && a.size == 3)
      && (a.location == 1 ==> a.offset == 3 && a.size == 3)
      && (a.location == 2 ==> hasUV && a.offset == 6 && a.size == 2)
      && (a.location == 3 ==> hasNormalMap && a.offset == 8 && a.size == 4)
  {
    var a := Attributes(hasUV, hasNormalMap);
    if hasUV && hasNormalMap {
      assert a == [Attribute(0, 3, 0), Attribute(1, 3, 3), Attribute(2, 2, 6), Attribute(3, 4, 8)];
    } else if hasUV {
      assert a == [Attribute(0, 3, 0), Attribute(1, 3, 3), Attribute(2, 2, 6)];
    } else if hasNormalMap {
      assert a == [Attribute(0, 3, 0), Attribute(1, 3, 3), Attribute(3, 4, 8)];
    } else {
      assert a == [Attribute(0, 3, 0), Attribute(1, 3, 3)];
    }
  }

  /** Float `j` of vertex `i`'s record, by the list it comes from. */
  lemma RecordAt(s: Source, i: nat, j: nat)
    requires Readable(s) && i < VertexCount(s) && j < RecordSize(s)
    ensures j < 3 ==> Record(s, i)[j] == s.vertices[3 * i + j]
    ensures 3 <= j < 6 ==> Record(s, i)[j] == s.normals[3 * i + j - 3]
    ensures s.uvs.Some? && 6 <= j < 8 ==> Record(s, i)[j] == s.uvs.value[2 * i + j - 6]
    ensures s.uvs.Some? && s.tangents.Some? && 8 <= j ==> Record(s, i)[j] == s.tangents.value[4 * i + j - 8]
  {
    var p := s.vertices[3 * i .. 3 * i + 3];
    var nm := s.normals[3 * i .. 3 * i + 3];
    var uv := if s.uvs.Some? then s.uvs.value[2 * i .. 2 * i + 2] else [];
    var tg := if s.tangents.Some? then s.tangents.value[4 * i .. 4 * i + 4] else [];
    assert Record(s, i) == p + nm + uv + tg;
  }

  /** The offset of the attribute at `location` within a record. */
  function OffsetOf(location: nat): nat
    requires location <= 3
  {
    [0, 3, 6, 8][location]
  }

  /** Float `k` of the attribute at `location` in vertex `i`'s record is that
      attribute's component `k`. */
  lemma ComponentOfRecord(s: Source, i: nat, location: nat, k: nat)
    requires Readable(s) && i < VertexCount(s) && location <= 3
    requires k < [3, 3, 2, 4][location]
    requires location == 2 ==> s.uvs.Some?
    requires location == 3 ==> s.tangents.Some?
    requires s.tangents.Some? ==> s.uvs.Some?
    ensures OffsetOf(location) + k < RecordSize(s)
    ensures Record(s, i)[OffsetOf(location) + k] == Component(s, location, i, k)
  {
    RecordAt(s, i, OffsetOf(location) + k);
  }

  /** Reading the buffer through the attribute pointers gives back the
      source lists: float `k` of attribute `a` of vertex `i`, found at
      `i * stride + a.offset + k`, is component `k` of that vertex's
      position, normal, texture coordinate or tangent. This holds whenever a
      normal map implies texture coordinates. */
  lemma AttributesReadBack(s: Source, i: nat, m: nat, k: nat)
    requires Readable(s) && i < VertexCount(s)
    requires s.tangents.Some? ==> s.uvs.Some?
    requires m < |Attributes(s.uvs.Some?, s.tangents.Some?)|
    requires k < Attributes(s.uvs.Some?, s.tangents.Some?)[m].size
    ensures var a := Attributes(s.uvs.Some?, s.tangents.Some?)[m];
      var stride := Stride(s.uvs.Some?, s.tangents.Some?);
      var data := Interleave(s).value;
      && a.location <= 3
      && (a.location == 2 ==> s.uvs.Some?)
      && (a.location == 3 ==> s.tangents.Some?)
      && i * stride + a.offset + k < |data|
      && data[i * stride + a.offset + k] == Component(s, a.location, i, k)
  {
    var a := Attributes(s.uvs.Some?, s.tangents.Some?)[m];
    AttributeAt(s.uvs.Some?, s.tangents.Some?, m);
    assert a.offset == OffsetOf(a.location) && a.size == [3, 3, 2, 4][a.location];
    ComponentOfRecord(s, i, a.location, k);
    assert Stride(s.uvs.Some?, s.tangents.Some?) == RecordSize(s);
    assert Interleave(s).value == InterleaveUpTo(s, VertexCount(s));
    InterleaveAt(s, VertexCount(s), i, a.offset + k);
  }
}
