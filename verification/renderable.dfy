/** `RenderableObject`: a mesh with its material slots and the three GL
    objects (vertex array, vertex buffer, index buffer) that hold it on the
    GPU. Every operation returns the GL commands it issues. The names GL
    generates are inputs, and so is the inverse-length function used to
    normalize tangents. */
module Renderable {
  import opened Results
  import opened Vectors
  import opened Matrices
  import opened Gl
  import VertexLayout
  import Tangents
  import ShaderProgram

  /** `_vao`, `_vbo`, `_ibo`. */
  datatype Handles = Handles(vao: int, vbo: int, ibo: int)

  /** The fields of a `RenderableObject`. The lists passed to the
      constructor may be null (`None`); the tangent list starts empty. */
  datatype Object = Object(
    name: string,
    position: Vec3, rotation: Vec3, scale: Vec3,
    vertices: Option<seq<real>>, indices: Option<seq<nat>>,
    texCoords: Option<seq<real>>, normals: Option<seq<real>>,
    tangents: seq<real>,
    baseColor: Vec3, specularStrength: real,
    colorTexture: int, specularTexture: int, normalTexture: int,
    handles: Handles)

  /** An object with its field initializers and the given lists, before
      the constructor body decides whether to build buffers. */
  function Fresh(name: string, vertices: Option<seq<real>>, normals: Option<seq<real>>,
                 indices: Option<seq<nat>>, texCoords: Option<seq<real>>): (o: Object)
    ensures o.name == name && o.vertices == vertices && o.normals == normals
    ensures o.indices == indices && o.texCoords == texCoords && o.tangents == []
    ensures o.position == Zero3 && o.rotation == Zero3 && o.scale == One3
    ensures o.baseColor == One3 && o.specularStrength == 0.5
    ensures o.colorTexture == -1 && o.specularTexture == -1 && o.normalTexture == -1
    ensures o.handles == Handles(0, 0, 0)
  {
    Object(name, Zero3, Zero3, One3, vertices, indices, texCoords, normals, [],
           One3, 0.5, -1, -1, -1, Handles(0, 0, 0))
  }

  /** Whether the object samples a normal map. */
  predicate HasNormalMap(o: Object) {
    o.normalTexture != -1
  }

  // ---------------------------------------------------------------------
  // Attribute pointers

  /** `VertexAttribPointer` and `EnableVertexAttribArray` for each
      attribute, with the stride and offsets converted from floats to bytes. */
  function AttribCommands(attrs: seq<VertexLayout.Attribute>, stride: nat): (log: seq<Command>)
    ensures |log| == 2 * |attrs|
    decreases |attrs|
  {
    if |attrs| == 0 then []
    else
      var a := attrs[0];
      [VertexAttribPointer(a.location, a.size, 4 * stride, 4 * a.offset), EnableVertexAttribArray(a.location)]
        + AttribCommands(attrs[1..], stride)
  }

  /** The attribute layout a log declares, read back from its
      `VertexAttribPointer` commands (offsets converted to floats). */
  function Pointers(log: seq<Command>): seq<VertexLayout.Attribute>
    decreases |log|
  {
    if |log| == 0 then []
    else
      var c := log[0];
      (if c.VertexAttribPointer? then [VertexLayout.Attribute(c.attribLocation, c.size, c.offsetBytes / 4)] else [])
        + Pointers(log[1..])
  }

  /** Every `VertexAttribPointer` of a log uses the byte stride `bytes`. */
  predicate StrideIs(log: seq<Command>, bytes: nat) {
    forall k :: 0 <= k < |log| && log[k].VertexAttribPointer? ==> log[k].strideBytes == bytes
  }

  /** Every attribute a log enables has a pointer declared just before. */
  predicate EnabledAfterPointer(log: seq<Command>) {
    forall k :: 0 <= k < |log| && log[k].EnableVertexAttribArray? ==>
      k > 0 && log[k - 1].VertexAttribPointer? && log[k - 1].attribLocation == log[k].attribute
  }

  lemma {:induction false} PointersAppend(a: seq<Command>, b: seq<Command>)
    ensures Pointers(a + b) == Pointers(a) + Pointers(b)
    decreases |a|
  {
    if |a| > 0 {
      assert (a + b)[0] == a[0] && (a + b)[1..] == a[1..] + b;
      PointersAppend(a[1..], b);
    } else {
      assert a + b == b;
    }
  }

  /** Reading the pointers back from the commands gives the layout they
      were generated from, every pointer uses the stride, and every enable
      follows its pointer. */
  lemma {:induction false} AttribCommandsDeclare(attrs: seq<VertexLayout.Attribute>, stride: nat)
    ensures Pointers(AttribCommands(attrs, stride)) == attrs
    ensures StrideIs(AttribCommands(attrs, stride), 4 * stride)
    ensures EnabledAfterPointer(AttribCommands(attrs, stride))
    decreases |attrs|
  {
    if |attrs| > 0 {
      var a := attrs[0];
      var head := [VertexAttribPointer(a.location, a.size, 4 * stride, 4 * a.offset), EnableVertexAttribArray(a.location)];
      var tail := AttribCommands(attrs[1..], stride);
      AttribCommandsDeclare(attrs[1..], stride);
      PointersAppend(head, tail);
      assert head[1..][1..] == [];
      assert Pointers(head) == [a];
      assert attrs == [a] + attrs[1..];
      var log := head + tail;
      forall k | 0 <= k < |log| && log[k].EnableVertexAttribArray?
        ensures k > 0 && log[k - 1].VertexAttribPointer? && log[k - 1].attribLocation == log[k].attribute
      {
        if k >= 2 {
          assert log[k] == tail[k - 2];
          if k >= 3 {
            assert log[k - 1] == tail[k - 3];
          }
        }
      }
    }
  }

  lemma NoPointers(log: seq<Command>)
    requires forall k :: 0 <= k < |log| ==> !log[k].VertexAttribPointer?
    ensures Pointers(log) == []
    decreases |log|
  {
    if |log| > 0 {
      NoPointers(log[1..]);
    }
  }

  // ---------------------------------------------------------------------
  // InitializeBuffers

  /** How `InitializeBuffers` fails: a list it reads is null, the tangent
      computation reads past a list, or the interleave loop does. */
  datatype BufferError = NullList | TangentReadFailure | LayoutReadFailure

  /** The commands of a successful `InitializeBuffers`: bind the vertex
      array, upload the interleaved floats and the indices, declare and
      enable the attributes, and unbind the vertex array. */
  function UploadCommands(h: Handles, data: seq<real>, indices: seq<nat>, hasUV: bool, hasNormalMap: bool): (log: seq<Command>)
  {
    [BindVertexArray(h.vao),
     BindBuffer(ArrayBuffer, h.vbo), BufferFloats(data),
     BindBuffer(ElementArrayBuffer, h.ibo), BufferIndices(indices)]
      + AttribCommands(VertexLayout.Attributes(hasUV, hasNormalMap), VertexLayout.Stride(hasUV, hasNormalMap))
      + [BindVertexArray(0)]
  }

  /** `InitializeBuffers(flipVerticalNormals)` with the names `h` GL
      generates. With a normal map, `ComputeTangents(Normals, flip)` runs
      first and may flip the object's own texture coordinates in place. Then
      the vertices, normals, texture coordinates (when not null) and tangents
      (with a normal map) are interleaved and uploaded with the indices. */
  function InitializeBuffers(o: Object, flip: bool, h: Handles, invLength: Vec3 -> real): (r: Result<(Object, seq<Command>), BufferError>)
    requires forall v :: invLength(v) >= 0.0
    ensures r.Ok? <==>
      && o.vertices.Some? && o.indices.Some?
      && (HasNormalMap(o) ==>
            Tangents.CanCompute(o.vertices.value, Tangents.OrEmpty(o.normals), o.texCoords, o.indices.value, flip))
      && VertexLayout.Readable(VertexLayout.Source(o.vertices.value, Tangents.OrEmpty(o.normals), o.texCoords, None))
    ensures r.Ok? ==> r.value.0.handles == h
    ensures r.Ok? ==> r.value.0 == o.(handles := h, texCoords := r.value.0.texCoords, tangents := r.value.0.tangents)
    ensures r.Ok? ==> r.value.0.texCoords.Some? == o.texCoords.Some?
    ensures r.Ok? && HasNormalMap(o) && flip ==> o.texCoords.Some? && r.value.0.texCoords == Some(Tangents.FlipV(o.texCoords.value))
    ensures r.Ok? && !(HasNormalMap(o) && flip) ==> r.value.0.texCoords == o.texCoords
    ensures r.Ok? && !HasNormalMap(o) ==> r.value.0.tangents == o.tangents
    ensures r.Ok? && HasNormalMap(o) ==> |r.value.0.tangents| == 4 * (|o.vertices.value| / 3)
  {
    if o.vertices.None? then Err(NullList)
    else
      var vertices := o.vertices.value;
      var normals := Tangents.OrEmpty(o.normals);
      var computed :-
        if !HasNormalMap(o) then Ok(Tangents.Output(o.texCoords, o.tangents))
        else if o.indices.None? then Err(NullList)
        else
          match Tangents.ComputeTangents(vertices, normals, o.texCoords, o.indices.value, flip, invLength)
          case Ok(out) => Ok(out)
          case Err(_) => Err(TangentReadFailure);
      var source := VertexLayout.Source(vertices, normals, computed.uvs,
                                        if HasNormalMap(o) then Some(computed.tangents) else None);
      var data :-
        match VertexLayout.Interleave(source)
        case Ok(d) => Ok(d)
        case Err(_) => Err(LayoutReadFailure);
      if o.indices.None? then Err(NullList)
      else
        var o' := o.(handles := h, texCoords := computed.uvs, tangents := computed.tangents);
        Ok((o', UploadCommands(h, data, o.indices.value, computed.uvs.Some?, HasNormalMap(o))))
  }

  /** The upload commands bind the vertex array first and unbind it last,
      upload the floats and the indices to the named buffers, and declare
      through their pointers exactly the layout for the given texture
      coordinates and normal map, each with the layout's stride in bytes and
      each enabled right after it is declared. */
  lemma UploadCommandsDeclare(h: Handles, data: seq<real>, indices: seq<nat>, hasUV: bool, hasNormalMap: bool)
    ensures var log := UploadCommands(h, data, indices, hasUV, hasNormalMap);
      && log[0] == BindVertexArray(h.vao) && log[|log| - 1] == BindVertexArray(0)
      && log[1..5] == [BindBuffer(ArrayBuffer, h.vbo), BufferFloats(data), BindBuffer(ElementArrayBuffer, h.ibo), BufferIndices(indices)]
      && Pointers(log) == VertexLayout.Attributes(hasUV, hasNormalMap)
      && StrideIs(log, 4 * VertexLayout.Stride(hasUV, hasNormalMap))
      && EnabledAfterPointer(log)
  {
    var log := UploadCommands(h, data, indices, hasUV, hasNormalMap);
    var attrs := VertexLayout.Attributes(hasUV, hasNormalMap);
    var stride := VertexLayout.Stride(hasUV, hasNormalMap);
    var head := [BindVertexArray(h.vao), BindBuffer(ArrayBuffer, h.vbo), BufferFloats(data),
                 BindBuffer(ElementArrayBuffer, h.ibo), BufferIndices(indices)];
    var middle := AttribCommands(attrs, stride);
    var tail := [BindVertexArray(0)];
    assert log == head + middle + tail;
    AttribCommandsDeclare(attrs, stride);
    Framed(head, middle, tail, 4 * stride);
  }

  /** Commands that declare and enable no attribute, around a block that
      does, leave the block's layout, stride and enable order intact. */
  lemma Framed(head: seq<Command>, middle: seq<Command>, tail: seq<Command>, bytes: nat)
    requires forall k :: 0 <= k < |head| ==> !head[k].VertexAttribPointer? && !head[k].EnableVertexAttribArray?
    requires forall k :: 0 <= k < |tail| ==> !tail[k].VertexAttribPointer? && !tail[k].EnableVertexAttribArray?
    requires StrideIs(middle, bytes) && EnabledAfterPointer(middle)
    ensures Pointers(head + middle + tail) == Pointers(middle)
    ensures StrideIs(head + middle + tail, bytes)
    ensures EnabledAfterPointer(head + middle + tail)
  {
    var log := head + middle + tail;
    NoPointers(head);
    NoPointers(tail);
    PointersAppend(head, middle);
    PointersAppend(head + middle, tail);
    forall k | 0 <= k < |log| && log[k].EnableVertexAttribArray?
      ensures k > 0 && log[k - 1].VertexAttribPointer? && log[k - 1].attribLocation == log[k].attribute
    {
      assert |head| <= k < |head| + |middle|;
      assert log[k] == middle[k - |head|];
      assert log[k - 1] == middle[k - |head| - 1];
    }
    forall k | 0 <= k < |log| && log[k].VertexAttribPointer?
      ensures log[k].strideBytes == bytes
    {
      assert |head| <= k < |head| + |middle|;
      assert log[k] == middle[k - |head|];
    }
  }

  /** A successful `InitializeBuffers` uploads the interleave of the
      object's final lists and its index list, and declares the layout for
      its final texture coordinates and normal map. */
  lemma UploadMatchesLayout(o: Object, flip: bool, h: Handles, invLength: Vec3 -> real)
    requires forall v :: invLength(v) >= 0.0
    requires InitializeBuffers(o, flip, h, invLength).Ok?
    ensures var (o', log) := InitializeBuffers(o, flip, h, invLength).value;
      var hasUV := o'.texCoords.Some?;
      var source := VertexLayout.Source(o'.vertices.value, Tangents.OrEmpty(o'.normals), o'.texCoords,
                                        if HasNormalMap(o') then Some(o'.tangents) else None);
      && VertexLayout.Interleave(source).Ok?
      && log == UploadCommands(h, VertexLayout.Interleave(source).value, o'.indices.value, hasUV, HasNormalMap(o'))
  {
  }

  /** Without a normal map the flip flag is never read: the result is the
      same either way, and so is the inverse-length function. */
  lemma FlipIgnoredWithoutNormalMap(o: Object, h: Handles, f: Vec3 -> real, g: Vec3 -> real)
    requires forall v :: f(v) >= 0.0
    requires forall v :: g(v) >= 0.0
    requires !HasNormalMap(o)
    ensures InitializeBuffers(o, true, h, f) == InitializeBuffers(o, false, h, g)
  {
  }

  /** With a normal map and the flip set, building twice flips the object's
      texture coordinates back: the flip is applied to the list itself, not
      to a copy. */
  lemma RebuildUnflips(o: Object, h1: Handles, h2: Handles, invLength: Vec3 -> real)
    requires forall v :: invLength(v) >= 0.0
    requires HasNormalMap(o)
    requires InitializeBuffers(o, true, h1, invLength).Ok?
    requires InitializeBuffers(InitializeBuffers(o, true, h1, invLength).value.0, true, h2, invLength).Ok?
    ensures InitializeBuffers(InitializeBuffers(o, true, h1, invLength).value.0, true, h2, invLength).value.0.texCoords
         == o.texCoords
  {
    Tangents.FlipVTwice(o.texCoords.value);
  }

  /** An inverse-length function for construction, where no tangent is
      normalized because no object has a normal map yet. */
  function Unused(v: Vec3): real {
    0.0
  }

  /** The constructor `RenderableObject(name, vertices, normals, indices,
      textureCoordinants)`: buffers are built, without flipping, exactly when
      one of the vertex, normal or index lists is given. A new object has no
      normal map, so no tangents are computed. */
  function New(name: string, vertices: Option<seq<real>>, normals: Option<seq<real>>,
               indices: Option<seq<nat>>, texCoords: Option<seq<real>>, h: Handles): (r: Result<(Object, seq<Command>), BufferError>)
    ensures vertices.None? && normals.None? && indices.None? ==>
      r == Ok((Fresh(name, vertices, normals, indices, texCoords), []))
    ensures (vertices.Some? || normals.Some? || indices.Some?) ==>
      && (r.Ok? <==> vertices.Some? && indices.Some? &&
                     VertexLayout.Readable(VertexLayout.Source(vertices.value, Tangents.OrEmpty(normals), texCoords, None)))
      && (r.Ok? ==> r.value.0 == Fresh(name, vertices, normals, indices, texCoords).(handles := h))
  {
    var o := Fresh(name, vertices, normals, indices, texCoords);
    if vertices.Some? || normals.Some? || indices.Some? then InitializeBuffers(o, false, h, Unused)
    else Ok((o, []))
  }

  // ---------------------------------------------------------------------
  // DisposeBuffers

  /** `DisposeBuffers()`: each nonzero name is deleted, in the order vertex
      array, vertex buffer, index buffer, and set to 0. */
  function Dispose(o: Object): (r: (Object, seq<Command>))
    ensures r.0 == o.(handles := Handles(0, 0, 0))
    ensures DeleteVertexArray(o.handles.vao) in r.1 <==> o.handles.vao != 0
    ensures DeleteBuffer(o.handles.vbo) in r.1 <==> o.handles.vbo != 0
    ensures DeleteBuffer(o.handles.ibo) in r.1 <==> o.handles.ibo != 0
    ensures forall c :: c in r.1 ==>
      c == DeleteVertexArray(o.handles.vao) || c == DeleteBuffer(o.handles.vbo) || c == DeleteBuffer(o.handles.ibo)
    ensures forall i, j :: 0 <= i < |r.1| && 0 <= j < |r.1| && r.1[i].DeleteVertexArray? && r.1[j].DeleteBuffer? ==> i < j
    ensures o.handles.vao != 0 ==> r.1[0] == DeleteVertexArray(o.handles.vao)
    ensures o.handles.ibo != 0 ==> r.1[|r.1| - 1] == DeleteBuffer(o.handles.ibo)
    ensures o.handles.vbo != 0 ==> r.1[if o.handles.vao != 0 then 1 else 0] == DeleteBuffer(o.handles.vbo)
  {
    var h := o.handles;
    var log := (if h.vao != 0 then [DeleteVertexArray(h.vao)] else [])
             + (if h.vbo != 0 then [DeleteBuffer(h.vbo)] else [])
             + (if h.ibo != 0 then [DeleteBuffer(h.ibo)] else []);
    (o.(handles := Handles(0, 0, 0)), log)
  }

  /** Disposing twice is harmless: the second call deletes nothing. */
  lemma DisposeTwiceDeletesNothing(o: Object)
    ensures Dispose(Dispose(o).0).1 == []
    ensures Dispose(Dispose(o).0).0 == Dispose(o).0
  {
  }

  // ---------------------------------------------------------------------
  // Render

  /** `Render(shader, instanceCount)`: the model matrix (scale, then the X,
      Y and Z rotations, then the translation) is uploaded to `uModel`
      through the shader's cache, and one instanced draw of all indices is
      issued with the object's vertex array bound, which is unbound again
      afterwards. A null index list throws after the upload. */
  function Render(o: Object, s: ShaderProgram.Shader, query: ShaderProgram.Query, instanceCount: int): (r: Result<(ShaderProgram.Shader, seq<Command>), BufferError>)
    ensures r.Err? <==> o.indices.None?
    ensures r.Ok? ==> r.value.0 == ShaderProgram.GetUniform(s, "uModel", query).shader
    ensures r.Ok? ==> CountDraws(r.value.1) == 1
    ensures r.Ok? ==>
      && |r.value.1| == 4
      && r.value.1[0] == UniformMatrix(ShaderProgram.GetUniform(s, "uModel", query).location,
                                       ModelTransform(o.scale, o.rotation, o.position))
      && r.value.1[1..] == [BindVertexArray(o.handles.vao), DrawElements(|o.indices.value|, instanceCount), BindVertexArray(0)]
    ensures r.Ok? && ShaderProgram.CacheAgrees(s, query) ==>
      && ShaderProgram.CacheAgrees(r.value.0, query)
      && r.value.1[0].location == query(s.handle, "uModel")
  {
    var lookup := ShaderProgram.GetUniform(s, "uModel", query);
    if o.indices.None? then Err(NullList)
    else
      var log := [UniformMatrix(lookup.location, ModelTransform(o.scale, o.rotation, o.position)),
                  BindVertexArray(o.handles.vao), DrawElements(|o.indices.value|, instanceCount), BindVertexArray(0)];
      assert log[..3][..2][..1][..0] == [];
      Ok((lookup.shader, log))
  }
}
