/** The OpenGL calls the model keeps, as an effect log. Nothing here is
    executed: an operation that talks to the GPU returns the commands it
    issues, in order, and properties are stated about that list. */
module Gl {
  import opened Vectors
  import opened Matrices

  datatype BufferTarget = ArrayBuffer | ElementArrayBuffer

  datatype TextureTarget = Texture2D | TextureCubeMap

  datatype ShaderStage = VertexStage | FragmentStage

  datatype Command =
    | Clear(color: bool, depth: bool)
    | Viewport(width: int, height: int)
    | BindFramebuffer(framebuffer: int)
    | UseProgram(program: int)
    | UniformInt(location: int, intValue: int)
    | UniformFloat(location: int, floatValue: real)
    | UniformVec3(location: int, vecValue: Vec3)
    | UniformMatrix(location: int, matrix: Mat4)
    | UniformMatrices(location: int, matrices: seq<Mat4>)
    | ActiveTexture(unit: nat)
    | BindTexture(textureTarget: TextureTarget, texture: int)
      /** `TexImage2D` of one depth face of a cube map, `TextureCubeMapPositiveX + face`. */
    | AllocateCubeFace(face: nat, width: int, height: int)
      /** `FramebufferTexture(..., DepthAttachment, texture, 0)`. */
    | AttachDepthTexture(texture: int)
    | BindVertexArray(vertexArray: int)
    | BindBuffer(bufferTarget: BufferTarget, buffer: int)
    | BufferFloats(floats: seq<real>)
    | BufferIndices(indices: seq<nat>)
      /** `VertexAttribPointer(attribLocation, size, Float, false, strideBytes, offsetBytes)`. */
    | VertexAttribPointer(attribLocation: nat, size: nat, strideBytes: nat, offsetBytes: nat)
    | EnableVertexAttribArray(attribute: nat)
      /** `DrawElementsInstanced(Triangles, indexCount, UnsignedInt, 0, instanceCount)`. */
    | DrawElements(indexCount: nat, instanceCount: int)
    | DeleteVertexArray(deletedArray: int)
    | DeleteBuffer(deletedBuffer: int)
    | CompileShader(shader: int, stage: ShaderStage)
    | AttachShader(attachProgram: int, attached: int)
    | LinkProgram(linked: int)
    | DetachShader(detachProgram: int, detached: int)
    | DeleteShader(deletedShader: int)

  /** The number of draw calls in a log. */
  function CountDraws(log: seq<Command>): (n: nat)
    ensures n <= |log|
    ensures n == 0 <==> forall k :: 0 <= k < |log| ==> !log[k].DrawElements?
    decreases |log|
  {
    if |log| == 0 then 0
    else (if log[|log| - 1].DrawElements? then 1 else 0) + CountDraws(log[..|log| - 1])
  }

  /** Draw calls of consecutive stretches add up. */
  lemma {:induction false} CountDrawsAppend(a: seq<Command>, b: seq<Command>)
    ensures CountDraws(a + b) == CountDraws(a) + CountDraws(b)
    decreases |b|
  {
    if |b| > 0 {
      var last := b[|b| - 1];
      assert (a + b)[..|a + b| - 1] == a + b[..|b| - 1];
      assert (a + b)[|a + b| - 1] == last;
      CountDrawsAppend(a, b[..|b| - 1]);
    } else {
      assert a + b == a;
    }
  }

  // ---------------------------------------------------------------------
  // The part of GL's state the frame depends on

  /** The bound framebuffer (0 is the window's), the viewport size, the
      program in use, the active texture unit, and the texture bound to each
      (unit, target) pair. */
  datatype State = State(
    framebuffer: int, viewportWidth: int, viewportHeight: int, program: int,
    activeUnit: nat, textures: map<(nat, TextureTarget), int>)

  /** The texture bound to `target` on `unit`; 0, GL's default texture, if
      none was ever bound. */
  function Bound(st: State, unit: nat, target: TextureTarget): int {
    if (unit, target) in st.textures then st.textures[(unit, target)] else 0
  }

  /** The effect of one command on that state. `BindTexture` binds on the
      active unit; every other command leaves the state alone. */
  function Exec(st: State, c: Command): State {
    match c
    case BindFramebuffer(f) => st.(framebuffer := f)
    case Viewport(w, h) => st.(viewportWidth := w, viewportHeight := h)
    case UseProgram(p) => st.(program := p)
    case ActiveTexture(u) => st.(activeUnit := u)
    case BindTexture(t, texture) => st.(textures := st.textures[(st.activeUnit, t) := texture])
    case _ => st
  }

  /** The state after a log. */
  function Run(st: State, log: seq<Command>): State
    decreases |log|
  {
    if |log| == 0 then st else Run(Exec(st, log[0]), log[1..])
  }

  /** The state each draw call of a log sees, in order. */
  function DrawStates(st: State, log: seq<Command>): seq<State>
    decreases |log|
  {
    if |log| == 0 then []
    else (if log[0].DrawElements? then [st] else []) + DrawStates(Exec(st, log[0]), log[1..])
  }

  /** Running two stretches of a log one after the other. */
  lemma {:induction false} RunAppend(st: State, a: seq<Command>, b: seq<Command>)
    ensures Run(st, a + b) == Run(Run(st, a), b)
    ensures DrawStates(st, a + b) == DrawStates(st, a) + DrawStates(Run(st, a), b)
    decreases |a|
  {
    if |a| > 0 {
      assert (a + b)[0] == a[0];
      assert (a + b)[1..] == a[1..] + b;
      RunAppend(Exec(st, a[0]), a[1..], b);
    } else {
      assert a + b == b;
    }
  }

  /** One state per draw call. */
  lemma {:induction false} DrawStatesCount(st: State, log: seq<Command>)
    ensures |DrawStates(st, log)| == CountDraws(log)
    decreases |log|
  {
    if |log| > 0 {
      assert log == [log[0]] + log[1..];
      CountDrawsAppend([log[0]], log[1..]);
      assert CountDraws([log[0]]) == if log[0].DrawElements? then 1 else 0 by {
        assert [log[0]][..0] == [];
      }
      DrawStatesCount(Exec(st, log[0]), log[1..]);
    }
  }
}
