/** One call of `MainWindow.OnRenderFrame`: a shadow pass that draws every
    object six times into the light's depth cube map, then a base pass that
    sets each object's material and draws it once. The uniform locations
    come from the shaders' caches (`GetUniform`), the camera's view matrix
    and the window size are inputs, and the ImGui and FPS bookkeeping of the
    frame is left out. */
module FrameRender {
  import opened Results
  import opened Vectors
  import opened Matrices
  import opened Gl
  import ShaderProgram
  import Renderable
  import MainWindow

  /** The five toggles of the "Light Rendering Variables" region. */
  datatype Settings = Settings(
    normalsView: bool, useColorMaps: bool, useSpecularMaps: bool, useNormalMaps: bool, useShadows: bool)

  /** Normals view off, every map and the shadows on. */
  function DefaultSettings(): (s: Settings)
    ensures !s.normalsView
    ensures s.useColorMaps && s.useSpecularMaps && s.useNormalMaps && s.useShadows
  {
    Settings(false, true, true, true, true)
  }

  /** The texture unit of the shadow cube map. */
  const ShadowUnit: nat := 0

  /** The three texture channels of a material. */
  datatype Channel = ColorMap | SpecularMap | NormalMap

  /** The texture unit each channel is bound to. */
  function Unit(c: Channel): nat {
    match c
    case ColorMap => 1
    case SpecularMap => 2
    case NormalMap => 3
  }

  /** The shadow map and the three channels each have a unit of their own. */
  lemma UnitsDistinct(c1: Channel, c2: Channel)
    ensures Unit(c1) != ShadowUnit
    ensures Unit(c1) == Unit(c2) <==> c1 == c2
  {
  }

  /** The object's texture for a channel, -1 when it has none. */
  function TextureOf(o: Renderable.Object, c: Channel): int {
    match c
    case ColorMap => o.colorTexture
    case SpecularMap => o.specularTexture
    case NormalMap => o.normalTexture
  }

  /** The global toggle of a channel. */
  function Enabled(settings: Settings, c: Channel): bool {
    match c
    case ColorMap => settings.useColorMaps
    case SpecularMap => settings.useSpecularMaps
    case NormalMap => settings.useNormalMaps
  }

  function UseName(c: Channel): string {
    match c
    case ColorMap => "material.useColorTexture"
    case SpecularMap => "material.useSpecularTexture"
    case NormalMap => "material.useNormalTexture"
  }

  function SamplerName(c: Channel): string {
    match c
    case ColorMap => "material.colorTexture"
    case SpecularMap => "material.specularTexture"
    case NormalMap => "material.normalTexture"
  }

  /** `cond ? 1 : 0`. */
  function Flag(b: bool): (i: int)
    ensures i == 1 <==> b
    ensures i == 0 <==> !b
  {
    if b then 1 else 0
  }

  /** Consecutive `GetUniform` calls on one shader, in order. When the cache
      agrees with GL, so does every location returned. */
  function Locations(s: ShaderProgram.Shader, names: seq<string>, query: ShaderProgram.Query): (r: (ShaderProgram.Shader, seq<int>))
    ensures r.0.handle == s.handle && |r.1| == |names|
    ensures ShaderProgram.CacheAgrees(s, query) ==>
      && ShaderProgram.CacheAgrees(r.0, query)
      && forall k :: 0 <= k < |names| ==> r.1[k] == query(s.handle, names[k])
    decreases |names|
  {
    if |names| == 0 then (s, [])
    else
      var first := ShaderProgram.GetUniform(s, names[0], query);
      var rest := Locations(first.shader, names[1..], query);
      (rest.0, [first.location] + rest.1)
  }

  // ---------------------------------------------------------------------
  // Materials

  /** One channel of the material: its use flag, and when the object has a
      texture for it, the texture bound to the channel's unit and the
      sampler pointed at that unit. */
  function ChannelCommands(s: ShaderProgram.Shader, query: ShaderProgram.Query, o: Renderable.Object,
                           settings: Settings, c: Channel): (r: (ShaderProgram.Shader, seq<Command>))
    ensures r.0.handle == s.handle && 1 <= |r.1|
    ensures r.1[0].UniformInt?
    ensures r.1[0].intValue == 1 <==> TextureOf(o, c) != -1 && Enabled(settings, c)
    ensures r.1[0].intValue == 0 <==> !(TextureOf(o, c) != -1 && Enabled(settings, c))
    ensures TextureOf(o, c) == -1 ==> |r.1| == 1
    ensures TextureOf(o, c) != -1 ==>
      && |r.1| == 4
      && r.1[1] == ActiveTexture(Unit(c))
      && r.1[2] == BindTexture(Texture2D, TextureOf(o, c))
      && r.1[3].UniformInt? && r.1[3].intValue == Unit(c)
    ensures ShaderProgram.CacheAgrees(s, query) ==>
      && ShaderProgram.CacheAgrees(r.0, query)
      && r.1[0].location == query(s.handle, UseName(c))
      && (TextureOf(o, c) != -1 ==> r.1[3].location == query(s.handle, SamplerName(c)))
  {
    var texture := TextureOf(o, c);
    if texture != -1 then
      var (s1, locs) := Locations(s, [UseName(c), SamplerName(c)], query);
      (s1, [UniformInt(locs[0], Flag(Enabled(settings, c))), ActiveTexture(Unit(c)),
            BindTexture(Texture2D, texture), UniformInt(locs[1], Unit(c))])
    else
      var (s1, locs) := Locations(s, [UseName(c)], query);
      (s1, [UniformInt(locs[0], 0)])
  }

  /** A command that leaves the frame-level state alone: it binds no
      framebuffer, sets no viewport, switches no program and binds no cube
      map. */
  predicate Inner(c: Command) {
    && !c.BindFramebuffer? && !c.Viewport? && !c.UseProgram?
    && !(c.BindTexture? && c.textureTarget == TextureCubeMap)
  }

  predicate AllInner(log: seq<Command>) {
    forall k :: 0 <= k < |log| ==> Inner(log[k])
  }

  lemma AllInnerAppend(a: seq<Command>, b: seq<Command>)
    ensures AllInner(a + b) <==> AllInner(a) && AllInner(b)
  {
    if AllInner(a + b) {
      forall k | 0 <= k < |b| ensures Inner(b[k]) {
        assert (a + b)[|a| + k] == b[k];
      }
      forall k | 0 <= k < |a| ensures Inner(a[k]) {
        assert (a + b)[k] == a[k];
      }
    }
  }

  /** The frame-level state: the framebuffer drawn into, the viewport, the
      program, and the cube map on the shadow unit. */
  datatype Setup = Setup(framebuffer: int, width: int, height: int, program: int, shadowMap: int)

  function SetupOf(st: State): Setup {
    Setup(st.framebuffer, st.viewportWidth, st.viewportHeight, st.program, Bound(st, ShadowUnit, TextureCubeMap))
  }

  /** A log of inner commands keeps the frame-level state, after it and at
      each of its draws. */
  lemma {:induction false} InnerKeepsSetup(st: State, log: seq<Command>)
    requires AllInner(log)
    ensures SetupOf(Run(st, log)) == SetupOf(st)
    ensures forall k :: 0 <= k < |DrawStates(st, log)| ==> SetupOf(DrawStates(st, log)[k]) == SetupOf(st)
    decreases |log|
  {
    if |log| > 0 {
      assert Inner(log[0]);
      var st1 := Exec(st, log[0]);
      assert SetupOf(st1) == SetupOf(st);
      assert AllInner(log[1..]) by {
        forall k | 0 <= k < |log| - 1 ensures Inner(log[1..][k]) {
          assert log[1..][k] == log[k + 1];
        }
      }
      InnerKeepsSetup(st1, log[1..]);
    }
  }

  /** No draw, and only inner commands, in a channel's commands. */
  lemma ChannelCommandsQuiet(s: ShaderProgram.Shader, query: ShaderProgram.Query, o: Renderable.Object, settings: Settings, c: Channel)
    ensures var log := ChannelCommands(s, query, o, settings, c).1;
      CountDraws(log) == 0 && AllInner(log)
  {
    var log := ChannelCommands(s, query, o, settings, c).1;
    assert forall k :: 0 <= k < |log| ==> !log[k].DrawElements?;
  }

  /** The channels of a material, in the order the frame sets them. */
  const Channels: seq<Channel> := [ColorMap, SpecularMap, NormalMap]

  /** The commands of several channels, one after the other. */
  function ChannelsCommands(s: ShaderProgram.Shader, query: ShaderProgram.Query, o: Renderable.Object,
                            settings: Settings, channels: seq<Channel>): (r: (ShaderProgram.Shader, seq<Command>))
    ensures r.0.handle == s.handle
    decreases |channels|
  {
    if |channels| == 0 then (s, [])
    else
      var (s1, first) := ChannelCommands(s, query, o, settings, channels[0]);
      var (s2, rest) := ChannelsCommands(s1, query, o, settings, channels[1..]);
      (s2, first + rest)
  }

  /** No draw and only inner commands in any channel, and the
      cache stays in agreement. */
  lemma {:induction false} ChannelsCommandsQuiet(s: ShaderProgram.Shader, query: ShaderProgram.Query, o: Renderable.Object,
                                                 settings: Settings, channels: seq<Channel>)
    ensures var (s1, log) := ChannelsCommands(s, query, o, settings, channels);
      && CountDraws(log) == 0 && AllInner(log)
      && (ShaderProgram.CacheAgrees(s, query) ==> ShaderProgram.CacheAgrees(s1, query))
    decreases |channels|
  {
    if |channels| > 0 {
      var (s1, first) := ChannelCommands(s, query, o, settings, channels[0]);
      ChannelCommandsQuiet(s, query, o, settings, channels[0]);
      ChannelsCommandsQuiet(s1, query, o, settings, channels[1..]);
      var (s2, rest) := ChannelsCommands(s1, query, o, settings, channels[1..]);
      CountDrawsAppend(first, rest);
      AllInnerAppend(first, rest);
    }
  }

  /** The material of one object: its base color, then the color, specular
      and normal channels. */
  function MaterialCommands(s: ShaderProgram.Shader, query: ShaderProgram.Query, o: Renderable.Object,
                            settings: Settings): (r: (ShaderProgram.Shader, seq<Command>))
    ensures r.0.handle == s.handle
  {
    var color := ShaderProgram.GetUniform(s, "material.color", query);
    var (s1, channelLog) := ChannelsCommands(color.shader, query, o, settings, Channels);
    (s1, [UniformVec3(color.location, o.baseColor)] + channelLog)
  }

  /** A material sets no draw and issues only inner commands. */
  lemma MaterialQuiet(s: ShaderProgram.Shader, query: ShaderProgram.Query, o: Renderable.Object, settings: Settings)
    ensures var (s1, log) := MaterialCommands(s, query, o, settings);
      && CountDraws(log) == 0 && AllInner(log)
      && (ShaderProgram.CacheAgrees(s, query) ==> ShaderProgram.CacheAgrees(s1, query))
  {
    var color := ShaderProgram.GetUniform(s, "material.color", query);
    var (s1, channelLog) := ChannelsCommands(color.shader, query, o, settings, Channels);
    ChannelsCommandsQuiet(color.shader, query, o, settings, Channels);
    CountDrawsAppend([UniformVec3(color.location, o.baseColor)], channelLog);
    AllInnerAppend([UniformVec3(color.location, o.baseColor)], channelLog);
  }

  /** Every draw in a log is instanced `n` times. */
  predicate DrawsWith(log: seq<Command>, n: int) {
    forall k :: 0 <= k < |log| && log[k].DrawElements? ==> log[k].instanceCount == n
  }

  lemma DrawsWithAppend(a: seq<Command>, b: seq<Command>, n: int)
    requires DrawsWith(a, n) && DrawsWith(b, n)
    ensures DrawsWith(a + b, n)
  {
    forall k | 0 <= k < |a + b| && (a + b)[k].DrawElements?
      ensures (a + b)[k].instanceCount == n
    {
      if k >= |a| {
        assert (a + b)[k] == b[k - |a|];
      }
    }
  }

  /** What the rest of the frame relies on about `Render`: one draw with
      the requested instance count, only inner commands, no texture bound,
      and the shader's cache kept in agreement with GL. */
  lemma RenderQuiet(o: Renderable.Object, s: ShaderProgram.Shader, query: ShaderProgram.Query, instanceCount: int)
    requires Renderable.Render(o, s, query, instanceCount).Ok?
    ensures var (s1, log) := Renderable.Render(o, s, query, instanceCount).value;
      && s1.handle == s.handle
      && CountDraws(log) == 1 && DrawsWith(log, instanceCount) && AllInner(log)
      && (forall k :: 0 <= k < |log| ==> !log[k].BindTexture?)
      && (ShaderProgram.CacheAgrees(s, query) ==> ShaderProgram.CacheAgrees(s1, query))
  {
  }

  // ---------------------------------------------------------------------
  // The object loops

  /** The body of a `foreach (var obj in _objects)` loop: given the shader
      as the previous object left it, one object's commands. */
  type Step = (ShaderProgram.Shader, Renderable.Object) -> Result<(ShaderProgram.Shader, seq<Command>), Renderable.BufferError>

  /** Runs a step over the objects in order, threading the shader and
      counting one draw call per object. The first failing object aborts the
      loop with its error. */
  function ForEachObject(s: ShaderProgram.Shader, objects: seq<Renderable.Object>, step: Step)
    : (r: Result<(ShaderProgram.Shader, seq<Command>, nat), Renderable.BufferError>)
    ensures r.Ok? ==> r.value.2 == |objects|
    decreases |objects|
  {
    if |objects| == 0 then Ok((s, [], 0))
    else
      var (s1, first) :- step(s, objects[0]);
      var (s2, rest, count) :- ForEachObject(s1, objects[1..], step);
      Ok((s2, first + rest, count + 1))
  }

  /** A step that fails exactly on an object whose index list is null. */
  ghost predicate FailsOnNullIndices(step: Step) {
    forall s, o :: step(s, o).Err? <==> o.indices.None?
  }

  /** A step that keeps the shader, issues exactly one draw of `n`
      instances, issues only inner commands, and keeps the cache in
      agreement with GL. */
  ghost predicate DrawsOnce(step: Step, query: ShaderProgram.Query, n: int) {
    forall s, o :: step(s, o).Ok? ==>
      var (s1, log) := step(s, o).value;
      && s1.handle == s.handle
      && CountDraws(log) == 1 && DrawsWith(log, n) && AllInner(log)
      && (ShaderProgram.CacheAgrees(s, query) ==> ShaderProgram.CacheAgrees(s1, query))
  }

  /** The loop fails exactly when some object has a null index list. */
  lemma {:induction false} ForEachObjectFails(s: ShaderProgram.Shader, objects: seq<Renderable.Object>, step: Step)
    requires FailsOnNullIndices(step)
    ensures ForEachObject(s, objects, step).Err? <==> exists i :: 0 <= i < |objects| && objects[i].indices.None?
    decreases |objects|
  {
    if |objects| > 0 {
      var first := step(s, objects[0]);
      if first.Ok? {
        ForEachObjectFails(first.value.0, objects[1..], step);
        assert forall i :: 1 <= i < |objects| ==> objects[i] == objects[1..][i - 1];
      }
    }
  }

  /** A loop of single-draw steps draws once per object, all with `n`
      instances, issues only inner commands and keeps the cache in
      agreement. */
  lemma {:induction false} ForEachObjectLog(s: ShaderProgram.Shader, objects: seq<Renderable.Object>, step: Step,
                                            query: ShaderProgram.Query, n: int)
    requires DrawsOnce(step, query, n)
    requires ForEachObject(s, objects, step).Ok?
    ensures var (s1, log, count) := ForEachObject(s, objects, step).value;
      && s1.handle == s.handle
      && CountDraws(log) == count == |objects| && DrawsWith(log, n) && AllInner(log)
      && (ShaderProgram.CacheAgrees(s, query) ==> ShaderProgram.CacheAgrees(s1, query))
    decreases |objects|
  {
    if |objects| > 0 {
      var (s1, first) := step(s, objects[0]).value;
      ForEachObjectLog(s1, objects[1..], step, query, n);
      var (s2, rest, count) := ForEachObject(s1, objects[1..], step).value;
      CountDrawsAppend(first, rest);
      AllInnerAppend(first, rest);
      DrawsWithAppend(first, rest, n);
    }
  }

  /** The shadow loop's body: `obj.Render(_shadowShader, 6)`, one instance
      per cube face. */
  function ShadowStep(query: ShaderProgram.Query): Step {
    (s, o) => Renderable.Render(o, s, query, 6)
  }

  lemma ShadowStepDrawsOnce(query: ShaderProgram.Query)
    ensures FailsOnNullIndices(ShadowStep(query))
    ensures DrawsOnce(ShadowStep(query), query, 6)
  {
    forall s, o | ShadowStep(query)(s, o).Ok?
      ensures var (s1, log) := ShadowStep(query)(s, o).value;
        && s1.handle == s.handle
        && CountDraws(log) == 1 && DrawsWith(log, 6) && AllInner(log)
        && (ShaderProgram.CacheAgrees(s, query) ==> ShaderProgram.CacheAgrees(s1, query))
    {
      RenderQuiet(o, s, query, 6);
    }
  }

  /** One iteration of the base pass's object loop: the object's material,
      then `obj.Render(_shader)`, a single instance. */
  function DrawObject(s: ShaderProgram.Shader, query: ShaderProgram.Query, o: Renderable.Object, settings: Settings)
    : (r: Result<(ShaderProgram.Shader, seq<Command>), Renderable.BufferError>)
    ensures r.Err? <==> o.indices.None?
  {
    var (s1, materialLog) := MaterialCommands(s, query, o, settings);
    var (s2, drawLog) :- Renderable.Render(o, s1, query, 1);
    Ok((s2, materialLog + drawLog))
  }

  /** An object's material followed by its draw: one single-instance draw,
      only inner commands, the cache kept in agreement. */
  lemma DrawObjectQuiet(s: ShaderProgram.Shader, query: ShaderProgram.Query, o: Renderable.Object, settings: Settings)
    requires DrawObject(s, query, o, settings).Ok?
    ensures var (s2, log) := DrawObject(s, query, o, settings).value;
      && s2.handle == s.handle
      && CountDraws(log) == 1 && DrawsWith(log, 1) && AllInner(log)
      && (ShaderProgram.CacheAgrees(s, query) ==> ShaderProgram.CacheAgrees(s2, query))
  {
    var (s1, materialLog) := MaterialCommands(s, query, o, settings);
    var (s2, drawLog) := Renderable.Render(o, s1, query, 1).value;
    MaterialQuiet(s, query, o, settings);
    RenderQuiet(o, s1, query, 1);
    CountDrawsAppend(materialLog, drawLog);
    AllInnerAppend(materialLog, drawLog);
    assert DrawsWith(materialLog, 1) by {
      assert forall k :: 0 <= k < |materialLog| ==> !materialLog[k].DrawElements?;
    }
    DrawsWithAppend(materialLog, drawLog, 1);
  }

  /** The base loop's body. */
  function BaseStep(query: ShaderProgram.Query, settings: Settings): Step {
    (s, o) => DrawObject(s, query, o, settings)
  }

  lemma BaseStepDrawsOnce(query: ShaderProgram.Query, settings: Settings)
    ensures FailsOnNullIndices(BaseStep(query, settings))
    ensures DrawsOnce(BaseStep(query, settings), query, 1)
  {
    forall s, o | BaseStep(query, settings)(s, o).Ok?
      ensures var (s1, log) := BaseStep(query, settings)(s, o).value;
        && s1.handle == s.handle
        && CountDraws(log) == 1 && DrawsWith(log, 1) && AllInner(log)
        && (ShaderProgram.CacheAgrees(s, query) ==> ShaderProgram.CacheAgrees(s1, query))
    {
      DrawObjectQuiet(s, query, o, settings);
    }
  }

  /** A loop whose body does not depend on the step's identity but only on
      what it computes gives the same result for two steps that agree. */
  lemma {:induction false} ForEachObjectSameSteps(s: ShaderProgram.Shader, objects: seq<Renderable.Object>, step1: Step, step2: Step)
    requires forall s', o :: step1(s', o) == step2(s', o)
    ensures ForEachObject(s, objects, step1) == ForEachObject(s, objects, step2)
    decreases |objects|
  {
    if |objects| > 0 {
      var first := step1(s, objects[0]);
      if first.Ok? {
        ForEachObjectSameSteps(first.value.0, objects[1..], step1, step2);
      }
    }
  }

  /** What a pass leaves behind: its shader, its commands and its draw
      calls, or the error that aborted it. */
  type PassResult = Result<(ShaderProgram.Shader, seq<Command>, nat), Renderable.BufferError>

  /** A render pass: its header, the object loop, and its trailer. */
  function Pass(s: ShaderProgram.Shader, header: seq<Command>, objects: seq<Renderable.Object>, step: Step, trailer: seq<Command>)
    : PassResult
  {
    var (s1, draws, count) :- ForEachObject(s, objects, step);
    Ok((s1, header + draws + trailer, count))
  }

  /** A pass whose header and trailer draw nothing, around single-draw
      steps, draws once per object, all with the step's instance count. */
  lemma PassLog(s: ShaderProgram.Shader, header: seq<Command>, objects: seq<Renderable.Object>, step: Step, trailer: seq<Command>,
                query: ShaderProgram.Query, n: int)
    requires CountDraws(header) == 0 && CountDraws(trailer) == 0 && DrawsOnce(step, query, n)
    requires Pass(s, header, objects, step, trailer).Ok?
    ensures var (s1, log, count) := Pass(s, header, objects, step, trailer).value;
      && s1.handle == s.handle
      && CountDraws(log) == count == |objects| && DrawsWith(log, n)
      && (ShaderProgram.CacheAgrees(s, query) ==> ShaderProgram.CacheAgrees(s1, query))
  {
    var (s1, draws, count) := ForEachObject(s, objects, step).value;
    ForEachObjectLog(s, objects, step, query, n);
    CountDrawsAppend(header, draws);
    CountDrawsAppend(header + draws, trailer);
    assert DrawsWith(header, n) && DrawsWith(trailer, n);
    DrawsWithAppend(header, draws, n);
    DrawsWithAppend(header + draws, trailer, n);
  }

  /** A pass fails exactly when a step fails, which for the frame's steps is
      when some object has a null index list. */
  lemma PassFails(s: ShaderProgram.Shader, header: seq<Command>, objects: seq<Renderable.Object>, step: Step, trailer: seq<Command>)
    requires FailsOnNullIndices(step)
    ensures Pass(s, header, objects, step, trailer).Err? <==> exists i :: 0 <= i < |objects| && objects[i].indices.None?
  {
    ForEachObjectFails(s, objects, step);
  }

  // ---------------------------------------------------------------------
  // The window and its frame

  /** The fields of `MainWindow` one frame reads. */
  datatype Window = Window(
    objects: seq<Renderable.Object>, settings: Settings,
    lightPosition: Vec3, shadowViews: seq<Mat4>, shadowProjection: Mat4, projection: Mat4,
    shadowFbo: int, depthCubeMap: int,
    shadowShader: ShaderProgram.Shader, baseShader: ShaderProgram.Shader,
    cameraPosition: Vec3)

  /** The shadow pass before its object loop: the shadow map's viewport and
      framebuffer, the shadow program, the light's projection, position and
      six views, the cube map attached as the depth buffer, and a depth-only
      clear. `uLightView` is looked up with GL directly, not through the
      cache. */
  function ShadowHeader(w: Window, query: ShaderProgram.Query): (r: (ShaderProgram.Shader, seq<Command>))
    ensures r.0.handle == w.shadowShader.handle && |r.1| == 8 && CountDraws(r.1) == 0 && AllInner(r.1[3..])
    ensures r.1[5] == UniformMatrices(query(w.shadowShader.handle, "uLightView"), w.shadowViews)
    ensures ShaderProgram.CacheAgrees(w.shadowShader, query) ==>
      && ShaderProgram.CacheAgrees(r.0, query)
      && r.1[3] == UniformMatrix(query(w.shadowShader.handle, "uLightProjection"), w.shadowProjection)
      && r.1[4] == UniformVec3(query(w.shadowShader.handle, "uLightPos"), w.lightPosition)
  {
    var s := w.shadowShader;
    var (s1, locs) := Locations(s, ["uLightProjection", "uLightPos"], query);
    (s1, [Viewport(MainWindow.ShadowMapSize, MainWindow.ShadowMapSize), BindFramebuffer(w.shadowFbo), UseProgram(s.handle),
          UniformMatrix(locs[0], w.shadowProjection), UniformVec3(locs[1], w.lightPosition),
          UniformMatrices(query(s.handle, "uLightView"), w.shadowViews),
          AttachDepthTexture(w.depthCubeMap), Clear(false, true)])
  }

  /** The shadow pass: the header, every object drawn six times, and the
      window's framebuffer bound again. */
  function ShadowPass(w: Window, query: ShaderProgram.Query): PassResult
  {
    var (s1, header) := ShadowHeader(w, query);
    Pass(s1, header, w.objects, ShadowStep(query), [BindFramebuffer(0)])
  }

  /** The base program's uniforms, in the order the frame looks them up. */
  const BaseUniforms: seq<string> := [
    "uView", "uProjection", "shadowMap", "uLightPos", "uCameraPos",
    "normalView", "useShadows", "material.specular", "material.shininess"]

  /** The base pass before its object loop, given the locations of
      `BaseUniforms`: the window's viewport, the base program, the camera's
      view and the projection, the cube map bound on the shadow unit and the
      `shadowMap` sampler pointed at it, the light and camera positions, the
      two toggles, and the fixed specular strength and shininess. */
  function BaseHeaderCommands(w: Window, view: Mat4, width: int, height: int, locs: seq<int>): (header: seq<Command>)
    requires |locs| == |BaseUniforms|
    ensures |header| == 13 && CountDraws(header) == 0 && AllInner(header[6..])
    ensures header[6] == UniformInt(locs[2], ShadowUnit)
    ensures header[9].UniformInt? && (header[9].intValue == 1 <==> w.settings.normalsView)
    ensures header[10].UniformInt? && (header[10].intValue == 1 <==> w.settings.useShadows)
  {
    [Viewport(width, height), UseProgram(w.baseShader.handle),
     UniformMatrix(locs[0], view), UniformMatrix(locs[1], w.projection),
     ActiveTexture(ShadowUnit), BindTexture(TextureCubeMap, w.depthCubeMap), UniformInt(locs[2], ShadowUnit),
     UniformVec3(locs[3], w.lightPosition), UniformVec3(locs[4], w.cameraPosition),
     UniformInt(locs[5], Flag(w.settings.normalsView)), UniformInt(locs[6], Flag(w.settings.useShadows)),
     UniformFloat(locs[7], 0.3), UniformFloat(locs[8], 32.0)]
  }

  /** The base header with its uniforms looked up through the cache, in
      order. When the cache agrees with GL, so does every location used. */
  function BaseHeader(w: Window, view: Mat4, width: int, height: int, query: ShaderProgram.Query)
    : (r: (ShaderProgram.Shader, seq<Command>))
    ensures r.0.handle == w.baseShader.handle && CountDraws(r.1) == 0
    ensures ShaderProgram.CacheAgrees(w.baseShader, query) ==>
      ShaderProgram.CacheAgrees(r.0, query)
  {
    var (s1, locs) := Locations(w.baseShader, BaseUniforms, query);
    (s1, BaseHeaderCommands(w, view, width, height, locs))
  }

  /** The base pass: the header, then every object's material and a single
      draw. */
  function BasePass(w: Window, view: Mat4, width: int, height: int, query: ShaderProgram.Query): PassResult
  {
    var (s1, header) := BaseHeader(w, view, width, height, query);
    Pass(s1, header, w.objects, BaseStep(query, w.settings), [])
  }

  /** What a frame leaves behind: the window with its shaders' caches
      updated, the commands issued, and `_drawCalls`. */
  datatype Frame = Frame(window: Window, log: seq<Command>, drawCalls: nat)

  /** A frame from the results of its two passes: the window cleared, the
      shadow pass, the base pass, and their draw calls added up. The first
      pass to fail aborts the frame. */
  function Compose(w: Window, shadow: PassResult, base: PassResult): Result<Frame, Renderable.BufferError> {
    var (shadowShader, shadowLog, shadowCount) :- shadow;
    var (baseShader, baseLog, baseCount) :- base;
    Ok(Frame(w.(shadowShader := shadowShader, baseShader := baseShader), [Clear(true, true)] + shadowLog + baseLog,
             shadowCount + baseCount))
  }

  /** `OnRenderFrame` without the ImGui and FPS bookkeeping: clear the
      window, then the shadow pass, then the base pass. The draw counter
      starts at zero each frame. */
  function RenderFrame(w: Window, view: Mat4, width: int, height: int, query: ShaderProgram.Query)
    : Result<Frame, Renderable.BufferError>
  {
    Compose(w, ShadowPass(w, query), BasePass(w, view, width, height, query))
  }

  // ---------------------------------------------------------------------
  // What the frame does

  /** The shadow pass draws every object once, six instances at a time, ends
      with the window's framebuffer bound, and keeps the shadow shader's cache
      in agreement with GL. */
  lemma ShadowPassLog(w: Window, query: ShaderProgram.Query)
    requires ShadowPass(w, query).Ok?
    ensures var (s1, log, count) := ShadowPass(w, query).value;
      && s1.handle == w.shadowShader.handle
      && CountDraws(log) == count == |w.objects| && DrawsWith(log, 6)
      && log[|log| - 1] == BindFramebuffer(0)
      && (ShaderProgram.CacheAgrees(w.shadowShader, query) ==> ShaderProgram.CacheAgrees(s1, query))
  {
    var (s1, header) := ShadowHeader(w, query);
    ShadowStepDrawsOnce(query);
    PassLog(s1, header, w.objects, ShadowStep(query), [BindFramebuffer(0)], query, 6);
  }

  /** The base pass draws every object once with a single instance and keeps
      the base shader's cache in agreement with GL. */
  lemma BasePassLog(w: Window, view: Mat4, width: int, height: int, query: ShaderProgram.Query)
    requires BasePass(w, view, width, height, query).Ok?
    ensures var (s1, log, count) := BasePass(w, view, width, height, query).value;
      && s1.handle == w.baseShader.handle
      && CountDraws(log) == count == |w.objects| && DrawsWith(log, 1)
      && (ShaderProgram.CacheAgrees(w.baseShader, query) ==> ShaderProgram.CacheAgrees(s1, query))
  {
    var (s1, header) := BaseHeader(w, view, width, height, query);
    BaseStepDrawsOnce(query, w.settings);
    PassLog(s1, header, w.objects, BaseStep(query, w.settings), [], query, 1);
  }

  /** Each pass fails exactly when some object has a null index list. */
  lemma PassesFail(w: Window, view: Mat4, width: int, height: int, query: ShaderProgram.Query)
    ensures ShadowPass(w, query).Err? <==> exists i :: 0 <= i < |w.objects| && w.objects[i].indices.None?
    ensures BasePass(w, view, width, height, query).Err? <==> exists i :: 0 <= i < |w.objects| && w.objects[i].indices.None?
  {
    var (s1, header) := ShadowHeader(w, query);
    ShadowStepDrawsOnce(query);
    PassFails(s1, header, w.objects, ShadowStep(query), [BindFramebuffer(0)]);
    var (s2, baseHeader) := BaseHeader(w, view, width, height, query);
    BaseStepDrawsOnce(query, w.settings);
    PassFails(s2, baseHeader, w.objects, BaseStep(query, w.settings), []);
  }

  /** A frame fails exactly when some object has a null index list. */
  lemma RenderFrameFails(w: Window, view: Mat4, width: int, height: int, query: ShaderProgram.Query)
    ensures RenderFrame(w, view, width, height, query).Err? <==> exists i :: 0 <= i < |w.objects| && w.objects[i].indices.None?
  {
    PassesFail(w, view, width, height, query);
    ComposeFails(w, ShadowPass(w, query), BasePass(w, view, width, height, query));
  }

  /** A composed frame fails exactly when one of its passes does. */
  lemma ComposeFails(w: Window, shadow: PassResult, base: PassResult)
    ensures Compose(w, shadow, base).Err? <==> shadow.Err? || base.Err?
  {
  }

  /** Composing two passes that each drew `n` objects: the frame starts by
      clearing the window, counts `2 n` draw calls, issues exactly that many
      draws, and changes nothing of the window but its two shaders. */
  lemma ComposeCounts(w: Window, shadow: PassResult, base: PassResult, n: nat)
    requires shadow.Ok? ==> CountDraws(shadow.value.1) == shadow.value.2 == n
    requires base.Ok? ==> CountDraws(base.value.1) == base.value.2 == n
    requires Compose(w, shadow, base).Ok?
    ensures var f := Compose(w, shadow, base).value;
      && f.drawCalls == CountDraws(f.log) == 2 * n
      && f.log[0] == Clear(true, true)
      && f.window == w.(shadowShader := shadow.value.0, baseShader := base.value.0)
  {
    var (_, shadowLog, _) := shadow.value;
    var (_, baseLog, _) := base.value;
    CountDrawsAppend([Clear(true, true)], shadowLog);
    CountDrawsAppend([Clear(true, true)] + shadowLog, baseLog);
    assert CountDraws([Clear(true, true)]) == 0;
  }

  /** A frame counts two draw calls per object, one in each pass, and that
      is the number of draws it issues. It starts by clearing the window,
      keeps both shaders' caches in agreement with GL, and changes nothing
      of the window but those caches. */
  lemma RenderFrameCounts(w: Window, view: Mat4, width: int, height: int, query: ShaderProgram.Query)
    requires RenderFrame(w, view, width, height, query).Ok?
    ensures var f := RenderFrame(w, view, width, height, query).value;
      && f.drawCalls == CountDraws(f.log) == 2 * |w.objects|
      && f.log[0] == Clear(true, true)
      && f.window.(shadowShader := w.shadowShader, baseShader := w.baseShader) == w
      && f.window.shadowShader.handle == w.shadowShader.handle
      && f.window.baseShader.handle == w.baseShader.handle
      && (ShaderProgram.CacheAgrees(w.shadowShader, query) ==> ShaderProgram.CacheAgrees(f.window.shadowShader, query))
      && (ShaderProgram.CacheAgrees(w.baseShader, query) ==> ShaderProgram.CacheAgrees(f.window.baseShader, query))
  {
    var shadow := ShadowPass(w, query);
    var base := BasePass(w, view, width, height, query);
    ShadowPassLog(w, query);
    BasePassLog(w, view, width, height, query);
    ComposeCounts(w, shadow, base, |w.objects|);
  }

  // ---------------------------------------------------------------------
  // What each draw sees

  /** Unfolds one command of a run. */
  lemma RunFirst(st: State, log: seq<Command>)
    requires |log| > 0
    ensures Run(st, log) == Run(Exec(st, log[0]), log[1..])
    ensures DrawStates(st, log) == (if log[0].DrawElements? then [st] else []) + DrawStates(Exec(st, log[0]), log[1..])
  {
  }

  /** The shadow header draws nothing and leaves the shadow framebuffer
      bound, the shadow map's viewport set and the shadow program in use. */
  lemma ShadowHeaderSetup(w: Window, query: ShaderProgram.Query, st: State)
    ensures var header := ShadowHeader(w, query).1;
      && DrawStates(st, header) == []
      && SetupOf(Run(st, header))
         == Setup(w.shadowFbo, MainWindow.ShadowMapSize, MainWindow.ShadowMapSize, w.shadowShader.handle,
                  Bound(st, ShadowUnit, TextureCubeMap))
  {
    var header := ShadowHeader(w, query).1;
    DrawStatesCount(st, header);
    RunFirst(st, header);
    var st1 := Exec(st, header[0]);
    RunFirst(st1, header[1..]);
    var st2 := Exec(st1, header[1]);
    RunFirst(st2, header[2..]);
    var st3 := Exec(st2, header[2]);
    assert header[1..][1..] == header[2..] && header[2..][1..] == header[3..];
    InnerKeepsSetup(st3, header[3..]);
  }

  /** The first six commands of the base header: the window's viewport,
      the base program, the two matrices, and the cube map bound on the
      shadow unit. */
  lemma BaseHeaderTarget(w: Window, view: Mat4, width: int, height: int, locs: seq<int>, st: State)
    requires |locs| == |BaseUniforms|
    ensures SetupOf(Run(st, BaseHeaderCommands(w, view, width, height, locs)[..6]))
         == Setup(st.framebuffer, width, height, w.baseShader.handle, w.depthCubeMap)
  {
    var p1 := [Viewport(width, height), UseProgram(w.baseShader.handle)];
    var p2 := [UniformMatrix(locs[0], view), UniformMatrix(locs[1], w.projection)];
    var p3 := [ActiveTexture(ShadowUnit), BindTexture(TextureCubeMap, w.depthCubeMap)];
    assert BaseHeaderCommands(w, view, width, height, locs)[..6] == p1 + p2 + p3;
    RunAppend(st, p1 + p2, p3);
    RunAppend(st, p1, p2);
    RunPair(st, p1);
    RunPair(Run(st, p1), p2);
    RunPair(Run(st, p1 + p2), p3);
  }

  /** Unfolds a run of two commands. */
  lemma RunPair(st: State, log: seq<Command>)
    requires |log| == 2
    ensures Run(st, log) == Exec(Exec(st, log[0]), log[1])
  {
    RunFirst(st, log);
    RunFirst(Exec(st, log[0]), log[1..]);
  }

  /** The base header draws nothing and leaves the framebuffer as it was,
      the window's viewport set, the base program in use and the cube map
      bound on the shadow unit. */
  lemma BaseHeaderSetup(w: Window, view: Mat4, width: int, height: int, locs: seq<int>, st: State)
    requires |locs| == |BaseUniforms|
    ensures var header := BaseHeaderCommands(w, view, width, height, locs);
      && DrawStates(st, header) == []
      && SetupOf(Run(st, header)) == Setup(st.framebuffer, width, height, w.baseShader.handle, w.depthCubeMap)
  {
    var header := BaseHeaderCommands(w, view, width, height, locs);
    DrawStatesCount(st, header);
    assert header == header[..6] + header[6..];
    RunAppend(st, header[..6], header[6..]);
    BaseHeaderTarget(w, view, width, height, locs, st);
    InnerKeepsSetup(Run(st, header[..6]), header[6..]);
  }

  /** Every draw of a pass sees the frame-level state its header left, and
      after the loop that state is still in place for the trailer. */
  lemma PassSetups(s: ShaderProgram.Shader, header: seq<Command>, objects: seq<Renderable.Object>, step: Step,
                   trailer: seq<Command>, query: ShaderProgram.Query, n: int, st: State)
    requires CountDraws(header) == 0 && CountDraws(trailer) == 0 && DrawsOnce(step, query, n)
    requires Pass(s, header, objects, step, trailer).Ok?
    ensures var log := Pass(s, header, objects, step, trailer).value.1;
      && |DrawStates(st, log)| == |objects|
      && (forall k :: 0 <= k < |objects| ==> SetupOf(DrawStates(st, log)[k]) == SetupOf(Run(st, header)))
      && exists mid :: SetupOf(mid) == SetupOf(Run(st, header)) && Run(st, log) == Run(mid, trailer)
  {
    var (s1, draws, count) := ForEachObject(s, objects, step).value;
    ForEachObjectLog(s, objects, step, query, n);
    var afterHeader := Run(st, header);
    var mid := Run(afterHeader, draws);
    RunAppend(st, header + draws, trailer);
    RunAppend(st, header, draws);
    DrawStatesCount(st, header);
    DrawStatesCount(afterHeader, draws);
    DrawStatesCount(mid, trailer);
    InnerKeepsSetup(afterHeader, draws);
    assert DrawStates(st, header + draws + trailer) == DrawStates(afterHeader, draws);
  }

  /** Every shadow-pass draw goes into the shadow framebuffer, with the
      shadow map's viewport and the shadow program; afterwards the window's
      framebuffer is bound again. */
  lemma ShadowPassSetups(w: Window, query: ShaderProgram.Query, st: State)
    requires ShadowPass(w, query).Ok?
    ensures var log := ShadowPass(w, query).value.1;
      var target := Setup(w.shadowFbo, MainWindow.ShadowMapSize, MainWindow.ShadowMapSize, w.shadowShader.handle,
                          Bound(st, ShadowUnit, TextureCubeMap));
      && |DrawStates(st, log)| == |w.objects|
      && (forall k :: 0 <= k < |w.objects| ==> SetupOf(DrawStates(st, log)[k]) == target)
      && SetupOf(Run(st, log)) == target.(framebuffer := 0)
  {
    var (s1, header) := ShadowHeader(w, query);
    ShadowStepDrawsOnce(query);
    ShadowHeaderSetup(w, query, st);
    assert CountDraws([BindFramebuffer(0)]) == 0;
    PassSetups(s1, header, w.objects, ShadowStep(query), [BindFramebuffer(0)], query, 6, st);
    var mid :| SetupOf(mid) == SetupOf(Run(st, header)) && Run(st, ShadowPass(w, query).value.1) == Run(mid, [BindFramebuffer(0)]);
    RunFirst(mid, [BindFramebuffer(0)]);
  }

  /** Every base-pass draw goes into the framebuffer bound before the pass,
      with the window's viewport, the base program and the light's cube map
      on the shadow unit. */
  lemma BasePassSetups(w: Window, view: Mat4, width: int, height: int, query: ShaderProgram.Query, st: State)
    requires BasePass(w, view, width, height, query).Ok?
    ensures var log := BasePass(w, view, width, height, query).value.1;
      var target := Setup(st.framebuffer, width, height, w.baseShader.handle, w.depthCubeMap);
      && |DrawStates(st, log)| == |w.objects|
      && (forall k :: 0 <= k < |w.objects| ==> SetupOf(DrawStates(st, log)[k]) == target)
      && SetupOf(Run(st, log)) == target
  {
    var (s1, locs) := Locations(w.baseShader, BaseUniforms, query);
    var header := BaseHeaderCommands(w, view, width, height, locs);
    BaseStepDrawsOnce(query, w.settings);
    BaseHeaderSetup(w, view, width, height, locs, st);
    PassSetups(s1, header, w.objects, BaseStep(query, w.settings), [], query, 1, st);
  }

  /** A composed frame runs the shadow pass's commands, then the base
      pass's, from the state the clear leaves (the one it started in). */
  lemma ComposeStates(w: Window, shadow: PassResult, base: PassResult, st: State)
    requires Compose(w, shadow, base).Ok?
    ensures var log := Compose(w, shadow, base).value.log;
      var afterShadow := Run(st, shadow.value.1);
      && DrawStates(st, log) == DrawStates(st, shadow.value.1) + DrawStates(afterShadow, base.value.1)
      && Run(st, log) == Run(afterShadow, base.value.1)
  {
    var shadowLog := shadow.value.1;
    var baseLog := base.value.1;
    RunFirst(st, [Clear(true, true)] + shadowLog + baseLog);
    assert ([Clear(true, true)] + shadowLog + baseLog)[1..] == shadowLog + baseLog;
    RunAppend(st, shadowLog, baseLog);
  }

  /** When the shadow pass's draws all see one setup and the base pass's
      draws another, the frame's draws are the first `n` in the one and the
      next `n` in the other. */
  lemma ComposeSetups(w: Window, shadow: PassResult, base: PassResult, st: State, n: nat, first: Setup, second: Setup)
    requires Compose(w, shadow, base).Ok?
    requires |DrawStates(st, shadow.value.1)| == n
    requires forall k :: 0 <= k < n ==> SetupOf(DrawStates(st, shadow.value.1)[k]) == first
    requires |DrawStates(Run(st, shadow.value.1), base.value.1)| == n
    requires forall k :: 0 <= k < n ==> SetupOf(DrawStates(Run(st, shadow.value.1), base.value.1)[k]) == second
    ensures var log := Compose(w, shadow, base).value.log;
      && |DrawStates(st, log)| == 2 * n
      && (forall k :: 0 <= k < n ==> SetupOf(DrawStates(st, log)[k]) == first)
      && (forall k :: n <= k < 2 * n ==> SetupOf(DrawStates(st, log)[k]) == second)
      && Run(st, log) == Run(Run(st, shadow.value.1), base.value.1)
  {
    ComposeStates(w, shadow, base, st);
    var log := Compose(w, shadow, base).value.log;
    var baseStates := DrawStates(Run(st, shadow.value.1), base.value.1);
    assert forall k :: n <= k < 2 * n ==> DrawStates(st, log)[k] == baseStates[k - n];
  }

  /** Within a frame, the first draw of each object goes into the shadow
      cube map (its framebuffer, a 4096-square viewport, the shadow program)
      and the second into the window (framebuffer 0, the window's viewport,
      the base program) with the freshly rendered cube map on the shadow
      unit; the frame ends in that base setup. */
  lemma RenderFrameSetups(w: Window, view: Mat4, width: int, height: int, query: ShaderProgram.Query, st: State)
    requires RenderFrame(w, view, width, height, query).Ok?
    ensures var log := RenderFrame(w, view, width, height, query).value.log;
      var n := |w.objects|;
      var base := Setup(0, width, height, w.baseShader.handle, w.depthCubeMap);
      && |DrawStates(st, log)| == 2 * n
      && (forall k :: 0 <= k < n ==>
            SetupOf(DrawStates(st, log)[k])
            == Setup(w.shadowFbo, MainWindow.ShadowMapSize, MainWindow.ShadowMapSize, w.shadowShader.handle,
                     Bound(st, ShadowUnit, TextureCubeMap)))
      && (forall k :: n <= k < 2 * n ==> SetupOf(DrawStates(st, log)[k]) == base)
      && SetupOf(Run(st, log)) == base
  {
    var shadow := ShadowPass(w, query);
    var basePass := BasePass(w, view, width, height, query);
    ShadowPassSetups(w, query, st);
    var mid := Run(st, shadow.value.1);
    BasePassSetups(w, view, width, height, query, mid);
    ComposeSetups(w, shadow, basePass, st, |w.objects|,
                  Setup(w.shadowFbo, MainWindow.ShadowMapSize, MainWindow.ShadowMapSize, w.shadowShader.handle,
                        Bound(st, ShadowUnit, TextureCubeMap)),
                  Setup(0, width, height, w.baseShader.handle, w.depthCubeMap));
  }

  // ---------------------------------------------------------------------
  // What the settings change

  /** Two settings that agree on the three map toggles. */
  predicate SameMaps(a: Settings, b: Settings) {
    a.useColorMaps == b.useColorMaps && a.useSpecularMaps == b.useSpecularMaps && a.useNormalMaps == b.useNormalMaps
  }

  /** Two logs of one length that agree everywhere but at `i` and `j`. */
  predicate AgreeExcept(a: seq<Command>, b: seq<Command>, i: int, j: int) {
    |a| == |b| && forall k :: 0 <= k < |a| && k != i && k != j ==> a[k] == b[k]
  }

  /** `b` is `a` with the two toggle uniforms of a base header that starts
      at `at` set from `settings`, and nothing else changed. */
  predicate FlagUniforms(a: seq<Command>, b: seq<Command>, at: int, settings: Settings) {
    && 0 <= at && at + 10 < |a|
    && AgreeExcept(a, b, at + 9, at + 10)
    && a[at + 9].UniformInt? && b[at + 9] == UniformInt(a[at + 9].location, Flag(settings.normalsView))
    && a[at + 10].UniformInt? && b[at + 10] == UniformInt(a[at + 10].location, Flag(settings.useShadows))
  }

  lemma {:induction false} ChannelsCommandsSameMaps(s: ShaderProgram.Shader, query: ShaderProgram.Query, o: Renderable.Object,
                                                    a: Settings, b: Settings, channels: seq<Channel>)
    requires SameMaps(a, b)
    ensures ChannelsCommands(s, query, o, a, channels) == ChannelsCommands(s, query, o, b, channels)
    decreases |channels|
  {
    if |channels| > 0 {
      assert Enabled(a, channels[0]) == Enabled(b, channels[0]);
      var (s1, _) := ChannelCommands(s, query, o, a, channels[0]);
      ChannelsCommandsSameMaps(s1, query, o, a, b, channels[1..]);
    }
  }

  /** The base loop reads the map toggles only. */
  lemma BaseStepSameMaps(query: ShaderProgram.Query, a: Settings, b: Settings)
    requires SameMaps(a, b)
    ensures forall s, o :: BaseStep(query, a)(s, o) == BaseStep(query, b)(s, o)
  {
    forall s, o ensures BaseStep(query, a)(s, o) == BaseStep(query, b)(s, o) {
      ChannelsCommandsSameMaps(ShaderProgram.GetUniform(s, "material.color", query).shader, query, o, a, b, Channels);
    }
  }

  /** Between two settings with the same map toggles, the base header differs
      in the `normalView` and `useShadows` uniforms only. */
  lemma BaseHeaderFlags(w: Window, view: Mat4, width: int, height: int, locs: seq<int>, settings: Settings)
    requires |locs| == |BaseUniforms|
    ensures var h1 := BaseHeaderCommands(w, view, width, height, locs);
      var h2 := BaseHeaderCommands(w.(settings := settings), view, width, height, locs);
      FlagUniforms(h1, h2, 0, settings)
  {
  }

  /** The shadow pass does not read the settings. */
  lemma ShadowPassIgnoresSettings(w: Window, settings: Settings, query: ShaderProgram.Query)
    ensures ShadowPass(w.(settings := settings), query) == ShadowPass(w, query)
  {
    assert ShadowHeader(w.(settings := settings), query) == ShadowHeader(w, query);
  }

  /** Two passes whose loops issue the same commands and whose headers
      differ in the toggle uniforms only fail together and otherwise differ
      in those uniforms only. */
  lemma PassHeaders(s: ShaderProgram.Shader, h1: seq<Command>, h2: seq<Command>, objects: seq<Renderable.Object>,
                    step1: Step, step2: Step, trailer: seq<Command>, settings: Settings)
    requires FlagUniforms(h1, h2, 0, settings)
    requires ForEachObject(s, objects, step1) == ForEachObject(s, objects, step2)
    ensures var r1 := Pass(s, h1, objects, step1, trailer);
      var r2 := Pass(s, h2, objects, step2, trailer);
      && r1.Err? == r2.Err?
      && (r1.Ok? ==>
            r1.value.0 == r2.value.0 && r1.value.2 == r2.value.2 && FlagUniforms(r1.value.1, r2.value.1, 0, settings))
  {
  }

  /** The base pass of a window with other settings, as a pass. */
  lemma BasePassWith(w: Window, view: Mat4, width: int, height: int, query: ShaderProgram.Query, settings: Settings)
    ensures var (s1, locs) := Locations(w.baseShader, BaseUniforms, query);
      BasePass(w.(settings := settings), view, width, height, query)
        == Pass(s1, BaseHeaderCommands(w.(settings := settings), view, width, height, locs), w.objects, BaseStep(query, settings), [])
  {
  }

  /** Between two settings with the same map toggles, a base pass fails
      alike and differs in the two toggle uniforms only. */
  lemma BasePassFlags(w: Window, view: Mat4, width: int, height: int, query: ShaderProgram.Query, settings: Settings)
    requires SameMaps(w.settings, settings)
    ensures var r1 := BasePass(w, view, width, height, query);
      var r2 := BasePass(w.(settings := settings), view, width, height, query);
      && r1.Err? == r2.Err?
      && (r1.Ok? ==>
            && r1.value.0 == r2.value.0 && r1.value.2 == r2.value.2
            && FlagUniforms(r1.value.1, r2.value.1, 0, settings))
  {
    var (s1, locs) := Locations(w.baseShader, BaseUniforms, query);
    var h1 := BaseHeaderCommands(w, view, width, height, locs);
    var h2 := BaseHeaderCommands(w.(settings := settings), view, width, height, locs);
    BaseHeaderFlags(w, view, width, height, locs, settings);
    BaseStepSameMaps(query, w.settings, settings);
    ForEachObjectSameSteps(s1, w.objects, BaseStep(query, w.settings), BaseStep(query, settings));
    PassHeaders(s1, h1, h2, w.objects, BaseStep(query, w.settings), BaseStep(query, settings), [], settings);
    BasePassWith(w, view, width, height, query, w.settings);
    BasePassWith(w, view, width, height, query, settings);
  }

  /** Two frames over one shadow pass and two base passes whose logs differ
      in the toggle uniforms: they fail together and otherwise differ in
      those uniforms, past the clear and the shadow pass. */
  lemma ComposeBases(w: Window, settings: Settings, shadow: PassResult, b1: PassResult, b2: PassResult)
    requires b1.Err? == b2.Err?
    requires b1.Ok? ==>
      b1.value.0 == b2.value.0 && b1.value.2 == b2.value.2 && FlagUniforms(b1.value.1, b2.value.1, 0, settings)
    ensures var f1 := Compose(w, shadow, b1);
      var f2 := Compose(w.(settings := settings), shadow, b2);
      && f1.Err? == f2.Err?
      && (f1.Ok? ==>
            && shadow.Ok?
            && f2.value.window == f1.value.window.(settings := settings)
            && f2.value.drawCalls == f1.value.drawCalls
            && FlagUniforms(f1.value.log, f2.value.log, 1 + |shadow.value.1|, settings))
  {
  }

  /** `useShadows` and `normalView` reach the frame through one uniform
      each: with the map toggles kept, a frame fails alike, draws as much,
      runs the whole shadow pass either way, and its log differs only in
      those two uniforms of the base header. */
  lemma RenderFrameFlags(w: Window, view: Mat4, width: int, height: int, query: ShaderProgram.Query, settings: Settings)
    requires SameMaps(w.settings, settings)
    ensures var f1 := RenderFrame(w, view, width, height, query);
      var f2 := RenderFrame(w.(settings := settings), view, width, height, query);
      && f1.Err? == f2.Err?
      && (f1.Ok? ==>
            && ShadowPass(w, query).Ok?
            && f2.value.window == f1.value.window.(settings := settings)
            && f2.value.drawCalls == f1.value.drawCalls
            && FlagUniforms(f1.value.log, f2.value.log, 1 + |ShadowPass(w, query).value.1|, settings))
  {
    var w2 := w.(settings := settings);
    ShadowPassIgnoresSettings(w, settings, query);
    BasePassFlags(w, view, width, height, query, settings);
    ComposeBases(w, settings, ShadowPass(w, query), BasePass(w, view, width, height, query), BasePass(w2, view, width, height, query));
    assert RenderFrame(w2, view, width, height, query)
      == Compose(w2, ShadowPass(w, query), BasePass(w2, view, width, height, query));
  }

  // ---------------------------------------------------------------------
  // What each draw samples

  /** The 2D texture on a channel's unit. */
  function Sampled(st: State, c: Channel): int {
    Bound(st, Unit(c), Texture2D)
  }

  /** From draw `from` on, the draws sample the objects' own textures, one
      object per draw, on every channel the object has one for. */
  predicate SamplesObjects(ds: seq<State>, from: nat, objects: seq<Renderable.Object>) {
    && from + |objects| <= |ds|
    && forall k, c :: 0 <= k < |objects| && TextureOf(objects[k], c) != -1 ==> Sampled(ds[from + k], c) == TextureOf(objects[k], c)
  }

  /** A log that binds no texture keeps every binding, after it and at each
      of its draws. */
  lemma {:induction false} NoBindsKeepTextures(st: State, log: seq<Command>)
    requires forall k :: 0 <= k < |log| ==> !log[k].BindTexture?
    ensures Run(st, log).textures == st.textures
    ensures forall k :: 0 <= k < |DrawStates(st, log)| ==> DrawStates(st, log)[k].textures == st.textures
    decreases |log|
  {
    if |log| > 0 {
      var st1 := Exec(st, log[0]);
      assert st1.textures == st.textures;
      NoBindsKeepTextures(st1, log[1..]);
    }
  }

  /** Selecting a unit and binding a 2D texture on it, between two uniform
      uploads. */
  lemma BindOnUnit(st: State, log: seq<Command>, unit: nat, texture: int)
    requires |log| == 4 && log[0].UniformInt? && log[1] == ActiveTexture(unit)
    requires log[2] == BindTexture(Texture2D, texture) && log[3].UniformInt?
    ensures Run(st, log).textures == st.textures[(unit, Texture2D) := texture]
  {
    RunAppend(st, log[..2], log[2..]);
    assert log == log[..2] + log[2..];
    RunPair(st, log[..2]);
    RunPair(Run(st, log[..2]), log[2..]);
  }

  /** A stretch without draws or texture binds, then the rest: the rest
      runs and draws from the same bindings as the whole. */
  lemma QuietPrefix(st: State, a: seq<Command>, b: seq<Command>)
    requires CountDraws(a) == 0 && forall k :: 0 <= k < |a| ==> !a[k].BindTexture?
    ensures Run(st, a).textures == st.textures
    ensures Run(st, a + b) == Run(Run(st, a), b)
    ensures DrawStates(st, a + b) == DrawStates(Run(st, a), b)
  {
    RunAppend(st, a, b);
    DrawStatesCount(st, a);
    NoBindsKeepTextures(st, a);
  }

  /** A stretch without draws, then a single draw that binds no texture:
      that draw sees the bindings the first stretch left. */
  lemma ThenDraw(st: State, a: seq<Command>, b: seq<Command>)
    requires DrawStates(st, a) == []
    requires CountDraws(b) == 1 && forall k :: 0 <= k < |b| ==> !b[k].BindTexture?
    ensures |DrawStates(st, a + b)| == 1 && DrawStates(st, a + b)[0].textures == Run(st, a).textures
  {
    RunAppend(st, a, b);
    NoBindsKeepTextures(Run(st, a), b);
    DrawStatesCount(Run(st, a), b);
  }

  /** The bindings after one channel: its texture on its unit, if it has
      one. */
  function BindChannel(m: map<(nat, TextureTarget), int>, o: Renderable.Object, c: Channel): map<(nat, TextureTarget), int> {
    if TextureOf(o, c) != -1 then m[(Unit(c), Texture2D) := TextureOf(o, c)] else m
  }

  /** The bindings after several channels, in order. */
  function BindChannels(m: map<(nat, TextureTarget), int>, o: Renderable.Object, channels: seq<Channel>)
    : map<(nat, TextureTarget), int>
    decreases |channels|
  {
    if |channels| == 0 then m else BindChannels(BindChannel(m, o, channels[0]), o, channels[1..])
  }

  /** After the three channels of an object, each channel samples the
      object's texture when it has one and what it sampled before
      otherwise. */
  lemma ObjectSamples(st: State, st1: State, o: Renderable.Object)
    requires st1.textures == BindChannels(st.textures, o, Channels)
    ensures forall c :: Sampled(st1, c) == if TextureOf(o, c) != -1 then TextureOf(o, c) else Sampled(st, c)
  {
    var m1 := BindChannel(st.textures, o, ColorMap);
    var m2 := BindChannel(m1, o, SpecularMap);
    var m3 := BindChannel(m2, o, NormalMap);
    assert Channels[1..][1..][1..] == [];
    assert st1.textures == m3;
  }

  /** A channel's commands leave the bindings of `BindChannel`. */
  lemma ChannelBinds(st: State, s: ShaderProgram.Shader, query: ShaderProgram.Query, o: Renderable.Object,
                     settings: Settings, c: Channel)
    ensures Run(st, ChannelCommands(s, query, o, settings, c).1).textures == BindChannel(st.textures, o, c)
  {
    var log := ChannelCommands(s, query, o, settings, c).1;
    if TextureOf(o, c) != -1 {
      BindOnUnit(st, log, Unit(c), TextureOf(o, c));
    } else {
      RunFirst(st, log);
    }
  }

  /** Several channels' commands leave the bindings of `BindChannels`. */
  lemma {:induction false} ChannelsBind(st: State, s: ShaderProgram.Shader, query: ShaderProgram.Query, o: Renderable.Object,
                                        settings: Settings, channels: seq<Channel>)
    ensures Run(st, ChannelsCommands(s, query, o, settings, channels).1).textures == BindChannels(st.textures, o, channels)
    decreases |channels|
  {
    if |channels| > 0 {
      var (s1, first) := ChannelCommands(s, query, o, settings, channels[0]);
      var (s2, rest) := ChannelsCommands(s1, query, o, settings, channels[1..]);
      RunAppend(st, first, rest);
      ChannelBinds(st, s, query, o, settings, channels[0]);
      ChannelsBind(Run(st, first), s1, query, o, settings, channels[1..]);
    }
  }

  /** An object's material draws nothing and leaves the bindings of its
      three channels. */
  lemma MaterialBinds(st: State, s: ShaderProgram.Shader, query: ShaderProgram.Query, o: Renderable.Object, settings: Settings)
    ensures var log := MaterialCommands(s, query, o, settings).1;
      && DrawStates(st, log) == []
      && Run(st, log).textures == BindChannels(st.textures, o, Channels)
  {
    var color := ShaderProgram.GetUniform(s, "material.color", query);
    var (s1, channelLog) := ChannelsCommands(color.shader, query, o, settings, Channels);
    var head := [UniformVec3(color.location, o.baseColor)];
    MaterialQuiet(s, query, o, settings);
    DrawStatesCount(st, head + channelLog);
    QuietPrefix(st, head, channelLog);
    ChannelsBind(Run(st, head), color.shader, query, o, settings, Channels);
  }

  /** The one draw of an object sees the bindings of its three channels. */
  lemma DrawObjectBinds(st: State, s: ShaderProgram.Shader, query: ShaderProgram.Query, o: Renderable.Object, settings: Settings)
    requires DrawObject(s, query, o, settings).Ok?
    ensures var ds := DrawStates(st, DrawObject(s, query, o, settings).value.1);
      |ds| == 1 && ds[0].textures == BindChannels(st.textures, o, Channels)
  {
    var (s1, materialLog) := MaterialCommands(s, query, o, settings);
    var (s2, drawLog) := Renderable.Render(o, s1, query, 1).value;
    MaterialBinds(st, s, query, o, settings);
    RenderQuiet(o, s1, query, 1);
    ThenDraw(st, materialLog, drawLog);
  }

  /** The one draw of an object samples the object's own textures on the
      channels it has one for, and leftovers from earlier objects on the
      others. */
  lemma DrawObjectTextures(st: State, s: ShaderProgram.Shader, query: ShaderProgram.Query, o: Renderable.Object, settings: Settings)
    requires DrawObject(s, query, o, settings).Ok?
    ensures var ds := DrawStates(st, DrawObject(s, query, o, settings).value.1);
      && |ds| == 1
      && forall c :: Sampled(ds[0], c) == if TextureOf(o, c) != -1 then TextureOf(o, c) else Sampled(st, c)
  {
    DrawObjectBinds(st, s, query, o, settings);
    ObjectSamples(st, DrawStates(st, DrawObject(s, query, o, settings).value.1)[0], o);
  }

  /** A step whose one draw samples the object's own textures. */
  ghost predicate SamplesOwnTextures(step: Step) {
    forall s, o, st :: step(s, o).Ok? ==>
      && |DrawStates(st, step(s, o).value.1)| == 1
      && forall c :: TextureOf(o, c) != -1 ==> Sampled(DrawStates(st, step(s, o).value.1)[0], c) == TextureOf(o, c)
  }

  lemma BaseStepSamplesOwnTextures(query: ShaderProgram.Query, settings: Settings)
    ensures SamplesOwnTextures(BaseStep(query, settings))
  {
    forall s, o, st | BaseStep(query, settings)(s, o).Ok?
      ensures var ds := DrawStates(st, BaseStep(query, settings)(s, o).value.1);
        && |ds| == 1
        && forall c :: TextureOf(o, c) != -1 ==> Sampled(ds[0], c) == TextureOf(o, c)
    {
      DrawObjectTextures(st, s, query, o, settings);
    }
  }

  /** Over a loop of such steps, the `k`-th draw samples the `k`-th
      object's textures. */
  lemma {:induction false} ForEachObjectTextures(st: State, s: ShaderProgram.Shader, objects: seq<Renderable.Object>, step: Step)
    requires SamplesOwnTextures(step)
    requires ForEachObject(s, objects, step).Ok?
    ensures var ds := DrawStates(st, ForEachObject(s, objects, step).value.1);
      |ds| == |objects| && SamplesObjects(ds, 0, objects)
    decreases |objects|
  {
    if |objects| > 0 {
      var (s1, first) := step(s, objects[0]).value;
      var (s2, rest, count) := ForEachObject(s1, objects[1..], step).value;
      RunAppend(st, first, rest);
      ForEachObjectTextures(Run(st, first), s1, objects[1..], step);
      var ds := DrawStates(st, first + rest);
      var restStates := DrawStates(Run(st, first), rest);
      forall k, c | 1 <= k < |objects| && TextureOf(objects[k], c) != -1
        ensures Sampled(ds[k], c) == TextureOf(objects[k], c)
      {
        assert ds[k] == restStates[k - 1];
        assert objects[k] == objects[1..][k - 1];
      }
    }
  }

  /** The draws of a pass whose header and trailer draw nothing are the
      loop's, run from the state the header leaves. */
  lemma PassDrawStates(s: ShaderProgram.Shader, header: seq<Command>, objects: seq<Renderable.Object>, step: Step,
                       trailer: seq<Command>, st: State)
    requires CountDraws(header) == 0 && CountDraws(trailer) == 0
    requires Pass(s, header, objects, step, trailer).Ok?
    ensures DrawStates(st, Pass(s, header, objects, step, trailer).value.1)
      == DrawStates(Run(st, header), ForEachObject(s, objects, step).value.1)
  {
    var draws := ForEachObject(s, objects, step).value.1;
    RunAppend(st, header + draws, trailer);
    RunAppend(st, header, draws);
    DrawStatesCount(st, header);
    DrawStatesCount(Run(st, header + draws), trailer);
  }

  /** In the base pass, the `k`-th draw samples the `k`-th object's
      textures on every channel the object has one for. */
  lemma BasePassTextures(w: Window, view: Mat4, width: int, height: int, query: ShaderProgram.Query, st: State)
    requires BasePass(w, view, width, height, query).Ok?
    ensures var ds := DrawStates(st, BasePass(w, view, width, height, query).value.1);
      |ds| == |w.objects| && SamplesObjects(ds, 0, w.objects)
  {
    var (s1, header) := BaseHeader(w, view, width, height, query);
    BaseStepSamplesOwnTextures(query, w.settings);
    ForEachObjectTextures(Run(st, header), s1, w.objects, BaseStep(query, w.settings));
    PassDrawStates(s1, header, w.objects, BaseStep(query, w.settings), [], st);
  }

  /** When the shadow pass draws `n` times and the `k`-th base-pass draw
      samples the `k`-th object's textures, the frame's draw `n + k` does. */
  lemma ComposeTextures(w: Window, shadow: PassResult, base: PassResult, st: State, n: nat)
    requires Compose(w, shadow, base).Ok? && |w.objects| == n
    requires |DrawStates(st, shadow.value.1)| == n
    requires var ds := DrawStates(Run(st, shadow.value.1), base.value.1);
      |ds| == n && SamplesObjects(ds, 0, w.objects)
    ensures var ds := DrawStates(st, Compose(w, shadow, base).value.log);
      |ds| == 2 * n && SamplesObjects(ds, n, w.objects)
  {
    ComposeStates(w, shadow, base, st);
    var ds := DrawStates(st, Compose(w, shadow, base).value.log);
    var baseStates := DrawStates(Run(st, shadow.value.1), base.value.1);
    assert forall k :: 0 <= k < n ==> ds[n + k] == baseStates[k];
  }

  /** Within a frame, the base-pass draw of each object samples the
      object's own textures. */
  lemma RenderFrameTextures(w: Window, view: Mat4, width: int, height: int, query: ShaderProgram.Query, st: State)
    requires RenderFrame(w, view, width, height, query).Ok?
    ensures var ds := DrawStates(st, RenderFrame(w, view, width, height, query).value.log);
      |ds| == 2 * |w.objects| && SamplesObjects(ds, |w.objects|, w.objects)
  {
    var shadow := ShadowPass(w, query);
    var base := BasePass(w, view, width, height, query);
    ShadowPassSetups(w, query, st);
    BasePassTextures(w, view, width, height, query, Run(st, shadow.value.1));
    ComposeTextures(w, shadow, base, st, |w.objects|);
  }
}
