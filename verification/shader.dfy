/** `Shader`: building a program from a vertex and a fragment stage, the
    uniform-location cache behind `GetUniform`, and the setters that bypass
    it. GL's `GetUniformLocation(program, name)` is a fixed oracle `query`;
    compile and link statuses and the info logs are inputs. */
module ShaderProgram {
  import opened Results
  import opened Gl

  /** `GL.GetUniformLocation(handle, name)`: -1 when the program has no
      active uniform of that name. */
  type Query = (int, string) -> int

  datatype Shader = Shader(handle: int, cache: map<string, int>)

  /** A freshly built program has an empty cache. */
  function NewShader(handle: int): (s: Shader)
    ensures s.handle == handle && |s.cache| == 0
  {
    Shader(handle, map[])
  }

  /** The cache invariant: every stored location is what GL reports. */
  ghost predicate CacheAgrees(s: Shader, query: Query) {
    forall n :: n in s.cache ==> s.cache[n] == query(s.handle, n)
  }

  /** The result of one `GetUniform`: the shader with its updated cache, the
      location returned, and whether the "not found" warning was printed. */
  datatype Lookup = Lookup(shader: Shader, location: int, warned: bool)

  /** `GetUniform(name)`. A cached name returns its stored location without
      asking GL and prints nothing. Otherwise GL is asked once, the answer is
      stored even when it is -1, and the warning is printed exactly when it
      is -1. The cache keeps agreeing with GL. */
  function GetUniform(s: Shader, name: string, query: Query): (r: Lookup)
    ensures r.shader.handle == s.handle
    ensures name in s.cache ==> r == Lookup(s, s.cache[name], false)
    ensures name !in s.cache ==>
      && r.location == query(s.handle, name)
      && r.shader.cache == s.cache[name := query(s.handle, name)]
      && (r.warned <==> query(s.handle, name) == -1)
    ensures CacheAgrees(s, query) ==> CacheAgrees(r.shader, query) && r.location == query(s.handle, name)
    ensures name in r.shader.cache && s.cache.Keys <= r.shader.cache.Keys
  {
    if name in s.cache then Lookup(s, s.cache[name], false)
    else
      var location := query(s.handle, name);
      Lookup(s.(cache := s.cache[name := location]), location, location == -1)
  }

  /** After the first call for a name, every later call returns the same
      location, leaves the cache as it is and prints nothing. */
  lemma GetUniformStable(s: Shader, name: string, query: Query)
    ensures var first := GetUniform(s, name, query);
      GetUniform(first.shader, name, query) == Lookup(first.shader, first.location, false)
  {
  }

  /** A sequence of `GetUniform` calls, collecting the names warned about. */
  function RunLookups(s: Shader, names: seq<string>, query: Query): (r: (Shader, seq<string>))
    ensures r.0.handle == s.handle && s.cache.Keys <= r.0.cache.Keys
    ensures forall k :: 0 <= k < |names| ==> names[k] in r.0.cache
    ensures forall w :: w in r.1 ==> w in names && w !in s.cache && query(s.handle, w) == -1
    decreases |names|
  {
    if |names| == 0 then (s, [])
    else
      var first := GetUniform(s, names[0], query);
      var rest := RunLookups(first.shader, names[1..], query);
      (rest.0, (if first.warned then [names[0]] else []) + rest.1)
  }

  predicate NoDuplicates(w: seq<string>) {
    forall i, j :: 0 <= i < j < |w| ==> w[i] != w[j]
  }

  /** The "not found" warning is printed at most once per name, however many
      times it is looked up: later lookups hit the cache. */
  lemma {:induction false} WarnedAtMostOnce(s: Shader, names: seq<string>, query: Query)
    ensures NoDuplicates(RunLookups(s, names, query).1)
    decreases |names|
  {
    if |names| > 0 {
      var first := GetUniform(s, names[0], query);
      WarnedAtMostOnce(first.shader, names[1..], query);
      var rest := RunLookups(first.shader, names[1..], query).1;
      assert names[0] in first.shader.cache;
      assert forall j :: 0 <= j < |rest| ==> rest[j] != names[0];
      var w := RunLookups(s, names, query).1;
      if first.warned {
        assert w == [names[0]] + rest;
        forall i, j | 0 <= i < j < |w|
          ensures w[i] != w[j]
        {
          assert w[j] == rest[j - 1];
          if i > 0 {
            assert w[i] == rest[i - 1];
          }
        }
      } else {
        assert w == rest;
      }
    }
  }

  // ---------------------------------------------------------------------
  // Setters

  datatype ShaderError =
    | UniformNotFound(name: string)
    | CompileFailed(message: string)
    | LinkFailed(message: string)

  /** The common part of `SetBool`, `SetInt` and `SetFloat`: ask GL directly
      (the cache is neither read nor written) and throw on -1. */
  function Locate(s: Shader, name: string, query: Query): (r: Result<int, ShaderError>)
    ensures r.Err? <==> query(s.handle, name) == -1
    ensures r.Err? ==> r.error == UniformNotFound(name)
    ensures r.Ok? ==> r.value == query(s.handle, name)
  {
    var location := query(s.handle, name);
    if location == -1 then Err(UniformNotFound(name)) else Ok(location)
  }

  /** `SetBool(name, value)`: uploads 1 for true and 0 for false. */
  function SetBool(s: Shader, name: string, value: bool, query: Query): (r: Result<Command, ShaderError>)
    ensures r.Err? <==> query(s.handle, name) == -1
    ensures r.Ok? ==> r.value.UniformInt? && r.value.location == query(s.handle, name)
    ensures r.Ok? ==> (r.value.intValue == 1 <==> value) && (r.value.intValue == 0 <==> !value)
  {
    var location :- Locate(s, name, query);
    Ok(UniformInt(location, if value then 1 else 0))
  }

  function SetInt(s: Shader, name: string, value: int, query: Query): (r: Result<Command, ShaderError>)
    ensures r.Err? <==> query(s.handle, name) == -1
    ensures r.Ok? ==> r.value == UniformInt(query(s.handle, name), value)
  {
    var location :- Locate(s, name, query);
    Ok(UniformInt(location, value))
  }

  function SetFloat(s: Shader, name: string, value: real, query: Query): (r: Result<Command, ShaderError>)
    ensures r.Err? <==> query(s.handle, name) == -1
    ensures r.Ok? ==> r.value == UniformFloat(query(s.handle, name), value)
  {
    var location :- Locate(s, name, query);
    Ok(UniformFloat(location, value))
  }

  /** The setters ignore the cache: a name cached with any location, even
      one GL would not report, still throws when GL reports -1. */
  lemma SettersBypassCache(s: Shader, cache: map<string, int>, name: string, value: int, query: Query)
    ensures SetInt(s.(cache := cache), name, value, query) == SetInt(s, name, value, query)
    ensures SetBool(s.(cache := cache), name, value != 0, query) == SetBool(s, name, value != 0, query)
  {
  }

  // ---------------------------------------------------------------------
  // Building the program

  /** `CheckCompile(shader, type)`: throws exactly when the status is 0,
      with the stage name and GL's info log in the message. */
  function CheckCompile(status: int, stageName: string, infoLog: string): (r: Result<(), ShaderError>)
    ensures r.Err? <==> status == 0
    ensures r.Err? ==> r.error == CompileFailed(stageName + " SHADER COMPILATION ERROR:\n" + infoLog)
  {
    if status == 0 then Err(CompileFailed(stageName + " SHADER COMPILATION ERROR:\n" + infoLog)) else Ok(())
  }

  /** `CheckLink(program)`: throws exactly when the status is 0. */
  function CheckLink(status: int, infoLog: string): (r: Result<(), ShaderError>)
    ensures r.Err? <==> status == 0
    ensures r.Err? ==> r.error == LinkFailed("SHADER LINKING ERROR:\n" + infoLog)
  {
    if status == 0 then Err(LinkFailed("SHADER LINKING ERROR:\n" + infoLog)) else Ok(())
  }

  /** What GL answers while the program is built: the names it hands out,
      the statuses it reports and its info logs. */
  datatype BuildOracle = BuildOracle(
    vertexShader: int, fragmentShader: int, program: int,
    vertexStatus: int, fragmentStatus: int, linkStatus: int,
    vertexLog: string, fragmentLog: string, programLog: string)

  /** The constructor `Shader(vertexPath, fragmentPath, geometryPath)` once
      the two source files are read (the geometry path is never read, so it
      is not an input). The vertex stage is compiled and checked first, then
      the fragment stage, then the program is linked and checked; on success
      exactly the two stages were attached, and both are detached and deleted
      again. */
  function BuildShader(gl: BuildOracle): (r: Result<(Shader, seq<Command>), ShaderError>)
    ensures r.Err? <==> gl.vertexStatus == 0 || gl.fragmentStatus == 0 || gl.linkStatus == 0
    ensures gl.vertexStatus == 0 ==> r.Err? && r.error.CompileFailed?
    ensures r.Ok? ==> r.value.0 == NewShader(gl.program)
    ensures r.Ok? ==>
      var attached := Attached(r.value.1);
      attached == [gl.vertexShader, gl.fragmentShader]
  {
    var _ :- CheckCompile(gl.vertexStatus, "VERTEX", gl.vertexLog);
    var _ :- CheckCompile(gl.fragmentStatus, "FRAGMENT", gl.fragmentLog);
    var _ :- CheckLink(gl.linkStatus, gl.programLog);
    var compile := [CompileShader(gl.vertexShader, VertexStage), CompileShader(gl.fragmentShader, FragmentStage)];
    var attach := [AttachShader(gl.program, gl.vertexShader), AttachShader(gl.program, gl.fragmentShader)];
    var cleanup := [
      LinkProgram(gl.program),
      DetachShader(gl.program, gl.vertexShader), DetachShader(gl.program, gl.fragmentShader),
      DeleteShader(gl.vertexShader), DeleteShader(gl.fragmentShader)];
    NothingAttached(compile);
    NothingAttached(cleanup);
    assert Attached(attach) == [gl.vertexShader, gl.fragmentShader] by {
      assert attach[1..][1..] == [];
      assert Attached(attach[1..]) == [gl.fragmentShader] + Attached(attach[1..][1..]);
    }
    AttachedAppend(compile, attach);
    AttachedAppend(compile + attach, cleanup);
    Ok((NewShader(gl.program), compile + attach + cleanup))
  }

  /** The shaders attached by a log, in order. */
  function Attached(log: seq<Command>): seq<int>
    decreases |log|
  {
    if |log| == 0 then []
    else (if log[0].AttachShader? then [log[0].attached] else []) + Attached(log[1..])
  }

  lemma {:induction false} AttachedAppend(a: seq<Command>, b: seq<Command>)
    ensures Attached(a + b) == Attached(a) + Attached(b)
    decreases |a|
  {
    if |a| > 0 {
      assert (a + b)[0] == a[0] && (a + b)[1..] == a[1..] + b;
      AttachedAppend(a[1..], b);
    } else {
      assert a + b == b;
    }
  }

  lemma {:induction false} NothingAttached(log: seq<Command>)
    requires forall k :: 0 <= k < |log| ==> !log[k].AttachShader?
    ensures Attached(log) == []
    decreases |log|
  {
    if |log| > 0 {
      NothingAttached(log[1..]);
    }
  }
}
