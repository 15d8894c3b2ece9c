/** The three textured cubes `MainWindow.OnLoad` builds from the literal
    cube lists. All three are handed the same texture-coordinate list, not
    copies of it, and each is rebuilt with `InitializeBuffers(true)` after it
    gets a normal map, which flips that one list in place. The loading
    sequence is modelled twice: as written, where each cube sees the list
    the previous one left behind, and with a copy per cube. */
module SceneLoad {
  import opened Results
  import opened Vectors
  import opened Gl
  import opened Renderable
  import Tangents
  import VertexLayout
  import SceneMeshes

  /** The texture names `Image.loadTexture` hands back for one cube (-1 for
      a map the cube does not get; a loaded texture is never named -1) and
      the vertex array and buffer names of its two builds. */
  datatype CubeSetup = CubeSetup(
    name: string, position: Vec3,
    colorTexture: int, specularTexture: int, normalTexture: nat,
    constructed: Handles, rebuilt: Handles)

  /** The cube lists read by every build of a cube with texture coordinates
      `uvs`: no read runs past a list. */
  lemma CubeBuildable(uvs: seq<real>)
    ensures |uvs| == |SceneMeshes.CubeTexCoords| ==>
      && Tangents.CanCompute(SceneMeshes.CubeVertices, SceneMeshes.CubeNormals, Some(uvs), SceneMeshes.CubeIndices, true)
      && VertexLayout.Readable(VertexLayout.Source(SceneMeshes.CubeVertices, Tangents.OrEmpty(Some(SceneMeshes.CubeNormals)), Some(uvs), None))
  {
    SceneMeshes.CubeWellFormed();
  }

  /** One cube region of `OnLoad`: `new RenderableObject(name, cubeVertices,
      cubeNormals, cubeIndices, uvs)` with its position, the three texture
      assignments, `DisposeBuffers()` and `InitializeBuffers(true)`. The
      object returned holds the texture coordinates as uploaded, which are
      also the shared list's contents after the build. */
  function BuildCube(c: CubeSetup, uvs: seq<real>, invLength: Vec3 -> real): (r: Result<(Object, seq<Command>), BufferError>)
    requires forall v :: invLength(v) >= 0.0
    ensures |uvs| == |SceneMeshes.CubeTexCoords| ==> r.Ok?
    ensures r.Ok? ==> r.value.0.texCoords == Some(Tangents.FlipV(uvs))
    ensures r.Ok? ==> r.value.0.name == c.name && r.value.0.position == c.position
    ensures r.Ok? ==> HasNormalMap(r.value.0) && r.value.0.handles == c.rebuilt
  {
    var built :- New(c.name, Some(SceneMeshes.CubeVertices), Some(SceneMeshes.CubeNormals),
                     Some(SceneMeshes.CubeIndices), Some(uvs), c.constructed);
    var textured := built.0.(position := c.position, colorTexture := c.colorTexture,
                             specularTexture := c.specularTexture, normalTexture := c.normalTexture);
    var disposed := Dispose(textured);
    CubeBuildable(uvs);
    var rebuilt :- InitializeBuffers(disposed.0, true, c.rebuilt, invLength);
    Ok((rebuilt.0, built.1 + disposed.1 + rebuilt.1))
  }

  lemma CubeTexCoordCount()
    ensures |SceneMeshes.CubeTexCoords| == 48
  {
  }

  /** `o` is the cube `c` describes, and it uploaded the texture
      coordinates `uvs`. */
  predicate Uploads(o: Object, c: CubeSetup, uvs: seq<real>) {
    o.name == c.name && o.position == c.position && o.texCoords == Some(uvs)
  }

  /** The object a cube build leaves in `_objects`, for a list as long as
      the literal one. */
  function Built(c: CubeSetup, uvs: seq<real>, invLength: Vec3 -> real): (o: Object)
    requires forall v :: invLength(v) >= 0.0
    requires |uvs| == 48
    ensures Uploads(o, c, Tangents.FlipV(uvs)) && |o.texCoords.value| == |uvs| && HasNormalMap(o)
  {
    CubeTexCoordCount();
    BuildCube(c, uvs, invLength).value.0
  }

  /** The three cubes as `OnLoad` builds them: "Box With Frame", "Box With
      Frame 2" and "Play Cube", the first handed the texture-coordinate list
      `uvs` and each later one the list the previous build left behind. The
      result lists the objects in `_objects` order, each with the texture
      coordinates it uploaded. */
  function LoadCubesShared(cubes: seq<CubeSetup>, uvs: seq<real>, invLength: Vec3 -> real): (r: seq<Object>)
    requires |cubes| == 3 && |uvs| == 48
    requires forall v :: invLength(v) >= 0.0
    ensures |r| == 3
    ensures Uploads(r[0], cubes[0], Tangents.FlipV(uvs))
    ensures Uploads(r[1], cubes[1], Tangents.FlipV(r[0].texCoords.value))
    ensures Uploads(r[2], cubes[2], Tangents.FlipV(r[1].texCoords.value))
  {
    var a := Built(cubes[0], uvs, invLength);
    var b := Built(cubes[1], a.texCoords.value, invLength);
    var c := Built(cubes[2], b.texCoords.value, invLength);
    [a, b, c]
  }

  /** As written, the second cube uploads the list flipped back: the first
      and third cubes sample their normal maps with V flipped and the
      second does not. */
  lemma SharedListAlternates(cubes: seq<CubeSetup>, uvs: seq<real>, invLength: Vec3 -> real)
    requires |cubes| == 3 && |uvs| == 48
    requires forall v :: invLength(v) >= 0.0
    ensures var r := LoadCubesShared(cubes, uvs, invLength);
      && r[0].texCoords == r[2].texCoords == Some(Tangents.FlipV(uvs))
      && r[1].texCoords == Some(uvs)
  {
    Tangents.FlipVTwice(uvs);
  }

  /** With the literal cube list the first two cubes disagree: at the
      first corner of the first face (list index 1) the V coordinate the
      first cube uploads is 1, where the second uploads 0. */
  lemma SharedCubesDisagree(cubes: seq<CubeSetup>, invLength: Vec3 -> real)
    requires |cubes| == 3
    requires forall v :: invLength(v) >= 0.0
    ensures |SceneMeshes.CubeTexCoords| == 48
    ensures var r := LoadCubesShared(cubes, SceneMeshes.CubeTexCoords, invLength);
      r[0].texCoords.value[1] == 1.0 && r[1].texCoords.value[1] == 0.0
  {
    var u := SceneMeshes.CubeTexCoords;
    CubeTexCoordCount();
    SharedListAlternates(cubes, u, invLength);
    FirstCornerV();
  }

  /** The V coordinate of the first corner (list index 1) of the cube list
      is 0, so flipping makes it 1. */
  lemma FirstCornerV()
    ensures var u := SceneMeshes.CubeTexCoords;
      |u| == 48 && u[1] == 0.0 && Tangents.FlipV(u)[1] == 1.0
  {
    var u := SceneMeshes.CubeTexCoords;
    CubeTexCoordCount();
    assert u[1] == SceneMeshes.FaceSquare[1];
    assert Tangents.FlipV(u)[1] + u[1] == 1.0;
  }

  /** The evidently intended loading: each cube gets its own copy of the
      list (`new List<float>(cubeTexCoords)`), so each build flips only its
      own copy and every cube uploads the same V-flipped texture
      coordinates. */
  function LoadCubesCopied(cubes: seq<CubeSetup>, uvs: seq<real>, invLength: Vec3 -> real): (r: seq<Object>)
    requires |cubes| == 3 && |uvs| == 48
    requires forall v :: invLength(v) >= 0.0
    ensures |r| == 3
    ensures Uploads(r[0], cubes[0], Tangents.FlipV(uvs))
    ensures Uploads(r[1], cubes[1], Tangents.FlipV(uvs))
    ensures Uploads(r[2], cubes[2], Tangents.FlipV(uvs))
  {
    var a := Built(cubes[0], uvs, invLength);
    var b := Built(cubes[1], uvs, invLength);
    var c := Built(cubes[2], uvs, invLength);
    [a, b, c]
  }

  /** The copies change only what the sharing got wrong: every cube
      uploads what the first cube uploads either way, the third cube is
      unchanged, and the second cube differs wherever flipping changes the
      list, as it does for the literal cube list. */
  lemma CopiesFixSecondCube(cubes: seq<CubeSetup>, uvs: seq<real>, invLength: Vec3 -> real)
    requires |cubes| == 3 && |uvs| == 48
    requires forall v :: invLength(v) >= 0.0
    ensures var shared := LoadCubesShared(cubes, uvs, invLength);
      var copied := LoadCubesCopied(cubes, uvs, invLength);
      && copied[0].texCoords == copied[1].texCoords == copied[2].texCoords == shared[0].texCoords
      && copied[2].texCoords == shared[2].texCoords
      && (copied[1].texCoords == shared[1].texCoords <==> Tangents.FlipV(uvs) == uvs)
  {
    SharedListAlternates(cubes, uvs, invLength);
  }
}
