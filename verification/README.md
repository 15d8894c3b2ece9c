# OpenTK Lighting, modelled in Dafny

This project models the core of a small OpenTK (C#) renderer. The renderer
loads a few meshes, gives them colour, specular and normal maps, and draws
them twice each frame. The first pass draws into a point light's depth cube
map. The second pass draws into the window with per-object materials.

The model is pure and functional. GL calls become entries of an effect log
(`Gl.Command`). A small GL state machine (`Gl.Run`, `Gl.DrawStates`) says what
each draw call sees. Matrices are symbolic terms: `LookAt`, `Perspective` and
the model transform are constructors, not numbers. Floats are exact reals.

The modules follow the program's classes:

- `Results`, `Vectors`/`Matrices`: the result type, vectors and symbolic matrices.
- `Strings`, `Int32`: the .NET string operations and the `int.Parse` the OBJ
  reader relies on, written out (`Split`, `RemoveEmptyEntries`, white space,
  32-bit range and wrap-around).
- `FirstAppearance`: a reference definition of "numbered in order of first
  appearance".
- `ObjParser`: `OBJ_Parser.ParseOBJFile` with its `AddVertex` vertex cache and
  fan triangulation.
- `VertexLayout`, `Tangents`, `Renderable`: `RenderableObject`. This covers
  the interleaved buffer and attribute pointers, `ComputeTangents` (V flip,
  per-triangle accumulation, Gram-Schmidt finish), `InitializeBuffers`,
  `DisposeBuffers`, `Render` and the constructor.
- `ShaderProgram`: `Shader`. This covers the uniform-location cache, the
  three setters, the compile and link checks, and the build sequence.
- `Camera`: speed selection and the mouse-look state machine of `UpdateInput`.
- `LightObject`, `MainWindow`: the cube-face direction and up tables, the face
  views, and the shadow resources.
- `SceneMeshes`, `MeshGeometry`: the literal cube and plane meshes of
  `MainWindow.OnLoad`, their winding and their texture-coordinate areas.
- `FrameRender`: `MainWindow.OnRenderFrame`. This covers the shadow pass, the
  base pass, the per-object material, the draw counter and the settings
  toggles.
- `SceneLoad`: the three textured cubes of `OnLoad`, which share one
  texture-coordinate list (see Findings).

## Model

| member | source | states |
|---|---|---|
| Int32.Parse | Loaders/OBJ_Parser.cs:81-83 | `int.Parse` succeeds only with a value inside the 32-bit signed range, and throws a format error exactly when the text, once trimmed of white space, is not an optional sign followed by one or more digits |
| Int32.ParseRejectsForeign | Loaders/OBJ_Parser.cs:81-83 | a character anywhere in the text that is not a digit, a sign or white space makes it a format error |
| Int32.ParseBlank | Loaders/OBJ_Parser.cs:81-83 | empty or all-white text is a format error |
| Int32.ParseSignAlone | Loaders/OBJ_Parser.cs:81-83 | a sign with no digits is a format error |
| Int32.ParseRejectsExamples | Loaders/OBJ_Parser.cs:81-83 | "", "   ", "+", "-", "1.5", "1/2" and "abc" are all format errors |
| Int32.ParseDecimal | Loaders/OBJ_Parser.cs:81 | a decimal spelling of `n` parses back to `n` up to `int.MaxValue`, and is an overflow error above it |
| Int32.ParseNegativeDecimal | Loaders/OBJ_Parser.cs:81 | a minus sign followed by a decimal spelling parses to the negated number, down to `int.MinValue` |
| Int32.Wrap | Loaders/OBJ_Parser.cs:81 | unchecked 32-bit arithmetic: the result is in range, congruent to the exact value modulo 2^32, and equal to it when that is in range |
| Strings.Split | Loaders/OBJ_Parser.cs:80 | `Split` yields at least one piece, and no piece contains the separator |
| Strings.JoinSplit | Loaders/OBJ_Parser.cs:80 | joining the pieces of a split with the separator gives back the original string |
| Strings.SplitJoin | Loaders/OBJ_Parser.cs:80 | separator-free pieces survive a join and a split unchanged |
| Strings.RemoveEmpty | Loaders/OBJ_Parser.cs:37 | `RemoveEmptyEntries` keeps only non-empty pieces of the input; it is empty exactly when every piece is; it is the identity when no piece is empty |
| Strings.Tokens | Loaders/OBJ_Parser.cs:37 | every token is non-empty and contains no space |
| Strings.NonBlankHasToken | Loaders/OBJ_Parser.cs:35-39 | a line that passes the blank-line test has at least one token, so `parts[0]` exists |
| Strings.RemoveEmptyAppend | Loaders/OBJ_Parser.cs:37 | removing empty pieces distributes over concatenation, so every non-empty piece is kept, once and in order |
| Strings.RemoveEmptySingle | Loaders/OBJ_Parser.cs:37 | a single piece is kept exactly when it is non-empty |
| Strings.TokensOfJoin | Loaders/OBJ_Parser.cs:37 | for any space-free words, empty ones included, the tokens of their join by single spaces are the non-empty words in order; runs of spaces act as one separator |
| FirstAppearance.Distinct | Loaders/OBJ_Parser.cs:29-31 | the distinct elements hold the same elements as the input, without repeats |
| FirstAppearance.DistinctSnoc | Loaders/OBJ_Parser.cs:86-116 | a seen element adds nothing, and a new element goes at the end |
| ObjParser.ParseComponent | Loaders/OBJ_Parser.cs:81 | `int.Parse(c) - 1` always stays inside the 32-bit range |
| ObjParser.ParseComponentDecimal | Loaders/OBJ_Parser.cs:81 | a one-based decimal index `a` becomes the zero-based `a - 1` |
| ObjParser.ParseComponentNegative | Loaders/OBJ_Parser.cs:81 | a negative (relative) index `-a` becomes `-a - 1`; it is not resolved against the list |
| ObjParser.ParseKeyFull | Loaders/OBJ_Parser.cs:80-85 | the token `a/b/c` names the key `(a-1, b-1, c-1)` |
| ObjParser.ParseKeyWithoutTexCoord | Loaders/OBJ_Parser.cs:82 | `a//c` has an empty middle piece, which reads as the absent texture coordinate -1 |
| ObjParser.ParseKeyPositionOnly | Loaders/OBJ_Parser.cs:82-83 | a bare `a` has no second or third piece, so both read as -1 |
| ObjParser.ParseKeyNegativeTexCoord | Loaders/OBJ_Parser.cs:82 | a negative (relative) texture index `-b` is kept as `-b - 1`; it is not resolved against the end of the list |
| ObjParser.AppendVertexValid | Loaders/OBJ_Parser.cs:86-116 | a cache miss appends one output vertex numbered `verticesOut.Count / 3 - 1`, and the invariant holds after it: lists in lockstep, every index and cached number names an output vertex that carries its key's attributes |
| ObjParser.AddKey | Loaders/OBJ_Parser.cs:85-118 | fails exactly for an uncached key whose position, texture or normal lookup is out of range; a cached key re-emits its number and changes nothing else; a new key gets the next number; the invariant is kept and the lists only grow |
| ObjParser.AddVertex | Loaders/OBJ_Parser.cs:78-119 | one token adds exactly one index, leaves the raw `v`, `vt` and `vn` lists alone and keeps the invariant |
| ObjParser.AddVertices | Loaders/OBJ_Parser.cs:65-70 | a run of tokens adds one index per token, and on success every token parsed |
| ObjParser.FanTokens | Loaders/OBJ_Parser.cs:62-70 | a face of n tokens becomes n-2 triangles `(t0, t[i], t[i+1])`, and none for fewer than three tokens |
| ObjParser.ParseLine | Loaders/OBJ_Parser.cs:35-72 | a face line is exactly its fan of `AddVertex` calls; a `v`, `vt` or `vn` line fails exactly when its fields do not parse, and on success adds exactly the value it declares to its own raw list and nothing else; a blank line, a `#` line or a line with any other keyword leaves the state unchanged; the invariant is kept |
| ObjParser.ParseLines | Loaders/OBJ_Parser.cs:33-73 | after the loop the invariant holds, and there is one index per face token of the file |
| ObjParser.ParseLinesAttributes | Loaders/OBJ_Parser.cs:33-59 | after the loop the raw position, texture-coordinate and normal lists are the file's `v`, `vt` and `vn` values in file order |
| ObjParser.ParseObj | Loaders/OBJ_Parser.cs:11-120 | the positions, texture coordinates and normals describe the same number of vertices; every index names one of them; the index list is whole triangles |
| ObjParser.IndicesFollowFirstAppearance | Loaders/OBJ_Parser.cs:86-118 | there is one output vertex per distinct `v/vt/vn` key; the j-th index is the rank of the j-th key among the keys in order of first appearance; two indices agree exactly when their keys do |
| ObjParser.VerticesFromFile | Loaders/OBJ_Parser.cs:78-118 | output vertex i of a parsed file is built from the i-th distinct face key: it carries the position of the `v` line that key names, the texture coordinate of its `vt` line or (0,0) when the key has none or a negative one, and the normal of its `vn` line or (0,0,0) likewise |
| ObjParser.ParseLinesInOrder | Loaders/OBJ_Parser.cs:33-73 | the same first-appearance numbering for the builder after the line loop |
| ObjParser.IgnoredLineHasNoEffect | Loaders/OBJ_Parser.cs:35 | removing a comment or blank line anywhere in a file does not change the result |
| VertexLayout.Attributes | ObjectTypes/RenderableObject.cs:79-97 | the pointers are position at 0 and normal at 1, then a texture coordinate at 2 and a tangent at 3 when present; when a normal map comes with texture coordinates, the attributes tile one record exactly, ending at the stride |
| VertexLayout.NormalMapWithoutUVsMisaligned | ObjectTypes/RenderableObject.cs:57-79 | a normal map without texture coordinates appends 10 floats per vertex, while the stride says 6 and the tangent pointer reads past the record |
| VertexLayout.Interleave | ObjectTypes/RenderableObject.cs:57-71 | the loop fails exactly when some `GetRange` would run past its list, and it yields one record per vertex |
| VertexLayout.InterleaveAt | ObjectTypes/RenderableObject.cs:57-71 | float k of vertex i's record sits at `i * recordSize + k` of the buffer |
| VertexLayout.AttributesReadBack | ObjectTypes/RenderableObject.cs:57-97 | reading the buffer through each attribute pointer (stride and offset) gives back that vertex's position, normal, texture coordinate or tangent component |
| Tangents.FlipV | ObjectTypes/RenderableObject.cs:143-147 | U is kept and every V becomes `1 - V` |
| Tangents.FlipVTwice | ObjectTypes/RenderableObject.cs:143-147 | flipping twice restores the list |
| Tangents.TriangleFrame | ObjectTypes/RenderableObject.cs:165-178 | a triangle is skipped exactly when its UV determinant is smaller in magnitude than `1e-6f` |
| Tangents.AddCorners | ObjectTypes/RenderableObject.cs:180-186 | each vertex gains the frame once for every corner of the triangle it occupies |
| Tangents.AccumulateIsSum | ObjectTypes/RenderableObject.cs:152-187 | a vertex's accumulated tangent is the sum of the contributions of every triangle so far |
| Tangents.AccumulateMeshIsSum | ObjectTypes/RenderableObject.cs:152-187 | after the whole loop, a vertex's tangent is the sum over all triangles of the mesh |
| Tangents.FinishVertex | ObjectTypes/RenderableObject.cs:189-206 | every finished tangent has handedness w = +1: the rebuilt bitangent always lies along `cross(n, t)` |
| Tangents.FinishUpTo | ObjectTypes/RenderableObject.cs:189-207 | the second loop writes four floats per vertex, taken from that vertex's normal and accumulated tangent only |
| Tangents.ComputeTangents | ObjectTypes/RenderableObject.cs:137-208 | fails exactly when a read would fail; the texture coordinates are flipped exactly when `flipV` is set; otherwise it yields one tangent per vertex, finished from the accumulated sum, with w = +1 |
| Renderable.Fresh | ObjectTypes/RenderableObject.cs:11-38 | a new object has the given lists, unit scale, white base colour, specular strength 0.5, no textures (-1) and no GL names |
| Renderable.New | ObjectTypes/RenderableObject.cs:32-44 | buffers are built without flipping exactly when some list is given; the build fails exactly when vertices or indices are missing or a read would run past a list |
| Renderable.InitializeBuffers | ObjectTypes/RenderableObject.cs:46-100 | fails exactly when a list it reads is missing or too short; tangents are computed only with a normal map; with a normal map and the flip set, the object's own texture-coordinate list is flipped; nothing else of the object changes but its GL names |
| Renderable.UploadCommandsDeclare | ObjectTypes/RenderableObject.cs:73-99 | the upload binds the vertex array first and unbinds it last, uploads data then indices, declares exactly the layout's attributes with its stride in bytes, and enables each attribute right after declaring it |
| Renderable.AttribCommandsDeclare | ObjectTypes/RenderableObject.cs:81-97 | reading the pointers back from the commands gives the attribute list they were made from |
| Renderable.UploadMatchesLayout | ObjectTypes/RenderableObject.cs:46-100 | a successful build uploads the interleave of the object's final lists and declares the layout of its final texture coordinates and normal map |
| Renderable.FlipIgnoredWithoutNormalMap | ObjectTypes/RenderableObject.cs:54-55 | without a normal map the flip flag is never read |
| Renderable.RebuildUnflips | ObjectTypes/RenderableObject.cs:54-55 | rebuilding a normal-mapped object with the flip set twice restores its texture coordinates, because the flip works in place |
| Renderable.Dispose | ObjectTypes/RenderableObject.cs:102-119 | exactly the nonzero names are deleted, nothing else is, in the order vertex array, vertex buffer, index buffer, and all three names are reset to 0 |
| Renderable.DisposeTwiceDeletesNothing | ObjectTypes/RenderableObject.cs:102-119 | disposing again deletes nothing and changes nothing |
| Renderable.Render | ObjectTypes/RenderableObject.cs:121-135 | fails exactly for a null index list; otherwise uploads the model matrix to the `uModel` location GL reports and issues one instanced draw of every index with the object's vertex array bound |
| ShaderProgram.NewShader | Loaders/Shader.cs:16 | a new program starts with an empty uniform cache |
| ShaderProgram.GetUniform | Loaders/Shader.cs:89-99 | a cached name returns its stored location without asking GL or warning; an uncached name is asked once, stored, and warned about exactly when GL answers -1; if the cache agrees with GL it still does afterwards, and the answer is GL's |
| ShaderProgram.GetUniformStable | Loaders/Shader.cs:89-99 | after the first lookup, a second lookup of the same name returns the same location, changes nothing and does not warn |
| ShaderProgram.RunLookups | Loaders/Shader.cs:89-99 | after a run of lookups every name is cached, and only names unknown to GL and not cached before are warned about |
| ShaderProgram.WarnedAtMostOnce | Loaders/Shader.cs:95-97 | over any run of lookups, each missing name is warned about at most once |
| ShaderProgram.SetBool | Loaders/Shader.cs:64-70 | throws exactly when GL does not know the name; otherwise it uploads 1 for true and 0 for false at GL's location |
| ShaderProgram.SetInt | Loaders/Shader.cs:71-77 | throws exactly when GL does not know the name; otherwise it uploads the value at GL's location |
| ShaderProgram.SetFloat | Loaders/Shader.cs:79-85 | throws exactly when GL does not know the name; otherwise it uploads the value at GL's location |
| ShaderProgram.SettersBypassCache | Loaders/Shader.cs:64-85 | the setters give the same result whatever the cache holds, even a stale location |
| ShaderProgram.CheckCompile | Loaders/Shader.cs:44-52 | throws exactly when the compile status is 0, with the stage name and the info log in the message |
| ShaderProgram.CheckLink | Loaders/Shader.cs:54-62 | throws exactly when the link status is 0, with the info log in the message |
| ShaderProgram.BuildShader | Loaders/Shader.cs:17-42 | fails exactly when a compile or link status is 0, and a failed vertex stage is reported as a compile error; on success the program has an empty cache and exactly the two stages were attached |
| Camera.NewCamera | Camera.cs:7-24 | the sprint speed is three times the base speed of 7, the sensitivity is 0.2, and the first move is still pending |
| Camera.DefaultCamera | Camera.cs:19 | the default yaw is -90 and the default pitch is 0, inside the pitch limits |
| Camera.Clamp | Camera.cs:72 | the result lies within the bounds and equals the input when the input is already inside |
| Camera.UpdateInput | Camera.cs:33-76 | the speed follows LeftShift; without the grab nothing rotates; the first grabbed frame only records the mouse; later frames add `dx * sensitivity` to yaw and keep pitch inside [-89, 89]; the toggle is remembered |
| Camera.RotatingFrame | Camera.cs:56-72 | a rotating frame subtracts `dy * sensitivity` from pitch, measured from the stored mouse position (or the current one on a toggle frame), then clamps |
| Camera.ToggleFrameDoesNotJump | Camera.cs:56 | on the frame the grab toggle changes, the mouse delta is zero, so yaw stays put and pitch is only clamped |
| Camera.YawUnbounded | Camera.cs:69 | yaw is never clamped: a large enough mouse move takes it past any bound |
| Camera.PitchStaysInRange | Camera.cs:57-75 | over any sequence of frames, pitch stays in [-89, 89] once it starts there |
| LightObject.DirectionsAreSignedAxes | ObjectTypes/LightObject.cs:78-85 | the face directions are +X, -X, +Y, -Y, +Z, -Z in cube-map face order |
| LightObject.UpsOrthonormal | ObjectTypes/LightObject.cs:78-94 | every up vector is a signed unit axis orthogonal to its face's direction, so `LookAt` is never degenerate |
| LightObject.NewLight | ObjectTypes/LightObject.cs:13-27 | a new light sits at the origin, active, white at intensity 1, with a 2048 shadow map, no GL resources (-1) and zero views |
| LightObject.FaceViews | ObjectTypes/LightObject.cs:96-97 | each of the six views looks from the light's position one unit along its face direction, with its face's up vector |
| LightObject.UpdateViewMatrices | ObjectTypes/LightObject.cs:59-98 | view i looks from the light's position one unit along face direction i with up vector i; every other field of the light is unchanged |
| LightObject.UpdateViewMatricesIdempotent | ObjectTypes/LightObject.cs:59-98 | refreshing the views twice is the same as refreshing them once |
| LightObject.ViewsDependOnPositionOnly | ObjectTypes/LightObject.cs:59-98 | two lights at the same position get the same views |
| LightObject.AllocateFaces | ObjectTypes/LightObject.cs:36-38 | one depth face is allocated per cube face, in order, at the light's resolution |
| LightObject.InitShadowResources | ObjectTypes/LightObject.cs:30-57 | binds the cube map, allocates six depth faces at the light's resolution, attaches the cube map to the framebuffer and unbinds it; sets a 90 degree, aspect 1, 0.1 to 1000 projection and the views for the current position |
| MainWindow.TablesMatchLightObject | MainWindow.cs:40-56 | the window's direction and up tables equal the light's tables |
| MainWindow.ShadowViews | MainWindow.cs:333-334 | the window computes six shadow views, exactly the views a `LightObject` at the same position computes |
| MainWindow.ShadowMapLargerThanLightDefault | MainWindow.cs:28 | the window's shadow map is twice a `LightObject`'s default resolution |
| SceneMeshes.CubeWellFormed | MainWindow.cs:81-211 | the cube has 24 vertices, each with a position, a normal and a texture coordinate, and 12 triangles whose indices are all below 24 |
| SceneMeshes.CubeWinding | MainWindow.cs:81-172 | every cube triangle winds counter-clockwise seen from outside, along its face normal |
| SceneMeshes.CubeIndicesAlternate | MainWindow.cs:159-172 | face f is split into the triangles (4f, 4f+1, 4f+2) and (4f+2, 4f+3, 4f) |
| SceneMeshes.CubeTexCoordsOnSquare | MainWindow.cs:174-211 | every cube vertex sits on a corner of the unit texture square, flipped or not |
| SceneMeshes.CubeUVsNondegenerate | MainWindow.cs:159-211 | no cube triangle is skipped by the tangent computation, flipped or not |
| SceneMeshes.PlaneWellFormed | MainWindow.cs:215-244 | the plane has 4 vertices and 2 triangles whose indices are all below 4 |
| SceneMeshes.PlaneWinding | MainWindow.cs:215-237 | both plane triangles wind counter-clockwise seen from +Y, the direction of their normals |
| SceneMeshes.PlaneUVsNondegenerate | MainWindow.cs:233-244 | no plane triangle is skipped by the tangent computation |
| FrameRender.DefaultSettings | MainWindow.cs:34-38 | the normals view is off and every map and the shadows are on |
| FrameRender.UnitsDistinct | MainWindow.cs:444-481 | the shadow cube map and the three material channels use four different texture units |
| FrameRender.ChannelCommands | MainWindow.cs:457-484 | the channel's use flag is 1 exactly when the object has a texture for it and the channel is enabled; with a texture it is bound on the channel's unit and the sampler points there |
| FrameRender.ShadowHeader | MainWindow.cs:416-427 | the shadow header is eight commands, with no draws, and uploads the light's projection, position and six views to GL's locations |
| FrameRender.BaseHeaderCommands | MainWindow.cs:438-453 | the `normalView` and `useShadows` uniforms carry the two toggles |
| FrameRender.ForEachObjectFails | MainWindow.cs:429-432 | an object loop fails exactly when some object has a null index list |
| FrameRender.ShadowPassLog | MainWindow.cs:414-435 | the shadow pass draws each object once, with six instances, ends with the window's framebuffer bound, and counts its draws |
| FrameRender.BasePassLog | MainWindow.cs:437-487 | the base pass draws each object once, with one instance, and counts its draws |
| FrameRender.PassesFail | MainWindow.cs:429-487 | each pass fails exactly when some object has a null index list |
| FrameRender.RenderFrameFails | MainWindow.cs:405-507 | a frame fails exactly when some object has a null index list |
| FrameRender.RenderFrameCounts | MainWindow.cs:408-486 | `_drawCalls` ends at two per object and equals the draws issued; the frame starts by clearing the window and changes nothing of it but the two shaders' caches, which stay in agreement with GL |
| FrameRender.ShadowHeaderSetup | MainWindow.cs:416-427 | after the shadow header the shadow framebuffer, a 4096-square viewport and the shadow program are current |
| FrameRender.ShadowPassSetups | MainWindow.cs:414-435 | every shadow draw goes into the shadow framebuffer with the shadow program |
| FrameRender.BasePassSetups | MainWindow.cs:437-487 | every base draw goes into the window with the base program and the cube map on the shadow unit |
| FrameRender.RenderFrameSetups | MainWindow.cs:405-487 | the first draw of each object goes into the shadow cube map and the second into the window, with the freshly rendered cube map on the shadow unit |
| FrameRender.BaseStepSameMaps | MainWindow.cs:455-487 | the per-object material reads only the three map toggles |
| FrameRender.ShadowPassIgnoresSettings | MainWindow.cs:414-435 | the shadow pass does not read the settings at all |
| FrameRender.BasePassFlags | MainWindow.cs:437-487 | with the map toggles kept, the base pass differs only in the `normalView` and `useShadows` uniforms |
| FrameRender.RenderFrameFlags | MainWindow.cs:405-487 | with the map toggles kept, a frame fails alike, draws as much, runs the whole shadow pass either way, and its log differs only in those two uniforms |
| FrameRender.DrawObjectTextures | MainWindow.cs:457-485 | an object's draw samples its own texture on each channel it has one for, and the texture left by an earlier object on the others |
| FrameRender.BasePassTextures | MainWindow.cs:455-487 | the k-th base draw samples the k-th object's textures |
| FrameRender.RenderFrameTextures | MainWindow.cs:405-487 | within a frame, the base draw of each object samples that object's own textures |
| SceneLoad.BuildCube | MainWindow.cs:248-274 | a cube region always builds from the literal lists, and the object uploads the V-flipped texture coordinates it was handed, with the normal map and the rebuilt GL names |
| SceneLoad.LoadCubesShared | MainWindow.cs:248-274 | as written, each later cube uploads the flip of what the cube before it uploaded |
| SceneLoad.SharedListAlternates | MainWindow.cs:248-274 | as written, the first and third cubes upload the flipped list and the second uploads the original |
| SceneLoad.SharedCubesDisagree | MainWindow.cs:174-274 | with the literal list, the V coordinate of the first corner (texture coordinate index 1) is 1 for the first cube and 0 for the second |
| SceneLoad.LoadCubesCopied | MainWindow.cs:248-274 | with a copy per cube, all three cubes upload the same V-flipped coordinates |
| SceneLoad.CopiesFixSecondCube | MainWindow.cs:248-274 | copying changes only the second cube; it then agrees with the first, and it differs from the as-written cube exactly when flipping changes the list |

## Left out

- Numerics: floats are exact reals. Trigonometry and the numbers inside `LookAt`, `CreatePerspectiveFieldOfView` and the model transform are left out, because these matrices are symbolic terms. Single-precision rounding is not modelled; `1e-6f` is its exact single-precision value.
- `Tangents.FinishVertex`: normalization is `v * s(v)`, where `s` is a caller-supplied non-negative inverse length; square roots are not modelled.
- File I/O: `File.ReadLines`, `File.ReadAllText` and `Image.loadTexture` are left out. Lines, shader sources and texture names are inputs. Loaders/Image.cs is not part of this model.
- `float.Parse` is a caller-supplied parser (`string -> Option<real>`), because the model has no floating-point text format.
- `Strings.StartsWithHash`: `StartsWith("#")` is compared ordinally, not culture-sensitively.
- Exceptions are error values (`ObjError`, `BufferError`, `ShaderError`, `TangentError`); their .NET types and messages are kept only where the source builds them (shader compile and link errors).
- `Camera.UpdateInput`: the WASD/Space/Control position update and `GetFront`/`GetViewMatrix` are left out, because they need trigonometry. The base pass takes the view matrix as an input.
- `OnUpdateFrame`'s light orbit and box rotation use `sin`/`cos` and are left out. The light position is an input of the frame.
- ImGui (`ImGUI_Render`, the controller), the FPS and frame statistics, `OnMouseWheel`, `OnTextInput`, `OnResize`, `SwapBuffers` and Program.cs are left out as UI and windowing glue.
- GL calls that change no state the model observes are not logged: `TexParameter`, `TextureParameter`, `DrawBuffer`, `ReadBuffer`, `Enable` and `LineWidth`.
- `LightObject` is modelled, but `MainWindow` never instantiates it. The window keeps its own copies of the tables and a 4096 shadow map (`MainWindow.TablesMatchLightObject`, `MainWindow.ShadowMapLargerThanLightDefault`).
- `specularStrength` is never uploaded: `material.specular` is the constant 0.3. The model keeps the field and logs the constant.
- The `geometryPath` of `Shader` is never read, so `ShaderProgram.BuildShader` has no such input.
- `Shader.Use` is the `UseProgram` command of the frame log.
- `FrameRender.RenderFrameFlags`: the shadow pass runs even when `useShadows` is off. Only the uniform changes, as the code does.
- `FrameRender.DrawObjectTextures`: on channels without a texture, an object samples whatever an earlier object left bound. The model states this; it does not assume an unbinding the code does not perform.
- `Int32.Parse`: the signs are fixed as `'-'` and `'+'`. The source calls `int.Parse` without `CultureInfo.InvariantCulture`, so .NET uses the current culture's `NegativeSign` and `PositiveSign`; the model is the invariant-culture reading. .NET also accepts trailing `'\0'` characters after the number, which the model rejects as a format error.
- `ObjParser.IndicesFollowFirstAppearance` is stated through `NumberedInOrder` over the keys of all face tokens; uint indices are unbounded naturals (a mesh with 2^32 vertices is not modelled).
- The renderer has one light (`MainWindow` never instantiates `LightObject`), and it has no MSAA, SSAO or resize handling, so the model has none either.
- `SceneLoad.BuildCube` models only the three textured cubes. The floor and ceiling (built with `InitializeBuffers(false)`) and the OBJ text mesh share no list with another object.

## Findings

| source | as written | input that shows it | evidently intended | confidence | as-written member | corrected member |
|---|---|---|---|---|---|---|
| MainWindow.cs:248-274 with ObjectTypes/RenderableObject.cs:143-147 | the three textured cubes are constructed with the same `cubeTexCoords` list object, and each `InitializeBuffers(true)` with a normal map flips V in that list in place | the literal cube texture coordinates: at the first corner of the first face (list index 1), "Box With Frame" uploads V = 1 and "Box With Frame 2" uploads V = 0, so the second cube samples its normal map unflipped | each cube flips its own copy, so all three upload the same V-flipped coordinates | not executed | SceneLoad.LoadCubesShared (shown by SceneLoad.SharedCubesDisagree) | SceneLoad.LoadCubesCopied (proved by SceneLoad.CopiesFixSecondCube) |
