/** `OBJ_Parser.ParseOBJFile`: reads Wavefront OBJ `v`, `vt`, `vn` and `f`
    lines, fan-triangulates faces, and gives every distinct `(v, vt, vn)`
    triple one output vertex, numbered in order of first appearance.

    The file is taken as its sequence of lines; `float.Parse` is supplied by
    the caller as `parseFloat`. */
module ObjParser {
  import opened Results
  import opened Vectors
  import Strings
  import Int32
  import opened FirstAppearance

  /** The zero-based `(v, vt, vn)` triple a face token names; -1 marks an
      absent texture coordinate or normal. */
  datatype VertexKey = VertexKey(v: int, vt: int, vn: int)

  /** The exceptions `ParseOBJFile` can throw. */
  datatype ObjError =
    | IndexOutOfRange  // a missing field, or a reference past the data read so far
    | FormatError      // a number that does not parse
    | OverflowError    // an index that does not fit in 32 bits

  /** The parser's state: the raw `v`/`vt`/`vn` lists read so far, the four
      output lists and the de-duplication cache. */
  datatype Builder = Builder(
    positions: seq<Vec3>, texCoords: seq<Vec2>, normals: seq<Vec3>,
    vertices: seq<real>, uvs: seq<real>, norms: seq<real>, indices: seq<nat>,
    cache: map<VertexKey, nat>)

  const Start: Builder := Builder([], [], [], [], [], [], [], map[])

  /** The tuple `ParseOBJFile` returns. */
  datatype ObjMesh = ObjMesh(vertices: seq<real>, indices: seq<nat>, texCoords: seq<real>, normals: seq<real>)

  type FloatParser = string -> Option<real>

  // ---------------------------------------------------------------------
  // Face tokens

  function FromParseError(e: Int32.ParseError): ObjError {
    if e.FormatError? then FormatError else OverflowError
  }

  /** `int.Parse(s) - 1` in unchecked 32-bit arithmetic. */
  function ParseComponent(s: string): (r: Result<int, ObjError>)
    ensures r.Ok? ==> Int32.InRange(r.value)
  {
    match Int32.Parse(s)
    case Ok(n) => Ok(Int32.Wrap(n - 1))
    case Err(e) => Err(FromParseError(e))
  }

  /** The texture-coordinate and normal components: absent or empty reads as -1. */
  function OptionalComponent(comps: seq<string>, k: nat): Result<int, ObjError> {
    if |comps| > k && comps[k] != "" then ParseComponent(comps[k]) else Ok(-1)
  }

  /** The key of one face token `v/vt/vn`. */
  function ParseKey(token: string): Result<VertexKey, ObjError> {
    var comps := Strings.Split(token, '/');
    var v :- ParseComponent(comps[0]);
    var vt :- OptionalComponent(comps, 1);
    var vn :- OptionalComponent(comps, 2);
    Ok(VertexKey(v, vt, vn))
  }

  /** A decimal component `a` reads as `a - 1`. */
  lemma ParseComponentDecimal(a: nat)
    requires a <= Int32.MaxValue
    ensures ParseComponent(Int32.Decimal(a)) == Ok(a - 1)
  {
    Int32.ParseDecimal(a);
  }

  /** A negative component `-a` reads as `-a - 1`. */
  lemma ParseComponentNegative(a: nat)
    requires a < -Int32.MinValue
    ensures ParseComponent("-" + Int32.Decimal(a)) == Ok(-(a as int) - 1)
  {
    Int32.ParseNegativeDecimal(a);
  }

  /** A token reads as the components its `/`-separated pieces read as. */
  lemma ParseKeyOfComponents(token: string, comps: seq<string>)
    requires Strings.Split(token, '/') == comps
    requires ParseComponent(comps[0]).Ok?
    requires OptionalComponent(comps, 1).Ok? && OptionalComponent(comps, 2).Ok?
    ensures ParseKey(token) == Ok(VertexKey(ParseComponent(comps[0]).value,
      OptionalComponent(comps, 1).value, OptionalComponent(comps, 2).value))
  {
  }

  /** Three separator-free components joined by `/` split back apart. */
  lemma ThreeComponents(p: string, q: string, r: string)
    requires '/' !in p && '/' !in q && '/' !in r
    ensures Strings.Split(Strings.Join([p, q, r], '/'), '/') == [p, q, r]
  {
    Strings.SplitJoin([p, q, r], '/');
  }

  /** A token of three nonempty separator-free components reads as what
      each component reads as. */
  lemma ParseKeyOfThree(p: string, q: string, r: string)
    requires '/' !in p && '/' !in q && '/' !in r && q != "" && r != ""
    requires ParseComponent(p).Ok? && ParseComponent(q).Ok? && ParseComponent(r).Ok?
    ensures ParseKey(Strings.Join([p, q, r], '/'))
         == Ok(VertexKey(ParseComponent(p).value, ParseComponent(q).value, ParseComponent(r).value))
  {
    ThreeComponents(p, q, r);
    ParseKeyOfComponents(Strings.Join([p, q, r], '/'), [p, q, r]);
  }

  /** `a/b/c` reads as `(a-1, b-1, c-1)`. */
  lemma ParseKeyFull(a: nat, b: nat, c: nat)
    requires a <= Int32.MaxValue && b <= Int32.MaxValue && c <= Int32.MaxValue
    ensures ParseKey(Strings.Join([Int32.Decimal(a), Int32.Decimal(b), Int32.Decimal(c)], '/'))
         == Ok(VertexKey(a - 1, b - 1, c - 1))
  {
    var p, q, r := Int32.Decimal(a), Int32.Decimal(b), Int32.Decimal(c);
    Int32.DigitsExclude(p, '/');
    Int32.DigitsExclude(q, '/');
    Int32.DigitsExclude(r, '/');
    ParseComponentDecimal(a);
    ParseComponentDecimal(b);
    ParseComponentDecimal(c);
    ParseKeyOfThree(p, q, r);
  }

  /** `a//c` reads as `(a-1, -1, c-1)`: the empty middle component is absent. */
  lemma ParseKeyWithoutTexCoord(a: nat, c: nat)
    requires a <= Int32.MaxValue && c <= Int32.MaxValue
    ensures ParseKey(Strings.Join([Int32.Decimal(a), "", Int32.Decimal(c)], '/'))
         == Ok(VertexKey(a - 1, -1, c - 1))
  {
    var p, r := Int32.Decimal(a), Int32.Decimal(c);
    Int32.DigitsExclude(p, '/');
    Int32.DigitsExclude(r, '/');
    ThreeComponents(p, "", r);
    ParseComponentDecimal(a);
    ParseComponentDecimal(c);
    ParseKeyOfComponents(Strings.Join([p, "", r], '/'), [p, "", r]);
  }

  /** A bare `a` reads as `(a-1, -1, -1)`. */
  lemma ParseKeyPositionOnly(a: nat)
    requires a <= Int32.MaxValue
    ensures ParseKey(Int32.Decimal(a)) == Ok(VertexKey(a - 1, -1, -1))
  {
    Strings.SplitNoSeparator(Int32.Decimal(a), '/');
    ParseComponentDecimal(a);
  }

  /** A relative (negative) texture index such as `1/-1/1` reads as a
      negative component, which `AddVertex` treats as an absent texture
      coordinate. */
  lemma ParseKeyNegativeTexCoord(a: nat, b: nat, c: nat)
    requires a <= Int32.MaxValue && b < -Int32.MinValue && c <= Int32.MaxValue
    ensures ParseKey(Strings.Join([Int32.Decimal(a), "-" + Int32.Decimal(b), Int32.Decimal(c)], '/'))
         == Ok(VertexKey(a - 1, -(b as int) - 1, c - 1))
  {
    var p, q, r := Int32.Decimal(a), "-" + Int32.Decimal(b), Int32.Decimal(c);
    Int32.DigitsExclude(p, '/');
    Int32.DigitsExclude(Int32.Decimal(b), '/');
    Int32.DigitsExclude(r, '/');
    assert '/' !in q by {
      assert forall i :: 0 < i < |q| ==> q[i] == Int32.Decimal(b)[i - 1];
    }
    ParseComponentDecimal(a);
    ParseComponentNegative(b);
    ParseComponentDecimal(c);
    ParseKeyOfThree(p, q, r);
  }

  // ---------------------------------------------------------------------
  // The vertex cache

  /** The number of output vertices: one position (three floats) each. */
  function Count(b: Builder): nat {
    |b.vertices| / 3
  }

  /** The lookups `AddVertex` performs on a cache miss all succeed. */
  predicate Resolvable(b: Builder, key: VertexKey) {
    0 <= key.v < |b.positions| && key.vt < |b.texCoords| && key.vn < |b.normals|
  }

  /** The texture coordinate `vt` names in `texCoords`: (0,0) when absent (negative). */
  function UVAt(texCoords: seq<Vec2>, vt: int): Vec2
    requires vt < |texCoords|
  {
    if vt >= 0 then texCoords[vt] else Vec2(0.0, 0.0)
  }

  /** The normal `vn` names in `normals`: (0,0,0) when absent (negative). */
  function NormalAt(normals: seq<Vec3>, vn: int): Vec3
    requires vn < |normals|
  {
    if vn >= 0 then normals[vn] else Zero3
  }

  function ResolvedUV(b: Builder, key: VertexKey): Vec2
    requires key.vt < |b.texCoords|
  {
    UVAt(b.texCoords, key.vt)
  }

  function ResolvedNormal(b: Builder, key: VertexKey): Vec3
    requires key.vn < |b.normals|
  {
    NormalAt(b.normals, key.vn)
  }

  /** Output vertex `i` carries exactly the attributes `key` refers to, with
      (0,0) for an absent texture coordinate and (0,0,0) for an absent normal. */
  predicate Holds(b: Builder, i: nat, key: VertexKey)
    requires 3 * i + 3 <= |b.vertices| && 2 * i + 2 <= |b.uvs| && 3 * i + 3 <= |b.norms|
    requires Resolvable(b, key)
  {
    var p := b.positions[key.v];
    var t := ResolvedUV(b, key);
    var n := ResolvedNormal(b, key);
    && b.vertices[3 * i] == p.x && b.vertices[3 * i + 1] == p.y && b.vertices[3 * i + 2] == p.z
    && b.uvs[2 * i] == t.x && b.uvs[2 * i + 1] == t.y
    && b.norms[3 * i] == n.x && b.norms[3 * i + 1] == n.y && b.norms[3 * i + 2] == n.z
  }

  /** The invariant of the parser state: the output lists advance in lockstep,
      every emitted index names an output vertex, and every cached key names
      the output vertex built from it. */
  ghost predicate Valid(b: Builder) {
    && |b.vertices| == 3 * Count(b)
    && |b.uvs| == 2 * Count(b)
    && |b.norms| == 3 * Count(b)
    && (forall j :: 0 <= j < |b.indices| ==> b.indices[j] < Count(b))
    && (forall key :: key in b.cache ==>
          b.cache[key] < Count(b) && Resolvable(b, key) && Holds(b, b.cache[key], key))
  }

  /** Face tokens leave the `v`, `vt` and `vn` lists read so far alone. */
  predicate SameAttributes(b1: Builder, b2: Builder) {
    b1.positions == b2.positions && b1.texCoords == b2.texCoords && b1.normals == b2.normals
  }

  /** `b2` continues `b1`: every list only grew at its end. */
  ghost predicate Extends(b1: Builder, b2: Builder) {
    && b1.positions <= b2.positions && b1.texCoords <= b2.texCoords && b1.normals <= b2.normals
    && b1.vertices <= b2.vertices && b1.uvs <= b2.uvs && b1.norms <= b2.norms
    && b1.indices <= b2.indices
  }

  lemma StartValid()
    ensures Valid(Start)
  {
  }

  /** The cache-miss branch of `AddVertex`: append the referenced position,
      texture coordinate and normal, and number the key with
      `verticesOut.Count / 3 - 1`. */
  function AppendVertex(b: Builder, key: VertexKey): Builder
    requires Resolvable(b, key)
  {
    var p := b.positions[key.v];
    var uv := ResolvedUV(b, key);
    var n := ResolvedNormal(b, key);
    var vertices := b.vertices + [p.x, p.y, p.z];
    var index := |vertices| / 3 - 1;
    b.(vertices := vertices,
       uvs := b.uvs + [uv.x, uv.y],
       norms := b.norms + [n.x, n.y, n.z],
       indices := b.indices + [index],
       cache := b.cache[key := index])
  }

  /** An output vertex keeps its attributes when the lists only grow. */
  lemma HoldsKept(b: Builder, r: Builder, i: nat, key: VertexKey)
    requires 3 * i + 3 <= |b.vertices| && 2 * i + 2 <= |b.uvs| && 3 * i + 3 <= |b.norms| && Resolvable(b, key)
    requires r.positions == b.positions && r.texCoords == b.texCoords && r.normals == b.normals
    requires b.vertices <= r.vertices && b.uvs <= r.uvs && b.norms <= r.norms
    requires Holds(b, i, key)
    ensures Holds(r, i, key)
  {
    assert r.vertices[3 * i] == b.vertices[3 * i] && r.vertices[3 * i + 1] == b.vertices[3 * i + 1];
    assert r.vertices[3 * i + 2] == b.vertices[3 * i + 2];
    assert r.uvs[2 * i] == b.uvs[2 * i] && r.uvs[2 * i + 1] == b.uvs[2 * i + 1];
    assert r.norms[3 * i] == b.norms[3 * i] && r.norms[3 * i + 1] == b.norms[3 * i + 1];
    assert r.norms[3 * i + 2] == b.norms[3 * i + 2];
  }

  /** The appended output vertex carries the key's attributes, and
      everything else only grew at its end. */
  lemma AppendVertexHolds(b: Builder, key: VertexKey)
    requires Valid(b) && Resolvable(b, key)
    ensures var r := AppendVertex(b, key);
      && |r.vertices| == 3 * Count(b) + 3 && |r.uvs| == 2 * Count(b) + 2 && |r.norms| == 3 * Count(b) + 3
      && r.positions == b.positions && r.texCoords == b.texCoords && r.normals == b.normals
      && b.vertices <= r.vertices && b.uvs <= r.uvs && b.norms <= r.norms
      && r.indices == b.indices + [Count(b)] && r.cache == b.cache[key := Count(b)]
      && Holds(r, Count(b), key)
  {
    var n := Count(b);
    var r := AppendVertex(b, key);
    assert |r.vertices| == 3 * n + 3;
    assert |r.vertices| / 3 - 1 == n;
  }

  /** Appending one output vertex for a new key, numbered `Count(b)`, keeps
      the state valid. */
  lemma ValidAfterAppend(b: Builder, r: Builder, key: VertexKey)
    requires Valid(b) && Resolvable(b, key)
    requires |r.vertices| == 3 * Count(b) + 3 && |r.uvs| == 2 * Count(b) + 2 && |r.norms| == 3 * Count(b) + 3
    requires r.positions == b.positions && r.texCoords == b.texCoords && r.normals == b.normals
    requires b.vertices <= r.vertices && b.uvs <= r.uvs && b.norms <= r.norms
    requires r.indices == b.indices + [Count(b)] && r.cache == b.cache[key := Count(b)]
    requires Holds(r, Count(b), key)
    ensures Valid(r) && Count(r) == Count(b) + 1
  {
    assert Count(r) == Count(b) + 1;
    forall j | 0 <= j < |r.indices|
      ensures r.indices[j] < Count(r)
    {
      if j < |b.indices| {
        assert r.indices[j] == b.indices[j];
      }
    }
    forall k | k in r.cache
      ensures r.cache[k] < Count(r) && Resolvable(r, k) && Holds(r, r.cache[k], k)
    {
      if k != key {
        HoldsKept(b, r, b.cache[k], k);
      }
    }
  }

  /** A new key gets the next free index, and the state stays valid. */
  lemma AppendVertexValid(b: Builder, key: VertexKey)
    requires Valid(b) && key !in b.cache && Resolvable(b, key)
    ensures var r := AppendVertex(b, key);
      && Valid(r) && Extends(b, r)
      && Count(r) == Count(b) + 1
      && r.cache == b.cache[key := Count(b)]
      && r.indices == b.indices + [Count(b)]
      && Holds(r, Count(b), key)
  {
    var r := AppendVertex(b, key);
    AppendVertexHolds(b, key);
    ValidAfterAppend(b, r, key);
  }

  /** The local `AddVertex` once its token is parsed: a cached key re-emits its
      index and appends nothing else; a new key appends one output vertex and
      is numbered with the next free index. */
  function AddKey(b: Builder, key: VertexKey): (r: Result<Builder, ObjError>)
    requires Valid(b)
    ensures r.Err? <==> key !in b.cache && !Resolvable(b, key)
    ensures r.Ok? ==> Valid(r.value) && Extends(b, r.value)
    ensures r.Ok? ==> |r.value.indices| == |b.indices| + 1 && key in r.value.cache
    ensures r.Ok? ==> SameAttributes(b, r.value)
    ensures r.Ok? ==> r.value.indices[|b.indices|] == r.value.cache[key]
    ensures r.Ok? ==> Holds(r.value, r.value.cache[key], key)
    ensures key in b.cache ==> r == Ok(b.(indices := b.indices + [b.cache[key]]))
    ensures key !in b.cache && r.Ok? ==>
      && r.value.cache == b.cache[key := Count(b)]
      && Count(r.value) == Count(b) + 1
  {
    if key in b.cache then
      Ok(b.(indices := b.indices + [b.cache[key]]))
    else if !Resolvable(b, key) then
      Err(IndexOutOfRange)
    else
      AppendVertexValid(b, key);
      Ok(AppendVertex(b, key))
  }

  /** The local `AddVertex(token)`. */
  function AddVertex(b: Builder, token: string): (r: Result<Builder, ObjError>)
    requires Valid(b)
    ensures r.Ok? ==> Valid(r.value) && Extends(b, r.value) && |r.value.indices| == |b.indices| + 1
    ensures r.Ok? ==> SameAttributes(b, r.value)
  {
    var key :- ParseKey(token);
    AddKey(b, key)
  }

  /** `AddVertex` on each token in turn; the first failure aborts. */
  function AddVertices(b: Builder, tokens: seq<string>): (r: Result<Builder, ObjError>)
    requires Valid(b)
    ensures r.Ok? ==> Valid(r.value) && Extends(b, r.value) && |r.value.indices| == |b.indices| + |tokens|
    ensures r.Ok? ==> forall i :: 0 <= i < |tokens| ==> ParseKey(tokens[i]).Ok?
    decreases |tokens|
  {
    if |tokens| == 0 then Ok(b)
    else
      var b' :- AddVertex(b, tokens[0]);
      AddVertices(b', tokens[1..])
  }

  /** Face tokens only read the `v`, `vt` and `vn` lists. */
  lemma {:induction false} AddVerticesSameAttributes(b: Builder, tokens: seq<string>)
    requires Valid(b) && AddVertices(b, tokens).Ok?
    ensures SameAttributes(b, AddVertices(b, tokens).value)
    decreases |tokens|
  {
    if |tokens| > 0 {
      var b' := AddVertex(b, tokens[0]).value;
      AddVerticesSameAttributes(b', tokens[1..]);
    }
  }

  // ---------------------------------------------------------------------
  // Lines

  /** The fan loop `for (i = start; i < n - 1; ++i)` emitting `t0, t[i], t[i+1]`. */
  function FanFrom(ts: seq<string>, start: nat): (r: seq<string>)
    requires start >= 1
    ensures |r| == 3 * (if start < |ts| - 1 then |ts| - 1 - start else 0)
    decreases |ts| - start
  {
    if start < |ts| - 1 then [ts[0], ts[start], ts[start + 1]] + FanFrom(ts, start + 1) else []
  }

  /** Triangle k of the fan from `start` is (t0, t[start+k], t[start+k+1]). */
  lemma {:induction false} FanFromTriangles(ts: seq<string>, start: nat, k: nat)
    requires start >= 1 && k < |FanFrom(ts, start)| / 3
    ensures var r := FanFrom(ts, start);
      r[3 * k] == ts[0] && r[3 * k + 1] == ts[start + k] && r[3 * k + 2] == ts[start + k + 1]
    decreases k
  {
    if k > 0 {
      var rest := FanFrom(ts, start + 1);
      assert FanFrom(ts, start) == [ts[0], ts[start], ts[start + 1]] + rest;
      FanFromTriangles(ts, start + 1, k - 1);
      assert 3 * k == 3 * (k - 1) + 3;
    }
  }

  /** A face of n tokens becomes the n-2 triangles (t0, t[i], t[i+1]). */
  function FanTokens(ts: seq<string>): (r: seq<string>)
    ensures |r| == 3 * (if |ts| >= 2 then |ts| - 2 else 0)
    ensures forall k :: 0 <= k < |r| / 3 ==>
      r[3 * k] == ts[0] && r[3 * k + 1] == ts[k + 1] && r[3 * k + 2] == ts[k + 2]
  {
    var r := FanFrom(ts, 1);
    forall k | 0 <= k < |r| / 3
      ensures r[3 * k] == ts[0] && r[3 * k + 1] == ts[k + 1] && r[3 * k + 2] == ts[k + 2]
    {
      FanFromTriangles(ts, 1, k);
    }
    r
  }

  /** Comment lines and blank lines are skipped before anything else. */
  predicate Ignored(line: string) {
    Strings.StartsWithHash(line) || Strings.IsNullOrWhiteSpace(line)
  }

  /** `parts[0]` of a line that is not skipped. */
  function Keyword(line: string): (k: string)
    requires !Ignored(line)
    ensures |Strings.Tokens(line)| >= 1 && k == Strings.Tokens(line)[0]
  {
    Strings.NonBlankHasToken(line);
    Strings.Tokens(line)[0]
  }

  /** `float.Parse(parts[k])`. */
  function Field(parts: seq<string>, k: nat, parseFloat: FloatParser): Result<real, ObjError> {
    if k >= |parts| then Err(IndexOutOfRange)
    else match parseFloat(parts[k])
      case Some(x) => Ok(x)
      case None => Err(FormatError)
  }

  /** The tokens a line passes to `AddVertex`: a face line's fan, nothing otherwise. */
  function FaceTokens(line: string): (r: seq<string>)
    ensures |r| % 3 == 0
  {
    if Ignored(line) || Keyword(line) != "f" then [] else FanTokens(Strings.Tokens(line)[1..])
  }

  /** Three float fields `parts[1..3]`, as a `v` or `vn` line reads them. */
  function Field3(parts: seq<string>, parseFloat: FloatParser): Result<Vec3, ObjError> {
    var x :- Field(parts, 1, parseFloat);
    var y :- Field(parts, 2, parseFloat);
    var z :- Field(parts, 3, parseFloat);
    Ok(Vec3(x, y, z))
  }

  /** Two float fields `parts[1..2]`, as a `vt` line reads them. */
  function Field2(parts: seq<string>, parseFloat: FloatParser): Result<Vec2, ObjError> {
    var u :- Field(parts, 1, parseFloat);
    var v :- Field(parts, 2, parseFloat);
    Ok(Vec2(u, v))
  }

  /** The position a well-formed `v` line declares: one for such a line,
      none for any other. */
  function LinePositions(line: string, parseFloat: FloatParser): (r: seq<Vec3>)
    ensures |r| <= 1
  {
    if Ignored(line) || Keyword(line) != "v" then []
    else match Field3(Strings.Tokens(line), parseFloat)
      case Ok(p) => [p]
      case Err(_) => []
  }

  /** The texture coordinate a well-formed `vt` line declares. */
  function LineTexCoords(line: string, parseFloat: FloatParser): (r: seq<Vec2>)
    ensures |r| <= 1
  {
    if Ignored(line) || Keyword(line) != "vt" then []
    else match Field2(Strings.Tokens(line), parseFloat)
      case Ok(t) => [t]
      case Err(_) => []
  }

  /** The normal a well-formed `vn` line declares. */
  function LineNormals(line: string, parseFloat: FloatParser): (r: seq<Vec3>)
    ensures |r| <= 1
  {
    if Ignored(line) || Keyword(line) != "vn" then []
    else match Field3(Strings.Tokens(line), parseFloat)
      case Ok(n) => [n]
      case Err(_) => []
  }

  /** The positions of a file's `v` lines, in file order: the list that
      `v` indices count into. */
  function FilePositions(lines: seq<string>, parseFloat: FloatParser): seq<Vec3>
    decreases |lines|
  {
    if |lines| == 0 then [] else LinePositions(lines[0], parseFloat) + FilePositions(lines[1..], parseFloat)
  }

  /** The texture coordinates of a file's `vt` lines, in file order. */
  function FileTexCoords(lines: seq<string>, parseFloat: FloatParser): seq<Vec2>
    decreases |lines|
  {
    if |lines| == 0 then [] else LineTexCoords(lines[0], parseFloat) + FileTexCoords(lines[1..], parseFloat)
  }

  /** The normals of a file's `vn` lines, in file order. */
  function FileNormals(lines: seq<string>, parseFloat: FloatParser): seq<Vec3>
    decreases |lines|
  {
    if |lines| == 0 then [] else LineNormals(lines[0], parseFloat) + FileNormals(lines[1..], parseFloat)
  }

  /** The raw lists grew by exactly what `line` declares. */
  predicate AddsLineAttributes(b: Builder, r: Builder, line: string, parseFloat: FloatParser) {
    && r.positions == b.positions + LinePositions(line, parseFloat)
    && r.texCoords == b.texCoords + LineTexCoords(line, parseFloat)
    && r.normals == b.normals + LineNormals(line, parseFloat)
  }

  /** Growing the input attribute lists keeps every cached vertex valid. */
  lemma AttributesGrowValid(b: Builder, r: Builder)
    requires Valid(b)
    requires b.positions <= r.positions && b.texCoords <= r.texCoords && b.normals <= r.normals
    requires r.vertices == b.vertices && r.uvs == b.uvs && r.norms == b.norms
    requires r.indices == b.indices && r.cache == b.cache
    ensures Valid(r) && Extends(b, r)
  {
    forall key | key in r.cache
      ensures Resolvable(r, key) && Holds(r, r.cache[key], key)
    {
      assert Holds(b, b.cache[key], key);
    }
  }

  /** One iteration of the line loop: the `switch` on the first token. */
  function ParseLine(b: Builder, line: string, parseFloat: FloatParser): (r: Result<Builder, ObjError>)
    requires Valid(b)
    ensures r.Ok? ==> Valid(r.value) && Extends(b, r.value)
    ensures r.Ok? ==> |r.value.indices| == |b.indices| + |FaceTokens(line)|
    ensures !Ignored(line) && Keyword(line) == "f" ==> r == AddVertices(b, FaceTokens(line))
    ensures r.Ok? && (Ignored(line) || Keyword(line) != "f") ==>
      && r.value.vertices == b.vertices && r.value.uvs == b.uvs && r.value.norms == b.norms
      && r.value.indices == b.indices && r.value.cache == b.cache
    ensures r.Ok? ==> AddsLineAttributes(b, r.value, line, parseFloat)
    ensures !Ignored(line) && Keyword(line) in {"v", "vn"} ==>
      (r.Ok? <==> Field3(Strings.Tokens(line), parseFloat).Ok?)
    ensures !Ignored(line) && Keyword(line) == "vt" ==>
      (r.Ok? <==> Field2(Strings.Tokens(line), parseFloat).Ok?)
    ensures Ignored(line) || Keyword(line) !in {"v", "vt", "vn", "f"} ==> r == Ok(b)
  {
    if Ignored(line) then Ok(b)
    else
      var parts := Strings.Tokens(line);
      var keyword := Keyword(line);
      if keyword == "v" then
        var p :- Field3(parts, parseFloat);
        var r := b.(positions := b.positions + [p]);
        AttributesGrowValid(b, r);
        Ok(r)
      else if keyword == "vt" then
        var t :- Field2(parts, parseFloat);
        var r := b.(texCoords := b.texCoords + [t]);
        AttributesGrowValid(b, r);
        Ok(r)
      else if keyword == "vn" then
        var n :- Field3(parts, parseFloat);
        var r := b.(normals := b.normals + [n]);
        AttributesGrowValid(b, r);
        Ok(r)
      else if keyword == "f" then
        var tokens := FanTokens(parts[1..]);
        var r := AddVertices(b, tokens);
        if r.Ok? then AddVerticesSameAttributes(b, tokens); r else r
      else
        Ok(b)
  }

  /** All face tokens of a file, in the order they reach `AddVertex`. */
  function TokenStream(lines: seq<string>): seq<string>
    decreases |lines|
  {
    if |lines| == 0 then [] else FaceTokens(lines[0]) + TokenStream(lines[1..])
  }

  lemma ModThreeSum(a: nat, b: nat)
    requires a % 3 == 0 && b % 3 == 0
    ensures (a + b) % 3 == 0
  {
    assert a == 3 * (a / 3) && b == 3 * (b / 3);
    assert a + b == 3 * (a / 3 + b / 3);
  }

  /** The face tokens of a file make whole triangles. */
  lemma {:induction false} TokenStreamTriangles(lines: seq<string>)
    ensures |TokenStream(lines)| % 3 == 0
    decreases |lines|
  {
    if |lines| > 0 {
      TokenStreamTriangles(lines[1..]);
      var n1 := |FaceTokens(lines[0])|;
      var n2 := |TokenStream(lines[1..])|;
      assert |TokenStream(lines)| == n1 + n2;
      ModThreeSum(n1, n2);
    }
  }

  /** The `foreach` over the lines of the file. */
  function ParseLines(b: Builder, lines: seq<string>, parseFloat: FloatParser): (r: Result<Builder, ObjError>)
    requires Valid(b)
    ensures r.Ok? ==> Valid(r.value) && Extends(b, r.value)
    ensures r.Ok? ==> |r.value.indices| == |b.indices| + |TokenStream(lines)|
    decreases |lines|
  {
    if |lines| == 0 then Ok(b)
    else
      var b' :- ParseLine(b, lines[0], parseFloat);
      ParseLines(b', lines[1..], parseFloat)
  }

  /** The raw lists after the line loop are the ones read so far followed
      by the file's own `v`, `vt` and `vn` lines, in file order. */
  lemma {:induction false} ParseLinesAttributes(b: Builder, lines: seq<string>, parseFloat: FloatParser)
    requires Valid(b) && ParseLines(b, lines, parseFloat).Ok?
    ensures var r := ParseLines(b, lines, parseFloat).value;
      && r.positions == b.positions + FilePositions(lines, parseFloat)
      && r.texCoords == b.texCoords + FileTexCoords(lines, parseFloat)
      && r.normals == b.normals + FileNormals(lines, parseFloat)
    decreases |lines|
  {
    if |lines| > 0 {
      var b' := ParseLine(b, lines[0], parseFloat).value;
      assert ParseLines(b, lines, parseFloat) == ParseLines(b', lines[1..], parseFloat);
      ParseLinesAttributes(b', lines[1..], parseFloat);
      Associative(b.positions, LinePositions(lines[0], parseFloat), FilePositions(lines[1..], parseFloat));
      Associative(b.texCoords, LineTexCoords(lines[0], parseFloat), FileTexCoords(lines[1..], parseFloat));
      Associative(b.normals, LineNormals(lines[0], parseFloat), FileNormals(lines[1..], parseFloat));
    } else {
      assert b.positions + [] == b.positions && b.texCoords + [] == b.texCoords && b.normals + [] == b.normals;
    }
  }

  /** `ParseOBJFile`. On success the three attribute lists describe the same
      number of vertices, every index names one of them, and the index list
      is a whole number of triangles. */
  function ParseObj(lines: seq<string>, parseFloat: FloatParser): (r: Result<ObjMesh, ObjError>)
    ensures r.Ok? ==>
      var k := |r.value.vertices| / 3;
      && |r.value.vertices| == 3 * k
      && |r.value.texCoords| == 2 * k
      && |r.value.normals| == 3 * k
      && |r.value.indices| % 3 == 0
      && (forall j :: 0 <= j < |r.value.indices| ==> r.value.indices[j] < k)
  {
    StartValid();
    TokenStreamTriangles(lines);
    var b :- ParseLines(Start, lines, parseFloat);
    Ok(ObjMesh(b.vertices, b.indices, b.uvs, b.norms))
  }

  // ---------------------------------------------------------------------
  // Numbering in order of first appearance

  /** The key a face token names (only consulted for tokens that parse). */
  function KeyOf(token: string): VertexKey {
    match ParseKey(token)
    case Ok(key) => key
    case Err(_) => VertexKey(-1, -1, -1)
  }

  function KeysOf(tokens: seq<string>): (keys: seq<VertexKey>)
    ensures |keys| == |tokens|
    ensures forall i :: 0 <= i < |tokens| ==> keys[i] == KeyOf(tokens[i])
  {
    seq(|tokens|, i requires 0 <= i < |tokens| => KeyOf(tokens[i]))
  }

  lemma KeysOfAppend(s: seq<string>, t: seq<string>)
    ensures KeysOf(s + t) == KeysOf(s) + KeysOf(t)
  {
    assert forall i :: 0 <= i < |t| ==> (s + t)[|s| + i] == t[i];
  }

  lemma Associative<T>(a: seq<T>, b: seq<T>, c: seq<T>)
    ensures a + b + c == a + (b + c)
  {
  }

  lemma KeysOfCons(tokens: seq<string>)
    requires |tokens| > 0
    ensures KeysOf(tokens) == [KeyOf(tokens[0])] + KeysOf(tokens[1..])
  {
    var r := [KeyOf(tokens[0])] + KeysOf(tokens[1..]);
    assert forall i :: 0 < i < |tokens| ==> r[i] == KeyOf(tokens[1..][i - 1]) && tokens[1..][i - 1] == tokens[i];
  }

  /** The builder has numbered `keys` as first appearance would: one output
      vertex per distinct key, each index the position of its key among the
      distinct keys, and the cache holding exactly the keys seen so far. */
  ghost predicate Numbered(b: Builder, keys: seq<VertexKey>) {
    && Count(b) == |Distinct(keys)|
    && IndicesNumbered(b.indices, keys)
    && CacheNumbered(b.cache, keys)
  }

  ghost predicate IndicesNumbered(indices: seq<nat>, keys: seq<VertexKey>) {
    && |indices| == |keys|
    && (forall j :: 0 <= j < |keys| ==> keys[j] in Distinct(keys) && indices[j] == IndexOf(Distinct(keys), keys[j]))
  }

  ghost predicate CacheNumbered(cache: map<VertexKey, nat>, keys: seq<VertexKey>) {
    && (forall key :: key in cache <==> key in keys)
    && (forall key :: key in cache ==> key in Distinct(keys) && cache[key] == IndexOf(Distinct(keys), key))
  }

  lemma StartNumbered()
    ensures Numbered(Start, [])
  {
  }

  /** A key seen before re-emits its number. */
  lemma NumberedHit(b: Builder, keys: seq<VertexKey>, key: VertexKey, r: Builder)
    requires Numbered(b, keys) && key in b.cache
    requires r.indices == b.indices + [b.cache[key]] && r.cache == b.cache && Count(r) == Count(b)
    ensures Numbered(r, keys + [key])
  {
    assert key in keys && b.cache[key] == IndexOf(Distinct(keys), key);
    DistinctSnoc(keys, key);
    HitIndices(b.indices, keys, key);
    HitCache(b.cache, keys, key);
  }

  lemma HitIndices(indices: seq<nat>, keys: seq<VertexKey>, key: VertexKey)
    requires IndicesNumbered(indices, keys) && key in keys
    ensures IndicesNumbered(indices + [IndexOf(Distinct(keys), key)], keys + [key])
  {
    DistinctSnoc(keys, key);
    var keys' := keys + [key];
    assert Distinct(keys') == Distinct(keys);
    var r := indices + [IndexOf(Distinct(keys), key)];
    forall j | 0 <= j < |keys'|
      ensures keys'[j] in Distinct(keys') && r[j] == IndexOf(Distinct(keys'), keys'[j])
    {
      if j < |keys| {
        assert keys'[j] == keys[j] && r[j] == indices[j];
      }
    }
  }

  lemma HitCache(cache: map<VertexKey, nat>, keys: seq<VertexKey>, key: VertexKey)
    requires CacheNumbered(cache, keys) && key in keys
    ensures CacheNumbered(cache, keys + [key])
  {
    DistinctSnoc(keys, key);
    var keys' := keys + [key];
    assert Distinct(keys') == Distinct(keys);
    forall x
      ensures x in cache <==> x in keys'
    {
      assert x in keys' <==> x in keys || x == key;
    }
  }

  /** Numbering a new key leaves the numbers of earlier keys alone. */
  lemma DistinctAppendNew(keys: seq<VertexKey>, key: VertexKey)
    requires key !in keys
    ensures Distinct(keys + [key]) == Distinct(keys) + [key]
    ensures IndexOf(Distinct(keys + [key]), key) == |Distinct(keys)|
    ensures forall x :: x in keys ==> IndexOf(Distinct(keys + [key]), x) == IndexOf(Distinct(keys), x)
  {
    var d := Distinct(keys);
    DistinctSnoc(keys, key);
    IndexOfAppendNew(d, key);
    forall x | x in keys
      ensures IndexOf(d + [key], x) == IndexOf(d, x)
    {
      IndexOfAppend(d, key, x);
    }
  }

  /** A new key is numbered after every key seen before. */
  lemma NumberedMiss(b: Builder, keys: seq<VertexKey>, key: VertexKey, r: Builder)
    requires Numbered(b, keys) && key !in b.cache
    requires r.indices == b.indices + [Count(b)] && r.cache == b.cache[key := Count(b)]
    requires Count(r) == Count(b) + 1
    ensures Numbered(r, keys + [key])
  {
    DistinctAppendNew(keys, key);
    MissIndices(b.indices, keys, key);
    MissCache(b.cache, keys, key);
  }

  lemma MissIndices(indices: seq<nat>, keys: seq<VertexKey>, key: VertexKey)
    requires IndicesNumbered(indices, keys) && key !in keys
    ensures IndicesNumbered(indices + [|Distinct(keys)|], keys + [key])
  {
    DistinctAppendNew(keys, key);
    var keys' := keys + [key];
    var d' := Distinct(keys');
    var r := indices + [|Distinct(keys)|];
    forall j | 0 <= j < |keys'|
      ensures keys'[j] in d' && r[j] == IndexOf(d', keys'[j])
    {
      if j < |keys| {
        assert keys'[j] == keys[j] && r[j] == indices[j];
      }
    }
  }

  lemma MissCache(cache: map<VertexKey, nat>, keys: seq<VertexKey>, key: VertexKey)
    requires CacheNumbered(cache, keys) && key !in keys
    ensures CacheNumbered(cache[key := |Distinct(keys)|], keys + [key])
  {
    MissCacheDomain(cache, keys, key, |Distinct(keys)|);
    MissCacheNumbers(cache, keys, key);
  }

  /** Caching a new key adds exactly that key to the cached ones. */
  lemma MissCacheDomain(cache: map<VertexKey, nat>, keys: seq<VertexKey>, key: VertexKey, n: nat)
    requires forall x :: x in cache <==> x in keys
    ensures forall x :: x in cache[key := n] <==> x in keys + [key]
  {
    forall x
      ensures x in cache[key := n] <==> x in keys + [key]
    {
      assert x in keys + [key] <==> x in keys || x == key;
    }
  }

  /** Caching a new key under the next number keeps every cached number
      the key's position among the distinct keys. */
  lemma MissCacheNumbers(cache: map<VertexKey, nat>, keys: seq<VertexKey>, key: VertexKey)
    requires CacheNumbered(cache, keys) && key !in keys
    ensures var r := cache[key := |Distinct(keys)|];
      forall x :: x in r ==> x in Distinct(keys + [key]) && r[x] == IndexOf(Distinct(keys + [key]), x)
  {
    DistinctAppendNew(keys, key);
    var r := cache[key := |Distinct(keys)|];
    forall x | x in r
      ensures x in Distinct(keys + [key]) && r[x] == IndexOf(Distinct(keys + [key]), x)
    {
      if x != key {
        assert x in cache;
      }
    }
  }

  /** One `AddVertex` numbers its key as first appearance would. */
  lemma AddKeyNumbered(b: Builder, keys: seq<VertexKey>, key: VertexKey)
    requires Valid(b) && Numbered(b, keys) && AddKey(b, key).Ok?
    ensures Numbered(AddKey(b, key).value, keys + [key])
  {
    var r := AddKey(b, key).value;
    if key in b.cache {
      NumberedHit(b, keys, key, r);
    } else {
      assert r.indices == b.indices + [Count(b)];
      NumberedMiss(b, keys, key, r);
    }
  }

  lemma {:induction false} AddVerticesNumbered(b: Builder, keys: seq<VertexKey>, tokens: seq<string>)
    requires Valid(b) && Numbered(b, keys) && AddVertices(b, tokens).Ok?
    ensures Numbered(AddVertices(b, tokens).value, keys + KeysOf(tokens))
    decreases |tokens|
  {
    if |tokens| > 0 {
      var key := KeyOf(tokens[0]);
      assert ParseKey(tokens[0]) == Ok(key);
      var b' := AddKey(b, key).value;
      assert AddVertex(b, tokens[0]) == Ok(b');
      AddKeyNumbered(b, keys, key);
      AddVerticesNumbered(b', keys + [key], tokens[1..]);
      KeysOfCons(tokens);
      Associative(keys, [key], KeysOf(tokens[1..]));
    } else {
      assert keys + KeysOf(tokens) == keys;
    }
  }

  lemma NumberedSameOutputs(b: Builder, r: Builder, keys: seq<VertexKey>)
    requires Numbered(b, keys)
    requires r.vertices == b.vertices && r.indices == b.indices && r.cache == b.cache
    ensures Numbered(r, keys)
  {
    assert Count(r) == Count(b);
  }

  lemma ParseLineNumbered(b: Builder, keys: seq<VertexKey>, line: string, parseFloat: FloatParser)
    requires Valid(b) && Numbered(b, keys) && ParseLine(b, line, parseFloat).Ok?
    ensures Numbered(ParseLine(b, line, parseFloat).value, keys + KeysOf(FaceTokens(line)))
  {
    var r := ParseLine(b, line, parseFloat).value;
    if !Ignored(line) && Keyword(line) == "f" {
      AddVerticesNumbered(b, keys, FaceTokens(line));
    } else {
      assert keys + KeysOf(FaceTokens(line)) == keys;
      NumberedSameOutputs(b, r, keys);
    }
  }

  lemma {:induction false} ParseLinesNumbered(b: Builder, keys: seq<VertexKey>, lines: seq<string>, parseFloat: FloatParser)
    requires Valid(b) && Numbered(b, keys) && ParseLines(b, lines, parseFloat).Ok?
    ensures Numbered(ParseLines(b, lines, parseFloat).value, keys + KeysOf(TokenStream(lines)))
    decreases |lines|
  {
    if |lines| > 0 {
      var b' := ParseLine(b, lines[0], parseFloat).value;
      assert ParseLines(b, lines, parseFloat) == ParseLines(b', lines[1..], parseFloat);
      ParseLineNumbered(b, keys, lines[0], parseFloat);
      ParseLinesNumbered(b', keys + KeysOf(FaceTokens(lines[0])), lines[1..], parseFloat);
      KeysOfAppend(FaceTokens(lines[0]), TokenStream(lines[1..]));
      assert TokenStream(lines) == FaceTokens(lines[0]) + TokenStream(lines[1..]);
      Associative(keys, KeysOf(FaceTokens(lines[0])), KeysOf(TokenStream(lines[1..])));
    } else {
      assert keys + KeysOf(TokenStream(lines)) == keys;
    }
  }

  /** Positions among the distinct elements are equal exactly for equal elements. */
  lemma IndexOfInjective(d: seq<VertexKey>, x: VertexKey, y: VertexKey)
    requires x in d && y in d
    ensures IndexOf(d, x) == IndexOf(d, y) <==> x == y
  {
  }

  /** Output indices in order of first appearance of `keys`: one output
      vertex per distinct key, the j-th index the position of the j-th key
      among the distinct keys, and so equal indices exactly for equal keys. */
  ghost predicate NumberedInOrder(indices: seq<nat>, vertexCount: nat, keys: seq<VertexKey>) {
    var d := Distinct(keys);
    && |indices| == |keys|
    && vertexCount == |d|
    && (forall j :: 0 <= j < |keys| ==> keys[j] in d && indices[j] == IndexOf(d, keys[j]))
    && (forall i, j :: 0 <= i < |keys| && 0 <= j < |keys| ==>
          (indices[i] == indices[j] <==> keys[i] == keys[j]))
  }

  /** A valid builder numbered after `keys` holds its indices in order of
      first appearance. */
  lemma NumberedFacts(b: Builder, keys: seq<VertexKey>)
    requires Valid(b) && Numbered(b, keys)
    ensures NumberedInOrder(b.indices, Count(b), keys)
  {
    forall i, j | 0 <= i < |keys| && 0 <= j < |keys|
      ensures b.indices[i] == b.indices[j] <==> keys[i] == keys[j]
    {
      IndexOfInjective(Distinct(keys), keys[i], keys[j]);
    }
  }

  /** The builder `ParseObj` reads its mesh from. */
  lemma ParseObjBuilder(lines: seq<string>, parseFloat: FloatParser)
    requires ParseObj(lines, parseFloat).Ok?
    ensures ParseLines(Start, lines, parseFloat).Ok?
    ensures var b := ParseLines(Start, lines, parseFloat).value;
      ParseObj(lines, parseFloat).value == ObjMesh(b.vertices, b.indices, b.uvs, b.norms)
  {
    StartValid();
  }

  /** The vertex cache numbers output vertices in order of first appearance:
      the file has one output vertex (three floats) per distinct `v/vt/vn`
      key among its face tokens, and the j-th index is the position of the
      j-th token's key among the distinct keys. In particular two indices
      agree exactly when their tokens name the same key. */
  lemma IndicesFollowFirstAppearance(lines: seq<string>, parseFloat: FloatParser)
    requires ParseObj(lines, parseFloat).Ok?
    ensures var m := ParseObj(lines, parseFloat).value;
      && |m.vertices| % 3 == 0
      && NumberedInOrder(m.indices, |m.vertices| / 3, KeysOf(TokenStream(lines)))
  {
    ParseObjBuilder(lines, parseFloat);
    ParseLinesInOrder(lines, parseFloat);
  }

  /** The builder after a whole file holds its indices in order of first
      appearance of the file's keys. */
  lemma ParseLinesInOrder(lines: seq<string>, parseFloat: FloatParser)
    requires ParseLines(Start, lines, parseFloat).Ok?
    ensures var b := ParseLines(Start, lines, parseFloat).value;
      && |b.vertices| == 3 * Count(b)
      && NumberedInOrder(b.indices, Count(b), KeysOf(TokenStream(lines)))
  {
    StartValid();
    StartNumbered();
    ParseLinesNumbered(Start, [], lines, parseFloat);
    InOrderFromStart(ParseLines(Start, lines, parseFloat).value, KeysOf(TokenStream(lines)));
  }

  /** A valid builder numbered from the start after `keys` holds its
      indices in order of first appearance. */
  lemma InOrderFromStart(b: Builder, keys: seq<VertexKey>)
    requires Valid(b) && Numbered(b, [] + keys)
    ensures |b.vertices| == 3 * Count(b) && NumberedInOrder(b.indices, Count(b), keys)
  {
    assert [] + keys == keys;
    NumberedFacts(b, keys);
  }

  /** Output vertex `i` of a mesh carries position `p`, texture coordinate
      `uv` and normal `n`. */
  predicate VertexIs(m: ObjMesh, i: nat, p: Vec3, uv: Vec2, n: Vec3)
    requires 3 * i + 3 <= |m.vertices| && 2 * i + 2 <= |m.texCoords| && 3 * i + 3 <= |m.normals|
  {
    && m.vertices[3 * i .. 3 * i + 3] == [p.x, p.y, p.z]
    && m.texCoords[2 * i .. 2 * i + 2] == [uv.x, uv.y]
    && m.normals[3 * i .. 3 * i + 3] == [n.x, n.y, n.z]
  }

  /** The mesh a builder holds. */
  function MeshOf(b: Builder): ObjMesh {
    ObjMesh(b.vertices, b.indices, b.uvs, b.norms)
  }

  /** A builder's output vertex holding a key's attributes, as a mesh vertex. */
  lemma HoldsVertexIs(b: Builder, i: nat, key: VertexKey)
    requires 3 * i + 3 <= |b.vertices| && 2 * i + 2 <= |b.uvs| && 3 * i + 3 <= |b.norms| && Resolvable(b, key)
    requires Holds(b, i, key)
    ensures VertexIs(MeshOf(b), i, b.positions[key.v], UVAt(b.texCoords, key.vt), NormalAt(b.normals, key.vn))
  {
    var p, t, n := b.positions[key.v], UVAt(b.texCoords, key.vt), NormalAt(b.normals, key.vn);
    assert b.vertices[3 * i .. 3 * i + 3] == [p.x, p.y, p.z];
    assert b.uvs[2 * i .. 2 * i + 2] == [t.x, t.y];
    assert b.norms[3 * i .. 3 * i + 3] == [n.x, n.y, n.z];
  }

  /** In a builder numbered after `keys`, output vertex `i` is built from the
      `i`-th distinct key. */
  lemma NumberedVertex(b: Builder, keys: seq<VertexKey>, i: nat)
    requires Valid(b) && Numbered(b, keys) && i < |Distinct(keys)|
    ensures var key := Distinct(keys)[i];
      && Resolvable(b, key) && 3 * i + 3 <= |b.vertices| && 2 * i + 2 <= |b.uvs| && 3 * i + 3 <= |b.norms|
      && VertexIs(MeshOf(b), i, b.positions[key.v], UVAt(b.texCoords, key.vt), NormalAt(b.normals, key.vn))
  {
    var d := Distinct(keys);
    var key := d[i];
    assert key in keys;
    assert key in b.cache && b.cache[key] == IndexOf(d, key);
    assert IndexOf(d, key) == i;
    HoldsVertexIs(b, i, key);
  }

  /** What each output vertex of a parsed file contains: vertex `i` is built
      from the `i`-th distinct `v/vt/vn` key of the file's faces, and carries
      the position of the file's `v` line that key names, the texture
      coordinate of its `vt` line or (0,0) when the key has none, and the
      normal of its `vn` line or (0,0,0) when it has none. */
  lemma VerticesFromFile(lines: seq<string>, parseFloat: FloatParser)
    requires ParseObj(lines, parseFloat).Ok?
    ensures var m := ParseObj(lines, parseFloat).value;
      var d := Distinct(KeysOf(TokenStream(lines)));
      var ps, ts, ns := FilePositions(lines, parseFloat), FileTexCoords(lines, parseFloat), FileNormals(lines, parseFloat);
      && |m.vertices| == 3 * |d| && |m.texCoords| == 2 * |d| && |m.normals| == 3 * |d|
      && forall i :: 0 <= i < |d| ==>
           && 0 <= d[i].v < |ps| && d[i].vt < |ts| && d[i].vn < |ns|
           && VertexIs(m, i, ps[d[i].v], UVAt(ts, d[i].vt), NormalAt(ns, d[i].vn))
  {
    ParseObjBuilder(lines, parseFloat);
    StartValid();
    StartNumbered();
    var b := ParseLines(Start, lines, parseFloat).value;
    ParseLinesNumbered(Start, [], lines, parseFloat);
    ParseLinesAttributes(Start, lines, parseFloat);
    var keys, ps, ts, ns := KeysOf(TokenStream(lines)),
      FilePositions(lines, parseFloat), FileTexCoords(lines, parseFloat), FileNormals(lines, parseFloat);
    DropEmptyPrefixes(keys, ps, ts, ns);
    FileVertices(b, keys, ps, ts, ns);
  }

  lemma DropEmptyPrefixes(keys: seq<VertexKey>, ps: seq<Vec3>, ts: seq<Vec2>, ns: seq<Vec3>)
    ensures [] + keys == keys && [] + ps == ps && [] + ts == ts && [] + ns == ns
  {
  }

  /** A builder numbered after `keys`, whose raw lists are `ps`, `ts` and
      `ns`, holds in vertex `i` the attributes of the `i`-th distinct key. */
  lemma FileVertices(b: Builder, keys: seq<VertexKey>, ps: seq<Vec3>, ts: seq<Vec2>, ns: seq<Vec3>)
    requires Valid(b) && Numbered(b, keys)
    requires b.positions == ps && b.texCoords == ts && b.normals == ns
    ensures var m := MeshOf(b);
      var d := Distinct(keys);
      && |m.vertices| == 3 * |d| && |m.texCoords| == 2 * |d| && |m.normals| == 3 * |d|
      && forall i :: 0 <= i < |d| ==>
           && 0 <= d[i].v < |ps| && d[i].vt < |ts| && d[i].vn < |ns|
           && VertexIs(m, i, ps[d[i].v], UVAt(ts, d[i].vt), NormalAt(ns, d[i].vn))
  {
    var d := Distinct(keys);
    forall i | 0 <= i < |d|
      ensures && 0 <= d[i].v < |ps| && d[i].vt < |ts| && d[i].vn < |ns|
              && 3 * i + 3 <= |b.vertices| && 2 * i + 2 <= |b.uvs| && 3 * i + 3 <= |b.norms|
              && VertexIs(MeshOf(b), i, ps[d[i].v], UVAt(ts, d[i].vt), NormalAt(ns, d[i].vn))
    {
      NumberedVertex(b, keys, i);
    }
  }

  /** Comment and blank lines can be dropped from a file without changing
      what it parses to. */
  lemma {:induction false} IgnoredLineHasNoEffect(b: Builder, before: seq<string>, line: string, after: seq<string>,
                                                  parseFloat: FloatParser)
    requires Valid(b) && Ignored(line)
    ensures ParseLines(b, before + [line] + after, parseFloat) == ParseLines(b, before + after, parseFloat)
    decreases |before|
  {
    if |before| == 0 {
      assert before + [line] + after == [line] + after;
      assert ([line] + after)[1..] == after;
      assert before + after == after;
    } else {
      assert (before + [line] + after)[0] == before[0];
      assert (before + [line] + after)[1..] == before[1..] + [line] + after;
      assert (before + after)[0] == before[0];
      assert (before + after)[1..] == before[1..] + after;
      match ParseLine(b, before[0], parseFloat)
      case Ok(b') => IgnoredLineHasNoEffect(b', before[1..], line, after, parseFloat);
      case Err(_) =>
    }
  }
}
