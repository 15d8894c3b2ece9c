/** `LightObject`: a point light with its six cube-face view matrices and
    the GL resources of its shadow cube map. `LookAt` and the perspective
    projection are symbolic terms. */
module LightObject {
  import opened Vectors
  import opened Matrices
  import opened Gl

  /** The view direction of each cube face, in `TextureCubeMapPositiveX + i`
      order. */
  const Directions: seq<Vec3> := [
    Vec3( 1.0,  0.0,  0.0), Vec3(-1.0,  0.0,  0.0),
    Vec3( 0.0,  1.0,  0.0), Vec3( 0.0, -1.0,  0.0),
    Vec3( 0.0,  0.0,  1.0), Vec3( 0.0,  0.0, -1.0)]

  /** The up vector of each cube face. */
  const Ups: seq<Vec3> := [
    Vec3(0.0, -1.0,  0.0), Vec3(0.0, -1.0,  0.0),
    Vec3(0.0,  0.0,  1.0), Vec3(0.0,  0.0, -1.0),
    Vec3(0.0, -1.0,  0.0), Vec3(0.0, -1.0,  0.0)]

  /** The unit vector along axis `a` (0 = X, 1 = Y, 2 = Z). */
  function Axis(a: nat): Vec3
    requires a < 3
  {
    if a == 0 then Vec3(1.0, 0.0, 0.0) else if a == 1 then Vec3(0.0, 1.0, 0.0) else Vec3(0.0, 0.0, 1.0)
  }

  /** A unit vector along one coordinate axis, either way. */
  predicate IsSignedAxis(v: Vec3) {
    exists a: nat | a < 3 :: v == Axis(a) || v == Scale(Axis(a), -1.0)
  }

  /** The directions are +X, -X, +Y, -Y, +Z, -Z, in that order. */
  lemma DirectionsAreSignedAxes()
    ensures |Directions| == 6
    ensures forall i :: 0 <= i < 6 ==> Directions[i] == Scale(Axis(i / 2), if i % 2 == 0 then 1.0 else -1.0)
  {
    forall i | 0 <= i < 6
      ensures Directions[i] == Scale(Axis(i / 2), if i % 2 == 0 then 1.0 else -1.0)
    {
      assert i == 0 || i == 1 || i == 2 || i == 3 || i == 4 || i == 5;
    }
  }

  /** Every up vector is a signed unit axis orthogonal to its face's
      direction, so it is never parallel to the view direction. */
  lemma UpsOrthonormal()
    ensures |Ups| == 6
    ensures forall i :: 0 <= i < 6 ==>
      && IsSignedAxis(Ups[i])
      && LengthSquared(Ups[i]) == 1.0
      && Dot(Ups[i], Directions[i]) == 0.0
      && Cross(Ups[i], Directions[i]) != Zero3
  {
    forall i | 0 <= i < 6
      ensures IsSignedAxis(Ups[i])
    {
      assert i == 0 || i == 1 || i == 2 || i == 3 || i == 4 || i == 5;
      if i == 2 {
        assert Ups[i] == Axis(2);
      } else if i == 3 {
        assert Ups[i] == Scale(Axis(2), -1.0);
      } else {
        assert Ups[i] == Scale(Axis(1), -1.0);
      }
    }
  }

  datatype Light = Light(
    name: string, position: Vec3,
    active: bool, shadowMapResolution: int, color: Vec3, intensity: real,
    shadowFbo: int, depthCubeMap: int,
    projection: Mat4, viewMatrices: seq<Mat4>)

  /** `new LightObject(name)`: at the origin, active, a 2048 shadow map,
      white at intensity 1, no GL resources yet (-1), and six zero view
      matrices. */
  function NewLight(name: string): (l: Light)
    ensures l.position == Zero3 && l.active && l.shadowMapResolution == 2048
    ensures l.color == One3 && l.intensity == 1.0
    ensures l.shadowFbo == -1 && l.depthCubeMap == -1
    ensures |l.viewMatrices| == 6 && forall i :: 0 <= i < 6 ==> l.viewMatrices[i] == ZeroMatrix
  {
    Light(name, Zero3, true, 2048, One3, 1.0, -1, -1, ZeroMatrix, seq(6, i => ZeroMatrix))
  }

  /** The six views of a light at `position`. */
  function FaceViews(position: Vec3): (views: seq<Mat4>)
    ensures |views| == 6
    ensures forall i :: 0 <= i < 6 ==>
      && views[i].LookAt?
      && views[i].eye == position
      && Sub(views[i].target, views[i].eye) == Directions[i]
      && views[i].up == Ups[i]
  {
    seq(6, i requires 0 <= i < 6 => LookAt(position, Add(position, Directions[i]), Ups[i]))
  }

  /** `UpdateViewMatrices()`: every face looks from the light's position one
      unit along its direction, with its up vector; nothing else changes. */
  function UpdateViewMatrices(l: Light): (r: Light)
    ensures r.viewMatrices == FaceViews(l.position)
    ensures |r.viewMatrices| == 6 && forall i :: 0 <= i < 6 ==>
      r.viewMatrices[i] == LookAt(l.position, Add(l.position, Directions[i]), Ups[i])
    ensures r.name == l.name && r.position == l.position && r.active == l.active
    ensures r.shadowMapResolution == l.shadowMapResolution && r.color == l.color && r.intensity == l.intensity
    ensures r.shadowFbo == l.shadowFbo && r.depthCubeMap == l.depthCubeMap && r.projection == l.projection
  {
    l.(viewMatrices := FaceViews(l.position))
  }

  /** The views depend on the position only, so refreshing them twice is the
      same as refreshing them once. */
  lemma UpdateViewMatricesIdempotent(l: Light)
    ensures UpdateViewMatrices(UpdateViewMatrices(l)) == UpdateViewMatrices(l)
  {
  }

  /** Two lights at the same position get the same views, whatever else
      they differ in. */
  lemma ViewsDependOnPositionOnly(l1: Light, l2: Light)
    requires l1.position == l2.position
    ensures UpdateViewMatrices(l1).viewMatrices == UpdateViewMatrices(l2).viewMatrices
  {
  }

  /** The depth faces `InitShadowResources` allocates, one per face at the
      light's resolution. */
  function AllocateFaces(resolution: int, n: nat): (log: seq<Command>)
    requires n <= 6
    ensures |log| == n
    ensures forall i :: 0 <= i < n ==> log[i] == AllocateCubeFace(i, resolution, resolution)
  {
    if n == 0 then [] else AllocateFaces(resolution, n - 1) + [AllocateCubeFace(n - 1, resolution, resolution)]
  }

  /** `InitShadowResources()`, given the framebuffer and texture names GL
      hands out. The cube map is bound, its six depth faces are allocated at
      the light's resolution, it is attached to the framebuffer, and the
      framebuffer is unbound again. The projection is a 90 degree, aspect 1,
      0.1 to 1000 perspective, set before the views are refreshed, so the
      views reflect the light's position at that moment. */
  function InitShadowResources(l: Light, fbo: int, texture: int): (r: (Light, seq<Command>))
    ensures r.0.shadowFbo == fbo && r.0.depthCubeMap == texture
    ensures r.0.projection == Perspective(90.0, 1.0, 0.1, 1000.0)
    ensures r.0.viewMatrices == FaceViews(l.position)
    ensures r.0.position == l.position && r.0.shadowMapResolution == l.shadowMapResolution
    ensures |r.1| == 10 && r.1[0] == BindTexture(TextureCubeMap, texture)
    ensures forall i :: 0 <= i < 6 ==> r.1[1 + i] == AllocateCubeFace(i, l.shadowMapResolution, l.shadowMapResolution)
    ensures r.1[7..] == [BindFramebuffer(fbo), AttachDepthTexture(texture), BindFramebuffer(0)]
  {
    var lit := l.(shadowFbo := fbo, depthCubeMap := texture, projection := Perspective(90.0, 1.0, 0.1, 1000.0));
    var log := [BindTexture(TextureCubeMap, texture)]
      + AllocateFaces(l.shadowMapResolution, 6)
      + [BindFramebuffer(fbo), AttachDepthTexture(texture), BindFramebuffer(0)];
    (UpdateViewMatrices(lit), log)
  }
}

/** The light `MainWindow` actually renders with: its own position field,
    its own copies of the face tables, and a 4096-square shadow map. The
    `LightObject` class is never instantiated by the window. */
module MainWindow {
  import opened Vectors
  import opened Matrices
  import LightObject

  const Directions: seq<Vec3> := [
    Vec3( 1.0,  0.0,  0.0), Vec3(-1.0,  0.0,  0.0),
    Vec3( 0.0,  1.0,  0.0), Vec3( 0.0, -1.0,  0.0),
    Vec3( 0.0,  0.0,  1.0), Vec3( 0.0,  0.0, -1.0)]

  const Ups: seq<Vec3> := [
    Vec3(0.0, -1.0,  0.0), Vec3(0.0, -1.0,  0.0),
    Vec3(0.0,  0.0,  1.0), Vec3(0.0,  0.0, -1.0),
    Vec3(0.0, -1.0,  0.0), Vec3(0.0, -1.0,  0.0)]

  /** `shadowMapWidth = shadowMapHeight = 2048 * 2`. */
  const ShadowMapSize: int := 2048 * 2

  /** The initial `pointLightPosition`. */
  const InitialLightPosition: Vec3 := Vec3(6.0, 3.0, 5.0)

  /** The window's copies of the tables are the light's tables. */
  lemma TablesMatchLightObject()
    ensures Directions == LightObject.Directions && Ups == LightObject.Ups
  {
  }

  /** `_shadowView[i] = LookAt(pointLightPosition, pointLightPosition +
      directions[i], ups[i])` for the six faces, in `OnLoad` and on every
      update: exactly the views a `LightObject` at the same position
      computes. */
  function ShadowViews(lightPosition: Vec3): (views: seq<Mat4>)
    ensures |views| == 6
    ensures views == LightObject.FaceViews(lightPosition)
  {
    TablesMatchLightObject();
    seq(6, i requires 0 <= i < 6 => LookAt(lightPosition, Add(lightPosition, Directions[i]), Ups[i]))
  }

  /** The window's shadow map is twice as wide as a `LightObject`'s default. */
  lemma ShadowMapLargerThanLightDefault()
    ensures ShadowMapSize == 2 * LightObject.NewLight("").shadowMapResolution
  {
  }
}
