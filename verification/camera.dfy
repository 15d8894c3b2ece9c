/** `Camera`: the speed selection and the mouse-look state machine of
    `UpdateInput`. The WASD translation and `GetFront` are trigonometry on
    the camera position and are not part of this model; the state here is
    what decides Yaw and Pitch. */
module Camera {
  import opened Vectors

  /** `OriginalSpeed`. */
  const OriginalSpeed: real := 7.0

  /** The lower and upper pitch limits of the clamp, in degrees. */
  const MinPitch: real := -89.0
  const MaxPitch: real := 89.0

  datatype Camera = Camera(
    yaw: real, pitch: real,
    speed: real, sprintSpeed: real, sensitivity: real,
    lastMousePos: Vec2, firstMove: bool, lastGrabbed: bool)

  /** `new Camera(position, yaw, pitch)`: the sprint speed is three times
      the original speed, the sensitivity is 0.2, the first grabbed frame is
      still to come and the mouse was not grabbed on the previous frame. */
  function NewCamera(yaw: real, pitch: real): (c: Camera)
    ensures c.sprintSpeed == 3.0 * OriginalSpeed == 21.0 && c.speed == OriginalSpeed
    ensures c.sensitivity == 0.2 && c.firstMove && !c.lastGrabbed
    ensures c.yaw == yaw && c.pitch == pitch
  {
    Camera(yaw, pitch, OriginalSpeed, OriginalSpeed * 3.0, 0.2, Vec2(0.0, 0.0), true, false)
  }

  /** The defaults of the constructor: yaw -90, pitch 0. */
  function DefaultCamera(): (c: Camera)
    ensures c.yaw == -90.0 && c.pitch == 0.0 && MinPitch <= c.pitch <= MaxPitch
  {
    NewCamera(-90.0, 0.0)
  }

  /** `MathHelper.Clamp(n, min, max)`, that is `Max(Min(n, max), min)`. */
  function Clamp(n: real, min: real, max: real): (r: real)
    requires min <= max
    ensures min <= r <= max
    ensures min <= n <= max ==> r == n
    ensures n < min ==> r == min
    ensures n > max ==> r == max
  {
    var m := if n < max then n else max;
    if m > min then m else min
  }

  /** One frame's input: whether LeftShift is held, where the mouse is, and
      the window's mouse-grab toggle. */
  datatype Input = Input(shiftDown: bool, mouse: Vec2, grabbed: bool)

  /** Whether a frame rotates the view: the mouse is grabbed and this is not
      the first grabbed frame. */
  predicate Rotates(c: Camera, input: Input) {
    input.grabbed && !c.firstMove
  }

  /** `UpdateInput` without the position update. */
  function UpdateInput(c: Camera, input: Input): (r: Camera)
    ensures r.speed == if input.shiftDown then c.sprintSpeed else OriginalSpeed
    ensures r.sprintSpeed == c.sprintSpeed && r.sensitivity == c.sensitivity
    ensures r.lastGrabbed == input.grabbed
    ensures !input.grabbed ==> r.yaw == c.yaw && r.pitch == c.pitch && r.firstMove == c.firstMove
    ensures input.grabbed && c.firstMove ==>
      r.yaw == c.yaw && r.pitch == c.pitch && !r.firstMove && r.lastMousePos == input.mouse
    ensures Rotates(c, input) ==>
      var last := if c.lastGrabbed != input.grabbed then input.mouse else c.lastMousePos;
      && r.yaw == c.yaw + (input.mouse.x - last.x) * c.sensitivity
      && r.lastMousePos == input.mouse && !r.firstMove
    ensures Rotates(c, input) ==> MinPitch <= r.pitch <= MaxPitch
  {
    var speed := if input.shiftDown then c.sprintSpeed else OriginalSpeed;
    var last := if c.lastGrabbed != input.grabbed then input.mouse else c.lastMousePos;
    var c1 := c.(speed := speed, lastMousePos := last);
    var c2 :=
      if !input.grabbed then c1
      else if c1.firstMove then c1.(lastMousePos := input.mouse, firstMove := false)
      else
        var delta := Sub2(input.mouse, c1.lastMousePos);
        c1.(lastMousePos := input.mouse,
            yaw := c1.yaw + delta.x * c1.sensitivity,
            pitch := Clamp(c1.pitch - delta.y * c1.sensitivity, MinPitch, MaxPitch));
    c2.(lastGrabbed := input.grabbed)
  }

  /** A rotating frame adds `dx * sensitivity` to Yaw and subtracts
      `dy * sensitivity` from Pitch before clamping it, where the delta is
      measured from the stored mouse position (or from the current one on a
      frame where the grab toggle changed). */
  lemma RotatingFrame(c: Camera, input: Input)
    requires Rotates(c, input)
    ensures var last := if c.lastGrabbed != input.grabbed then input.mouse else c.lastMousePos;
      UpdateInput(c, input).pitch == Clamp(c.pitch - (input.mouse.y - last.y) * c.sensitivity, MinPitch, MaxPitch)
  {
    var last := if c.lastGrabbed != input.grabbed then input.mouse else c.lastMousePos;
    var c1 := c.(speed := UpdateInput(c, input).speed, lastMousePos := last);
    var delta := Sub2(input.mouse, c1.lastMousePos);
    assert UpdateInput(c, input).pitch == Clamp(c1.pitch - delta.y * c1.sensitivity, MinPitch, MaxPitch);
  }

  /** On the frame the grab toggle changes, the stored mouse position is
      reset to the current one, so the view does not jump: Yaw is unchanged
      and Pitch only goes through the clamp. */
  lemma ToggleFrameDoesNotJump(c: Camera, input: Input)
    requires Rotates(c, input) && c.lastGrabbed != input.grabbed
    ensures UpdateInput(c, input).yaw == c.yaw
    ensures UpdateInput(c, input).pitch == Clamp(c.pitch, MinPitch, MaxPitch)
  {
    RotatingFrame(c, input);
  }

  /** Yaw is never clamped: a rotating frame moves it by the full horizontal
      delta, however far it goes. */
  lemma YawUnbounded(c: Camera, input: Input, bound: real)
    requires Rotates(c, input) && c.lastGrabbed == input.grabbed && c.sensitivity > 0.0
    requires input.mouse.x - c.lastMousePos.x > (bound - c.yaw) / c.sensitivity
    ensures UpdateInput(c, input).yaw > bound
  {
    var d := input.mouse.x - c.lastMousePos.x;
    assert d * c.sensitivity > ((bound - c.yaw) / c.sensitivity) * c.sensitivity;
  }

  /** The frames of a session, one `UpdateInput` each. */
  function RunFrames(c: Camera, inputs: seq<Input>): Camera
    decreases |inputs|
  {
    if |inputs| == 0 then c else RunFrames(UpdateInput(c, inputs[0]), inputs[1..])
  }

  /** Pitch stays within [-89, 89] forever once it starts there, as it does
      with the default pitch 0. */
  lemma {:induction false} PitchStaysInRange(c: Camera, inputs: seq<Input>)
    requires MinPitch <= c.pitch <= MaxPitch
    ensures MinPitch <= RunFrames(c, inputs).pitch <= MaxPitch
    decreases |inputs|
  {
    if |inputs| > 0 {
      PitchStaysInRange(UpdateInput(c, inputs[0]), inputs[1..]);
    }
  }
}
