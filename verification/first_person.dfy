/** The first-person camera: mouse input turns the view without limit and
    tilts it within limits. Its per-frame update only places the shared
    render camera at the otter's head and does not touch this state. */
module FirstPerson {
  import MathHelpers

  const SENSITIVITY: real := 0.003
  const MIN_PITCH: real := -1.2
  const MAX_PITCH: real := 1.0

  /** View angles relative to the otter's heading. */
  datatype Cam = Cam(yaw: real, pitch: real)

  ghost predicate InRange(c: Cam) {
    MIN_PITCH <= c.pitch <= MAX_PITCH
  }

  function Initial(): (c: Cam)
    ensures InRange(c) && c.yaw == 0.0 && c.pitch == 0.0
  {
    Cam(0.0, 0.0)
  }

  /** `applyInput`. */
  function ApplyInput(c: Cam, dx: real, dy: real): (c': Cam)
    ensures InRange(c')
    ensures c'.yaw == c.yaw - dx * SENSITIVITY
    ensures c'.pitch == MathHelpers.Clamp(c.pitch - dy * SENSITIVITY, MIN_PITCH, MAX_PITCH)
  {
    Cam(c.yaw - dx * SENSITIVITY, MathHelpers.Clamp(c.pitch - dy * SENSITIVITY, MIN_PITCH, MAX_PITCH))
  }

  /** Away from the limits, moving the mouse back undoes a move. */
  lemma InputUndo(c: Cam, dx: real, dy: real)
    requires MIN_PITCH <= c.pitch - dy * SENSITIVITY <= MAX_PITCH
    requires InRange(c)
    ensures ApplyInput(ApplyInput(c, dx, dy), -dx, -dy) == c
  {
  }

  /** The first-person view can look further up than the orbit camera. */
  lemma WiderThanOrbit(c: Cam, dy: real)
    requires InRange(c)
    requires c.pitch - dy * SENSITIVITY >= MAX_PITCH
    ensures ApplyInput(c, 0.0, dy).pitch == 1.0
  {
  }

  /** `cameraYaw`: the yaw the otter steers by. */
  function CameraYaw(c: Cam): real {
    c.yaw
  }
}
