/** The orbiting third-person camera: mouse input turns it round the otter
    and tilts it within limits, the wheel zooms within limits, and each frame
    its position eases towards the orbit point. */
module ThirdPerson {
  import opened Host
  import MathHelpers

  const SENSITIVITY: real := 0.003
  const ZOOM_RATE: real := 0.005
  const MIN_PITCH: real := -1.2
  const MAX_PITCH: real := 0.5
  const MIN_DISTANCE: real := 2.0
  const MAX_DISTANCE: real := 20.0
  const FOLLOW_LAMBDA: real := 10.0

  /** Orbit angles and radius, and the smoothed camera position. */
  datatype Cam = Cam(yaw: real, pitch: real, distance: real, px: real, py: real, pz: real)

  ghost predicate InRange(c: Cam) {
    MIN_PITCH <= c.pitch <= MAX_PITCH && MIN_DISTANCE <= c.distance <= MAX_DISTANCE
  }

  function Initial(): (c: Cam)
    ensures InRange(c)
    ensures c.yaw == 0.0 && c.pitch == -0.3 && c.distance == 6.0
  {
    Cam(0.0, -0.3, 6.0, 0.0, 0.0, 0.0)
  }

  /** `applyInput`: horizontal mouse motion turns the orbit without limit,
      vertical motion tilts it and the wheel zooms, both clamped. */
  function ApplyInput(c: Cam, dx: real, dy: real, scroll: real): (c': Cam)
    ensures InRange(c')
    ensures c'.yaw == c.yaw - dx * SENSITIVITY
    ensures c'.pitch == MathHelpers.Clamp(c.pitch - dy * SENSITIVITY, MIN_PITCH, MAX_PITCH)
    ensures c'.distance == MathHelpers.Clamp(c.distance + scroll * ZOOM_RATE, MIN_DISTANCE, MAX_DISTANCE)
    ensures c'.px == c.px && c'.py == c.py && c'.pz == c.pz
  {
    c.(yaw := c.yaw - dx * SENSITIVITY,
       pitch := MathHelpers.Clamp(c.pitch - dy * SENSITIVITY, MIN_PITCH, MAX_PITCH),
       distance := MathHelpers.Clamp(c.distance + scroll * ZOOM_RATE, MIN_DISTANCE, MAX_DISTANCE))
  }

  /** Away from the limits, moving the mouse back undoes a move: the angles
      and the zoom are restored exactly. */
  lemma InputUndo(c: Cam, dx: real, dy: real, scroll: real)
    requires InRange(c)
    requires MIN_PITCH <= c.pitch - dy * SENSITIVITY <= MAX_PITCH
    requires MIN_DISTANCE <= c.distance + scroll * ZOOM_RATE <= MAX_DISTANCE
    ensures ApplyInput(ApplyInput(c, dx, dy, scroll), -dx, -dy, -scroll) == c
  {
  }

  /** At a limit, pushing further does nothing. */
  lemma PitchSaturates(c: Cam, dy: real)
    requires InRange(c)
    requires c.pitch == MAX_PITCH && dy <= 0.0
    ensures ApplyInput(c, 0.0, dy, 0.0).pitch == MAX_PITCH
  {
  }

  /** `update`: the camera eases towards the orbit point around the target
      (one unit above it); the orbit itself is not touched. */
  function Update(env: Env, c: Cam, dt: real, tx: real, ty: real, tz: real): (c': Cam)
    requires Valid(env)
    ensures c'.yaw == c.yaw && c'.pitch == c.pitch && c'.distance == c.distance
    ensures var d := Desired(env, c, tx, ty, tz);
            && MathHelpers.Between(c'.px, c.px, d.0)
            && MathHelpers.Between(c'.py, c.py, d.1)
            && MathHelpers.Between(c'.pz, c.pz, d.2)
    ensures dt <= 0.0 ==> c' == c
  {
    var d := Desired(env, c, tx, ty, tz);
    var f := MathHelpers.ExpDampFactor(env, FOLLOW_LAMBDA, dt);
    c.(px := MathHelpers.Lerp(c.px, d.0, f),
       py := MathHelpers.Lerp(c.py, d.1, f),
       pz := MathHelpers.Lerp(c.pz, d.2, f))
  }

  /** The orbit point: `distance` away from one unit above the target, in
      the direction given by yaw and pitch. */
  function Desired(env: Env, c: Cam, tx: real, ty: real, tz: real): (real, real, real)
  {
    (tx + env.sin(c.yaw) * env.cos(c.pitch) * c.distance,
     ty + 1.0 + env.sin(-c.pitch) * c.distance,
     tz + env.cos(c.yaw) * env.cos(c.pitch) * c.distance)
  }

  /** `cameraYaw`: the yaw the otter steers by. */
  function CameraYaw(c: Cam): real {
    c.yaw
  }
}
