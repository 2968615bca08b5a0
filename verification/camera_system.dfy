/** The camera system: one of the two cameras is active at a time; input
    and per-frame updates go to the active one, and a shake intensity decays
    exponentially once set. */
module CameraSystem {
  import opened Host
  import ThirdPerson
  import FirstPerson
  import MathHelpers

  const SHAKE_DECAY: real := 8.0
  const SHAKE_FLOOR: real := 0.001

  datatype Mode = ThirdPersonMode | FirstPersonMode

  datatype Sys = Sys(mode: Mode, third: ThirdPerson.Cam, first: FirstPerson.Cam, shake: real)

  ghost predicate Inv(s: Sys) {
    ThirdPerson.InRange(s.third) && FirstPerson.InRange(s.first) && 0.0 <= s.shake
  }

  function Initial(): (s: Sys)
    ensures Inv(s) && s.mode == ThirdPersonMode && s.shake == 0.0
  {
    Sys(ThirdPersonMode, ThirdPerson.Initial(), FirstPerson.Initial(), 0.0)
  }

  /** `toggle`: switch to the other camera; entering first person starts
      looking straight ahead. */
  function Toggle(s: Sys): (s': Sys)
    ensures s'.mode != s.mode
    ensures s'.third == s.third && s'.shake == s.shake
    ensures s'.mode == FirstPersonMode ==> s'.first == FirstPerson.Cam(0.0, 0.0)
    ensures s'.mode == ThirdPersonMode ==> s'.first == s.first
    ensures Inv(s) ==> Inv(s')
  {
    if s.mode == ThirdPersonMode then s.(mode := FirstPersonMode, first := FirstPerson.Cam(0.0, 0.0))
    else s.(mode := ThirdPersonMode)
  }

  /** Two toggles restore the mode and the orbit camera; starting from first
      person they restore everything. */
  lemma ToggleTwice(s: Sys)
    ensures Toggle(Toggle(s)).mode == s.mode
    ensures Toggle(Toggle(s)).third == s.third
    ensures s.mode == FirstPersonMode ==> Toggle(Toggle(s)) == s.(first := FirstPerson.Cam(0.0, 0.0))
    ensures s.mode == ThirdPersonMode ==> Toggle(Toggle(s)) == s.(first := FirstPerson.Cam(0.0, 0.0))
  {
  }

  /** `applyInput`: only the active camera takes the input (the first-person
      camera ignores the wheel). */
  function ApplyInput(s: Sys, dx: real, dy: real, scroll: real): (s': Sys)
    ensures s'.mode == s.mode && s'.shake == s.shake
    ensures s.mode == ThirdPersonMode ==>
              s'.third == ThirdPerson.ApplyInput(s.third, dx, dy, scroll) && s'.first == s.first
    ensures s.mode == FirstPersonMode ==>
              s'.first == FirstPerson.ApplyInput(s.first, dx, dy) && s'.third == s.third
    ensures Inv(s) ==> Inv(s')
  {
    if s.mode == ThirdPersonMode then s.(third := ThirdPerson.ApplyInput(s.third, dx, dy, scroll))
    else s.(first := FirstPerson.ApplyInput(s.first, dx, dy))
  }

  /** `shake`. */
  function Shake(s: Sys, intensity: real): (s': Sys)
    ensures s'.shake == intensity
    ensures s'.mode == s.mode && s'.third == s.third && s'.first == s.first
  {
    s.(shake := intensity)
  }

  /** exp(-8 dt): positive, and at most 1 when time goes forwards. */
  function ShakeFactor(env: Env, dt: real): (e: real)
    requires Valid(env)
    ensures 0.0 < e
    ensures 0.0 <= dt ==> e <= 1.0
  {
    var u := -SHAKE_DECAY * dt;
    assert 0.0 <= dt ==> u <= 0.0;
    env.exp(u)
  }

  /** The shake after one frame: it decays by exp(-8 dt) while above the
      floor and is left alone once below it. */
  function DecayShake(env: Env, shake: real, dt: real): (r: real)
    requires Valid(env)
    ensures shake <= SHAKE_FLOOR ==> r == shake
    ensures 0.0 <= shake && 0.0 <= dt ==> 0.0 <= r <= shake
    ensures shake > SHAKE_FLOOR ==> r > 0.0
  {
    if shake > SHAKE_FLOOR then Scaled(shake, ShakeFactor(env, dt)) else shake
  }

  /** Scaling by a positive factor keeps a positive amount positive, and a
      factor of at most 1 keeps a non-negative amount between 0 and itself. */
  function Scaled(a: real, e: real): (r: real)
    requires 0.0 < e
    ensures 0.0 < a ==> 0.0 < r
    ensures 0.0 <= a && e <= 1.0 ==> 0.0 <= r <= a
  {
    ScaleDown(a, e);
    a * e
  }

  lemma ScaleDown(a: real, e: real)
    requires 0.0 < e
    ensures 0.0 < a ==> 0.0 < a * e
    ensures 0.0 <= a && e <= 1.0 ==> 0.0 <= a * e <= a
  {
    if 0.0 <= a && e <= 1.0 {
      MathHelpers.MulNonneg(a, 1.0 - e);
      assert a - a * e == a * (1.0 - e);
    }
  }

  /** `update`: the active camera takes its frame (the first-person camera
      only moves the render camera, which is not modelled) and the shake
      decays. */
  function Update(env: Env, s: Sys, dt: real, tx: real, ty: real, tz: real): (s': Sys)
    requires Valid(env)
    ensures s'.mode == s.mode && s'.first == s.first
    ensures s.mode == ThirdPersonMode ==> s'.third == ThirdPerson.Update(env, s.third, dt, tx, ty, tz)
    ensures s.mode == FirstPersonMode ==> s'.third == s.third
    ensures s'.shake == DecayShake(env, s.shake, dt)
    ensures Inv(s) && 0.0 <= dt ==> Inv(s') && s'.shake <= s.shake
  {
    var third := if s.mode == ThirdPersonMode then ThirdPerson.Update(env, s.third, dt, tx, ty, tz) else s.third;
    s.(third := third, shake := DecayShake(env, s.shake, dt))
  }

  /** Frames in a row. */
  function Run(env: Env, s: Sys, dts: seq<real>): (s': Sys)
    requires Valid(env)
    decreases |dts|
  {
    if |dts| == 0 then s else Run(env, Update(env, s, dts[0], 0.0, 0.0, 0.0), dts[1..])
  }

  /** Over any run of frames with time going forwards the shake never grows
      and the camera limits keep holding. */
  lemma {:induction false} ShakeNeverGrows(env: Env, s: Sys, dts: seq<real>)
    requires Valid(env) && Inv(s)
    requires forall k :: 0 <= k < |dts| ==> 0.0 <= dts[k]
    ensures Inv(Run(env, s, dts)) && Run(env, s, dts).shake <= s.shake
    decreases |dts|
  {
    if |dts| > 0 {
      ShakeNeverGrows(env, Update(env, s, dts[0], 0.0, 0.0, 0.0), dts[1..]);
    }
  }

  /** `cameraYaw`: the yaw of whichever camera is active. */
  function CameraYaw(s: Sys): (r: real)
    ensures s.mode == ThirdPersonMode ==> r == s.third.yaw
    ensures s.mode == FirstPersonMode ==> r == s.first.yaw
  {
    if s.mode == ThirdPersonMode then ThirdPerson.CameraYaw(s.third) else FirstPerson.CameraYaw(s.first)
  }

  /** In either mode horizontal mouse motion turns the steering yaw by
      exactly -dx times the shared sensitivity, without limit, so moving the
      mouse back restores it; vertical motion and the wheel never change it. */
  lemma YawFollowsInput(s: Sys, dx: real, dy: real, scroll: real)
    ensures CameraYaw(ApplyInput(s, dx, dy, scroll)) == CameraYaw(s) - dx * ThirdPerson.SENSITIVITY
    ensures ThirdPerson.SENSITIVITY == FirstPerson.SENSITIVITY
    ensures CameraYaw(ApplyInput(s, 0.0, dy, scroll)) == CameraYaw(s)
    ensures CameraYaw(ApplyInput(ApplyInput(s, dx, dy, scroll), -dx, dy, scroll)) == CameraYaw(s)
  {
  }

  /** Right after switching to first person the reported yaw is 0, whatever
      the orbit camera was doing. */
  lemma YawAfterToggle(s: Sys)
    requires s.mode == ThirdPersonMode
    ensures CameraYaw(Toggle(s)) == 0.0
  {
  }
}
