/** The player's otter: a five-state machine (IDLE, WALK, FLY, FALL,
    GAME_OVER) with camera-relative movement, exponential velocity damping,
    flying height control, a ground clamp and a bounce off the world border. */
module OtterController {
  import opened Host
  import opened MathHelpers
  import CactusBorder

  const WALK_SPEED: real := 8.0
  const FLY_SPEED: real := 30.0
  const FLY_ASCEND_SPEED: real := 16.0
  const FLY_DESCEND_SPEED: real := 12.0
  const FALL_ACCEL: real := 15.0
  const MAX_FALL_SPEED: real := 60.0
  const TURN_SPEED: real := 8.0
  const BOUNCE_STRENGTH: real := 15.0

  datatype OtterState = Idle | Walk | Fly | Fall | GameOver

  /** The controller's simulated state: model position, velocity, heading
      and the private timers. */
  datatype Otter = Otter(
    state: OtterState,
    x: real, y: real, z: real,
    vx: real, vy: real, vz: real,
    heading: real,
    flyHeight: real,
    fallSpeed: real,
    fallTime: real,
    time: real)

  /** One frame's input: the WASD direction, the fly and descend keys and the
      camera's yaw. */
  datatype Input = Input(moveX: real, moveY: real, wantFly: bool, wantDescend: bool, cameraYaw: real)

  /** The state a freshly constructed controller is in. */
  function Initial(ground: (real, real) -> real): (o: Otter)
    ensures o.state == Idle
    ensures o.x == 0.0 && o.z == 0.0 && o.y == ground(0.0, 0.0) + 0.1
  {
    Otter(Idle, 0.0, ground(0.0, 0.0) + 0.1, 0.0,
          0.0, 0.0, 0.0, 0.0, 0.0, 0.0, 0.0, 0.0)
  }

  /** `respawn`: back to IDLE at the spawn point, standing 0.1 above the
      ground, motionless, facing heading 0, with every timer cleared except
      the animation clock. */
  function Respawn(ground: (real, real) -> real, o: Otter): (r: Otter)
    ensures r.state == Idle
    ensures r.x == 0.0 && r.z == 0.0 && r.y == ground(0.0, 0.0) + 0.1
    ensures r.vx == 0.0 && r.vy == 0.0 && r.vz == 0.0
    ensures r.heading == 0.0 && r.flyHeight == 0.0 && r.fallSpeed == 0.0 && r.fallTime == 0.0
    ensures r.time == o.time
  {
    Initial(ground).(time := o.time)
  }

  /** State transitions of a ground or flying frame: the fly key takes off
      from the ground with a target height 2 above the otter; otherwise a
      grounded otter is WALK while moving and IDLE while not. FLY is left only
      by landing. */
  function Transition(state: OtterState, y: real, flyHeight: real, wantFly: bool, isMoving: bool)
    : (r: (OtterState, real))
    requires state == Idle || state == Walk || state == Fly
    ensures wantFly && state != Fly ==> r == (Fly, y + 2.0)
    ensures state == Fly ==> r == (Fly, flyHeight)
    ensures !wantFly && state != Fly ==> r.0 == (if isMoving then Walk else Idle) && r.1 == flyHeight
    ensures r.0 == Fly <==> (state == Fly || wantFly)
  {
    if wantFly && state != Fly then (Fly, y + 2.0)
    else if state != Fly then
      if isMoving && state == Idle then (Walk, flyHeight)
      else if !isMoving && state == Walk then (Idle, flyHeight)
      else (state, flyHeight)
    else (state, flyHeight)
  }

  /** Horizontal velocity and heading after damping. The speed is chosen from
      whether the otter was flying before this frame's transition. */
  datatype Motion = Motion(vx: real, vz: real, heading: real)

  function DampVelocity(env: Env, vx: real, vz: real, heading: real, wasFlying: bool,
                        isMoving: bool, moveX: real, moveZ: real, dt: real): (m: Motion)
    requires Valid(env)
    ensures isMoving ==>
              var speed := if wasFlying then FLY_SPEED else WALK_SPEED;
              && Between(m.vx, vx, moveX * speed)
              && Between(m.vz, vz, moveZ * speed)
              && Between(m.heading, heading, heading + AngleDiff(heading, env.atan2(moveX, moveZ)))
    ensures !isMoving ==> Between(m.vx, vx, 0.0) && Between(m.vz, vz, 0.0) && m.heading == heading
    ensures dt <= 0.0 ==> m.vx == vx && m.vz == vz && m.heading == heading
  {
    var speed := if wasFlying then FLY_SPEED else WALK_SPEED;
    if isMoving then
      Motion(Damp(env, vx, moveX * speed, 14.0, dt),
             Damp(env, vz, moveZ * speed, 14.0, dt),
             DampAngle(env, heading, env.atan2(moveX, moveZ), TURN_SPEED, dt))
    else
      Motion(Damp(env, vx, 0.0, 10.0, dt), Damp(env, vz, 0.0, 10.0, dt), heading)
  }

  /** Result of the flying height step: new state, fly height and y. */
  datatype FlyResult = FlyResult(state: OtterState, flyHeight: real, y: real)

  /** Flying: the target height climbs at 16/s while the fly key is held
      and sinks at 12/s while descend is held; at or below half a unit above
      the ground the otter lands (target cleared, WALK or IDLE by movement,
      y untouched this frame); otherwise y is damped towards the target. */
  function FlyStep(env: Env, y: real, flyHeight: real, terrainH: real, wantFly: bool,
                   wantDescend: bool, isMoving: bool, dt: real): (r: FlyResult)
    requires Valid(env)
    ensures var target := flyHeight + (if wantFly then FLY_ASCEND_SPEED * dt else 0.0)
                                    - (if wantDescend then FLY_DESCEND_SPEED * dt else 0.0);
            if target <= terrainH + 0.5 then
              r.flyHeight == 0.0 && r.state == (if isMoving then Walk else Idle) && r.y == y
            else
              r.flyHeight == target && r.state == Fly && Between(r.y, y, target)
  {
    var h1 := if wantFly then flyHeight + FLY_ASCEND_SPEED * dt else flyHeight;
    var h2 := if wantDescend then h1 - FLY_DESCEND_SPEED * dt else h1;
    var minFlyH := terrainH + 0.5;
    if h2 <= minFlyH then FlyResult(if isMoving then Walk else Idle, 0.0, y)
    else FlyResult(Fly, h2, Damp(env, y, h2, 6.0, dt))
  }

  /** On the ground y is damped towards 0.1 above the terrain and then
      clamped so it never ends below that. */
  function GroundStep(env: Env, y: real, terrainH: real, dt: real): (r: real)
    requires Valid(env)
    ensures r >= terrainH + 0.1
    ensures y <= terrainH + 0.1 ==> r == terrainH + 0.1
    ensures y >= terrainH + 0.1 ==> r <= y
  {
    var targetY := terrainH + 0.1;
    var y1 := Damp(env, y, targetY, 18.0, dt);
    if y1 < targetY then targetY else y1
  }

  const SAFE_RADIUS_FACTOR: real := 0.95

  /** Push an otter that has left the border disc back inside along the same
      ray to 95% of the border radius, bounce it towards the centre at 15
      units/s and turn it to face the centre. Inside the disc nothing
      changes. */
  function Bounce(env: Env, o: Otter): (r: Otter)
    requires Valid(env)
    ensures !CactusBorder.IsOutsideBorder(r.x, r.z)
    ensures !CactusBorder.IsOutsideBorder(o.x, o.z) ==> r == o
    ensures CactusBorder.IsOutsideBorder(o.x, o.z) ==>
              var safeR := CactusBorder.BorderRadius() * SAFE_RADIUS_FACTOR;
              && r.x * r.x + r.z * r.z == safeR * safeR
              && r.x * o.z == r.z * o.x
              && (0.0 < o.x ==> 0.0 < r.x) && (o.x < 0.0 ==> r.x < 0.0)
              && (0.0 < o.z ==> 0.0 < r.z) && (o.z < 0.0 ==> r.z < 0.0)
              && r.vx * r.vx + r.vz * r.vz == BOUNCE_STRENGTH * BOUNCE_STRENGTH
              && r.vx * safeR == -BOUNCE_STRENGTH * r.x && r.vz * safeR == -BOUNCE_STRENGTH * r.z
              && r.heading == env.atan2(-(r.x / safeR), -(r.z / safeR))
    ensures r.state == o.state && r.y == o.y && r.vy == o.vy
  {
    if CactusBorder.IsOutsideBorder(o.x, o.z) then
      var sq := o.x * o.x + o.z * o.z;
      SqrtPositive(env, sq);
      var k := BounceKick(o.x, o.z, env.sqrt(sq));
      o.(x := k.x, z := k.z, vx := k.vx, vz := k.vz, heading := env.atan2(-k.nx, -k.nz))
    else o
  }

  /** Where and how fast a bounce sends a point (px, pz) lying beyond the
      border at distance `dist` from the centre. */
  datatype Kick = Kick(nx: real, nz: real, x: real, z: real, vx: real, vz: real)

  /** The geometry of the bounce: the unit direction (nx, nz) scaled to the
      safe radius lies on that circle, on the same ray and in the same
      quadrant, strictly inside the border; the reversed direction scaled to
      the bounce strength has that length and points at the centre. */
  function BounceKick(px: real, pz: real, dist: real): (k: Kick)
    requires 0.0 < px * px + pz * pz
    requires 0.0 < dist && dist * dist == px * px + pz * pz
    ensures var safeR := CactusBorder.BorderRadius() * SAFE_RADIUS_FACTOR;
            && k.nx == px / dist && k.nz == pz / dist
            && k.x * k.x + k.z * k.z == safeR * safeR
            && k.x * pz == k.z * px
            && (0.0 < px ==> 0.0 < k.x) && (px < 0.0 ==> k.x < 0.0)
            && (0.0 < pz ==> 0.0 < k.z) && (pz < 0.0 ==> k.z < 0.0)
            && k.vx * k.vx + k.vz * k.vz == BOUNCE_STRENGTH * BOUNCE_STRENGTH
            && k.vx * safeR == -BOUNCE_STRENGTH * k.x && k.vz * safeR == -BOUNCE_STRENGTH * k.z
            && -(k.x / safeR) == -k.nx && -(k.z / safeR) == -k.nz
            && !CactusBorder.IsOutsideBorder(k.x, k.z)
  {
    var safeR := CactusBorder.BorderRadius() * SAFE_RADIUS_FACTOR;
    var nx := px / dist;
    var nz := pz / dist;
    var k := Kick(nx, nz, nx * safeR, nz * safeR, -nx * BOUNCE_STRENGTH, -nz * BOUNCE_STRENGTH);
    KickGeometry(px, pz, dist, k);
    k
  }

  /** The bounce geometry for the kick built from the unit direction of
      (px, pz); this is the contract of `BounceKick` in lemma form. */
  lemma KickGeometry(px: real, pz: real, dist: real, k: Kick)
    requires 0.0 < px * px + pz * pz
    requires 0.0 < dist && dist * dist == px * px + pz * pz
    requires var safeR := CactusBorder.BorderRadius() * SAFE_RADIUS_FACTOR;
             k == Kick(px / dist, pz / dist, (px / dist) * safeR, (pz / dist) * safeR,
                       -(px / dist) * BOUNCE_STRENGTH, -(pz / dist) * BOUNCE_STRENGTH)
    ensures var safeR := CactusBorder.BorderRadius() * SAFE_RADIUS_FACTOR;
            && k.nx == px / dist && k.nz == pz / dist
            && k.x * k.x + k.z * k.z == safeR * safeR
            && k.x * pz == k.z * px
            && (0.0 < px ==> 0.0 < k.x) && (px < 0.0 ==> k.x < 0.0)
            && (0.0 < pz ==> 0.0 < k.z) && (pz < 0.0 ==> k.z < 0.0)
            && k.vx * k.vx + k.vz * k.vz == BOUNCE_STRENGTH * BOUNCE_STRENGTH
            && k.vx * safeR == -BOUNCE_STRENGTH * k.x && k.vz * safeR == -BOUNCE_STRENGTH * k.z
            && -(k.x / safeR) == -k.nx && -(k.z / safeR) == -k.nz
            && !CactusBorder.IsOutsideBorder(k.x, k.z)
  {
    var safeR := CactusBorder.BorderRadius() * SAFE_RADIUS_FACTOR;
    KickPosition(px, pz, dist, safeR);
    UnitNormal(px, pz, dist, px * px + pz * pz);
    KickVelocity(px / dist, pz / dist, safeR);
  }

  /** The point (px, pz) moved along its own ray to the safe radius lies on
      that circle, in the same quadrant, strictly inside the border, and
      divides back to the unit direction. */
  lemma KickPosition(px: real, pz: real, dist: real, safeR: real)
    requires 0.0 < px * px + pz * pz
    requires 0.0 < dist && dist * dist == px * px + pz * pz
    requires safeR == CactusBorder.BorderRadius() * SAFE_RADIUS_FACTOR
    ensures var x := (px / dist) * safeR;
            var z := (pz / dist) * safeR;
            && x * x + z * z == safeR * safeR
            && x * pz == z * px
            && (0.0 < px ==> 0.0 < x) && (px < 0.0 ==> x < 0.0)
            && (0.0 < pz ==> 0.0 < z) && (pz < 0.0 ==> z < 0.0)
            && -(x / safeR) == -(px / dist) && -(z / safeR) == -(pz / dist)
            && !CactusBorder.IsOutsideBorder(x, z)
  {
    UnitNormal(px, pz, dist, px * px + pz * pz);
    OnCircle(px / dist, pz / dist, safeR);
    SameRay(px, pz, dist, safeR);
    PositiveScale(px, dist, safeR);
    PositiveScale(pz, dist, safeR);
  }

  /** The reversed unit direction scaled to the bounce strength has that
      length and points from the safe-circle position towards the centre. */
  lemma KickVelocity(nx: real, nz: real, safeR: real)
    requires nx * nx + nz * nz == 1.0
    ensures var vx := -nx * BOUNCE_STRENGTH;
            var vz := -nz * BOUNCE_STRENGTH;
            && vx * vx + vz * vz == BOUNCE_STRENGTH * BOUNCE_STRENGTH
            && vx * safeR == -BOUNCE_STRENGTH * (nx * safeR)
            && vz * safeR == -BOUNCE_STRENGTH * (nz * safeR)
  {
    OnCircle(nx, nz, BOUNCE_STRENGTH);
    assert (-nx * BOUNCE_STRENGTH) * (-nx * BOUNCE_STRENGTH) == (nx * BOUNCE_STRENGTH) * (nx * BOUNCE_STRENGTH);
    assert (-nz * BOUNCE_STRENGTH) * (-nz * BOUNCE_STRENGTH) == (nz * BOUNCE_STRENGTH) * (nz * BOUNCE_STRENGTH);
  }

  /** Dividing a non-zero vector by its length `d` (whose square is the
      vector's squared length `s`) gives a unit vector. */
  lemma UnitNormal(px: real, pz: real, d: real, s: real)
    requires 0.0 < s && 0.0 < d
    requires s == px * px + pz * pz && d * d == s
    ensures (px / d) * (px / d) + (pz / d) * (pz / d) == 1.0
  {
    DivMul(px, d);
    DivMul(pz, d);
    ScaledSquare(px / d, d, px, s);
    ScaledSquare(pz / d, d, pz, s);
    SharesSum((px / d) * (px / d), (pz / d) * (pz / d), s, px * px, pz * pz);
  }

  lemma DivMul(p: real, d: real)
    requires d != 0.0
    ensures (p / d) * d == p
  {
  }

  lemma ScaledSquare(n: real, d: real, p: real, k: real)
    requires n * d == p && d * d == k
    ensures (n * n) * k == p * p
  {
    assert (n * n) * (d * d) == (n * d) * (n * d);
  }

  /** Two shares of a positive whole that add up to it sum to one. */
  lemma SharesSum(a: real, b: real, k: real, u: real, w: real)
    requires 0.0 < k
    requires a * k == u && b * k == w && u + w == k
    ensures a + b == 1.0
  {
    assert (a + b) * k == a * k + b * k;
  }

  /** A unit vector scaled by `s` has length |s|. */
  lemma OnCircle(nx: real, nz: real, s: real)
    requires nx * nx + nz * nz == 1.0
    ensures (nx * s) * (nx * s) + (nz * s) * (nz * s) == s * s
  {
    assert (nx * s) * (nx * s) + (nz * s) * (nz * s) == (nx * nx + nz * nz) * (s * s);
  }

  /** Scaling a point by a positive factor keeps it on the same ray from the
      origin. */
  lemma SameRay(px: real, pz: real, d: real, s: real)
    requires 0.0 < d && 0.0 < s
    ensures ((px / d) * s) * pz == ((pz / d) * s) * px
  {
    var k := s / d;
    assert (px / d) * s == px * k;
    assert (pz / d) * s == pz * k;
  }

  /** Dividing by and multiplying with positive numbers keeps the sign. */
  lemma PositiveScale(p: real, d: real, s: real)
    requires 0.0 < d && 0.0 < s
    ensures 0.0 < p ==> 0.0 < (p / d) * s
    ensures p < 0.0 ==> (p / d) * s < 0.0
  {
  }

  /** `updateFalling`: the fall speed grows by 15/s^2 up to 60, the otter
      drops by it, and after more than 1.5 s of falling the game is over. */
  function UpdateFalling(o: Otter, dt: real): (r: Otter)
    ensures r.fallTime == o.fallTime + dt
    ensures r.fallSpeed <= MAX_FALL_SPEED
    ensures o.fallSpeed <= MAX_FALL_SPEED && 0.0 <= dt ==> o.fallSpeed <= r.fallSpeed
    ensures r.fallSpeed < MAX_FALL_SPEED ==> r.fallSpeed == o.fallSpeed + FALL_ACCEL * dt
    ensures r.y == o.y - r.fallSpeed * dt
    ensures r.state == (if r.fallTime > 1.5 then GameOver else o.state)
    ensures r.x == o.x && r.z == o.z && r.vx == o.vx && r.vy == o.vy && r.vz == o.vz
    ensures r.heading == o.heading && r.flyHeight == o.flyHeight && r.time == o.time
  {
    var fallTime := o.fallTime + dt;
    var accel := o.fallSpeed + FALL_ACCEL * dt;
    var fallSpeed := if accel < MAX_FALL_SPEED then accel else MAX_FALL_SPEED;
    var y := o.y - fallSpeed * dt;
    o.(fallTime := fallTime, fallSpeed := fallSpeed, y := y,
       state := if fallTime > 1.5 then GameOver else o.state)
  }

  /** Length of the WASD vector and the camera-relative unit direction it
      asks for (zero below the 0.01 dead zone). */
  function InputLength(env: Env, input: Input): real {
    env.sqrt(input.moveX * input.moveX + input.moveY * input.moveY)
  }

  function IsMoving(env: Env, input: Input): bool {
    InputLength(env, input) > 0.01
  }

  /** `update`: one frame of the controller. */
  function Update(env: Env, ground: (real, real) -> real, o: Otter, dt: real, input: Input): (r: Otter)
    requires Valid(env)
    ensures r.time == o.time + dt
    ensures o.state == GameOver ==> r == o.(time := o.time + dt)
    ensures o.state == Fall ==> r == UpdateFalling(o.(time := o.time + dt), dt)
    ensures o.state != Fall ==> r.state != Fall
    ensures o.state != Fall && o.state != GameOver ==>
              && (r.state == Idle || r.state == Walk || r.state == Fly)
              && !CactusBorder.IsOutsideBorder(r.x, r.z)
    ensures o.state != Fall && o.state != GameOver && !input.wantFly && o.state != Fly ==>
              r.vy == 0.0 && r.state == (if IsMoving(env, input) then Walk else Idle)
  {
    var o1 := o.(time := o.time + dt);
    if o1.state == GameOver then o1
    else if o1.state == Fall then UpdateFalling(o1, dt)
    else
      var isMoving := IsMoving(env, input);
      var angle := env.atan2(input.moveX, -input.moveY) + input.cameraYaw;
      var moveX := if isMoving then env.sin(angle) else 0.0;
      var moveZ := if isMoving then env.cos(angle) else 0.0;
      var isFlying := o1.state == Fly;
      var (state, flyHeight) := Transition(o1.state, o1.y, o1.flyHeight, input.wantFly, isMoving);
      var m := DampVelocity(env, o1.vx, o1.vz, o1.heading, isFlying, isMoving, moveX, moveZ, dt);
      var x := o1.x + m.vx * dt;
      var z := o1.z + m.vz * dt;
      var terrainH := ground(x, z);
      var o2 :=
        if state == Fly then
          var f := FlyStep(env, o1.y, flyHeight, terrainH, input.wantFly, input.wantDescend, isMoving, dt);
          o1.(state := f.state, flyHeight := f.flyHeight, y := f.y, x := x, z := z,
              vx := m.vx, vz := m.vz, heading := m.heading)
        else
          o1.(state := state, flyHeight := flyHeight, y := GroundStep(env, o1.y, terrainH, dt),
              vy := 0.0, x := x, z := z, vx := m.vx, vz := m.vz, heading := m.heading);
      Bounce(env, o2)
  }
}
