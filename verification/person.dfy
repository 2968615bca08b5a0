/** One member of the crowd: its record, its seven states, and the steps of
    the crowd update that read and write that person alone (drowning
    countdown, idling, wandering, chasing, being launched and the three
    phases of fleeing). */
module Person {
  import opened Host
  import Terrain
  import Wandering
  import TickRate
  import opened Wrappers

  const CHASE_SPEED: real := 6.0
  const FLEE_RADIUS: real := 50.0
  const FLEE_GRAVITY: real := 18.0
  const FLEE_LAUNCH_UP: real := 55.0
  const FLEE_LAUNCH_OUT: real := 3.0
  /** Length of flee phase 1, the fold. */
  const LFOLD_DURATION: real := 0.6
  /** Length of flee phase 2, the crumble. */
  const CRUMBLE_DURATION: real := 1.0
  const WATER_LEVEL: real := 0.0
  /** Seconds under water before drowning starts. */
  const DROWN_TIME: real := 10.0
  /** Seconds of drowning before death. */
  const DROWNING_ANIM_TIME: real := 3.0
  /** Wanderers turn back beyond this distance from the origin. */
  const WANDER_RADIUS: real := Terrain.HALF_WORLD as real * 0.65
  /** People only walk onto ground at least this high. */
  const MIN_GROUND: real := 0.5
  /** Height of one rider in the stack, per unit of scale. */
  const STACK_HEIGHT: real := 1.4
  const DETECT_RANGE: real := 40.0
  const MOUNT_RANGE: real := 1.5

  datatype State = Wander | Idle | Chase | Riding | Drowning | Dead | Flee

  /** A person. `stackSlot` is the position in the rider stack (-1 when not
      riding); `fleePhase` is 0 airborne, 1 folding, 2 crumbling. */
  datatype Person = Person(
    state: State,
    x: real, y: real, z: real,
    heading: real, speed: real,
    wanderTimer: real, wanderInterval: real, idleTimer: real,
    stackSlot: int, scale: real,
    underwaterTimer: real, drowningTimer: real,
    drowningX: real, drowningZ: real, drowningY: real,
    accum: real,
    fleeTimer: real, fleeHeading: real,
    fleeVx: real, fleeVy: real, fleeVz: real,
    fleePhase: int)

  /** What every step keeps true of a person: the underwater timer stays
      below the drowning threshold until drowning starts, a drowning person
      has not reached its death time, and a fleeing person is in one of the
      three phases with the phase timer below that phase's end. */
  predicate WellFormed(p: Person) {
    && (p.state != Drowning && p.state != Dead ==> p.underwaterTimer < DROWN_TIME)
    && (p.state == Drowning ==> p.drowningTimer < DROWNING_ANIM_TIME)
    && (p.state == Flee ==> 0 <= p.fleePhase <= 2)
    && (p.state == Flee && p.fleePhase == 1 ==> p.fleeTimer < LFOLD_DURATION)
    && (p.state == Flee && p.fleePhase == 2 ==> p.fleeTimer < CRUMBLE_DURATION)
  }

  /** A person as the constructor places it: wandering or idle, not riding,
      dry, with every drowning and flee field zero. */
  function Placed(x: real, h: real, z: real, heading: real, speed: real, wanderTimer: real,
                  wanderInterval: real, idleTimer: real, wandering: bool, scale: real, accum: real): (p: Person)
    ensures WellFormed(p)
    ensures p.state == Wander || p.state == Idle
    ensures p.stackSlot == -1 && p.underwaterTimer == 0.0 && p.y == h
  {
    Person(if wandering then Wander else Idle, x, h, z, heading, speed,
           wanderTimer, wanderInterval, idleTimer, -1, scale,
           0.0, 0.0, 0.0, 0.0, 0.0, accum, 0.0, 0.0, 0.0, 0.0, 0.0, 0)
  }

  // ---------------------------------------------------------------- drowning

  /** `updateDrowning`: the drowning timer advances and the person dies once
      it reaches 3 seconds. Only the timer and the state change. */
  function UpdateDrowning(p: Person, dt: real): (r: Person)
    requires p.state == Drowning
    ensures r.drowningTimer == p.drowningTimer + dt
    ensures r.state == Dead <==> p.drowningTimer + dt >= DROWNING_ANIM_TIME
    ensures r.state == Drowning || r.state == Dead
    ensures r.(state := p.state, drowningTimer := p.drowningTimer) == p
  {
    var t := p.drowningTimer + dt;
    if t >= DROWNING_ANIM_TIME then p.(drowningTimer := t, state := Dead)
    else p.(drowningTimer := t)
  }

  /** A drowning person stepped through a run of frames, stopping once dead
      (the update skips the dead). */
  function DrownFrames(p: Person, dts: seq<real>): Person
    requires p.state == Drowning || p.state == Dead
    decreases |dts|
  {
    if |dts| == 0 || p.state == Dead then p
    else DrownFrames(UpdateDrowning(p, dts[0]), dts[1..])
  }

  lemma {:induction false} SumNonneg(dts: seq<real>)
    requires forall k :: 0 <= k < |dts| ==> 0.0 <= dts[k]
    ensures 0.0 <= TickRate.Sum(dts)
    decreases |dts|
  {
    if |dts| > 0 {
      SumNonneg(dts[1..]);
    }
  }

  /** With non-negative frame times a drowning person ends dead exactly when
      the frames add up to the remaining drowning time. */
  lemma {:induction false} DrownFramesDead(p: Person, dts: seq<real>)
    requires p.state == Drowning && WellFormed(p)
    requires forall k :: 0 <= k < |dts| ==> 0.0 <= dts[k]
    ensures DrownFrames(p, dts).state == Dead <==> p.drowningTimer + TickRate.Sum(dts) >= DROWNING_ANIM_TIME
    decreases |dts|
  {
    if |dts| > 0 {
      var q := UpdateDrowning(p, dts[0]);
      assert DrownFrames(p, dts) == DrownFrames(q, dts[1..]);
      assert TickRate.Sum(dts) == dts[0] + TickRate.Sum(dts[1..]);
      SumNonneg(dts[1..]);
      if q.state == Drowning {
        DrownFramesDead(q, dts[1..]);
      }
    }
  }

  /** Result of `checkDrowning`: the person afterwards and whether it has
      just started drowning (the caller then skips the rest of its step). */
  datatype Submersion = Submersion(p: Person, drowned: bool)

  /** `checkDrowning` with `startDrowning`: below the water line the
      underwater timer grows by the step; at or above it the timer is reset.
      The tick on which the timer reaches DROWN_TIME starts drowning: the
      drowning timer restarts and the anchor is the otter's position (with
      the rider's stack height) for a rider, the person's own position
      otherwise. The stack slot is left as it was. */
  function CheckDrowning(p: Person, dt: real, y: real, otterPos: Option<(real, real, real)>): (r: Submersion)
    ensures r.drowned <==> y < WATER_LEVEL && p.underwaterTimer + dt >= DROWN_TIME
    ensures !r.drowned ==>
              r.p == p.(underwaterTimer := if y < WATER_LEVEL then p.underwaterTimer + dt else 0.0)
    ensures r.drowned ==>
              && r.p.state == Drowning && r.p.drowningTimer == 0.0
              && r.p.underwaterTimer == p.underwaterTimer + dt
    ensures r.drowned && p.state == Riding && otterPos.Some? ==>
              r.p.drowningX == otterPos.value.0 && r.p.drowningZ == otterPos.value.2
              && r.p.drowningY == otterPos.value.1 + 0.8 + p.stackSlot as real * STACK_HEIGHT * p.scale
    ensures r.drowned && p.state != Riding ==>
              r.p.drowningX == p.x && r.p.drowningY == p.y && r.p.drowningZ == p.z
    ensures r.p.stackSlot == p.stackSlot && r.p.x == p.x && r.p.y == p.y && r.p.z == p.z
    ensures !r.drowned ==> r.p.underwaterTimer < DROWN_TIME
    ensures r.drowned ==> WellFormed(r.p)
  {
    if y < WATER_LEVEL then
      var timer := p.underwaterTimer + dt;
      if timer >= DROWN_TIME then Submersion(StartDrowning(p.(underwaterTimer := timer), otterPos), true)
      else Submersion(p.(underwaterTimer := timer), false)
    else Submersion(p.(underwaterTimer := 0.0), false)
  }

  /** `startDrowning`: enter DROWNING with a fresh timer and fix the spot the
      person drowns at. */
  function StartDrowning(p: Person, otterPos: Option<(real, real, real)>): (r: Person)
    ensures r.state == Drowning && r.drowningTimer == 0.0
    ensures r.(state := p.state, drowningTimer := p.drowningTimer, drowningX := p.drowningX,
               drowningY := p.drowningY, drowningZ := p.drowningZ) == p
  {
    var q := p.(state := Drowning, drowningTimer := 0.0);
    if p.state == Riding then
      match otterPos
      case Some((ox, oy, oz)) =>
        q.(drowningX := ox, drowningZ := oz, drowningY := oy + 0.8 + p.stackSlot as real * STACK_HEIGHT * p.scale)
      case None => q.(drowningX := 0.0, drowningZ := 0.0, drowningY := 0.0)
    else q.(drowningX := p.x, drowningZ := p.z, drowningY := p.y)
  }

  /** The person is dry or has been under water for less than DROWN_TIME,
      as every non-drowning person is; one more submerged step of `dt`
      starts drowning exactly when it brings the total to DROWN_TIME. */
  lemma DrownsOnCrossingTick(p: Person, dt: real, y: real, otterPos: Option<(real, real, real)>)
    requires WellFormed(p)
    requires p.state != Drowning && p.state != Dead
    requires y < WATER_LEVEL
    ensures CheckDrowning(p, dt, y, otterPos).drowned <==>
              p.underwaterTimer < DROWN_TIME <= p.underwaterTimer + dt
  {
  }

  // ---------------------------------------------------------------- idling

  /** `updateIdle`: the idle countdown runs down; when it reaches 0 the
      person starts wandering with a fresh wander timer, turned by less than
      a quarter turn either way. */
  function IdleStep(p: Person, dt: real, draw: real): (r: Person)
    requires p.state == Idle
    requires 0.0 <= draw < 1.0
    ensures r.idleTimer == p.idleTimer - dt
    ensures r.state == (if p.idleTimer - dt <= 0.0 then Wander else Idle)
    ensures r.state == Wander ==>
              && r.wanderTimer == 0.0
              && p.heading - PI * 0.5 <= r.heading <= p.heading + PI * 0.5
              && r.(state := Idle, heading := p.heading, wanderTimer := p.wanderTimer) == p.(idleTimer := r.idleTimer)
    ensures r.state == Idle ==> r == p.(idleTimer := r.idleTimer)
  {
    var t := p.idleTimer - dt;
    if t <= 0.0 then
      p.(idleTimer := t, state := Wander, heading := Wandering.Turn(p.heading, draw, PI), wanderTimer := 0.0)
    else p.(idleTimer := t)
  }

  // ---------------------------------------------------------------- wandering

  /** Random draws a wandering step may use, in the order the source takes
      them: the turn, the next interval, the idle chance, the idle time. */
  datatype WanderDraws = WanderDraws(turn: real, interval: real, idleChance: real, idleTime: real)

  predicate DrawsValid(d: WanderDraws) {
    && 0.0 <= d.turn < 1.0 && 0.0 <= d.interval < 1.0
    && 0.0 <= d.idleChance < 1.0 && 0.0 <= d.idleTime < 1.0
  }

  /** `updateWander`: step along the heading, turn back at the roaming
      radius (a half turn), refuse ground below 0.5 (turn a quarter and step
      back) otherwise stand on it, and run the wander timer; when it fires the
      person turns by (draw - 1/2) * PI, less than a quarter turn either way,
      draws an interval in [3, 8) and with chance 0.35 goes idle for [2, 7)
      seconds. The heading is the old one plus exactly these turns. */
  function WanderStep(env: Env, ground: (real, real) -> real, p: Person, dt: real, d: WanderDraws): (r: Person)
    requires Valid(env)
    requires p.state == Wander
    requires DrawsValid(d)
    ensures var m := Wandering.Move(env, p.heading, p.speed, dt);
            var b := Wandering.KeepInRadius(p.heading, p.x, p.z, m.0, m.1, WANDER_RADIUS);
            var th := ground(b.x, b.z);
            && (th >= MIN_GROUND ==> r.x == b.x && r.z == b.z && r.y == th)
            && (th < MIN_GROUND ==> r.x == b.x - m.0 && r.z == b.z - m.1 && r.y == p.y)
    ensures var m := Wandering.Move(env, p.heading, p.speed, dt);
            var b := Wandering.KeepInRadius(p.heading, p.x, p.z, m.0, m.1, WANDER_RADIUS);
            var back := if (p.x + m.0) * (p.x + m.0) + (p.z + m.1) * (p.z + m.1) > WANDER_RADIUS * WANDER_RADIUS
                        then PI else 0.0;
            var aside := if ground(b.x, b.z) < MIN_GROUND then PI * 0.5 else 0.0;
            var retarget := if p.wanderTimer + dt >= p.wanderInterval then (d.turn - 0.5) * PI else 0.0;
            r.heading == p.heading + back + aside + retarget
    ensures r.y == p.y || r.y >= MIN_GROUND
    ensures p.wanderTimer + dt >= p.wanderInterval ==>
              && r.wanderTimer == 0.0
              && 3.0 <= r.wanderInterval < 8.0
              && (r.state == Idle <==> d.idleChance < 0.35)
              && (r.state == Idle ==> 2.0 <= r.idleTimer < 7.0)
    ensures p.wanderTimer + dt < p.wanderInterval ==>
              r.wanderTimer == p.wanderTimer + dt && r.wanderInterval == p.wanderInterval && r.state == Wander
    ensures r.state == Wander || r.state == Idle
    ensures r.underwaterTimer == p.underwaterTimer && r.stackSlot == p.stackSlot && r.accum == p.accum
  {
    var m := Wandering.Move(env, p.heading, p.speed, dt);
    var b := Wandering.KeepInRadius(p.heading, p.x, p.z, m.0, m.1, WANDER_RADIUS);
    var th := ground(b.x, b.z);
    var p1 := if th < MIN_GROUND then p.(heading := b.heading + PI * 0.5, x := b.x - m.0, z := b.z - m.1)
              else p.(heading := b.heading, x := b.x, z := b.z, y := th);
    var t := Wandering.WanderTimer(p1.wanderTimer, p1.wanderInterval, dt, 3.0, 5.0, d.interval);
    if !t.fired then p1.(wanderTimer := t.timer)
    else
      var p2 := p1.(wanderTimer := t.timer, heading := Wandering.Turn(p1.heading, d.turn, PI),
                    wanderInterval := t.interval);
      if d.idleChance < 0.35 then
        ScaledDraw(d.idleTime, 5.0);
        p2.(state := Idle, idleTimer := 2.0 + d.idleTime * 5.0)
      else p2
  }

  // ---------------------------------------------------------------- chasing

  /** The moving half of `updateChase`: face the otter, run at 6 units/s and
      stand on the ground if it is at least 0.5 high. */
  function ChaseMove(env: Env, ground: (real, real) -> real, p: Person, dt: real, dx: real, dz: real): (r: Person)
    requires Valid(env)
    ensures r.heading == env.atan2(dx, dz)
    ensures 0.0 <= dt ==> -(CHASE_SPEED * dt) <= r.x - p.x <= CHASE_SPEED * dt
    ensures 0.0 <= dt ==> -(CHASE_SPEED * dt) <= r.z - p.z <= CHASE_SPEED * dt
    ensures var th := ground(r.x, r.z);
            r.y == if th >= MIN_GROUND then th else p.y
    ensures r.(x := p.x, y := p.y, z := p.z, heading := p.heading) == p
  {
    var heading := env.atan2(dx, dz);
    var m := Wandering.Move(env, heading, CHASE_SPEED, dt);
    var x := p.x + m.0;
    var z := p.z + m.1;
    var th := ground(x, z);
    p.(heading := heading, x := x, z := z, y := if th >= MIN_GROUND then th else p.y)
  }

  // ---------------------------------------------------------------- launching

  /** A product, named so that the sign facts about squares below are
      stated on one term. */
  function Mul(a: real, b: real): real {
    a * b
  }

  /** Squared horizontal length of (dx, dz). */
  function LengthSq(dx: real, dz: real): real {
    Mul(dx, dx) + Mul(dz, dz)
  }

  /** Distance from the blast origin, with a zero length replaced by 1
      (`|| 1`), so the normal is always defined. */
  function LaunchDistance(env: Env, dx: real, dz: real): (d: real)
    requires Valid(env)
    ensures 0.0 < d
    ensures env.sqrt(LengthSq(dx, dz)) != 0.0 ==> d == env.sqrt(LengthSq(dx, dz))
    ensures env.sqrt(LengthSq(dx, dz)) == 0.0 ==> d == 1.0
  {
    var s := env.sqrt(LengthSq(dx, dz));
    if s == 0.0 then 1.0 else s
  }

  lemma Square(a: real)
    ensures 0.0 <= a * a
    ensures a != 0.0 ==> 0.0 < a * a
  {
    if a > 0.0 {
      MulPositive(a, a);
    } else if a < 0.0 {
      MulPositive(-a, -a);
      assert (-a) * (-a) == a * a;
    }
  }

  lemma MulPositive(a: real, b: real)
    requires 0.0 < a && 0.0 < b
    ensures 0.0 < a * b
  {
  }

  /** Horizontal launch speed 3 * (0.7 + 0.6 * strength), where the strength
      falls linearly from 1 at the origin to 0 at the flee radius. */
  function LaunchSpeed(dist: real): (s: real)
    requires 0.0 < dist
    ensures 2.1 <= s <= 3.9
  {
    var ratio := dist / FLEE_RADIUS;
    var strength := 1.0 - (if ratio < 1.0 then ratio else 1.0);
    FLEE_LAUNCH_OUT * (0.7 + strength * 0.6)
  }

  /** Closer to the origin, stronger blast. */
  lemma LaunchSpeedMonotone(d1: real, d2: real)
    requires 0.0 < d1 <= d2
    ensures LaunchSpeed(d2) <= LaunchSpeed(d1)
  {
  }

  /** `launchPerson`: the person becomes airborne (FLEE, phase 0, timer 0)
      with an upward speed of 55 * (0.8 + 0.4 * draw), in [44, 66), and a
      horizontal velocity of the unit direction away from the origin, shifted
      on both axes by the same spread (draw - 1/2) * 0.4, times the launch
      speed at that distance; nothing else changes. */
  function Launch(env: Env, p: Person, originX: real, originZ: real, spreadDraw: real, upDraw: real): (r: Person)
    requires Valid(env)
    requires 0.0 <= upDraw < 1.0
    ensures r.state == Flee && r.fleePhase == 0 && r.fleeTimer == 0.0
    ensures 44.0 <= r.fleeVy < 66.0
    ensures var d := LaunchDistance(env, p.x - originX, p.z - originZ);
            r.fleeHeading == env.atan2((p.x - originX) / d, (p.z - originZ) / d)
    ensures var d := LaunchDistance(env, p.x - originX, p.z - originZ);
            var spread := (spreadDraw - 0.5) * 0.4;
            && r.fleeVx == Shifted((p.x - originX) / d, spread, LaunchSpeed(d))
            && r.fleeVz == Shifted((p.z - originZ) / d, spread, LaunchSpeed(d))
    ensures r.(state := p.state, fleePhase := p.fleePhase, fleeTimer := p.fleeTimer,
               fleeVx := p.fleeVx, fleeVy := p.fleeVy, fleeVz := p.fleeVz, fleeHeading := p.fleeHeading) == p
  {
    var dx := p.x - originX;
    var dz := p.z - originZ;
    var dist := LaunchDistance(env, dx, dz);
    var nx := dx / dist;
    var nz := dz / dist;
    var outSpeed := LaunchSpeed(dist);
    var spread := (spreadDraw - 0.5) * 0.4;
    ScaledDraw(upDraw, 0.4);
    p.(state := Flee, fleePhase := 0, fleeTimer := 0.0,
       fleeVx := Shifted(nx, spread, outSpeed), fleeVz := Shifted(nz, spread, outSpeed),
       fleeVy := FLEE_LAUNCH_UP * (0.8 + upDraw * 0.4),
       fleeHeading := env.atan2(nx, nz))
  }

  /** Whatever the spread draw, a person not standing on the blast origin is
      thrown outwards: the horizontal velocity has a positive component along
      the direction from the origin to the person. */
  lemma LaunchOutwards(env: Env, p: Person, originX: real, originZ: real, spreadDraw: real, upDraw: real)
    requires Valid(env)
    requires 0.0 <= upDraw < 1.0
    requires 0.0 <= spreadDraw < 1.0
    requires p.x != originX || p.z != originZ
    ensures var r := Launch(env, p, originX, originZ, spreadDraw, upDraw);
            0.0 < Dot(r.fleeVx, r.fleeVz, p.x - originX, p.z - originZ)
  {
    var r := Launch(env, p, originX, originZ, spreadDraw, upDraw);
    var dx := p.x - originX;
    var dz := p.z - originZ;
    var d := LaunchDistance(env, dx, dz);
    var sp := (spreadDraw - 0.5) * 0.4;
    LaunchDistanceLength(env, dx, dz);
    OutwardComponent(dx, dz, d, LaunchSpeed(d), sp, r.fleeVx, r.fleeVz);
  }

  /** The dot product of (ax, az) and (bx, bz). */
  function Dot(ax: real, az: real, bx: real, bz: real): real {
    ax * bx + az * bz
  }

  /** A launch velocity component: the unit direction component n shifted
      by the spread, times the speed. */
  function Shifted(n: real, spread: real, speed: real): real {
    (n + spread) * speed
  }

  /** Away from the origin the launch distance is the true length. */
  lemma LaunchDistanceLength(env: Env, dx: real, dz: real)
    requires Valid(env)
    requires dx != 0.0 || dz != 0.0
    ensures var d := LaunchDistance(env, dx, dz);
            d * d == dx * dx + dz * dz
  {
    LengthSqPositive(dx, dz);
    SqrtPositive(env, LengthSq(dx, dz));
    var r := env.sqrt(LengthSq(dx, dz));
    assert r * r == LengthSq(dx, dz);
    assert LengthSq(dx, dz) == dx * dx + dz * dz;
  }

  lemma LengthSqPositive(dx: real, dz: real)
    requires dx != 0.0 || dz != 0.0
    ensures 0.0 < LengthSq(dx, dz)
  {
    SquareNonNegative(dx);
    SquareNonNegative(dz);
  }

  lemma SquareNonNegative(a: real)
    ensures 0.0 <= Mul(a, a)
    ensures a != 0.0 ==> 0.0 < Mul(a, a)
  {
    if 0.0 < a {
      ProductPositive(a, a);
    } else if a < 0.0 {
      ProductPositive(-a, -a);
      ProductNegated(a, a);
    }
  }

  lemma ProductPositive(a: real, b: real)
    requires 0.0 < a && 0.0 < b
    ensures 0.0 < Mul(a, b)
  {
  }

  lemma ProductNegated(a: real, b: real)
    ensures Mul(-a, -b) == Mul(a, b)
  {
  }

  /** The arithmetic of `LaunchOutwards` on plain quantities: d is the length
      of (dx, dz), s a positive speed and sp a spread of at most 0.2. */
  lemma OutwardComponent(dx: real, dz: real, d: real, s: real, sp: real, vx: real, vz: real)
    requires 0.0 < d && d * d == dx * dx + dz * dz
    requires 0.0 < s && -0.2 <= sp <= 0.2
    requires vx == Shifted(dx / d, sp, s) && vz == Shifted(dz / d, sp, s)
    ensures 0.0 < Dot(vx, vz, dx, dz)
  {
    assert vx == (dx / d + sp) * s && vz == (dz / d + sp) * s;
    OutwardProducts(dx, dz, d, s, sp, vx, vz);
  }

  lemma OutwardProducts(dx: real, dz: real, d: real, s: real, sp: real, vx: real, vz: real)
    requires 0.0 < d && d * d == dx * dx + dz * dz
    requires 0.0 < s && -0.2 <= sp <= 0.2
    requires vx == (dx / d + sp) * s && vz == (dz / d + sp) * s
    ensures 0.0 < vx * dx + vz * dz
  {
    var nx := dx / d;
    var nz := dz / d;
    UnitDot(dx, dz, d, nx, nz);
    Square(dx);
    Square(dz);
    AbsWithin(dx, d);
    AbsWithin(dz, d);
    var u := dx + dz;
    BoundedProduct(sp, u, 0.2, 2.0 * d);
    var w := nx * dx + nz * dz + sp * u;
    assert 0.0 < w;
    assert vx * dx + vz * dz == s * w;
    MulPositive(s, w);
  }

  /** The normalised direction dotted with the vector gives its length. */
  lemma UnitDot(dx: real, dz: real, d: real, nx: real, nz: real)
    requires 0.0 < d && d * d == dx * dx + dz * dz
    requires nx == dx / d && nz == dz / d
    ensures nx * dx + nz * dz == d
  {
    assert nx * d == dx && nz * d == dz;
    assert (nx * dx + nz * dz) * d == d * d;
  }

  lemma AbsWithin(a: real, d: real)
    requires 0.0 < d && a * a <= d * d
    ensures -d <= a <= d
  {
    var below := d - a;
    var above := d + a;
    assert below * above == d * d - a * a;
    if 0.0 <= a {
      NonNegativeFactor(below, above);
    } else {
      NonNegativeFactor(above, below);
    }
  }

  lemma NonNegativeFactor(x: real, y: real)
    requires 0.0 < y && 0.0 <= x * y
    ensures 0.0 <= x
  {
  }

  lemma BoundedProduct(a: real, b: real, ka: real, kb: real)
    requires 0.0 <= ka && 0.0 <= kb
    requires -ka <= a <= ka && -kb <= b <= kb
    ensures -(ka * kb) <= a * b <= ka * kb
  {
    if 0.0 <= a {
      assert a * b <= a * kb <= ka * kb;
      assert -(ka * kb) <= -(a * kb) <= a * b;
    } else {
      var c := -a;
      assert c * b <= c * kb <= ka * kb;
      assert -(ka * kb) <= -(c * kb) <= c * b;
      assert a * b == -(c * b);
    }
  }

  // ---------------------------------------------------------------- fleeing

  /** Result of a flee step: the person, and whether debris must be spawned
      at its position. */
  datatype FleeResult = FleeResult(p: Person, spawn: bool)

  /** `updateFlee`. Phase 0: ballistic flight under gravity 18, landing when
      at or below the ground while falling (snapped onto it, phase 1, timer
      0). Phase 1: the fold lasts 0.6 s and its end spawns the debris and
      starts phase 2. Phase 2: the crumble lasts 1 s and ends in DEAD. */
  function FleeStep(ground: (real, real) -> real, p: Person, dt: real): (r: FleeResult)
    requires p.state == Flee
    ensures r.spawn ==> p.fleePhase == 1 && r.p.fleePhase == 2 && r.p.fleeTimer == 0.0
    ensures r.p.state == Dead ==> p.fleePhase != 0 && p.fleePhase != 1
    ensures r.p.state == Flee || r.p.state == Dead
    ensures p.fleePhase != 0 ==> r.p.x == p.x && r.p.y == p.y && r.p.z == p.z
    ensures r.p.underwaterTimer == p.underwaterTimer && r.p.stackSlot == p.stackSlot
  {
    if p.fleePhase == 0 then Airborne(ground, p, dt)
    else if p.fleePhase == 1 then Fold(p, dt)
    else Crumble(p, dt)
  }

  /** Flee phase 0: one step of the ballistic arc. */
  function Airborne(ground: (real, real) -> real, p: Person, dt: real): (r: FleeResult)
    requires p.state == Flee && p.fleePhase == 0
    ensures var vy := p.fleeVy - FLEE_GRAVITY * dt;
            var x := p.x + p.fleeVx * dt;
            var z := p.z + p.fleeVz * dt;
            var y := p.y + vy * dt;
            var th := ground(x, z);
            var lands := y <= th && vy < 0.0;
            && !r.spawn && r.p.state == Flee
            && r.p.x == x && r.p.z == z && r.p.fleeVy == vy
            && r.p.fleePhase == (if lands then 1 else 0)
            && r.p.y == (if lands then th else y)
            && r.p.fleeTimer == (if lands then 0.0 else p.fleeTimer + dt)
    ensures r.p.underwaterTimer == p.underwaterTimer && r.p.stackSlot == p.stackSlot
  {
    var vy := p.fleeVy - FLEE_GRAVITY * dt;
    var x := p.x + p.fleeVx * dt;
    var z := p.z + p.fleeVz * dt;
    var y := p.y + vy * dt;
    var th := ground(x, z);
    var lands := y <= th && vy < 0.0;
    FleeResult(p.(fleeVy := vy, x := x, z := z,
                  y := if lands then th else y,
                  fleePhase := if lands then 1 else 0,
                  fleeTimer := if lands then 0.0 else p.fleeTimer + dt), false)
  }

  /** Flee phase 1: the fold, whose end spawns the debris. */
  function Fold(p: Person, dt: real): (r: FleeResult)
    requires p.state == Flee && p.fleePhase == 1
    ensures r.spawn <==> p.fleeTimer + dt >= LFOLD_DURATION
    ensures r.p.state == Flee
    ensures r.p.fleePhase == (if r.spawn then 2 else 1)
    ensures r.p.fleeTimer == (if r.spawn then 0.0 else p.fleeTimer + dt)
    ensures r.p.(fleePhase := 1, fleeTimer := p.fleeTimer) == p
    ensures r.p.x == p.x && r.p.y == p.y && r.p.z == p.z
  {
    var timer := p.fleeTimer + dt;
    var t := Min1(timer / LFOLD_DURATION);
    if t >= 1.0 then FleeResult(p.(fleePhase := 2, fleeTimer := 0.0), true)
    else FleeResult(p.(fleeTimer := timer), false)
  }

  /** Flee phase 2: the crumble, which ends in DEAD. */
  function Crumble(p: Person, dt: real): (r: FleeResult)
    requires p.state == Flee
    ensures !r.spawn
    ensures r.p.state == Dead <==> p.fleeTimer + dt >= CRUMBLE_DURATION
    ensures r.p.state == Dead || r.p.state == Flee
    ensures r.p.(state := Flee, fleeTimer := p.fleeTimer) == p
    ensures r.p.fleeTimer == p.fleeTimer + dt
    ensures r.p.x == p.x && r.p.y == p.y && r.p.z == p.z
  {
    var timer := p.fleeTimer + dt;
    var t := Min1(timer / CRUMBLE_DURATION);
    if t >= 1.0 then FleeResult(p.(fleeTimer := timer, state := Dead), false)
    else FleeResult(p.(fleeTimer := timer), false)
  }

  /** `Math.min(v, 1)`. */
  function Min1(v: real): (r: real)
    ensures r <= 1.0
    ensures r == 1.0 <==> v >= 1.0
    ensures v < 1.0 ==> r == v
  {
    if v < 1.0 then v else 1.0
  }

  /** Phases only move forward: 0 to 1, 1 to 2, 2 to DEAD, and a flee step
      keeps a well-formed person well-formed. */
  lemma FleeAdvances(ground: (real, real) -> real, p: Person, dt: real)
    requires p.state == Flee && WellFormed(p)
    ensures var r := FleeStep(ground, p, dt).p;
            && WellFormed(r)
            && (r.state == Dead ==> p.fleePhase == 2)
            && (r.state == Flee ==> r.fleePhase == p.fleePhase || r.fleePhase == p.fleePhase + 1)
  {
  }
}
