/** Movement rules shared by the crowd and the animals: a step along the
    heading, the turn-back at the edge of the roaming disc, and the periodic
    re-targeting of the wander direction. */
module Wandering {
  import opened Host

  /** Displacement of one step of length speed * dt along `heading`
      (x by the sine, z by the cosine). */
  function Move(env: Env, heading: real, speed: real, dt: real): (m: (real, real))
    requires Valid(env)
    ensures 0.0 <= speed * dt ==> -(speed * dt) <= m.0 <= speed * dt && -(speed * dt) <= m.1 <= speed * dt
  {
    (Along(env.sin(heading), speed, dt), Along(env.cos(heading), speed, dt))
  }

  /** One component of a step: a direction component in [-1, 1] times
      speed times dt. */
  function Along(v: real, speed: real, dt: real): (m: real)
    requires -1.0 <= v <= 1.0
    ensures 0.0 <= speed * dt ==> -(speed * dt) <= m <= speed * dt
  {
    UnitScaled(v, speed, dt);
    v * speed * dt
  }

  lemma UnitScaled(v: real, speed: real, dt: real)
    requires -1.0 <= v <= 1.0
    ensures 0.0 <= speed * dt ==> -(speed * dt) <= v * speed * dt <= speed * dt
  {
    var k := speed * dt;
    assert v * speed * dt == v * k;
    if 0.0 <= k {
      UnitTimes(v, k);
    }
  }

  lemma UnitTimes(v: real, k: real)
    requires -1.0 <= v <= 1.0
    requires 0.0 <= k
    ensures -k <= v * k <= k
  {
    assert k - v * k == (1.0 - v) * k;
    assert k + v * k == (1.0 + v) * k;
  }

  datatype Placement = Placement(heading: real, x: real, z: real)

  /** The turn-back rule: the step (mx, mz) is taken; if it ends outside the
      disc of the given radius the agent turns around (heading + PI) and ends
      one step behind where it started. */
  function KeepInRadius(heading: real, x: real, z: real, mx: real, mz: real, radius: real): (r: Placement)
    ensures (x + mx) * (x + mx) + (z + mz) * (z + mz) > radius * radius ==>
              r == Placement(heading + PI, x - mx, z - mz)
    ensures (x + mx) * (x + mx) + (z + mz) * (z + mz) <= radius * radius ==>
              r == Placement(heading, x + mx, z + mz)
  {
    var x1 := x + mx;
    var z1 := z + mz;
    if x1 * x1 + z1 * z1 > radius * radius then Placement(heading + PI, x1 - mx * 2.0, z1 - mz * 2.0)
    else Placement(heading, x1, z1)
  }

  /** Either way the agent ends exactly one step length from where it started. */
  lemma KeepInRadiusStepLength(heading: real, x: real, z: real, mx: real, mz: real, radius: real)
    ensures var r := KeepInRadius(heading, x, z, mx, mz, radius);
            (r.x - x) * (r.x - x) + (r.z - z) * (r.z - z) == mx * mx + mz * mz
  {
    var r := KeepInRadius(heading, x, z, mx, mz, radius);
    if r.heading != heading {
      assert r.x - x == -mx && r.z - z == -mz;
      assert (-mx) * (-mx) == mx * mx && (-mz) * (-mz) == mz * mz;
    }
  }

  /** Result of the wander timer: the timer and interval afterwards and
      whether the timer fired this step. */
  datatype Timer = Timer(timer: real, interval: real, fired: bool)

  /** The wander timer grows by dt; once it reaches the interval it restarts
      from 0 and a new interval base + draw * span is drawn. */
  function WanderTimer(timer: real, interval: real, dt: real, base: real, span: real, draw: real): (t: Timer)
    requires 0.0 <= draw < 1.0
    requires 0.0 < span
    ensures t.fired <==> timer + dt >= interval
    ensures t.fired ==> t.timer == 0.0 && base <= t.interval < base + span
    ensures !t.fired ==> t.timer == timer + dt && t.interval == interval
  {
    var next := timer + dt;
    if next >= interval then
      var next' := base + draw * span;
      ScaledDraw(draw, span);
      assert base <= next' < base + span;
      Timer(0.0, next', true)
    else Timer(next, interval, false)
  }

  /** A turn by (draw - 1/2) * spread for a draw in [0, 1) stays within half
      the spread either way. */
  function Turn(heading: real, draw: real, spread: real): (h: real)
    requires 0.0 <= draw < 1.0
    requires 0.0 <= spread
    ensures heading - spread * 0.5 <= h <= heading + spread * 0.5
  {
    HalfSpread(draw, spread);
    heading + (draw - 0.5) * spread
  }

  lemma HalfSpread(draw: real, spread: real)
    requires 0.0 <= draw < 1.0
    requires 0.0 <= spread
    ensures -(spread * 0.5) <= (draw - 0.5) * spread <= spread * 0.5
  {
    assert (draw - 0.5) * spread == draw * spread - 0.5 * spread;
    if 0.0 < spread {
      ScaledDraw(draw, spread);
    }
  }
}
