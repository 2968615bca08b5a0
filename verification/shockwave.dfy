/** The expanding ring shown when the otter repels the crowd: a one-shot
    timer that grows the ring to MAX_RADIUS and fades it out over
    EXPAND_DURATION seconds. */
module Shockwave {
  import TickRate

  const EXPAND_DURATION: real := 1.2
  const MAX_RADIUS: real := 50.0
  const START_OPACITY: real := 0.7
  const START_SCALE: real := 0.01

  /** Ring position is set by `trigger` and otherwise untouched. */
  datatype Effect = Effect(
    active: bool,
    visible: bool,
    elapsed: real,
    scale: real,
    opacity: real,
    x: real, y: real, z: real)

  function Initial(): (e: Effect)
    ensures !e.active && !e.visible
  {
    Effect(false, false, 0.0, 1.0, START_OPACITY, 0.0, 0.0, 0.0)
  }

  /** `trigger`: restart the ring half a unit above the given point. */
  function Trigger(e: Effect, x: real, y: real, z: real): (e': Effect)
    ensures e'.active && e'.visible && e'.elapsed == 0.0
    ensures e'.opacity == START_OPACITY && e'.scale == START_SCALE
    ensures e'.x == x && e'.y == y + 0.5 && e'.z == z
  {
    Effect(true, true, 0.0, START_SCALE, START_OPACITY, x, y + 0.5, z)
  }

  /** `update`: an idle effect is left alone; otherwise time advances, and
      once the normalised time t = elapsed / EXPAND_DURATION reaches 1 the
      effect switches off (keeping its last scale and opacity), else the
      ring has radius t * MAX_RADIUS and opacity 0.7 * (1 - t). */
  function Update(e: Effect, dt: real): (e': Effect)
    ensures !e.active ==> e' == e
    ensures e.active ==> e'.elapsed == e.elapsed + dt
    ensures e.active ==> (e'.active <==> e.elapsed + dt < EXPAND_DURATION)
    ensures e.active && !e'.active ==> !e'.visible && e'.scale == e.scale && e'.opacity == e.opacity
    ensures e'.x == e.x && e'.y == e.y && e'.z == e.z
  {
    if !e.active then e
    else
      var elapsed := e.elapsed + dt;
      var t := elapsed / EXPAND_DURATION;
      if t >= 1.0 then e.(elapsed := elapsed, active := false, visible := false)
      else e.(elapsed := elapsed, scale := t * MAX_RADIUS, opacity := START_OPACITY * (1.0 - t))
  }

  /** While the ring is expanding after a trigger, with time running
      forwards, it has grown in proportion to the elapsed time and is still
      partly opaque, never more than at the start. */
  lemma ExpandingRing(e: Effect, dt: real)
    requires e.active && 0.0 <= e.elapsed && 0.0 <= dt
    requires Update(e, dt).active
    ensures var e' := Update(e, dt);
            && e'.scale == e'.elapsed / EXPAND_DURATION * MAX_RADIUS
            && 0.0 <= e'.scale < MAX_RADIUS
            && 0.0 < e'.opacity <= START_OPACITY
            && e'.visible == e.visible
  {
  }

  /** Frames in a row. */
  function Run(e: Effect, dts: seq<real>): (e': Effect)
    decreases |dts|
  {
    if |dts| == 0 then e else Run(Update(e, dts[0]), dts[1..])
  }

  /** The effect is one-shot: once EXPAND_DURATION seconds of frames have
      passed since the trigger it is off and hidden, whatever the frames
      were, and it stays off until the next trigger. */
  lemma {:induction false} ExpiresAfterDuration(e: Effect, dts: seq<real>)
    requires e.active && e.visible && 0.0 <= e.elapsed && |dts| > 0
    requires forall k :: 0 <= k < |dts| ==> 0.0 <= dts[k]
    requires e.elapsed + TickRate.Sum(dts) >= EXPAND_DURATION
    ensures !Run(e, dts).active && !Run(e, dts).visible
    decreases |dts|
  {
    var e1 := Update(e, dts[0]);
    if e1.active {
      assert TickRate.Sum(dts) == dts[0] + TickRate.Sum(dts[1..]);
      ExpiresAfterDuration(e1, dts[1..]);
    } else {
      StaysIdle(e1, dts[1..]);
    }
  }

  /** An idle effect ignores every frame. */
  lemma {:induction false} StaysIdle(e: Effect, dts: seq<real>)
    requires !e.active
    ensures Run(e, dts) == e
    decreases |dts|
  {
    if |dts| > 0 {
      StaysIdle(Update(e, dts[0]), dts[1..]);
    }
  }
}
