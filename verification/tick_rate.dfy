/** Distance-based tick decimation, shared by the crowd and the animals:
    agents far from the player are stepped less often, and each decimated
    step consumes the time accumulated since the last one (capped). */
module TickRate {

  const NEAR_SQ: real := 4900.0
  const MID_SQ: real := 25600.0
  const FAR_SQ: real := 102400.0
  /** No decimated step is longer than this. */
  const MAX_STEP: real := 0.25

  /** Seconds between steps at squared distance `distSq` from the player:
      4 Hz beyond 320, 12 Hz beyond 160, 30 Hz beyond 70, every frame
      otherwise. */
  function DistanceInterval(distSq: real): (r: real)
    ensures 0.0 <= r <= MAX_STEP
    ensures r == 0.0 <==> distSq <= NEAR_SQ
  {
    if distSq > FAR_SQ then 0.25
    else if distSq > MID_SQ then 1.0 / 12.0
    else if distSq > NEAR_SQ then 1.0 / 30.0
    else 0.0
  }

  /** Farther agents are never stepped more often. */
  lemma IntervalMonotone(d1: real, d2: real)
    requires d1 <= d2
    ensures DistanceInterval(d1) <= DistanceInterval(d2)
  {
  }

  /** The interval is one of the four rates. */
  lemma IntervalValues(distSq: real)
    ensures DistanceInterval(distSq) in {0.0, 1.0 / 30.0, 1.0 / 12.0, 0.25}
  {
  }

  /** Outcome of one frame for one agent: whether it is stepped, the step
      length it is stepped with, and its new accumulator. */
  datatype Tick = Tick(run: bool, stepDt: real, accum: real)

  /** The accumulate-and-skip rule: with a positive interval the frame's dt
      is added to the accumulator and the agent is skipped while that stays
      below the interval; otherwise it runs with the accumulated time, capped
      at 0.25, and the accumulator restarts from 0. With no interval the
      agent runs with the frame's dt and the accumulator is left alone. */
  function Decimate(accum: real, dt: real, interval: real): (t: Tick)
    ensures interval <= 0.0 ==> t == Tick(true, dt, accum)
    ensures interval > 0.0 ==> (t.run <==> accum + dt >= interval)
    ensures interval > 0.0 && !t.run ==> t.accum == accum + dt
    ensures interval > 0.0 && t.run ==>
              && t.accum == 0.0
              && 0.0 < t.stepDt <= MAX_STEP
              && t.stepDt <= accum + dt
              && (accum + dt <= MAX_STEP ==> t.stepDt == accum + dt)
              && (accum + dt > MAX_STEP ==> t.stepDt == MAX_STEP)
  {
    if interval > 0.0 then
      var a := accum + dt;
      if a < interval then Tick(false, dt, a)
      else Tick(true, if a < MAX_STEP then a else MAX_STEP, 0.0)
    else Tick(true, dt, accum)
  }

  /** Total step time handed out and final accumulator over a run of frames. */
  function Stepped(accum: real, dts: seq<real>, interval: real): (real, real)
    decreases |dts|
  {
    if |dts| == 0 then (0.0, accum)
    else
      var t := Decimate(accum, dts[0], interval);
      var rest := Stepped(t.accum, dts[1..], interval);
      ((if t.run then t.stepDt else 0.0) + rest.0, rest.1)
  }

  function Sum(dts: seq<real>): real {
    if |dts| == 0 then 0.0 else dts[0] + Sum(dts[1..])
  }

  /** No simulated time is lost while frames are short: when every frame is
      at most MAX_STEP - interval long, the accumulator never reaches the cap,
      so the step times handed out plus what is still accumulated equal the
      starting accumulator plus the elapsed frame time, and the accumulator
      stays below the interval. */
  lemma {:induction false} TimeConserved(accum: real, dts: seq<real>, interval: real)
    requires 0.0 < interval <= MAX_STEP
    requires 0.0 <= accum < interval
    requires forall k :: 0 <= k < |dts| ==> 0.0 <= dts[k] <= MAX_STEP - interval
    ensures Stepped(accum, dts, interval).0 + Stepped(accum, dts, interval).1 == accum + Sum(dts)
    ensures 0.0 <= Stepped(accum, dts, interval).1 < interval
    decreases |dts|
  {
    if |dts| > 0 {
      var t := Decimate(accum, dts[0], interval);
      assert accum + dts[0] <= MAX_STEP;
      TimeConserved(t.accum, dts[1..], interval);
    }
  }

  /** Decimation never invents time: over any run of non-negative frames the
      step times handed out plus what is still banked are at most the
      starting bank plus the elapsed time, and the bank stays below the
      interval. Time is lost exactly when a step is cut to MAX_STEP. */
  lemma {:induction false} TimeNeverGained(accum: real, dts: seq<real>, interval: real)
    requires 0.0 < interval <= MAX_STEP
    requires 0.0 <= accum < interval
    requires forall k :: 0 <= k < |dts| ==> 0.0 <= dts[k]
    ensures Stepped(accum, dts, interval).0 + Stepped(accum, dts, interval).1 <= accum + Sum(dts)
    ensures 0.0 <= Stepped(accum, dts, interval).1 < interval
    decreases |dts|
  {
    if |dts| > 0 {
      var t := Decimate(accum, dts[0], interval);
      TimeNeverGained(t.accum, dts[1..], interval);
    }
  }

  /** At the 4 Hz rate time can be lost: four 0.08 s frames bank 0.32 s, but
      the step they trigger is cut to 0.25 s and the bank is emptied. */
  lemma TimeLostAtFourHz()
    ensures Sum([0.08, 0.08, 0.08, 0.08]) == 0.32
    ensures Stepped(0.0, [0.08, 0.08, 0.08, 0.08], 0.25) == (0.25, 0.0)
  {
    var dts := [0.08, 0.08, 0.08, 0.08];
    assert dts[1..] == [0.08, 0.08, 0.08];
    assert dts[1..][1..] == [0.08, 0.08];
    assert dts[1..][1..][1..] == [0.08];
    assert dts[1..][1..][1..][1..] == [];
  }
}
