/** The debris a crumbling person leaves behind: a fixed ring of 400
    particles written 8 at a time from a cursor, each falling under gravity,
    bouncing off the terrain and expiring at the end of its life. */
module Debris {
  import opened Host

  const DEBRIS_PER_PERSON: int := 8
  const MAX_DEBRIS: int := 400
  const DEBRIS_GRAVITY: real := 12.0
  /** First draw number used by a burst; draws 0 to 9 of an agent belong to
      its own step. */
  const FIRST_DRAW: int := 10

  datatype Particle = Particle(
    x: real, y: real, z: real,
    vx: real, vy: real, vz: real,
    life: real, maxLife: real,
    active: bool)

  /** The particle pool and the cursor of the next slot to overwrite. */
  datatype Ring = Ring(slots: seq<Particle>, next: int)

  predicate RingInv(r: Ring) {
    |r.slots| == MAX_DEBRIS && 0 <= r.next < MAX_DEBRIS
  }

  /** The pool as the constructor leaves it: every slot inactive, cursor 0. */
  function Empty(): (r: Ring)
    ensures RingInv(r)
    ensures forall i :: 0 <= i < |r.slots| ==> !r.slots[i].active
  {
    Ring(seq(MAX_DEBRIS, _ => Particle(0.0, 0.0, 0.0, 0.0, 0.0, 0.0, 0.0, 0.0, false)), 0)
  }

  /** Ring position `j` places after `start`, wrapping at the end of the
      pool. */
  function Slot(start: int, j: int): (i: int)
    requires 0 <= start < MAX_DEBRIS && 0 <= j < MAX_DEBRIS
    ensures 0 <= i < MAX_DEBRIS
    ensures i == (start + j) % MAX_DEBRIS
  {
    if start + j < MAX_DEBRIS then start + j else start + j - MAX_DEBRIS
  }

  /** Slot `i` is among the first `n` positions counted from `start` round
      the ring. */
  predicate InBurst(start: int, n: int, i: int) {
    (start <= i < start + n) || (i < start + n - MAX_DEBRIS)
  }

  /** Draw number `k` of particle `j` of a burst. */
  function DrawKey(j: int, k: int): int {
    FIRST_DRAW + 8 * j + k
  }

  /** Particle `j` of a burst at (x, y, z): scattered by up to 0.25
      horizontally, lifted by [0.3, 1.1), thrown sideways at under 3 units/s
      either way and upwards at [3, 8), alive for [1.5, 2.5) seconds. */
  function Spawned(x: real, y: real, z: real, rand: (int, int) -> real, key: int, j: int): (d: Particle)
    requires IsRandom(rand)
    ensures d.active && d.life == 0.0
    ensures 1.5 <= d.maxLife < 2.5
    ensures 3.0 <= d.vy < 8.0
    ensures -3.0 <= d.vx < 3.0 && -3.0 <= d.vz < 3.0
    ensures x - 0.25 <= d.x < x + 0.25 && z - 0.25 <= d.z < z + 0.25
    ensures y + 0.3 <= d.y < y + 1.1
  {
    var r0 := rand(key, DrawKey(j, 0));
    var r1 := rand(key, DrawKey(j, 1));
    var r2 := rand(key, DrawKey(j, 2));
    var r3 := rand(key, DrawKey(j, 3));
    var r4 := rand(key, DrawKey(j, 4));
    var r5 := rand(key, DrawKey(j, 5));
    var r6 := rand(key, DrawKey(j, 6));
    ScaledDraw(r0, 0.5);
    ScaledDraw(r1, 0.8);
    ScaledDraw(r2, 0.5);
    ScaledDraw(r3, 6.0);
    ScaledDraw(r4, 5.0);
    ScaledDraw(r5, 6.0);
    Particle(x + (r0 - 0.5) * 0.5, y + 0.3 + r1 * 0.8, z + (r2 - 0.5) * 0.5,
             (r3 - 0.5) * 6.0, 3.0 + r4 * 5.0, (r5 - 0.5) * 6.0,
             0.0, 1.5 + r6 * 1.0, true)
  }

  /** `spawnDebris`: the 8 slots from the cursor on, counting round the
      ring, receive fresh particles in order and the cursor moves past them;
      every other slot is left alone. */
  method SpawnDebris(ring: Ring, x: real, y: real, z: real, rand: (int, int) -> real, key: int)
    returns (r: Ring)
    requires RingInv(ring)
    requires IsRandom(rand)
    ensures RingInv(r)
    ensures r.next == (ring.next + DEBRIS_PER_PERSON) % MAX_DEBRIS
    ensures forall j :: 0 <= j < DEBRIS_PER_PERSON ==>
              r.slots[Slot(ring.next, j)] == Spawned(x, y, z, rand, key, j)
    ensures forall i :: 0 <= i < MAX_DEBRIS && !InBurst(ring.next, DEBRIS_PER_PERSON, i) ==>
              r.slots[i] == ring.slots[i]
  {
    var slots := ring.slots;
    var next := ring.next;
    for j := 0 to DEBRIS_PER_PERSON
      invariant |slots| == MAX_DEBRIS
      invariant next == Slot(ring.next, j)
      invariant forall t :: 0 <= t < j ==> slots[Slot(ring.next, t)] == Spawned(x, y, z, rand, key, t)
      invariant forall i :: 0 <= i < MAX_DEBRIS && !InBurst(ring.next, j, i) ==> slots[i] == ring.slots[i]
    {
      var idx := next;
      next := (next + 1) % MAX_DEBRIS;
      slots := slots[idx := Spawned(x, y, z, rand, key, j)];
    }
    r := Ring(slots, next);
  }

  /** `updateDebris` for one particle: inactive ones are untouched; the
      life grows by dt and a particle whose life reaches its maximum is
      switched off where it is; otherwise it falls under gravity 12, moves,
      and if it ends below the ground while falling it is put on the ground
      with its vertical speed reversed and scaled by 0.3 and its horizontal
      speed scaled by 0.6. */
  function StepParticle(ground: (real, real) -> real, d: Particle, dt: real): (r: Particle)
    ensures !d.active ==> r == d
    ensures d.active ==> r.life == d.life + dt && r.maxLife == d.maxLife
    ensures d.active ==> (r.active <==> d.life + dt < d.maxLife)
    ensures d.active && !r.active ==> r == d.(life := d.life + dt, active := false)
    ensures r.active ==>
              var f := Fallen(d, dt);
              var th := ground(f.x, f.z);
              && (f.y < th && f.vy < 0.0 ==>
                    r == f.(y := th, vy := f.vy * -0.3, vx := f.vx * 0.6, vz := f.vz * 0.6) && 0.0 <= r.vy)
              && (!(f.y < th && f.vy < 0.0) ==> r == f)
  {
    if !d.active then d
    else
      var life := d.life + dt;
      if life >= d.maxLife then d.(life := life, active := false)
      else
        var f := Fallen(d, dt);
        var th := ground(f.x, f.z);
        if f.y < th && f.vy < 0.0 then
          f.(y := th, vy := f.vy * -0.3, vx := f.vx * 0.6, vz := f.vz * 0.6)
        else f
  }

  /** One step of free flight under gravity 12 with the life advanced. */
  function Fallen(d: Particle, dt: real): Particle {
    var vy := d.vy - DEBRIS_GRAVITY * dt;
    d.(life := d.life + dt, vy := vy, x := d.x + d.vx * dt, y := d.y + vy * dt, z := d.z + d.vz * dt)
  }

  /** A particle is resting or rising wherever it is below the ground. */
  predicate AboveOrRising(ground: (real, real) -> real, d: Particle)
  {
    d.y < ground(d.x, d.z) ==> 0.0 <= d.vy
  }

  /** After a step no live particle is left below the terrain still
      falling: the bounce catches every such particle. */
  lemma NeverSinks(ground: (real, real) -> real, d: Particle, dt: real)
    ensures var r := StepParticle(ground, d, dt);
            r.active ==> AboveOrRising(ground, r)
  {
  }

  /** `updateDebris`: every slot of the pool is stepped by the frame's dt;
      the cursor does not move. */
  method UpdateDebris(ground: (real, real) -> real, ring: Ring, dt: real) returns (r: Ring)
    requires RingInv(ring)
    ensures RingInv(r) && r.next == ring.next
    ensures forall i :: 0 <= i < MAX_DEBRIS ==> r.slots[i] == StepParticle(ground, ring.slots[i], dt)
  {
    var slots := ring.slots;
    for i := 0 to MAX_DEBRIS
      invariant |slots| == MAX_DEBRIS
      invariant forall k :: 0 <= k < i ==> slots[k] == StepParticle(ground, ring.slots[k], dt)
      invariant forall k :: i <= k < MAX_DEBRIS ==> slots[k] == ring.slots[k]
    {
      slots := slots[i := StepParticle(ground, slots[i], dt)];
    }
    r := Ring(slots, ring.next);
  }

  /** A spawned particle with positive frame times dies after finitely many
      steps: its remaining life shrinks by dt each step and it is switched
      off as soon as the life reaches `maxLife`. */
  lemma {:induction false} ExpiresAfter(ground: (real, real) -> real, d: Particle, dt: real, n: nat)
    requires 0.0 < dt
    requires d.life < d.maxLife
    requires d.life + n as real * dt >= d.maxLife
    ensures !Steps(ground, d, dt, n).active
    decreases n
  {
    if !d.active {
      StaysInactive(ground, d, dt, n);
    } else {
      var d1 := StepParticle(ground, d, dt);
      if d1.active {
        assert d1.life + (n - 1) as real * dt == d.life + n as real * dt;
        ExpiresAfter(ground, d1, dt, n - 1);
      } else {
        StaysInactive(ground, d1, dt, n - 1);
      }
    }
  }

  /** `n` steps of one particle with the same dt. */
  function Steps(ground: (real, real) -> real, d: Particle, dt: real, n: nat): Particle
    decreases n
  {
    if n == 0 then d else Steps(ground, StepParticle(ground, d, dt), dt, n - 1)
  }

  /** Expired particles stay expired. */
  lemma {:induction false} StaysInactive(ground: (real, real) -> real, d: Particle, dt: real, n: nat)
    requires !d.active
    ensures Steps(ground, d, dt, n) == d
    decreases n
  {
    if n > 0 {
      StaysInactive(ground, d, dt, n - 1);
    }
  }
}
