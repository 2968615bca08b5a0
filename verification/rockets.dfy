/** The otter's rocket pool: at most MAX_ROCKETS rockets are ever created.
    A shot reuses the first inactive rocket, otherwise grows the pool, and
    once the pool is full with every rocket in flight it recycles rockets in
    ring order. Rockets age while active and burn out after ROCKET_LIFETIME
    seconds. */
module Rockets {
  import opened Host

  const ROCKET_SPEED: real := 40.0
  const ROCKET_LIFETIME: real := 3.0
  const MAX_ROCKETS: nat := 20

  datatype Rocket = Rocket(
    active: bool,
    age: real,
    x: real, y: real, z: real,
    vx: real, vy: real, vz: real)

  /** `reuseIdx` is the ring cursor used once the pool is full. */
  datatype Pool = Pool(rockets: seq<Rocket>, reuseIdx: int)

  /** The pool never grows past its cap, the cursor always names a slot of
      a full pool, and no rocket in flight is older than its lifetime. */
  ghost predicate Inv(p: Pool) {
    && |p.rockets| <= MAX_ROCKETS
    && 0 <= p.reuseIdx < MAX_ROCKETS
    && (forall i :: 0 <= i < |p.rockets| && p.rockets[i].active ==> p.rockets[i].age <= ROCKET_LIFETIME)
  }

  function Empty(): (p: Pool)
    ensures Inv(p) && |p.rockets| == 0
  {
    Pool([], 0)
  }

  /** Index of the first rocket not in flight, or -1 when all are. */
  function FirstInactive(rs: seq<Rocket>): (k: int)
    ensures -1 <= k < |rs|
    ensures k == -1 <==> forall j :: 0 <= j < |rs| ==> rs[j].active
    ensures k >= 0 ==> !rs[k].active && forall j :: 0 <= j < k ==> rs[j].active
    decreases |rs|
  {
    if |rs| == 0 then -1
    else if !rs[0].active then 0
    else
      var k := FirstInactive(rs[1..]);
      assert forall j :: 1 <= j < |rs| ==> rs[j] == rs[1..][j - 1];
      if k == -1 then -1 else k + 1
  }

  /** A rocket fired from (ox, oy, oz): half a unit above the origin, moving
      at ROCKET_SPEED along the normalised direction
      (sin heading, sin pitch, cos heading). A zero direction is left zero. */
  function Fired(env: Env, ox: real, oy: real, oz: real, heading: real, pitch: real): (r: Rocket)
    requires Valid(env)
    ensures r.active && r.age == 0.0
    ensures r.x == ox && r.y == oy + 0.5 && r.z == oz
  {
    var sx := env.sin(heading);
    var sy := env.sin(pitch);
    var sz := env.cos(heading);
    var len := env.sqrt(sx * sx + sy * sy + sz * sz);
    var d := if len == 0.0 then 1.0 else len;
    Rocket(true, 0.0, ox, oy + 0.5, oz,
           sx / d * ROCKET_SPEED, sy / d * ROCKET_SPEED, sz / d * ROCKET_SPEED)
  }

  /** The pool after a shot and the slot that was (re)launched. */
  datatype Shot = Shot(pool: Pool, slot: nat)

  /** The pool selection of `shoot`: the first inactive rocket is replaced
      by the launched rocket `r`; if every rocket is in flight and the pool
      is below its cap `r` is appended; otherwise `r` takes over the slot
      under the ring cursor and the cursor moves on. Only the chosen slot
      changes. */
  function Place(p: Pool, r: Rocket): (s: Shot)
    requires Inv(p)
    requires r.active && r.age == 0.0
    ensures Inv(s.pool)
    ensures s.slot < |s.pool.rockets| && s.pool.rockets[s.slot] == r
    ensures |s.pool.rockets| == |p.rockets| || |s.pool.rockets| == |p.rockets| + 1
    ensures forall j :: 0 <= j < |p.rockets| && j != s.slot ==> s.pool.rockets[j] == p.rockets[j]
    ensures var k := FirstInactive(p.rockets);
            // a rocket not in flight is always preferred, the first one found
            && (k >= 0 ==> s.slot == k && |s.pool.rockets| == |p.rockets| && s.pool.reuseIdx == p.reuseIdx)
            // the pool grows only when every rocket is in flight and there is room
            && (k < 0 && |p.rockets| < MAX_ROCKETS ==>
                  s.slot == |p.rockets| && |s.pool.rockets| == |p.rockets| + 1 && s.pool.reuseIdx == p.reuseIdx)
            // a full pool with every rocket in flight recycles the one under the cursor
            && (k < 0 && |p.rockets| == MAX_ROCKETS ==>
                  s.slot == p.reuseIdx && |s.pool.rockets| == |p.rockets| && s.pool.reuseIdx == (p.reuseIdx + 1) % MAX_ROCKETS)
  {
    var k := FirstInactive(p.rockets);
    if k >= 0 then
      Shot(p.(rockets := p.rockets[k := r]), k)
    else if |p.rockets| < MAX_ROCKETS then
      Shot(p.(rockets := p.rockets + [r]), |p.rockets|)
    else
      Shot(Pool(p.rockets[p.reuseIdx := r], (p.reuseIdx + 1) % |p.rockets|), p.reuseIdx)
  }

  /** `shoot`: the rocket fired from the origin along the aim goes into the
      slot the pool selection picks. */
  function Shoot(env: Env, p: Pool, ox: real, oy: real, oz: real, heading: real, pitch: real): (s: Shot)
    requires Valid(env)
    requires Inv(p)
    ensures Inv(s.pool)
    ensures s.slot < |s.pool.rockets|
    ensures s.pool.rockets[s.slot] == Fired(env, ox, oy, oz, heading, pitch)
    ensures s == Place(p, s.pool.rockets[s.slot])
  {
    Place(p, Fired(env, ox, oy, oz, heading, pitch))
  }

  /** One rocket's frame: a rocket in flight ages by dt, moves along its
      velocity and burns out once older than its lifetime; a rocket not in
      flight is left alone. */
  function Age(r: Rocket, dt: real): (r': Rocket)
    ensures !r.active ==> r' == r
    ensures r.active ==> r'.age == r.age + dt && (r'.active <==> r.age + dt <= ROCKET_LIFETIME)
    ensures r'.vx == r.vx && r'.vy == r.vy && r'.vz == r.vz
  {
    if !r.active then r
    else
      var age := r.age + dt;
      r.(age := age, x := r.x + r.vx * dt, y := r.y + r.vy * dt, z := r.z + r.vz * dt,
         active := age <= ROCKET_LIFETIME)
  }

  /** `update`: every rocket takes its frame independently of the others. */
  function Update(p: Pool, dt: real): (p': Pool)
    requires Inv(p)
    ensures Inv(p')
    ensures |p'.rockets| == |p.rockets| && p'.reuseIdx == p.reuseIdx
    ensures forall i :: 0 <= i < |p.rockets| ==> p'.rockets[i] == Age(p.rockets[i], dt)
  {
    p.(rockets := seq(|p.rockets|, i requires 0 <= i < |p.rockets| => Age(p.rockets[i], dt)))
  }

  /** A rocket in flight after a frame has not outlived its lifetime, and
      one that has burned out stays burned out. */
  lemma AgedRocket(r: Rocket, dt: real)
    ensures Age(r, dt).active ==> Age(r, dt).age <= ROCKET_LIFETIME
    ensures !r.active ==> !Age(r, dt).active
  {
  }

  /** Shots in a row, each launching a copy of `r` (where a rocket goes
      does not depend on its aim). */
  function ShootMany(p: Pool, n: nat, r: Rocket): (q: Pool)
    requires Inv(p)
    requires r.active && r.age == 0.0
    ensures Inv(q)
    decreases n
  {
    if n == 0 then p else ShootMany(Place(p, r).pool, n - 1, r)
  }

  ghost predicate FullAndFlying(p: Pool) {
    |p.rockets| == MAX_ROCKETS && forall j :: 0 <= j < |p.rockets| ==> p.rockets[j].active
  }

  /** One shot into a full pool with every rocket in flight keeps it so and
      advances the cursor by one slot. */
  lemma FullStep(p: Pool, r: Rocket)
    requires Inv(p) && FullAndFlying(p)
    requires r.active && r.age == 0.0
    ensures FullAndFlying(Place(p, r).pool)
    ensures Place(p, r).pool.reuseIdx == (p.reuseIdx + 1) % MAX_ROCKETS
  {
    assert FirstInactive(p.rockets) == -1;
  }

  lemma CursorStep(c: int, n: nat)
    requires n > 0
    ensures ((c + 1) % MAX_ROCKETS + (n - 1)) % MAX_ROCKETS == (c + n) % MAX_ROCKETS
  {
  }

  lemma CursorStay(c: int)
    requires 0 <= c < MAX_ROCKETS
    ensures (c + 0) % MAX_ROCKETS == c
  {
  }

  /** Ring reuse: while the pool is full and every rocket is in flight, n
      shots in a row stay full and in flight and move the cursor n slots on,
      so the rockets are recycled oldest-launch first, each exactly once per
      MAX_ROCKETS shots. */
  lemma {:induction false} RingReuse(p: Pool, n: nat, r: Rocket)
    requires Inv(p) && FullAndFlying(p)
    requires r.active && r.age == 0.0
    ensures FullAndFlying(ShootMany(p, n, r))
    ensures ShootMany(p, n, r).reuseIdx == (p.reuseIdx + n) % MAX_ROCKETS
    decreases n
  {
    if n > 0 {
      var q := Place(p, r).pool;
      FullStep(p, r);
      RingReuse(q, n - 1, r);
      assert ShootMany(p, n, r) == ShootMany(q, n - 1, r);
      CursorStep(p.reuseIdx, n);
      assert q.reuseIdx == (p.reuseIdx + 1) % MAX_ROCKETS;
    } else {
      assert ShootMany(p, n, r) == p;
      CursorStay(p.reuseIdx);
    }
  }
}
