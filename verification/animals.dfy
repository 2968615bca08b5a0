/** Ambient wildlife: land animals (deer, rabbits), birds, water animals
    (fish, turtles) and jellyfish. Each group is placed once at random and
    then wanders every frame, decimated by distance from the player; land
    animals follow the terrain and avoid water, the others bob around the
    height they were placed at. */
module Animals {
  import opened Host
  import Terrain
  import TickRate
  import Wandering

  const DEER_COUNT: int := 60
  const RABBIT_COUNT: int := 100
  const BIRD_COUNT: nat := 80
  const FISH_COUNT: int := 120
  const TURTLE_COUNT: int := 40
  const JELLYFISH_COUNT: int := 50

  const WATER_LEVEL: real := -0.5
  const WANDER_SPEED_SLOW: real := 1.5
  const WANDER_SPEED_FAST: real := 3.5
  /** Animals turn back at 85% of half the world size. */
  const WORLD_R: real := Terrain.HALF_WORLD as real * 0.85
  /** A re-target turns by up to 0.6 PI either way. */
  const TURN_SPREAD: real := PI * 1.2
  /** Land animals do not step onto ground lower than this. */
  const MIN_LAND: real := 0.5

  datatype Kind = Land | Bird | Water | Jellyfish

  datatype Animal = Animal(
    x: real, y: real, z: real,
    scale: real, heading: real, speed: real,
    wanderTimer: real, wanderInterval: real,
    baseY: real, accum: real)

  /** Half-height of the vertical bob of each airborne or swimming kind. */
  function BobAmplitude(kind: Kind): real {
    match kind
    case Land => 0.0
    case Bird => 1.5
    case Water => 0.5
    case Jellyfish => 2.0
  }

  /** The bob's phase for animal `i` at `time`: each kind has its own rate
      and per-animal offset. */
  function BobPhase(kind: Kind, time: real, i: int): real {
    match kind
    case Land => 0.0
    case Bird => time * 1.5 + i as real * 2.0
    case Water => time * 0.8 + i as real * 1.3
    case Jellyfish => time * 0.5 + i as real * 0.7
  }

  /** What each kind keeps true of its height: a land animal stands no lower
      than 0.5, the others stay within their bob amplitude of the height they
      were placed at. */
  predicate HeightOk(kind: Kind, a: Animal) {
    if kind == Land then MIN_LAND <= a.y
    else a.baseY - BobAmplitude(kind) <= a.y <= a.baseY + BobAmplitude(kind)
  }

  // ---------------------------------------------------------------- update

  /** Height behaviour after the move. A land animal reads the ground under
      its new position: below 0.5 it turns a quarter turn and keeps its old
      height, otherwise it stands on the ground. The others bob. */
  function Settle(env: Env, ground: (real, real) -> real, kind: Kind, a: Animal, time: real, i: int): (r: Animal)
    requires Valid(env)
    ensures r.(y := a.y, heading := a.heading) == a
    ensures kind == Land && ground(a.x, a.z) < MIN_LAND ==> r.heading == a.heading + PI * 0.5 && r.y == a.y
    ensures kind == Land && MIN_LAND <= ground(a.x, a.z) ==> r.heading == a.heading && r.y == ground(a.x, a.z)
    ensures kind != Land ==> r.heading == a.heading
    ensures kind != Land ==> a.baseY - BobAmplitude(kind) <= r.y <= a.baseY + BobAmplitude(kind)
  {
    if kind == Land then
      var th := ground(a.x, a.z);
      if th < MIN_LAND then a.(heading := a.heading + PI * 0.5) else a.(y := th)
    else
      var s := env.sin(BobPhase(kind, time, i));
      BobWithin(s, BobAmplitude(kind));
      a.(y := a.baseY + s * BobAmplitude(kind))
  }

  lemma BobWithin(s: real, amp: real)
    requires -1.0 <= s <= 1.0
    requires 0.0 <= amp
    ensures -amp <= s * amp <= amp
  {
    assert amp - s * amp == (1.0 - s) * amp;
    assert amp + s * amp == (1.0 + s) * amp;
  }

  /** One animal's share of `updateGroup` once it is due: the wander timer
      (turning by up to 0.6 PI and drawing a new interval in [2, 8) when it
      fires), a step along the heading, the turn-back at WORLD_R, and the
      height behaviour of its kind. */
  function Wander(env: Env, ground: (real, real) -> real, kind: Kind, a: Animal, i: int,
                  stepDt: real, time: real, turnDraw: real, intervalDraw: real): (r: Animal)
    requires Valid(env)
    requires 0.0 <= turnDraw < 1.0 && 0.0 <= intervalDraw < 1.0
    ensures r.scale == a.scale && r.speed == a.speed && r.baseY == a.baseY && r.accum == a.accum
    ensures var t := Wandering.WanderTimer(a.wanderTimer, a.wanderInterval, stepDt, 2.0, 6.0, intervalDraw);
            r.wanderTimer == t.timer && r.wanderInterval == t.interval
  {
    var t := Wandering.WanderTimer(a.wanderTimer, a.wanderInterval, stepDt, 2.0, 6.0, intervalDraw);
    var heading := if t.fired then Wandering.Turn(a.heading, turnDraw, TURN_SPREAD) else a.heading;
    var m := Wandering.Move(env, heading, a.speed, stepDt);
    var p := Wandering.KeepInRadius(heading, a.x, a.z, m.0, m.1, WORLD_R);
    var moved := a.(wanderTimer := t.timer, wanderInterval := t.interval, heading := p.heading, x := p.x, z := p.z);
    Settle(env, ground, kind, moved, time, i)
  }

  /** The decimation outcome of an animal this frame, by its distance from
      the player at (`px`, `pz`). */
  function Tick(a: Animal, dt: real, px: real, pz: real): TickRate.Tick {
    var dx := px - a.x;
    var dz := pz - a.z;
    TickRate.Decimate(a.accum, dt, TickRate.DistanceInterval(dx * dx + dz * dz))
  }

  /** One animal in `updateGroup`: decimated by its distance from the player
      with the shared four-rate rule; a skipped animal only banks the frame's
      dt, a due one wanders with the step's time. */
  function StepAnimal(env: Env, ground: (real, real) -> real, kind: Kind, a: Animal, i: int, dt: real,
                      time: real, px: real, pz: real, turnDraw: real, intervalDraw: real): (r: Animal)
    requires Valid(env)
    requires 0.0 <= turnDraw < 1.0 && 0.0 <= intervalDraw < 1.0
    ensures var t := Tick(a, dt, px, pz);
            && (!t.run ==> r == a.(accum := a.accum + dt))
            && (t.run ==> r == Wander(env, ground, kind, a.(accum := t.accum), i, t.stepDt, time, turnDraw, intervalDraw))
  {
    var t := Tick(a, dt, px, pz);
    if !t.run then a.(accum := t.accum)
    else Wander(env, ground, kind, a.(accum := t.accum), i, t.stepDt, time, turnDraw, intervalDraw)
  }

  /** Every step keeps each kind's height rule: land animals never go below
      0.5 and the others never leave their bob band. */
  lemma StepKeepsHeight(env: Env, ground: (real, real) -> real, kind: Kind, a: Animal, i: int, dt: real,
                        time: real, px: real, pz: real, turnDraw: real, intervalDraw: real)
    requires Valid(env)
    requires 0.0 <= turnDraw < 1.0 && 0.0 <= intervalDraw < 1.0
    requires HeightOk(kind, a)
    ensures HeightOk(kind, StepAnimal(env, ground, kind, a, i, dt, time, px, pz, turnDraw, intervalDraw))
  {
  }

  /** A due step re-targets exactly when the timer reaches the interval; the
      new interval then lies in [2, 8) and the timer restarts. */
  lemma WanderRetargets(env: Env, ground: (real, real) -> real, kind: Kind, a: Animal, i: int,
                        stepDt: real, time: real, turnDraw: real, intervalDraw: real)
    requires Valid(env)
    requires 0.0 <= turnDraw < 1.0 && 0.0 <= intervalDraw < 1.0
    ensures var r := Wander(env, ground, kind, a, i, stepDt, time, turnDraw, intervalDraw);
            && (a.wanderTimer + stepDt >= a.wanderInterval ==> r.wanderTimer == 0.0 && 2.0 <= r.wanderInterval < 8.0)
            && (a.wanderTimer + stepDt < a.wanderInterval ==>
                  r.wanderTimer == a.wanderTimer + stepDt && r.wanderInterval == a.wanderInterval)
  {
  }

  /** `updateGroup`: every placed animal of the group stepped in turn, with
      draws (i, 0) for the turn and (i, 1) for the interval. */
  method UpdateGroup(env: Env, ground: (real, real) -> real, kind: Kind, data: seq<Animal>, dt: real,
                     time: real, px: real, pz: real, rand: (int, int) -> real) returns (data': seq<Animal>)
    requires Valid(env)
    requires IsRandom(rand)
    ensures |data'| == |data|
    ensures forall i :: 0 <= i < |data| ==>
              data'[i] == StepAnimal(env, ground, kind, data[i], i, dt, time, px, pz, rand(i, 0), rand(i, 1))
    ensures (forall i :: 0 <= i < |data| ==> HeightOk(kind, data[i])) ==>
              forall i :: 0 <= i < |data'| ==> HeightOk(kind, data'[i])
  {
    data' := data;
    for i := 0 to |data|
      invariant |data'| == |data|
      invariant forall j :: 0 <= j < i ==>
                  data'[j] == StepAnimal(env, ground, kind, data[j], j, dt, time, px, pz, rand(j, 0), rand(j, 1))
      invariant forall j :: i <= j < |data| ==> data'[j] == data[j]
    {
      data' := data'[i := StepAnimal(env, ground, kind, data'[i], i, dt, time, px, pz, rand(i, 0), rand(i, 1))];
    }
    if forall i :: 0 <= i < |data| ==> HeightOk(kind, data[i]) {
      forall i | 0 <= i < |data'|
        ensures HeightOk(kind, data'[i])
      {
        StepKeepsHeight(env, ground, kind, data[i], i, dt, time, px, pz, rand(i, 0), rand(i, 1));
      }
    }
  }

  /** The six instanced groups, in the order `update` steps them. */
  datatype Herds = Herds(
    deer: seq<Animal>, rabbits: seq<Animal>, birds: seq<Animal>,
    fish: seq<Animal>, turtles: seq<Animal>, jellyfish: seq<Animal>)

  /** Every animal obeys the height rule of its group. */
  ghost predicate HerdsOk(h: Herds) {
    && (forall i :: 0 <= i < |h.deer| ==> HeightOk(Land, h.deer[i]))
    && (forall i :: 0 <= i < |h.rabbits| ==> HeightOk(Land, h.rabbits[i]))
    && (forall i :: 0 <= i < |h.birds| ==> HeightOk(Bird, h.birds[i]))
    && (forall i :: 0 <= i < |h.fish| ==> HeightOk(Water, h.fish[i]))
    && (forall i :: 0 <= i < |h.turtles| ==> HeightOk(Water, h.turtles[i]))
    && (forall i :: 0 <= i < |h.jellyfish| ==> HeightOk(Jellyfish, h.jellyfish[i]))
  }

  /** The draws of group `g`: draw numbers 2g and 2g + 1 of each index. */
  function GroupDraws(rand: (int, int) -> real, g: int): (r: (int, int) -> real)
    requires IsRandom(rand)
    ensures IsRandom(r)
    ensures forall i, k :: r(i, k) == rand(i, 2 * g + k)
  {
    (i, k) => rand(i, 2 * g + k)
  }

  /** `update`: the six groups in turn, each stepped by `updateGroup` with
      its own kind; group sizes never change and every height rule keeps
      holding. */
  method Update(env: Env, ground: (real, real) -> real, h: Herds, dt: real, time: real,
                px: real, pz: real, rand: (int, int) -> real) returns (h': Herds)
    requires Valid(env)
    requires IsRandom(rand)
    ensures |h'.deer| == |h.deer| && |h'.rabbits| == |h.rabbits| && |h'.birds| == |h.birds|
    ensures |h'.fish| == |h.fish| && |h'.turtles| == |h.turtles| && |h'.jellyfish| == |h.jellyfish|
    ensures HerdsOk(h) ==> HerdsOk(h')
  {
    var deer := UpdateGroup(env, ground, Land, h.deer, dt, time, px, pz, GroupDraws(rand, 0));
    var rabbits := UpdateGroup(env, ground, Land, h.rabbits, dt, time, px, pz, GroupDraws(rand, 1));
    var birds := UpdateGroup(env, ground, Bird, h.birds, dt, time, px, pz, GroupDraws(rand, 2));
    var fish := UpdateGroup(env, ground, Water, h.fish, dt, time, px, pz, GroupDraws(rand, 3));
    var turtles := UpdateGroup(env, ground, Water, h.turtles, dt, time, px, pz, GroupDraws(rand, 4));
    var jellyfish := UpdateGroup(env, ground, Jellyfish, h.jellyfish, dt, time, px, pz, GroupDraws(rand, 5));
    h' := Herds(deer, rabbits, birds, fish, turtles, jellyfish);
  }

  // ---------------------------------------------------------------- placement

  /** `placeLandAnimals`: up to `count * 5` attempts at a random point of the
      central 1536-unit square, skipping ground below 1 or above 25, until
      `count` are placed. Attempt `i` uses draws (i, 0..7). */
  method PlaceLand(ground: (real, real) -> real, count: int, scale: real, scaleVariance: real,
                   rand: (int, int) -> real) returns (data: seq<Animal>)
    requires IsRandom(rand)
    ensures |data| <= count || (count <= 0 && |data| == 0)
    ensures forall k :: 0 <= k < |data| ==>
              && 1.0 <= data[k].y <= 25.0
              && data[k].y == ground(data[k].x, data[k].z) && data[k].baseY == data[k].y
              && 3.0 <= data[k].wanderInterval < 8.0
              && WANDER_SPEED_SLOW <= data[k].speed < WANDER_SPEED_SLOW + 1.5
    ensures forall k :: 0 <= k < |data| ==> HeightOk(Land, data[k])
  {
    data := [];
    var i := 0;
    while i < count * 5 && |data| < count
      invariant 0 <= i
      invariant |data| <= count || (count <= 0 && |data| == 0)
      invariant forall k :: 0 <= k < |data| ==>
                  && 1.0 <= data[k].y <= 25.0
                  && data[k].y == ground(data[k].x, data[k].z) && data[k].baseY == data[k].y
                  && 3.0 <= data[k].wanderInterval < 8.0
                  && WANDER_SPEED_SLOW <= data[k].speed < WANDER_SPEED_SLOW + 1.5
      decreases count * 5 - i
    {
      var x := (rand(i, 0) - 0.5) * Terrain.HALF_WORLD as real * 1.5;
      var z := (rand(i, 1) - 0.5) * Terrain.HALF_WORLD as real * 1.5;
      var h := ground(x, z);
      if 1.0 <= h <= 25.0 {
        ScaledDraw(rand(i, 4), 1.5);
        ScaledDraw(rand(i, 6), 5.0);
        var a := Animal(x, h, z,
                        scale * (scaleVariance + rand(i, 2) * (1.0 - scaleVariance)),
                        rand(i, 3) * PI * 2.0,
                        WANDER_SPEED_SLOW + rand(i, 4) * 1.5,
                        rand(i, 5) * 5.0,
                        3.0 + rand(i, 6) * 5.0,
                        h,
                        rand(i, 7) * 0.1);
        data := data + [a];
      }
      i := i + 1;
    }
  }

  /** `placeBirds`: exactly `count` birds, each flying 5 to 25 above the
      higher of the ground and 5. Bird `i` uses draws (i, 0..8). */
  method PlaceBirds(ground: (real, real) -> real, count: nat, rand: (int, int) -> real) returns (data: seq<Animal>)
    requires IsRandom(rand)
    ensures |data| == count
    ensures forall k :: 0 <= k < count ==>
              var h := ground(data[k].x, data[k].z);
              var floor := if h > 5.0 then h else 5.0;
              && floor + 5.0 <= data[k].y < floor + 25.0
              && 10.0 <= data[k].y && data[k].baseY == data[k].y
              && 2.0 <= data[k].wanderInterval < 6.0
    ensures forall k :: 0 <= k < count ==> HeightOk(Bird, data[k])
  {
    data := [];
    for i := 0 to count
      invariant |data| == i
      invariant forall k :: 0 <= k < i ==>
                  var h := ground(data[k].x, data[k].z);
                  var floor := if h > 5.0 then h else 5.0;
                  && floor + 5.0 <= data[k].y < floor + 25.0
                  && 10.0 <= data[k].y && data[k].baseY == data[k].y
                  && 2.0 <= data[k].wanderInterval < 6.0
    {
      var x := (rand(i, 0) - 0.5) * Terrain.HALF_WORLD as real * 1.5;
      var z := (rand(i, 1) - 0.5) * Terrain.HALF_WORLD as real * 1.5;
      var h := ground(x, z);
      ScaledDraw(rand(i, 2), 20.0);
      ScaledDraw(rand(i, 6), 4.0);
      var floor := if h > 5.0 then h else 5.0;
      var flyH := floor + 5.0 + rand(i, 2) * 20.0;
      var a := Animal(x, flyH, z,
                      0.8 + rand(i, 4) * 0.5,
                      rand(i, 3) * PI * 2.0,
                      WANDER_SPEED_FAST + rand(i, 5) * 2.0,
                      rand(i, 7) * 4.0,
                      2.0 + rand(i, 6) * 4.0,
                      flyH,
                      rand(i, 8) * 0.1);
      data := data + [a];
    }
  }

  /** `placeWaterAnimals`: up to `count * 3` attempts in the central
      1638.4-unit square, skipping any point whose ground is above the water
      level (-0.5), until `count` are placed; each swims at a depth drawn
      between `minDepth` and `maxDepth`. Attempt `i` uses draws (i, 0..8). */
  method PlaceWater(ground: (real, real) -> real, count: int, minDepth: real, maxDepth: real,
                    rand: (int, int) -> real) returns (data: seq<Animal>)
    requires IsRandom(rand)
    ensures |data| <= count || (count <= 0 && |data| == 0)
    ensures forall k :: 0 <= k < |data| ==>
              && ground(data[k].x, data[k].z) <= WATER_LEVEL
              && data[k].baseY == data[k].y
              && (maxDepth <= minDepth ==> maxDepth <= data[k].y <= minDepth)
              && 4.0 <= data[k].wanderInterval < 10.0
    ensures forall k :: 0 <= k < |data| ==> HeightOk(Water, data[k]) && HeightOk(Jellyfish, data[k])
  {
    data := [];
    var i := 0;
    while i < count * 3 && |data| < count
      invariant 0 <= i
      invariant |data| <= count || (count <= 0 && |data| == 0)
      invariant forall k :: 0 <= k < |data| ==>
                  && ground(data[k].x, data[k].z) <= WATER_LEVEL
                  && data[k].baseY == data[k].y
                  && (maxDepth <= minDepth ==> maxDepth <= data[k].y <= minDepth)
                  && 4.0 <= data[k].wanderInterval < 10.0
      decreases count * 3 - i
    {
      var x := (rand(i, 0) - 0.5) * Terrain.HALF_WORLD as real * 1.6;
      var z := (rand(i, 1) - 0.5) * Terrain.HALF_WORLD as real * 1.6;
      var h := ground(x, z);
      if h <= WATER_LEVEL {
        DepthBetween(minDepth, maxDepth, rand(i, 2));
        ScaledDraw(rand(i, 6), 6.0);
        var depth := minDepth + rand(i, 2) * (maxDepth - minDepth);
        var a := Animal(x, depth, z,
                        0.6 + rand(i, 4) * 0.8,
                        rand(i, 3) * PI * 2.0,
                        WANDER_SPEED_SLOW + rand(i, 5) * 1.0,
                        rand(i, 7) * 6.0,
                        4.0 + rand(i, 6) * 6.0,
                        depth,
                        rand(i, 8) * 0.1);
        data := data + [a];
      }
      i := i + 1;
    }
  }

  /** The placement draws of group `g`: draw numbers 9g to 9g + 8 of each
      attempt, enough for any one placement routine. */
  function SpawnDraws(rand: (int, int) -> real, g: int): (r: (int, int) -> real)
    requires IsRandom(rand)
    ensures IsRandom(r)
    ensures forall i, k :: r(i, k) == rand(i, 9 * g + k)
  {
    (i, k) => rand(i, 9 * g + k)
  }

  /** The constructor: 60 deer (scale 1, variance 0.8) and 100 rabbits
      (scale 0.5, variance 0.6) on land, 80 birds, and 120 fish, 40 turtles
      and 50 jellyfish in the water between depths -1 and -8, -0.5 and -4,
      and -2 and -10. Every group obeys its height rule from the start. */
  method Spawn(ground: (real, real) -> real, rand: (int, int) -> real) returns (h: Herds)
    requires IsRandom(rand)
    ensures HerdsOk(h)
    ensures |h.deer| <= DEER_COUNT && |h.rabbits| <= RABBIT_COUNT && |h.birds| == BIRD_COUNT
    ensures |h.fish| <= FISH_COUNT && |h.turtles| <= TURTLE_COUNT && |h.jellyfish| <= JELLYFISH_COUNT
    ensures forall k :: 0 <= k < |h.deer| ==> 1.0 <= h.deer[k].y <= 25.0 && h.deer[k].y == ground(h.deer[k].x, h.deer[k].z)
    ensures forall k :: 0 <= k < |h.rabbits| ==> 1.0 <= h.rabbits[k].y <= 25.0 && h.rabbits[k].y == ground(h.rabbits[k].x, h.rabbits[k].z)
    ensures forall k :: 0 <= k < |h.fish| ==> -8.0 <= h.fish[k].y <= -1.0 && ground(h.fish[k].x, h.fish[k].z) <= WATER_LEVEL
    ensures forall k :: 0 <= k < |h.turtles| ==> -4.0 <= h.turtles[k].y <= -0.5 && ground(h.turtles[k].x, h.turtles[k].z) <= WATER_LEVEL
    ensures forall k :: 0 <= k < |h.jellyfish| ==> -10.0 <= h.jellyfish[k].y <= -2.0 && ground(h.jellyfish[k].x, h.jellyfish[k].z) <= WATER_LEVEL
  {
    var deer := PlaceLand(ground, DEER_COUNT, 1.0, 0.8, SpawnDraws(rand, 0));
    var rabbits := PlaceLand(ground, RABBIT_COUNT, 0.5, 0.6, SpawnDraws(rand, 1));
    var birds := PlaceBirds(ground, BIRD_COUNT, SpawnDraws(rand, 2));
    var fish := PlaceWater(ground, FISH_COUNT, -1.0, -8.0, SpawnDraws(rand, 3));
    var turtles := PlaceWater(ground, TURTLE_COUNT, -0.5, -4.0, SpawnDraws(rand, 4));
    var jellyfish := PlaceWater(ground, JELLYFISH_COUNT, -2.0, -10.0, SpawnDraws(rand, 5));
    h := Herds(deer, rabbits, birds, fish, turtles, jellyfish);
  }

  /** A draw between two depths lands between them. */
  lemma DepthBetween(minDepth: real, maxDepth: real, draw: real)
    requires 0.0 <= draw < 1.0
    ensures maxDepth <= minDepth ==> maxDepth <= minDepth + draw * (maxDepth - minDepth) <= minDepth
  {
    if maxDepth <= minDepth {
      ScaledNonPositive(draw, maxDepth - minDepth);
      assert Scaled(draw, maxDepth - minDepth) == draw * (maxDepth - minDepth);
    }
  }

  /** The product `draw * k` under a name of its own, so that a fact proved
      about it for a plain `k` carries over to a difference passed as `k`. */
  function Scaled(draw: real, k: real): real { draw * k }

  /** A draw in [0, 1) scaling a non-positive span stays between the span
      and zero. */
  lemma ScaledNonPositive(draw: real, k: real)
    requires 0.0 <= draw < 1.0
    requires k <= 0.0
    ensures k <= Scaled(draw, k) <= 0.0
  {
    NonPositiveFactor(k, draw, 1.0);
    NonPositiveFactor(k, 0.0, draw);
  }

  /** Multiplying by a non-positive factor reverses an order. */
  lemma NonPositiveFactor(c: real, a: real, b: real)
    requires c <= 0.0 && a <= b
    ensures c * b <= c * a
  {
  }
}
