/** The crowd as a whole: the people, the stack of riders on the otter's
    back and the debris pool, with the per-frame update (level-of-detail
    decimation, drowning, fleeing, chasing, mounting, wandering, idling) and
    the repel blast. */
module Crowd {
  import opened Host
  import opened Wrappers
  import opened Person
  import TickRate
  import Debris
  import Terrain

  const PERSON_COUNT: int := 230
  const WANDER_SPEED: real := 1.0

  const DETECT_SQ: real := 1600.0
  const MOUNT_SQ: real := 2.25
  const FLEE_RADIUS_SQ: real := 2500.0

  /** The crowd's state: every person (the instance count is the length of
      `people`), the rider stack from bottom to top, and the debris pool. */
  datatype Crowd = Crowd(people: seq<Person>, riderStack: seq<int>, debris: Debris.Ring)

  predicate NoDup(s: seq<int>) {
    forall a, b :: 0 <= a < b < |s| ==> s[a] != s[b]
  }

  /** The rider stack holds distinct valid indices; each rider is RIDING and
      its `stackSlot` is its position in the stack; and every RIDING person
      is on the stack. */
  predicate StackInv(people: seq<Person>, stack: seq<int>) {
    && (forall s :: 0 <= s < |stack| ==> 0 <= stack[s] < |people|)
    && NoDup(stack)
    && (forall s :: 0 <= s < |stack| ==> people[stack[s]].stackSlot == s && people[stack[s]].state == Riding)
    && (forall j :: 0 <= j < |people| && people[j].state == Riding ==> j in stack)
  }

  /** What the crowd keeps true from frame to frame. */
  predicate Inv(c: Crowd) {
    && StackInv(c.people, c.riderStack)
    && Debris.RingInv(c.debris)
    && (forall j :: 0 <= j < |c.people| ==> WellFormed(c.people[j]))
  }

  // ---------------------------------------------------------------- rider stack

  /** `indexOf`: the first position of `v` in `s`, or -1. */
  function Find(s: seq<int>, v: int): (k: int)
    ensures -1 <= k < |s|
    ensures k == -1 <==> v !in s
    ensures 0 <= k ==> s[k] == v && forall t :: 0 <= t < k ==> s[t] != v
    decreases |s|
  {
    if |s| == 0 then -1
    else if s[0] == v then 0
    else
      var k := Find(s[1..], v);
      if k == -1 then -1 else k + 1
  }

  /** Removing one entry keeps the others distinct. */
  lemma RemoveNoDup(s: seq<int>, k: int)
    requires NoDup(s)
    requires 0 <= k < |s|
    ensures NoDup(s[..k] + s[k + 1..])
    ensures forall t :: 0 <= t < |s| && t != k ==> s[t] in s[..k] + s[k + 1..]
    ensures forall v :: v in s[..k] + s[k + 1..] ==> v in s && v != s[k]
  {
    var r := s[..k] + s[k + 1..];
    forall a, b | 0 <= a < b < |r|
      ensures r[a] != r[b]
    {
      var a' := if a < k then a else a + 1;
      var b' := if b < k then b else b + 1;
      assert r[a] == s[a'] && r[b] == s[b'];
    }
    forall t | 0 <= t < |s| && t != k
      ensures s[t] in r
    {
      if t < k {
        assert r[t] == s[t];
      } else {
        assert r[t - 1] == s[t];
      }
    }
    forall v | v in r
      ensures v in s && v != s[k]
    {
      var a :| 0 <= a < |r| && r[a] == v;
      var a' := if a < k then a else a + 1;
      assert r[a] == s[a'];
    }
  }

  /** `removeFromStack`: an index that is not on the stack changes nothing.
      Otherwise its entry is spliced out, the other riders keep their order,
      and every remaining rider's slot is renumbered to its new position.
      Only slots change, and the removed person's own slot is left alone. */
  method RemoveFromStack(people: seq<Person>, stack: seq<int>, personIdx: int)
    returns (people': seq<Person>, stack': seq<int>)
    requires forall s :: 0 <= s < |stack| ==> 0 <= stack[s] < |people|
    requires NoDup(stack)
    ensures |people'| == |people|
    ensures personIdx !in stack ==> people' == people && stack' == stack
    ensures personIdx in stack ==>
              var k := Find(stack, personIdx);
              stack' == stack[..k] + stack[k + 1..]
    ensures NoDup(stack') && forall s :: 0 <= s < |stack'| ==> 0 <= stack'[s] < |people|
    ensures personIdx in stack ==> forall s :: 0 <= s < |stack'| ==> people'[stack'[s]].stackSlot == s
    ensures forall j :: 0 <= j < |people| && j !in stack' ==> people'[j] == people[j]
    ensures forall j :: 0 <= j < |people| ==> people'[j] == people[j].(stackSlot := people'[j].stackSlot)
  {
    var idx := Find(stack, personIdx);
    if idx == -1 {
      return people, stack;
    }
    stack' := stack[..idx] + stack[idx + 1..];
    RemoveNoDup(stack, idx);
    people' := Renumber(people, stack');
  }

  /** The renumbering loop of `removeFromStack`: each entry of the stack
      gets its position as its slot; nobody else changes. */
  method Renumber(people: seq<Person>, stack: seq<int>) returns (people': seq<Person>)
    requires forall s :: 0 <= s < |stack| ==> 0 <= stack[s] < |people|
    requires NoDup(stack)
    ensures |people'| == |people|
    ensures forall s :: 0 <= s < |stack| ==> people'[stack[s]].stackSlot == s
    ensures forall j :: 0 <= j < |people| && j !in stack ==> people'[j] == people[j]
    ensures forall j :: 0 <= j < |people| ==> people'[j] == people[j].(stackSlot := people'[j].stackSlot)
  {
    people' := people;
    for s := 0 to |stack|
      invariant |people'| == |people|
      invariant forall t :: 0 <= t < s ==> people'[stack[t]].stackSlot == t
      invariant forall j :: 0 <= j < |people| && j !in stack[..s] ==> people'[j] == people[j]
      invariant forall j :: 0 <= j < |people| ==> people'[j] == people[j].(stackSlot := people'[j].stackSlot)
    {
      assert stack[..s + 1] == stack[..s] + [stack[s]];
      people' := people'[stack[s] := people'[stack[s]].(stackSlot := s)];
    }
    assert stack[..|stack|] == stack;
  }

  /** Replacing a person who is not riding by one who is not riding keeps the
      stack invariant. */
  lemma ReplaceNonRider(people: seq<Person>, stack: seq<int>, i: int, q: Person)
    requires StackInv(people, stack)
    requires 0 <= i < |people|
    requires people[i].state != Riding && q.state != Riding
    ensures StackInv(people[i := q], stack)
  {
    assert i !in stack;
    forall s | 0 <= s < |stack|
      ensures people[i := q][stack[s]] == people[stack[s]]
    {
      assert stack[s] != i;
    }
  }

  /** The crowd with person `i`, who is not riding, replaced by a
      well-formed person who is not riding either; the crowd invariant
      survives. */
  function SetPerson(c: Crowd, i: int, q: Person): (c': Crowd)
    requires Inv(c)
    requires 0 <= i < |c.people|
    requires c.people[i].state != Riding && q.state != Riding && WellFormed(q)
    ensures Inv(c')
    ensures c'.people == c.people[i := q] && c'.riderStack == c.riderStack && c'.debris == c.debris
  {
    ReplaceNonRider(c.people, c.riderStack, i, q);
    c.(people := c.people[i := q])
  }

  /** Mounting in the crowd: person `i`, not riding, climbs on top of the
      stack as `p` in state RIDING with the next free slot. */
  function Mount(c: Crowd, i: int, p: Person): (c': Crowd)
    requires Inv(c)
    requires 0 <= i < |c.people| && c.people[i].state != Riding
    requires WellFormed(p) && p.state != Drowning && p.state != Dead
    ensures Inv(c')
    ensures c'.riderStack == c.riderStack + [i] && c'.debris == c.debris
    ensures c'.people == c.people[i := p.(state := Riding, stackSlot := |c.riderStack|)]
  {
    var q := p.(state := Riding, stackSlot := |c.riderStack|);
    PushRider(c.people, c.riderStack, i, q);
    c.(people := c.people[i := q], riderStack := c.riderStack + [i])
  }

  /** Replacing a rider by one still riding in the same slot keeps the stack
      invariant. */
  lemma ReplaceRider(people: seq<Person>, stack: seq<int>, i: int, q: Person)
    requires StackInv(people, stack)
    requires 0 <= i < |people|
    requires people[i].state == Riding && q.state == Riding && q.stackSlot == people[i].stackSlot
    ensures StackInv(people[i := q], stack)
  {
  }

  /** Mounting: a person not on the stack becomes RIDING in the slot just
      above the top, and the stack invariant still holds. */
  lemma PushRider(people: seq<Person>, stack: seq<int>, i: int, q: Person)
    requires StackInv(people, stack)
    requires 0 <= i < |people|
    requires people[i].state != Riding
    requires q.state == Riding && q.stackSlot == |stack|
    ensures StackInv(people[i := q], stack + [i])
  {
    assert i !in stack;
    var ps := people[i := q];
    var st := stack + [i];
    forall s | 0 <= s < |st|
      ensures ps[st[s]].stackSlot == s && ps[st[s]].state == Riding
    {
      if s < |stack| {
        assert st[s] == stack[s] && stack[s] != i;
      }
    }
    forall j | 0 <= j < |ps| && ps[j].state == Riding
      ensures j in st
    {
      if j != i {
        assert j in stack;
      } else {
        assert st[|stack|] == i;
      }
    }
  }

  /** Taking a drowning rider off the stack keeps the stack invariant. */
  method DropRider(people: seq<Person>, stack: seq<int>, i: int, q: Person)
    returns (people': seq<Person>, stack': seq<int>)
    requires StackInv(people, stack)
    requires 0 <= i < |people|
    requires people[i].state == Riding
    requires q.state != Riding
    ensures StackInv(people', stack')
    ensures i !in stack' && |stack'| == |stack| - 1
    ensures |people'| == |people| && people'[i] == q
    ensures forall j :: 0 <= j < |people| && j != i ==> people'[j] == people[j].(stackSlot := people'[j].stackSlot)
    ensures forall j :: 0 <= j < |people| && j != i && people[j].state != Riding ==> people'[j] == people[j]
  {
    assert i in stack;
    var k := Find(stack, i);
    people', stack' := RemoveFromStack(people[i := q], stack, i);
    RemoveNoDup(stack, k);
    forall j | 0 <= j < |people'| && people'[j].state == Riding
      ensures j in stack'
    {
      assert j != i;
      assert people[j].state == Riding;
      var t := Find(stack, j);
      assert t != k;
    }
    forall j | 0 <= j < |people| && j != i && people[j].state != Riding
      ensures people'[j] == people[j]
    {
      assert j !in stack;
    }
  }

  // ---------------------------------------------------------------- update

  /** Level-of-detail interval for a person on the ground: full rate while
      chasing or within detection range, otherwise by distance. */
  function PersonInterval(state: State, distSq: real): (r: real)
    ensures state == Chase || distSq <= DETECT_SQ ==> r == 0.0
    ensures state != Chase && distSq > DETECT_SQ ==> r == TickRate.DistanceInterval(distSq)
  {
    if state == Chase || distSq <= DETECT_SQ then 0.0 else TickRate.DistanceInterval(distSq)
  }

  /** The decimation outcome of a person on the ground this frame, by its
      distance from the otter at (`ox`, `oz`). */
  function GroundTick(p: Person, dt: real, ox: real, oz: real): TickRate.Tick {
    var dx := ox - p.x;
    var dz := oz - p.z;
    TickRate.Decimate(p.accum, dt, PersonInterval(p.state, dx * dx + dz * dz))
  }

  /** The decimation outcome of a drowning person this frame, by the
      distance from the otter to where it drowns. */
  function DrowningTick(p: Person, dt: real, ox: real, oz: real): TickRate.Tick {
    var dx := ox - p.drowningX;
    var dz := oz - p.drowningZ;
    TickRate.Decimate(p.accum, dt, TickRate.DistanceInterval(dx * dx + dz * dz))
  }

  /** The four random draws of a wandering step of person `i`. */
  function WanderDrawsOf(rand: (int, int) -> real, i: int): (d: WanderDraws)
    requires IsRandom(rand)
    ensures DrawsValid(d)
  {
    WanderDraws(rand(i, 0), rand(i, 1), rand(i, 2), rand(i, 3))
  }

  /** `c'` is `c` after drowning person `i` took its frame: when the
      decimation lets it run, its drowning timer advances by the banked
      time; otherwise only the bank changes. Nobody else and neither the
      stack nor the debris changes. */
  ghost predicate DrowningStepped(c: Crowd, c': Crowd, i: int, dt: real, ox: real, oz: real)
    requires 0 <= i < |c.people| && c.people[i].state == Drowning
  {
    var p := c.people[i];
    var t := DrowningTick(p, dt, ox, oz);
    && c'.riderStack == c.riderStack && c'.debris == c.debris
    && c'.people == c.people[i := if t.run then UpdateDrowning(p.(accum := t.accum), t.stepDt) else p.(accum := t.accum)]
  }

  /** A drowning person: decimated by the distance from the otter to where
      it drowns, then its drowning timer runs. */
  method StepDrowning(c: Crowd, i: int, dt: real, ox: real, oz: real) returns (c': Crowd)
    requires Inv(c)
    requires 0 <= i < |c.people| && c.people[i].state == Drowning
    ensures Inv(c')
    ensures |c'.people| == |c.people| && c'.people == c.people[i := c'.people[i]]
    ensures c'.people[i].state == Drowning || c'.people[i].state == Dead
    ensures DrowningStepped(c, c', i, dt, ox, oz)
  {
    var p := c.people[i];
    var t := DrowningTick(p, dt, ox, oz);
    var q := if t.run then UpdateDrowning(p.(accum := t.accum), t.stepDt) else p.(accum := t.accum);
    ReplaceNonRider(c.people, c.riderStack, i, q);
    c' := c.(people := c.people[i := q]);
  }

  /** `c'` is `c` after rider `i` took its frame: the drowning check at
      its height on the stack decides it; a rider who starts drowning leaves
      the stack (the riders above it move down a slot), one who does not
      changes alone. Nobody's state but the rider's changes, the people
      off the stack are untouched, and the debris is kept. */
  ghost predicate RidingStepped(c: Crowd, c': Crowd, i: int, dt: real, ox: real, oy: real, oz: real)
    requires 0 <= i < |c.people|
  {
    var p := c.people[i];
    var s := CheckDrowning(p, dt, oy + 0.8 + p.stackSlot as real * STACK_HEIGHT * p.scale, Some((ox, oy, oz)));
    && c'.debris == c.debris && |c'.people| == |c.people|
    && c'.people[i] == s.p
    && (s.drowned <==> i !in c'.riderStack)
    && (!s.drowned ==> c'.riderStack == c.riderStack && c'.people == c.people[i := s.p])
    && (forall j :: 0 <= j < |c.people| && j != i && c.people[j].state != Riding ==> c'.people[j] == c.people[j])
    && (forall j :: 0 <= j < |c.people| && j != i ==> c'.people[j].state == c.people[j].state)
  }

  /** A rider: only the drowning check runs (every frame, at its height on
      the stack); a rider who starts drowning leaves the stack. */
  method StepRiding(c: Crowd, i: int, dt: real, ox: real, oy: real, oz: real) returns (c': Crowd)
    requires Inv(c)
    requires 0 <= i < |c.people| && c.people[i].state == Riding
    ensures Inv(c')
    ensures RidingStepped(c, c', i, dt, ox, oy, oz)
  {
    var p := c.people[i];
    var rideY := oy + 0.8 + p.stackSlot as real * STACK_HEIGHT * p.scale;
    var s := CheckDrowning(p, dt, rideY, Some((ox, oy, oz)));
    if s.drowned {
      var people, stack := DropRider(c.people, c.riderStack, i, s.p);
      c' := c.(people := people, riderStack := stack);
    } else {
      ReplaceRider(c.people, c.riderStack, i, s.p);
      c' := c.(people := c.people[i := s.p]);
      assert i in c.riderStack;
    }
  }

  /** `c'` is `c` after person `i`, on foot or fleeing, took its frame: a
      frame the decimation skips only banks time; otherwise the drowning
      check runs with the stepped time at the person's height, and a person
      who stays above water then takes its flee phase or its land step. */
  ghost predicate GroundStepped(env: Env, ground: (real, real) -> real, c: Crowd, c': Crowd, i: int,
                                dt: real, ox: real, oz: real, rand: (int, int) -> real)
    requires Valid(env)
    requires IsRandom(rand)
    requires 0 <= i < |c.people|
    requires c.people[i].state in {Wander, Idle, Chase, Flee}
  {
    var p := c.people[i];
    var t := GroundTick(p, dt, ox, oz);
    && (!t.run ==>
          c'.people == c.people[i := p.(accum := t.accum)] && c'.riderStack == c.riderStack && c'.debris == c.debris)
    && (t.run ==>
          var s := CheckDrowning(p.(accum := t.accum), t.stepDt, p.y, None);
          && (s.drowned ==>
                c'.people == c.people[i := s.p] && c'.riderStack == c.riderStack && c'.debris == c.debris)
          // a fleeing person who stays above water takes its flee phase
          && (!s.drowned && p.state == Flee ==>
                var f := FleeStep(ground, s.p, t.stepDt);
                && c'.people == c.people[i := f.p] && c'.riderStack == c.riderStack
                && (!f.spawn ==> c'.debris == c.debris)
                && (f.spawn ==> c'.debris.next == (c.debris.next + Debris.DEBRIS_PER_PERSON) % Debris.MAX_DEBRIS))
          // anyone else on foot who stays above water takes its land step
          && (!s.drowned && p.state != Flee ==>
                LandStepped(env, ground, c, c', i, s.p, t.stepDt, ox - p.x, oz - p.z, rand)))
  }

  /** Everyone else (wandering, idle, chasing, fleeing): decimation by
      distance, then the drowning check with the step's time, then the rest
      of the step. */
  method StepGround(env: Env, ground: (real, real) -> real, c: Crowd, i: int, dt: real,
                    ox: real, oz: real, rand: (int, int) -> real) returns (c': Crowd)
    requires Valid(env)
    requires IsRandom(rand)
    requires Inv(c)
    requires 0 <= i < |c.people|
    requires c.people[i].state in {Wander, Idle, Chase, Flee}
    ensures Inv(c')
    ensures |c'.people| == |c.people|
    ensures forall j :: 0 <= j < |c.people| && j != i ==> c'.people[j] == c.people[j]
    ensures c'.riderStack == c.riderStack || c'.riderStack == c.riderStack + [i]
    ensures c.people[i].state == Flee ==> c'.people[i].state in {Flee, Dead, Drowning}
    ensures c.people[i].state == Flee ==> c'.riderStack == c.riderStack
    ensures c.people[i].state != Flee ==> c'.debris == c.debris
    ensures GroundStepped(env, ground, c, c', i, dt, ox, oz, rand)
  {
    var p := c.people[i];
    var dx := ox - p.x;
    var dz := oz - p.z;
    var t := GroundTick(p, dt, ox, oz);
    var p1 := p.(accum := t.accum);
    if !t.run {
      return SetPerson(c, i, p1);
    }
    var s := CheckDrowning(p1, t.stepDt, p1.y, None);
    if s.drowned {
      return SetPerson(c, i, s.p);
    }
    if s.p.state == Flee {
      c' := StepFlee(env, ground, c, i, s.p, t.stepDt, rand);
    } else {
      c' := StepLand(env, ground, c, i, s.p, t.stepDt, dx, dz, rand);
    }
  }

  /** The flee phases of person `i`; the end of the fold spawns the debris
      burst at the person's position. */
  method StepFlee(env: Env, ground: (real, real) -> real, c: Crowd, i: int, p: Person, dt: real,
                  rand: (int, int) -> real) returns (c': Crowd)
    requires Valid(env)
    requires IsRandom(rand)
    requires Inv(c)
    requires 0 <= i < |c.people| && c.people[i].state == Flee
    requires p.state == Flee && WellFormed(p)
    ensures Inv(c')
    ensures var f := FleeStep(ground, p, dt);
            && c'.people == c.people[i := f.p] && c'.riderStack == c.riderStack
            && (!f.spawn ==> c'.debris == c.debris)
            && (f.spawn ==> c'.debris.next == (c.debris.next + Debris.DEBRIS_PER_PERSON) % Debris.MAX_DEBRIS)
  {
    FleeAdvances(ground, p, dt);
    var f := FleeStep(ground, p, dt);
    var ring := c.debris;
    if f.spawn {
      ring := Debris.SpawnDebris(ring, f.p.x, f.p.y, f.p.z, rand, i);
    }
    c' := SetPerson(c, i, f.p).(debris := ring);
  }

  /** The crowd `c'` is `c` after person `i`, on foot as `p` at offset
      (dx, dz) from the otter, took its land step: inside detection range
      (or already chasing) it chases, climbing onto the top of the stack
      once within mounting range and otherwise running at the otter; out of
      range a wanderer wanders with its four draws and an idle person idles
      with its first draw. The debris ring is not touched. */
  ghost predicate LandStepped(env: Env, ground: (real, real) -> real, c: Crowd, c': Crowd, i: int,
                              p: Person, dt: real, dx: real, dz: real, rand: (int, int) -> real)
    requires Valid(env)
    requires IsRandom(rand)
    requires 0 <= i < |c.people|
    requires p.state in {Wander, Idle, Chase}
  {
    var distSq := dx * dx + dz * dz;
    var chasing := p.state == Chase || distSq < DETECT_SQ;
    && c'.debris == c.debris
    && (chasing && distSq < MOUNT_SQ ==>
          && c'.riderStack == c.riderStack + [i]
          && c'.people == c.people[i := p.(state := Riding, stackSlot := |c.riderStack|)])
    && (chasing && distSq >= MOUNT_SQ ==>
          && c'.riderStack == c.riderStack
          && c'.people == c.people[i := ChaseMove(env, ground, p.(state := Chase), dt, dx, dz)])
    && (!chasing && p.state == Wander ==>
          && c'.riderStack == c.riderStack
          && c'.people == c.people[i := WanderStep(env, ground, p, dt, WanderDrawsOf(rand, i))])
    && (!chasing && p.state == Idle ==>
          && c'.riderStack == c.riderStack
          && c'.people == c.people[i := IdleStep(p, dt, rand(i, 0))])
  }

  /** A person on foot: inside detection range it starts chasing; a chaser
      within mounting range climbs onto the top of the stack, otherwise it
      runs towards the otter; wanderers wander and the idle idle. */
  method StepLand(env: Env, ground: (real, real) -> real, c: Crowd, i: int, p: Person, dt: real,
                  dx: real, dz: real, rand: (int, int) -> real) returns (c': Crowd)
    requires Valid(env)
    requires IsRandom(rand)
    requires Inv(c)
    requires 0 <= i < |c.people| && c.people[i].state != Riding
    requires p.state in {Wander, Idle, Chase} && WellFormed(p)
    ensures Inv(c')
    ensures c'.debris == c.debris
    ensures LandStepped(env, ground, c, c', i, p, dt, dx, dz, rand)
    ensures |c'.people| == |c.people|
    ensures forall j :: 0 <= j < |c.people| && j != i ==> c'.people[j] == c.people[j]
  {
    var distSq := dx * dx + dz * dz;
    var p3 := if p.state != Chase && distSq < DETECT_SQ then p.(state := Chase) else p;
    if p3.state == Chase {
      if distSq < MOUNT_SQ {
        c' := Mount(c, i, p3);
      } else {
        c' := SetPerson(c, i, ChaseMove(env, ground, p3, dt, dx, dz));
      }
    } else if p3.state == Wander {
      c' := SetPerson(c, i, WanderStep(env, ground, p3, dt, WanderDrawsOf(rand, i)));
    } else {
      c' := SetPerson(c, i, IdleStep(p3, dt, rand(i, 0)));
    }
  }

  /** One person's share of `update`. The dead are skipped; nobody else but
      this person and the riders (whose slots may be renumbered) changes. */
  method StepPerson(env: Env, ground: (real, real) -> real, c: Crowd, i: int, dt: real,
                    ox: real, oy: real, oz: real, rand: (int, int) -> real) returns (c': Crowd)
    requires Valid(env)
    requires IsRandom(rand)
    requires Inv(c)
    requires 0 <= i < |c.people|
    ensures Inv(c')
    ensures |c'.people| == |c.people|
    ensures c.people[i].state == Dead ==> c' == c
    ensures c.people[i].state == Drowning ==> c'.people[i].state in {Drowning, Dead}
    ensures c.people[i].state == Drowning ==> DrowningStepped(c, c', i, dt, ox, oz)
    ensures c.people[i].state == Riding ==> RidingStepped(c, c', i, dt, ox, oy, oz)
    ensures c.people[i].state in {Wander, Idle, Chase, Flee} ==> GroundStepped(env, ground, c, c', i, dt, ox, oz, rand)
    ensures forall j :: 0 <= j < |c.people| && j != i && c.people[j].state != Riding ==> c'.people[j] == c.people[j]
  {
    var p := c.people[i];
    if p.state == Dead {
      c' := c;
    } else if p.state == Drowning {
      c' := StepDrowning(c, i, dt, ox, oz);
    } else if p.state == Riding {
      c' := StepRiding(c, i, dt, ox, oy, oz);
    } else {
      c' := StepGround(env, ground, c, i, dt, ox, oz, rand);
    }
  }

  /** `update`: every person in turn, then the debris pool with the frame's
      dt. The dead stay exactly as they were and the drowning never recover. */
  method Update(env: Env, ground: (real, real) -> real, c: Crowd, dt: real,
                ox: real, oy: real, oz: real, rand: (int, int) -> real) returns (c': Crowd)
    requires Valid(env)
    requires IsRandom(rand)
    requires Inv(c)
    ensures Inv(c')
    ensures |c'.people| == |c.people|
    ensures forall j :: 0 <= j < |c.people| && c.people[j].state == Dead ==> c'.people[j] == c.people[j]
    ensures forall j :: 0 <= j < |c.people| && c.people[j].state == Drowning ==>
              c'.people[j].state in {Drowning, Dead}
  {
    c' := c;
    for i := 0 to |c.people|
      invariant Inv(c')
      invariant |c'.people| == |c.people|
      invariant forall j :: 0 <= j < |c.people| && c.people[j].state == Dead ==> c'.people[j] == c.people[j]
      invariant forall j :: 0 <= j < |c.people| && c.people[j].state == Drowning ==>
                  c'.people[j].state in {Drowning, Dead}
    {
      c' := StepPerson(env, ground, c', i, dt, ox, oy, oz, rand);
    }
    var ring := Debris.UpdateDebris(ground, c'.debris, dt);
    c' := c'.(debris := ring);
  }

  // ---------------------------------------------------------------- repel

  /** A rider thrown off the stack: no slot, set down within one unit of the
      blast origin on each axis, at the cached terrain height there. */
  function Dismount(env: Env, ground: (real, real) -> real, p: Person, ox: real, oz: real,
                    d0: real, d1: real): (r: Person)
    requires Valid(env)
    requires 0.0 <= d0 < 1.0 && 0.0 <= d1 < 1.0
    ensures r.stackSlot == -1
    ensures ox - 1.0 <= r.x < ox + 1.0 && oz - 1.0 <= r.z < oz + 1.0
    ensures r.y == ground(r.x, r.z)
    ensures r.(stackSlot := p.stackSlot, x := p.x, y := p.y, z := p.z) == p
  {
    var x := ox + (d0 - 0.5) * 2.0;
    var z := oz + (d1 - 0.5) * 2.0;
    p.(stackSlot := -1, x := x, z := z, y := ground(x, z))
  }

  /** What the blast does to rider `j`: dismounted with draws 0 and 1, then
      launched with draws 2 and 3. */
  function RepelRider(env: Env, ground: (real, real) -> real, p: Person, j: int, ox: real, oz: real,
                      rand: (int, int) -> real): (r: Person)
    requires Valid(env)
    requires IsRandom(rand)
    requires p.state == Riding && WellFormed(p)
    ensures r.state == Flee && r.fleePhase == 0 && r.stackSlot == -1 && WellFormed(r)
  {
    Launch(env, Dismount(env, ground, p, ox, oz, rand(j, 0), rand(j, 1)), ox, oz, rand(j, 2), rand(j, 3))
  }

  /** Who the second half of the blast launches: someone on the ground and
      not already fleeing, no farther than the flee radius from the origin. */
  predicate InBlast(p: Person, ox: real, oz: real) {
    var dx := p.x - ox;
    var dz := p.z - oz;
    p.state in {Wander, Idle, Chase} && dx * dx + dz * dz <= FLEE_RADIUS_SQ
  }

  /** The first half of `repelAll`: riders are popped from the top of the
      stack until it is empty, and each popped rider is replaced by its
      thrown-off self from `thrown`. Nobody off the stack changes. */
  method PopRiders(people: seq<Person>, stack: seq<int>, thrown: seq<Person>) returns (people': seq<Person>)
    requires |thrown| == |people|
    requires forall s :: 0 <= s < |stack| ==> 0 <= stack[s] < |people|
    ensures |people'| == |people|
    ensures forall s :: 0 <= s < |stack| ==> people'[stack[s]] == thrown[stack[s]]
    ensures forall j :: 0 <= j < |people| && j !in stack ==> people'[j] == people[j]
  {
    people' := people;
    var n := |stack|;
    while n > 0
      invariant 0 <= n <= |stack|
      invariant |people'| == |people|
      invariant forall s :: n <= s < |stack| ==> people'[stack[s]] == thrown[stack[s]]
      invariant forall j :: 0 <= j < |people| && j !in stack[n..] ==> people'[j] == people[j]
    {
      assert stack[n - 1..] == [stack[n - 1]] + stack[n..];
      n := n - 1;
      people' := people'[stack[n] := thrown[stack[n]]];
    }
  }

  /** The second half of `repelAll`: one pass over everybody, launching
      those in the blast. */
  method LaunchNearby(env: Env, people: seq<Person>, ox: real, oz: real,
                      rand: (int, int) -> real) returns (people': seq<Person>)
    requires Valid(env)
    requires IsRandom(rand)
    ensures |people'| == |people|
    ensures forall j :: 0 <= j < |people| && InBlast(people[j], ox, oz) ==>
              people'[j] == Launch(env, people[j], ox, oz, rand(j, 2), rand(j, 3))
    ensures forall j :: 0 <= j < |people| && !InBlast(people[j], ox, oz) ==> people'[j] == people[j]
    ensures forall j :: 0 <= j < |people| && WellFormed(people[j]) && people[j].state != Riding ==>
              WellFormed(people'[j]) && people'[j].state != Riding
  {
    people' := people;
    for i := 0 to |people|
      invariant |people'| == |people|
      invariant forall j :: i <= j < |people| ==> people'[j] == people[j]
      invariant forall j :: 0 <= j < i && InBlast(people[j], ox, oz) ==>
                  people'[j] == Launch(env, people[j], ox, oz, rand(j, 2), rand(j, 3))
      invariant forall j :: 0 <= j < i && !InBlast(people[j], ox, oz) ==> people'[j] == people[j]
    {
      if InBlast(people'[i], ox, oz) {
        people' := people'[i := Launch(env, people'[i], ox, oz, rand(i, 2), rand(i, 3))];
      }
    }
  }

  /** `repelAll`: every rider is popped off the stack, set down next to the
      origin and launched; then everybody within the blast radius who is
      walking, idling or chasing is launched from where they stand. Nobody
      is left riding, and nobody else changes. */
  method RepelAll(env: Env, ground: (real, real) -> real, c: Crowd, ox: real, oz: real,
                  rand: (int, int) -> real) returns (c': Crowd)
    requires Valid(env)
    requires IsRandom(rand)
    requires Inv(c)
    ensures Inv(c')
    ensures c'.riderStack == [] && c'.debris == c.debris && |c'.people| == |c.people|
    ensures forall j :: 0 <= j < |c.people| ==> c'.people[j].state != Riding
    ensures forall j :: 0 <= j < |c.people| && c.people[j].state == Riding ==>
              c'.people[j] == RepelRider(env, ground, c.people[j], j, ox, oz, rand)
    ensures forall j :: 0 <= j < |c.people| && InBlast(c.people[j], ox, oz) ==>
              c'.people[j] == Launch(env, c.people[j], ox, oz, rand(j, 2), rand(j, 3))
    ensures forall j :: 0 <= j < |c.people| && c.people[j].state != Riding && !InBlast(c.people[j], ox, oz) ==>
              c'.people[j] == c.people[j]
  {
    var dismounted := DismountAll(env, ground, c, ox, oz, rand);
    var people := LaunchNearby(env, dismounted, ox, oz, rand);
    c' := c.(people := people, riderStack := []);
  }

  /** The rider half of `repelAll` on the whole crowd: the riders are
      thrown off, everyone else stays as they are. */
  method DismountAll(env: Env, ground: (real, real) -> real, c: Crowd, ox: real, oz: real,
                     rand: (int, int) -> real) returns (people: seq<Person>)
    requires Valid(env)
    requires IsRandom(rand)
    requires Inv(c)
    ensures |people| == |c.people|
    ensures forall j :: 0 <= j < |c.people| && c.people[j].state == Riding ==>
              people[j] == RepelRider(env, ground, c.people[j], j, ox, oz, rand)
    ensures forall j :: 0 <= j < |c.people| && c.people[j].state != Riding ==> people[j] == c.people[j]
    ensures forall j :: 0 <= j < |c.people| ==> WellFormed(people[j]) && people[j].state != Riding
  {
    var thrown := ThrownRiders(env, ground, c.people, ox, oz, rand);
    people := PopRiders(c.people, c.riderStack, thrown);
    forall j | 0 <= j < |c.people|
      ensures c.people[j].state == Riding ==> people[j] == thrown[j]
      ensures c.people[j].state != Riding ==> people[j] == c.people[j]
    {
      if c.people[j].state == Riding {
        var s :| 0 <= s < |c.riderStack| && c.riderStack[s] == j;
      } else {
        assert j !in c.riderStack;
      }
    }
  }

  /** Every rider replaced by what the blast makes of it; everyone else as
      they are. */
  function ThrownRiders(env: Env, ground: (real, real) -> real, people: seq<Person>, ox: real, oz: real,
                        rand: (int, int) -> real): (r: seq<Person>)
    requires Valid(env)
    requires IsRandom(rand)
    requires forall j :: 0 <= j < |people| ==> WellFormed(people[j])
    ensures |r| == |people|
    ensures forall j :: 0 <= j < |people| && people[j].state == Riding ==>
              r[j] == RepelRider(env, ground, people[j], j, ox, oz, rand)
    ensures forall j :: 0 <= j < |people| && people[j].state != Riding ==> r[j] == people[j]
  {
    seq(|people|, j requires 0 <= j < |people| =>
          if people[j].state == Riding then RepelRider(env, ground, people[j], j, ox, oz, rand) else people[j])
  }

  // ---------------------------------------------------------------- placement

  /** A person as the constructor leaves it: on dry ground between heights
      1 and 20 outside the surreal zone's core, wandering or idle, not
      riding, with its draws in their ranges. */
  ghost predicate PlacedOk(env: Env, ground: (real, real) -> real, p: Person) {
    && (p.state == Wander || p.state == Idle)
    && p.stackSlot == -1 && p.underwaterTimer == 0.0
    && 1.0 <= p.y <= 20.0 && p.y == ground(p.x, p.z)
    && Terrain.SurrealFactor(env, p.x, p.z) <= 0.6
    && 0.8 <= p.scale < 1.2
    && 0.6 * WANDER_SPEED <= p.speed < 1.4 * WANDER_SPEED
    && 3.0 <= p.wanderInterval < 8.0
    && 0.0 <= p.accum < 0.1
  }

  /** The constructor (`new People()`): up to `PERSON_COUNT * 5` attempts at
      a random point of the central 1433.6-unit square, skipping points
      where the surreal factor exceeds 0.6 or the ground is below 1 or above
      20, until `PERSON_COUNT` are placed. The stack starts empty and every
      debris slot inactive. Attempt `i` uses draws (i, 0..12) in the order
      the constructor takes them (4 to 6 pick the colour and are unused). */
  method Spawn(env: Env, ground: (real, real) -> real, rand: (int, int) -> real) returns (c: Crowd)
    requires IsRandom(rand)
    ensures Inv(c)
    ensures c.riderStack == [] && c.debris == Debris.Empty()
    ensures |c.people| <= PERSON_COUNT
    ensures forall k :: 0 <= k < |c.people| ==> PlacedOk(env, ground, c.people[k])
  {
    var people: seq<Person> := [];
    var i := 0;
    while i < PERSON_COUNT * 5 && |people| < PERSON_COUNT
      invariant 0 <= i
      invariant |people| <= PERSON_COUNT
      invariant forall k :: 0 <= k < |people| ==> PlacedOk(env, ground, people[k]) && WellFormed(people[k])
      decreases PERSON_COUNT * 5 - i
    {
      var x := (rand(i, 0) - 0.5) * Terrain.HALF_WORLD as real * 1.4;
      var z := (rand(i, 1) - 0.5) * Terrain.HALF_WORLD as real * 1.4;
      if Terrain.SurrealFactor(env, x, z) <= 0.6 {
        var h := ground(x, z);
        if 1.0 <= h <= 20.0 {
          ScaledDraw(rand(i, 3), 0.4);
          ScaledDraw(rand(i, 7), 0.8);
          ScaledDraw(rand(i, 9), 5.0);
          ScaledDraw(rand(i, 12), 0.1);
          var p := Placed(x, h, z,
                          rand(i, 2) * PI * 2.0,
                          WANDER_SPEED * (0.6 + rand(i, 7) * 0.8),
                          rand(i, 8) * 6.0,
                          3.0 + rand(i, 9) * 5.0,
                          rand(i, 10) * 4.0,
                          rand(i, 11) > 0.5,
                          0.8 + rand(i, 3) * 0.4,
                          rand(i, 12) * 0.1);
          people := people + [p];
        }
      }
      i := i + 1;
    }
    c := Crowd(people, [], Debris.Empty());
  }
}
