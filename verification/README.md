# tnew simulation core in Dafny

A model of the simulation core of *tnew*, a browser game built on three.js. The player is an otter on an island
of procedural terrain. The otter walks and flies, fires rockets and sets off shockwaves. It collects a stack of
people who chase and ride it, and it builds with blocks. Wildlife wanders around it, and a ring of cacti bounces
it back from the edge of the world.

The model covers this game logic as pure Dafny over immutable values:

- math and noise helpers;
- the terrain height field and its per-chunk height cache;
- chunk generation and visibility;
- distance-based tick decimation;
- the otter's state machine and movement;
- people, with their chase, ride, drown and flee life cycle, the rider stack and the debris ring;
- animals;
- rockets and the shockwave;
- block building;
- the two cameras and the camera system;
- the game's loading, title, playing and paused loop.

How host facilities are represented:

- Numbers are `real`.
- `Math.exp`, `Math.sqrt`, `Math.sin`, `Math.cos`, `Math.atan2` and the simplex `noise2D` are fields of a
  `Host.Env` record. `Host.Valid` constrains them only as far as the proofs need: exp is positive and at most 1
  for non-positive arguments, sqrt squares back, |sin|, |cos| and |noise2D| are at most 1.
- `Math.random()` becomes a draw function `(int, int) -> real` with every value in [0, 1). The function is keyed
  by an agent index and a draw number.
- Terrain lookups inside people, debris, animals and the otter are a `ground` parameter. The game passes the
  cached terrain lookup `Terrain.Ground` for it.

Details of the code that the model follows exactly:

- Debris bounces on every frame it is below the ground and moving down, not just once
  (`src/world/people.ts:693-699`).
- A debris piece retires once `life >= maxLife` (`src/world/people.ts:676-678`).
- A falling otter reaches GAME_OVER only when `fallTime > 1.5` (`src/character/otter-controller.ts:191-206`).
- A person's launch speed is `3 * (0.7 + 0.6 * strength)`, so it never drops below 2.1, even at the edge of the
  blast (`src/world/people.ts:558-578`).

## Model

| member | source | states |
|---|---|---|
| MathHelpers.Lerp | src/utils/math-helpers.ts:1-3 | t = 0 gives a, t = 1 gives b, and any t in [0, 1] gives a value between a and b |
| MathHelpers.Clamp | src/utils/math-helpers.ts:5-7 | the result lies in [lo, hi] when lo <= hi, equals v when v is already inside, and is always one of lo, hi, v |
| MathHelpers.Clamp01 | src/utils/math-helpers.ts:9-11 | the result lies in [0, 1]; inside values are kept, values below go to 0 and values above go to 1 |
| MathHelpers.ExpDampFactor | src/utils/math-helpers.ts:17-20 | the factor 1 - e^(-rate * dt) is below 1, is in [0, 1) for a non-negative rate, and is 0 for a non-positive dt |
| MathHelpers.Damp | src/utils/math-helpers.ts:22-24 | the damped value lies between the current value and the target, and does not move for a non-positive dt |
| MathHelpers.WrapDown | src/utils/math-helpers.ts:29 | subtracting whole turns brings an angle to at most PI without overshooting below -PI |
| MathHelpers.WrapUp | src/utils/math-helpers.ts:30 | adding whole turns brings an angle to at least -PI without overshooting above PI |
| MathHelpers.AngleDiff | src/utils/math-helpers.ts:27-32 | the difference lies in [-PI, PI], differs from b - a by whole turns, and equals b - a when that is already in range |
| MathHelpers.DampAngle | src/utils/math-helpers.ts:34-37 | the damped angle lies between a and a plus the shortest difference to b, so it turns the short way round |
| MathHelpers.Smoothstep | src/utils/math-helpers.ts:39-42 | the result is in [0, 1], is 0 at or below the lower edge and 1 at or above the upper edge |
| MathHelpers.SmoothstepMonotone | src/utils/math-helpers.ts:39-42 | with ordered edges smoothstep never decreases |
| MathHelpers.InverseLerp | src/utils/math-helpers.ts:44-46 | the result is 0 exactly at a and 1 exactly at b, and lerping with it gives back v |
| MathHelpers.LerpRoundTrip | src/utils/math-helpers.ts:1-3 | inverseLerp undoes lerp and lerp undoes inverseLerp for distinct end points |
| Host.Round | src/world/building.ts:179-181 | Math.round gives the integer within half a unit, with halves going up |
| Noise.NextOctave | src/utils/noise.ts:18-23 | each octave multiplies the amplitude by the persistence and the frequency by the lacunarity |
| Noise.OctaveTermAt | src/utils/noise.ts:19 | the i-th term is the noise field sampled at the running frequency scale * lacunarity^i and weighted by the running amplitude persistence^i |
| Noise.OctaveStep | src/utils/noise.ts:18-23 | one pass of the loop turns the running sum, normaliser, amplitude and frequency of octave i into those of octave i + 1 |
| Noise.AmplitudeSumAtLeastOne | src/utils/noise.ts:13-23 | the normaliser (sum of the amplitudes) of one or more octaves is at least 1, so the division is safe |
| Noise.OctaveTermBounded | src/utils/noise.ts:19-20 | each term is within its octave's amplitude |
| Noise.OctaveSumBounded | src/utils/noise.ts:18-23 | the running sum is within the running sum of amplitudes |
| Noise.OctaveNoise | src/utils/noise.ts:5-26 | fractal noise of one or more octaves lies in [-1, 1] |
| Noise.OctaveNoiseLoop | src/utils/noise.ts:5-26 | the loop that accumulates octaves computes the same value as the recursive definition |
| Noise.RidgedNoise | src/utils/noise.ts:28-30 | ridged noise lies in [0, 1] |
| CactusBorder.BorderRadius | src/world/cactus-border.ts:145-147 | the border radius is 949.58, that is 0.92 times half the world plus half the border width, and it is positive |
| CactusBorder.OutsideMonotone | src/world/cactus-border.ts:139-143 | a point at least as far from the centre as a point outside the border is also outside |
| CactusBorder.OutsideIffBeyondRadius | src/world/cactus-border.ts:139-143 | a point is outside exactly when its squared distance exceeds the squared radius; the centre is inside |
| CactusBorder.OutsideSymmetric | src/world/cactus-border.ts:139-143 | the outside test is unchanged by mirroring either axis or swapping them |
| TickRate.DistanceInterval | src/world/animals.ts:461-464 | the interval is one of the four rates, at most 0.25 s, and 0 (full rate) exactly within 70 units |
| TickRate.IntervalMonotone | src/world/animals.ts:461-464 | a farther agent never ticks more often |
| TickRate.IntervalValues | src/world/animals.ts:461-464 | the interval is 0, 1/30, 1/12 or 0.25 |
| TickRate.Decimate | src/world/animals.ts:466-472 | a zero interval runs every frame with dt; otherwise the agent runs exactly when the banked time reaches the interval, with a step of all banked time capped at 0.25 s, and the bank is emptied |
| TickRate.TimeConserved | src/world/animals.ts:466-472 | when every frame is at most 0.25 s minus the interval long (so never at the 4 Hz rate, where that bound is 0), the time stepped plus the time banked equals the time elapsed, and the bank stays below the interval |
| TickRate.TimeNeverGained | src/world/animals.ts:466-472 | at any rate and over any non-negative frames, the time stepped plus the time banked is at most the time elapsed, and the bank stays below the interval |
| TickRate.TimeLostAtFourHz | src/world/animals.ts:466-472 | at the 4 Hz rate four 0.08 s frames (0.32 s) yield a single 0.25 s step and an empty bank: 0.07 s is lost to the cap |
| Wandering.Move | src/world/animals.ts:483-486 | one step along the heading moves at most speed * dt on each axis |
| Wandering.KeepInRadius | src/world/animals.ts:489-496 | a step that would leave the radius is reversed and the heading turns half round; otherwise the step is taken |
| Wandering.KeepInRadiusStepLength | src/world/people.ts:494-501 | the turn-back moves exactly as far as the step would have |
| Wandering.WanderTimer | src/world/animals.ts:475-480 | the timer fires exactly when it reaches the interval; it then resets and draws a new interval in [base, base + span) |
| Wandering.Turn | src/world/animals.ts:478 | a re-target turns by at most half the spread either way |
| Terrain.SurrealFactor | src/world/terrain.ts:46-51 | the factor is in [0, 1], 0 within 0.4 of the half-world and 1 beyond 0.9 of it |
| Terrain.TerrainHeight | src/world/terrain.ts:27-44 | the ground is flat (height 0) within 20 units of the centre and never higher or lower than 75 |
| Terrain.LocalCoord | src/world/terrain.ts:67-71 | the coordinate inside its chunk lies in [-32, 32) |
| Terrain.GridCoord | src/world/terrain.ts:67-76 | the grid coordinate inside its chunk lies in [0, 32) |
| Terrain.CellOf | src/world/terrain.ts:73-82 | the cell index is a valid segment and the fraction is in [0, 1] |
| Terrain.CellOfGrid | src/world/terrain.ts:73-82 | for an in-chunk coordinate the clamp never engages: the cell is the floor and the fraction below 1 |
| Terrain.SampleIndex | src/world/terrain.ts:78-82 | a vertex index is in range and decodes back to its column and row |
| Terrain.CornerIndicesInRange | src/world/terrain.ts:78-82 | the four corner samples of any cell are inside the 33 x 33 array |
| Terrain.Bilinear | src/world/terrain.ts:84-91 | the blend lies between the lowest and highest corner and equals each corner at that corner |
| Terrain.CachedFallback | src/world/terrain.ts:57-66 | a point whose chunk is not cached falls back to the noise height |
| Terrain.GroundAt | src/world/terrain.ts:57-91 | the lookup passed to the agents is the cached terrain height at every point |
| Terrain.CachedWithinCorners | src/world/terrain.ts:67-91 | a cached height lies between the lowest and highest of the four samples around the point |
| Terrain.ChunkHeights | src/world/terrain.ts:137-158 | a chunk stores 33 x 33 height samples |
| Terrain.ChunkSampleAt | src/world/terrain.ts:137-158 | each stored sample is the noise height at its vertex's world position |
| Terrain.SeamsAgree | src/world/terrain.ts:137-158 | neighbouring chunks store the same heights along their shared edge |
| Terrain.CachedAtGridNodes | src/world/terrain.ts:57-91 | at a grid vertex of a generated chunk the cached lookup equals the stored noise sample |
| Terrain.NodeCoords | src/world/terrain.ts:58-82 | a vertex's world position maps back to its own chunk, grid column and a zero fraction |
| ChunkManager.Initial | src/world/chunk-manager.ts:4-31 | a fresh manager satisfies the invariant and reports 0 progress |
| ChunkManager.KeyOf | src/world/chunk-manager.ts:39-41 | the i-th generated chunk has coordinates in [-16, 16) on both axes |
| ChunkManager.IndexOf | src/world/chunk-manager.ts:39-41 | every chunk in the world has a generation index in [0, 1024) |
| ChunkManager.KeyIndexRoundTrip | src/world/chunk-manager.ts:39-41 | index and coordinates convert both ways without loss |
| ChunkManager.KeyOfInjective | src/world/chunk-manager.ts:39-41 | no chunk is generated twice |
| ChunkManager.GeneratedKeysStep | src/world/chunk-manager.ts:39-48 | generating one more index adds exactly that index's chunk |
| ChunkManager.Progress | src/world/chunk-manager.ts:29-31 | progress is in [0, 1] and is 1 exactly when every chunk is generated |
| ChunkManager.AddChunk | src/world/chunk-manager.ts:43-48 | one chunk is generated, visible and cached with its heights, keeping the batch invariant |
| ChunkManager.GenerateBatch | src/world/chunk-manager.ts:34-53 | the count advances by the batch size capped at the total; done exactly when all chunks exist; old chunks and cached heights are kept; each new chunk is visible with its computed heights |
| ChunkManager.AllGenerated | src/world/chunk-manager.ts:34-53 | once the count reaches the total every chunk of the world exists |
| ChunkManager.CollectWindow | src/world/chunk-manager.ts:64-75 | the loop collects exactly the existing chunks within the view window of the player's chunk |
| ChunkManager.Update | src/world/chunk-manager.ts:55-91 | staying in the same chunk changes nothing; otherwise the visible set becomes the window, everything in it is shown, and after the first call exactly the window is shown |
| ChunkManager.GenerateKeepsVisibleShown | src/world/chunk-manager.ts:43-48 | generating more chunks never hides a visible one |
| Person.Placed | src/world/people.ts:222-247 | a placed person is well formed, wanders or idles, rides nothing, and stands at the sampled ground height |
| Person.UpdateDrowning | src/world/people.ts:391-398 | the drowning timer advances by dt and the person is dead exactly when it reaches the animation time; nothing else changes |
| Person.DrownFramesDead | src/world/people.ts:391-398 | over any frames, a drowning person ends up dead exactly when the total time reaches the animation time |
| Person.CheckDrowning | src/world/people.ts:349-360 | a person drowns exactly when below the water line with the underwater timer reaching the limit; otherwise the timer grows under water and resets above it |
| Person.StartDrowning | src/world/people.ts:362-379 | drowning starts with a zero timer and records where the person went under; nothing else changes |
| Person.DrownsOnCrossingTick | src/world/people.ts:349-360 | under water, a person drowns on exactly the tick that carries the timer across the limit |
| Person.IdleStep | src/world/people.ts:715-721 | the idle timer runs down; at zero the person wanders again with a fresh wander timer and a turn of at most a quarter turn |
| Person.WanderStep | src/world/people.ts:488-528 | the step turns back at the wander radius, steps back off low ground, otherwise stands on the ground; the timer re-targets and sends the person idle with chance 0.35; the new heading is the old one plus exactly a half turn at the radius, a quarter turn off low ground and the re-target turn (draw - 1/2) * PI when the timer fires |
| Person.ChaseMove | src/world/people.ts:450-459 | a chaser faces the otter, moves at most chase speed times dt on each axis, and stands on the ground unless it is too low |
| Person.LaunchDistance | src/world/people.ts:563-565 | the distance used to aim a launch is positive, using 1 at the blast centre |
| Person.LaunchSpeed | src/world/people.ts:569-571 | the outward launch speed is in [2.1, 3.9] |
| Person.LaunchSpeedMonotone | src/world/people.ts:569-571 | a person farther from the blast is launched no faster |
| Person.Launch | src/world/people.ts:558-578 | a launched person flees in phase 0 and rises at 44 to 66 units per second; each horizontal velocity component is the unit direction away from the blast plus the spread (draw - 1/2) * 0.4, times the launch speed at that distance; the flee heading faces along that direction; nothing else changes |
| Person.LaunchDistanceLength | src/world/people.ts:563-565 | away from the blast centre the aiming distance is the true length of the offset |
| Person.LaunchOutwards | src/world/people.ts:563-575 | whatever the spread draw, a person not at the blast centre is thrown outwards: the horizontal velocity has a positive component along the offset from the blast |
| Person.FleeStep | src/world/people.ts:580-644 | debris spawns only on the fold-to-crumble change, only the crumble phase kills, and only the airborne phase moves |
| Person.Airborne | src/world/people.ts:581-603 | the body falls under gravity and lands on the ground exactly when it reaches it while descending |
| Person.Fold | src/world/people.ts:604-626 | the fold lasts its duration, then moves to the crumble phase and spawns debris |
| Person.Crumble | src/world/people.ts:627-643 | the crumble timer advances and the person is dead exactly when it reaches the crumble duration |
| Person.FleeAdvances | src/world/people.ts:580-644 | a flee step keeps the person well formed and moves at most one phase forward; death comes only from the last phase |
| Debris.Empty | src/world/people.ts:156-157 | the empty ring satisfies the invariant with every piece inactive |
| Debris.Slot | src/world/people.ts:647-649 | the j-th piece of a burst goes to the ring slot j after the write cursor |
| Debris.Spawned | src/world/people.ts:651-660 | a spawned piece is active and young, lives 1.5 to 2.5 s, and starts near the body moving up and out within the drawn ranges |
| Debris.SpawnDebris | src/world/people.ts:646-668 | a burst overwrites exactly the next eight ring slots, advances the cursor by eight modulo the ring size, and leaves the other slots alone |
| Debris.StepParticle | src/world/people.ts:670-713 | an inactive piece is untouched; an active one ages and retires when its age reaches its lifetime; below the ground while falling it bounces up with damped speed |
| Debris.NeverSinks | src/world/people.ts:693-699 | after a step an active piece is on or above the ground or moving up |
| Debris.UpdateDebris | src/world/people.ts:670-713 | every ring slot takes its own step and the cursor stays |
| Debris.ExpiresAfter | src/world/people.ts:676-685 | a piece is retired once enough frames have passed to reach its lifetime |
| Debris.StaysInactive | src/world/people.ts:674 | a retired piece never changes again |
| Crowd.Spawn | src/world/people.ts:199-250 | the constructor: an empty rider stack, every debris slot inactive, at most 230 people, each wandering or idle, off the stack, dry, on ground between 1 and 20 outside the surreal core (factor at most 0.6), with scale, speed, wander interval and accum in their drawn ranges; the crowd invariant holds |
| Crowd.Find | src/world/people.ts:382 | the index of the first occurrence of a value in the rider stack, or -1 exactly when it is absent |
| Crowd.RemoveFromStack | src/world/people.ts:381-389 | an absent person leaves everything unchanged; otherwise exactly that entry is removed with order kept, the remaining riders are renumbered to their positions, and only stack slots change |
| Crowd.Renumber | src/world/people.ts:386-388 | every rider's stack slot becomes its position in the stack, and nobody else changes |
| Crowd.PushRider | src/world/people.ts:442-448 | pushing a new rider whose slot is the stack height keeps the rider-stack invariant |
| Crowd.ReplaceRider | src/world/people.ts:295-301 | updating a rider in place with its slot kept keeps the rider-stack invariant |
| Crowd.ReplaceNonRider | src/world/people.ts:303-341 | updating a person who does not ride and does not start to keeps the rider-stack invariant |
| Crowd.SetPerson | src/world/people.ts:303-341 | a ground-state update of one person keeps the crowd invariant and changes only that person |
| Crowd.Mount | src/world/people.ts:442-448 | a chaser close enough mounts: it rides at the top of the stack, and the stack grows by that person |
| Crowd.DropRider | src/world/people.ts:367-372 | a rider who stops riding leaves the stack, which shrinks by one; other ground people are untouched |
| Crowd.PersonInterval | src/world/people.ts:305-312 | chasers and people within the detect range run every frame; others use the distance rates |
| Crowd.WanderDrawsOf | src/world/people.ts:514-519 | the draws of a wander step are valid random values |
| Crowd.StepDrowning | src/world/people.ts:272-293 | a drowning person is decimated by distance from where it went under; a frame that runs advances its drowning timer by the banked time, a skipped one only banks time; nothing else changes |
| Crowd.StepRiding | src/world/people.ts:295-301 | a rider is checked against the water at its stack height; it leaves the stack exactly when it drowns, and otherwise it alone changes |
| Crowd.StepGround | src/world/people.ts:303-341 | a skipped frame only banks time; otherwise the person is checked for drowning with the stepped time and, if still above water, takes exactly its flee phase (`FleeStep`) or its land step (`Crowd.LandStepped`); nobody else changes |
| Crowd.StepFlee | src/world/people.ts:325-329 | a flee step replaces the person and, at the fold-to-crumble change, spawns a debris burst |
| Crowd.StepLand | src/world/people.ts:331-341 | within the detect range (or already chasing) a person mounts the top of the stack inside the mount range and otherwise takes `ChaseMove`; out of range a wanderer takes `WanderStep` with its four draws and an idle person `IdleStep` with its first draw |
| Crowd.StepPerson | src/world/people.ts:268-341 | the dead are skipped; a drowning person, a rider and anyone else take exactly their drowning, riding or ground frame; the crowd invariant is kept |
| Crowd.Update | src/world/people.ts:259-346 | a frame keeps the crowd invariant and the head count; the dead stay as they are and the drowning never recover |
| Crowd.Dismount | src/world/people.ts:534-542 | a thrown rider lands within one unit of the otter, on the ground, and leaves the stack |
| Crowd.RepelRider | src/world/people.ts:534-542 | every thrown rider is launched into the flee state, off the stack |
| Crowd.PopRiders | src/world/people.ts:534-542 | exactly the stacked people are replaced by their thrown versions |
| Crowd.LaunchNearby | src/world/people.ts:545-555 | exactly the people in the blast are launched away from it; everyone else is unchanged |
| Crowd.RepelAll | src/world/people.ts:530-556 | after a repel the stack is empty and nobody rides; riders are thrown, people in the blast are launched, and the others are unchanged |
| Crowd.DismountAll | src/world/people.ts:534-542 | every rider is replaced by its thrown version; nobody rides afterwards |
| Crowd.ThrownRiders | src/world/people.ts:534-542 | the thrown version of each rider, with non-riders kept |
| OtterController.Initial | src/character/otter-controller.ts:54 | the otter starts idle at the centre, 0.1 above the ground |
| OtterController.Respawn | src/character/otter-controller.ts:57-67 | respawn puts the otter idle and motionless at the centre, 0.1 above the ground, keeping the clock |
| OtterController.Transition | src/character/otter-controller.ts:102-112 | fly input lifts off 2 units above the current height; flying continues; otherwise the otter walks when moving and idles when not |
| OtterController.DampVelocity | src/character/otter-controller.ts:114-127 | the velocity eases towards the input at walk or fly speed, or towards rest, and the heading turns the short way towards the input |
| OtterController.FlyStep | src/character/otter-controller.ts:136-150 | the fly target rises and falls with input; at 0.5 above the ground or lower the otter lands, otherwise it eases towards the target |
| OtterController.GroundStep | src/character/otter-controller.ts:151-160 | the otter never goes below 0.1 above the ground and only settles downwards |
| OtterController.Bounce | src/character/otter-controller.ts:165-185 | an otter outside the border is put back on the safe circle on the same ray, kicked inwards at the bounce strength and turned to face the centre; inside, nothing changes |
| OtterController.BounceKick | src/character/otter-controller.ts:165-185 | the bounce geometry: a unit normal, the safe-circle position on the same ray with the same signs, the inward kick, and a point inside the border |
| OtterController.UpdateFalling | src/character/otter-controller.ts:191-206 | the fall accelerates up to its maximum speed, moves the otter down, and ends the game once the fall lasts more than 1.5 s |
| OtterController.Update | src/character/otter-controller.ts:69-189 | the clock advances; GAME_OVER freezes the otter; FALL only falls; any other state stays idle, walking or flying inside the border, on the ground when not flying |
| Animals.Settle | src/world/animals.ts:498-515 | a land animal that would step below 0.5 turns a quarter turn and keeps its height, otherwise stands on the ground; other kinds bob within their amplitude of the base height |
| Animals.Wander | src/world/animals.ts:475-515 | a due animal's wander timer follows the re-target rule, and its size, speed and base height are kept |
| Animals.StepAnimal | src/world/animals.ts:456-515 | a skipped animal only banks the frame's time; a due one wanders for the decimated step |
| Animals.StepKeepsHeight | src/world/animals.ts:498-515 | every step keeps land animals at 0.5 or higher and the others within their bob band |
| Animals.WanderRetargets | src/world/animals.ts:475-480 | when the timer fires it resets and draws an interval in [2, 8); otherwise it just advances |
| Animals.UpdateGroup | src/world/animals.ts:439-531 | every animal of a group takes its own step with its own draws, and the height rules are kept |
| Animals.GroupDraws | src/world/animals.ts:428-437 | each group draws from its own independent slice of random values |
| Animals.Update | src/world/animals.ts:428-437 | all six groups keep their sizes and height rules |
| Animals.PlaceLand | src/world/animals.ts:313-353 | land animals are placed on dry ground between 1 and 25 high, with wander intervals in [3, 8) and slow speeds |
| Animals.PlaceBirds | src/world/animals.ts:355-389 | birds are placed 5 to 25 above the ground or above height 5, whichever is higher, and never below 10 |
| Animals.PlaceWater | src/world/animals.ts:391-426 | water animals are placed only over ground below the water level, at a depth between the given bounds |
| Animals.SpawnDraws | src/world/animals.ts:261-295 | each group's placement draws from its own independent slice of random values |
| Animals.Spawn | src/world/animals.ts:261-295 | the constructor: 80 birds and at most 60 deer, 100 rabbits, 120 fish, 40 turtles and 50 jellyfish, every group obeying its height rule; land animals stand on ground between 1 and 25, fish swim between -8 and -1, turtles between -4 and -0.5, jellyfish between -10 and -2, all over ground below the water level |
| Animals.DepthBetween | src/world/animals.ts:399 | a drawn depth lies between the two bounds |
| Rockets.Empty | src/character/rockets.ts:3-5 | the pool starts empty and satisfies its invariant |
| Rockets.FirstInactive | src/character/rockets.ts:58-64 | the index of the first rocket not in flight, or -1 exactly when all are in flight |
| Rockets.Fired | src/character/rockets.ts:96-111 | a new rocket is in flight at age 0, half a unit above the origin |
| Rockets.Place | src/character/rockets.ts:55-93 | a shot prefers the first free rocket, else grows the pool up to 20, else reuses the rocket under the ring cursor and moves the cursor; only that slot changes |
| Rockets.Shoot | src/character/rockets.ts:55-112 | the fired rocket goes into the slot the selection rule picks, keeping the invariant |
| Rockets.Age | src/character/rockets.ts:114-133 | a rocket in flight ages by dt, keeps its velocity and burns out once older than 3 s; one not in flight is untouched |
| Rockets.Update | src/character/rockets.ts:114-133 | every rocket ages independently; pool size and cursor stay |
| Rockets.AgedRocket | src/character/rockets.ts:128-131 | a rocket still in flight is never older than its lifetime, and a burnt-out one stays out |
| Rockets.FullStep | src/character/rockets.ts:89-93 | one shot into a full pool in flight keeps it full and moves the cursor on by one |
| Rockets.RingReuse | src/character/rockets.ts:89-93 | n shots into a full pool in flight move the cursor n slots round the ring |
| Shockwave.Initial | src/effects/shockwave.ts:11-24 | the effect starts inactive and hidden |
| Shockwave.Trigger | src/effects/shockwave.ts:28-35 | a trigger restarts the ring half a unit above the point with the start size and opacity |
| Shockwave.Update | src/effects/shockwave.ts:37-52 | an inactive ring is untouched; an active one ages and ends, hidden, once it reaches the expand duration |
| Shockwave.ExpandingRing | src/effects/shockwave.ts:40-51 | while active the ring's radius grows in proportion to elapsed time and its opacity stays positive |
| Shockwave.ExpiresAfterDuration | src/effects/shockwave.ts:37-52 | frames adding up to the duration always end the ring |
| Shockwave.StaysIdle | src/effects/shockwave.ts:37-41 | an inactive ring never changes |
| Building.Initial | src/world/building.ts:15-23 | no blocks, preview hidden, Dirt selected |
| Building.CycleBlock | src/world/building.ts:74-78 | stepping the palette wraps around at both ends to the mathematical remainder; blocks and preview are untouched |
| Building.CycleRoundTrip | src/world/building.ts:74-78 | cycling back by the same amount restores the selection |
| Building.SelectBlock | src/world/building.ts:80-86 | an index in the palette is selected; any other index changes nothing |
| Building.SelectChanges | src/world/building.ts:80-86 | the selection changes exactly when a different palette index is chosen |
| Building.HidePreview | src/world/building.ts:70-72 | the preview is hidden, and blocks and selection are untouched |
| Building.ShowPreview | src/world/building.ts:89-129 | the preview is shown at the placement point, and blocks and selection are untouched |
| Building.PosKey | src/world/building.ts:179-181 | each coordinate of the key is within half a unit of the position |
| Building.SnapToGrid | src/world/building.ts:171-177 | snapping rounds each coordinate to the unit grid |
| Building.SnapKey | src/world/building.ts:171-181 | a snapped point's key is its rounded coordinates, and snapping again moves nothing |
| Building.PlaceBlock | src/world/building.ts:132-146 | a block of the selected type is added exactly when the preview is shown and its key is free, growing the map by one; otherwise nothing changes |
| Building.HiddenPlacesNothing | src/world/building.ts:132-134 | once hidden, the preview places nothing whatever palette steps follow |
| Building.CycleKeepsPreview | src/world/building.ts:74-78 | palette steps never change the blocks or the preview |
| Building.RemoveBlock | src/world/building.ts:149-169 | the block under the hit's key is removed exactly when there is one, shrinking the map by one; no block is added or changed |
| Building.PlaceThenRemove | src/world/building.ts:132-169 | removing the block just placed, by hitting it, gives back the original blocks |
| ThirdPerson.Initial | src/camera/third-person.ts:5-7 | the orbit starts at yaw 0, pitch -0.3 and distance 6, within its limits |
| ThirdPerson.ApplyInput | src/camera/third-person.ts:14-21 | mouse motion turns yaw freely and pitch within its limits; scroll zooms within the distance limits; the position is kept |
| ThirdPerson.InputUndo | src/camera/third-person.ts:14-21 | away from the limits, the opposite input undoes an input |
| ThirdPerson.PitchSaturates | src/camera/third-person.ts:17 | at the top pitch, more upward input has no effect |
| ThirdPerson.Update | src/camera/third-person.ts:23-43 | the camera eases towards its orbit point behind the target and keeps yaw, pitch and distance; it does not move for a non-positive dt |
| FirstPerson.Initial | src/camera/first-person.ts:5-6 | the look starts straight ahead |
| FirstPerson.ApplyInput | src/camera/first-person.ts:11-14 | mouse motion turns yaw freely and pitch within [-1.2, 1] |
| FirstPerson.InputUndo | src/camera/first-person.ts:11-14 | away from the limits, the opposite input undoes an input |
| FirstPerson.WiderThanOrbit | src/camera/first-person.ts:11-14 | pushed past its limit the first-person pitch stops at 1, wider than the orbit camera's |
| CameraSystem.Initial | src/camera/camera-system.ts:9-15 | the system starts in third person with no shake |
| CameraSystem.Toggle | src/camera/camera-system.ts:28-35 | toggling switches the mode; entering first person resets its look; orbit and shake are kept |
| CameraSystem.ToggleTwice | src/camera/camera-system.ts:28-35 | two toggles restore the mode and the orbit, with the first-person look reset |
| CameraSystem.ApplyInput | src/camera/camera-system.ts:37-43 | input goes to the active camera only |
| CameraSystem.Shake | src/camera/camera-system.ts:45-47 | a shake sets the intensity and changes nothing else |
| CameraSystem.DecayShake | src/camera/camera-system.ts:57-62 | shake at or below the floor is left alone; above it, it decays without reaching zero and never grows |
| CameraSystem.Update | src/camera/camera-system.ts:49-63 | only the active orbit camera moves, the first-person look is untouched, and the shake decays |
| CameraSystem.ShakeNeverGrows | src/camera/camera-system.ts:57-62 | over any frames with non-negative dt the shake never grows |
| CameraSystem.CameraYaw | src/camera/camera-system.ts:65-69 | the steering yaw is the active camera's yaw |
| CameraSystem.YawFollowsInput | src/camera/camera-system.ts:37-43 | in either mode horizontal mouse motion turns the steering yaw by exactly -dx * 0.003 without limit, moving back restores it, and vertical motion and the wheel never change it |
| CameraSystem.YawAfterToggle | src/camera/camera-system.ts:28-35 | right after switching to first person the steering yaw is 0 |
| Game.LoaderOf | src/game.ts:277-337 | the loader view of a game is its state, load phase and chunk count |
| Game.LoadTick | src/game.ts:277-337 | a loading frame never moves phase or chunk count backwards, and reaches the title exactly from the last phase |
| Game.RunLoad | src/game.ts:167-171 | loading frames in a row keep the loader invariant and end in loading or title |
| Game.LoadTickCounts | src/game.ts:277-337 | each loading frame brings the title one frame nearer and reaches it exactly when one frame is left |
| Game.LoadingFinishes | src/game.ts:167-171 | loading reaches the title exactly after the number of frames left |
| Game.FreshLoadTakes265Frames | src/game.ts:277-337 | a fresh load takes 256 terrain frames and 9 more phases, 265 frames in all |
| Game.Initial | src/game.ts:51-125 | the constructed game is loading in phase 0 with no chunk generated, the otter idle at the centre 0.1 above the analytic terrain height, the third-person camera unshaken, no rockets, no shockwave, no blocks, no animals and no people; it satisfies the game invariant |
| Game.InitialLoadsIn265Frames | src/game.ts:277-337 | from the constructed game the title screen is up after n loading frames exactly when n >= 265 |
| Game.LoadStep | src/game.ts:277-337 | a loading frame follows the loader rule and never loses a chunk; phase 0 changes only the chunks, phase 5 only spawns the animals (80 birds, at most 60 deer, 100 rabbits, 120 fish, 40 turtles and 50 jellyfish, all obeying their height rules), phase 6 only places the people (an empty stack, at most 230, each placed on the cached terrain), phase 7 only makes a fresh building system, and the other phases change nothing in the world |
| Game.Play | src/game.ts:114-117 | the play button starts playing, keeping the world |
| Game.Resume | src/game.ts:184-187 | the pause screen's resume starts playing, keeping the world |
| Game.FrameDt | src/game.ts:164 | the frame step is the clock delta capped at 0.08 s |
| Game.DecimationUnderFrameCap | src/world/animals.ts:466-472 | with every frame capped at 0.08 s, the 30 Hz and 12 Hz rates step exactly the elapsed time minus what is still banked; the 4 Hz rate never steps more than that |
| Game.CameraInput | src/game.ts:202-213 | a camera toggle switches mode and the mouse input goes to the active camera; shake is kept |
| Game.RocketStep | src/game.ts:225-228 | a shot fires from the otter along its heading before the pool ages, and the pool stays within its cap |
| Game.SelectStep | src/game.ts:243-246 | palette steps and selection keep the palette invariant and leave blocks and preview alone |
| Game.BuildStep | src/game.ts:243-252 | after the building controls the preview is hidden, and blocks change only on a place or remove |
| Game.PlayerStep | src/game.ts:202-237 | the camera takes the toggle and the mouse input, and a repel sets its shake to 0.6; the otter moves with the freshly applied camera yaw; shooting and repelling happen exactly when asked and the otter can act; a repel empties the rider stack, throws every rider off as `Crowd.RepelRider`, launches everyone in the blast as `Person.Launch` with that person's draws 2 and 3, and leaves everyone else as they were |
| Game.SceneStep | src/game.ts:240-259 | the camera follows and its shake never grows, the building controls run, and the chunks update around the otter |
| Game.LifeStep | src/game.ts:262-263 | animals and people take their frame; nothing else changes and the animals' height rules are kept |
| Game.Frame | src/game.ts:162-275 | one animation frame: loading advances the loader and changes only what its phase builds, title and paused frames change nothing, a pause toggle only pauses, and playing frames shoot and repel exactly when asked and able; a playing frame leaves the camera in the mode the toggle chose; the shake ends the frame at most 0.6 after a repel and never grows otherwise |
| Game.StateArrows | src/game.ts:162-196 | the only state changes are loading to title from the last phase and playing to paused on a toggle |

## Left out

- Rendering, meshes, instancing, colours, the skybox, vegetation, weather, water, the surreal zone, audio, the
  HUD, the loading and pause screens, and the input manager are not modelled. They do not affect the simulated
  state, or they only feed inputs, which become fields of `Game.Controls`.
- Floating point, NaN and Infinity are not modelled: numbers are exact reals.
- Terrain heights are stored in a `Float32Array` (src/world/terrain.ts:141), so the game rounds each sample to
  single precision. The model stores the exact noise value, and `Terrain.CachedAtGridNodes` returns that sample.
- `Math.random` becomes draw functions. The clock and the frame delta are inputs.
- The otter's model pose, the wings, the flame flicker and the people's and animals' cosmetic poses are not
  modelled. They are render-only.
- The camera shake displacement is not modelled because it is random and render-only. The first-person camera's
  per-frame placement at the otter's head is not modelled because it only moves the render camera.
- The building ray cast against the ground and the blocks is not modelled. It becomes the placement point given
  to `Building.ShowPreview` and the hit position given to `Building.RemoveBlock`.
- Load phases 1 to 4 and 8 only construct scenery (vegetation, the surreal zone's props, the cactus border
  meshes, the weather, the progress bar). The model counts them as frames and builds nothing.
- Game.Initial: before load phases 5 to 7 the source's animals, people and building fields are unset
  (src/game.ts:44-46). The model holds empty herds, an empty crowd and a fresh building system there instead.
- The people's colours (draws 4 to 6 of each placement attempt) are not modelled; they are render-only.
- Chunk and height-cache keys are integer pairs instead of the strings `"cx,cz"`. The two encodings are equally
  injective.
- ChunkManager.GenerateBatch: requires a non-negative batch size. With a negative size the source moves its
  counter backwards; its only caller passes 4.
- MathHelpers.Smoothstep: requires distinct edges. With equal edges the source divides by zero and yields NaN.
- MathHelpers.InverseLerp: requires distinct end points, for the same reason.
- Noise.OctaveNoise: states only the range [-1, 1]. The exact value is pinned by `Noise.OctaveNoiseLoop`.
- Noise.RidgedNoise: states only the range [0, 1].
- Terrain.TerrainHeight: states the flat zone and the height bound, not the exact noise value.
- Terrain.CachedFallback: states only the cold-cache fallback. The warm case is stated by
  `Terrain.CachedWithinCorners` and `Terrain.CachedAtGridNodes`.
- Wandering.Move: states only the length bound of the step, since sin and cos are abstract.
- Rockets.Fired: does not state the velocity direction, only position, age and flight.
- ThirdPerson.Update: states that the camera eases towards the orbit point (it lies between the old position and
  the target), not the exact exponential.
- Crowd.StepPerson: for a rider who starts drowning, states that it leaves the stack and that nobody else's
  state changes, not the renumbered stack (that is stated by `Crowd.DropRider`). For a flee step that spawns
  debris, states the ring's new cursor, not the eight new pieces (those are stated by `Debris.SpawnDebris`).
- Crowd.Update: states the invariant and what happens to the dead and the drowning, not each person's exact
  step. The loop applies `Crowd.StepPerson` to each index in turn, and that method states each step exactly,
  and the debris ring takes `Debris.UpdateDebris`; the contract of the whole frame does not chain those steps.
- Animals.Update: states group sizes and height rules. Each group's exact step is stated by
  `Animals.UpdateGroup`.
- Game.LifeStep: states what is kept, not the animals' and people's exact frames.
- OtterController.Update: states the state machine, the border and the ground rule. Position and velocity are
  stated by the step members it is built from.
- The animals' WATER_LEVEL is -0.5 while people drown below 0. The model keeps both constants as written.
- The pause toggle and the resume both set the state unconditionally. A pause toggle while already paused is
  consumed with no effect. The model keeps this.
