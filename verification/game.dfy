/** The game shell: the loading sequence that streams the terrain in and
    then sets the world up, the application states (loading, title,
    playing, paused), and one frame of play wiring the subsystems together
    in the order the frame loop calls them. */
module Game {
  import opened Host
  import opened Wrappers
  import Terrain
  import ChunkManager
  import OtterController
  import Crowd
  import Person
  import Animals
  import Rockets
  import Shockwave
  import TickRate
  import CameraSystem
  import Building
  import Debris

  /** Longest frame the simulation is ever stepped with. */
  const MAX_DT: real := 0.08
  /** Chunks generated per loading frame. */
  const LOAD_BATCH: int := 4
  /** The loading phase after which the title screen is shown. */
  const LAST_PHASE: int := 9
  const REPEL_SHAKE: real := 0.6

  datatype AppState = Loading | Title | Playing | Paused

  /** Every simulated subsystem. The chunk manager's height cache is the
      terrain the otter, the crowd and the animals stand on. */
  datatype World = World(
    chunks: ChunkManager.Manager,
    otter: OtterController.Otter,
    camera: CameraSystem.Sys,
    rockets: Rockets.Pool,
    shockwave: Shockwave.Effect,
    building: Building.Building,
    herds: Animals.Herds,
    crowd: Crowd.Crowd)

  datatype Game = Game(state: AppState, loadPhase: int, world: World)

  ghost predicate WorldInv(w: World) {
    && ChunkManager.Inv(w.chunks)
    && CameraSystem.Inv(w.camera)
    && Rockets.Inv(w.rockets)
    && Building.Inv(w.building)
    && Crowd.Inv(w.crowd)
    && Animals.HerdsOk(w.herds)
  }

  /** What loading keeps true: the phase is one of 0..9, phase 0 lasts while
      chunks are missing and every later phase has all of them. */
  ghost predicate LoaderInv(l: Loader) {
    && 0 <= l.phase <= LAST_PHASE
    && 0 <= l.count <= ChunkManager.TOTAL_CHUNKS
    && (l.state == Loading && l.phase == 0 ==> l.count < ChunkManager.TOTAL_CHUNKS)
    && (l.phase >= 1 ==> l.count == ChunkManager.TOTAL_CHUNKS)
  }

  ghost predicate Inv(g: Game) {
    && WorldInv(g.world)
    && LoaderInv(LoaderOf(g))
  }

  /** The freshly constructed game: loading in phase 0 with no chunk
      generated, the otter idle at the centre on the terrain (no chunk is
      cached yet, so that is the analytic height), the third-person camera
      without shake, no rockets, no shockwave, no blocks, and no animals or
      people before their loading phases. It satisfies the invariant. */
  function Initial(env: Env): (g: Game)
    requires Valid(env)
    ensures Inv(g)
    ensures g.state == Loading && g.loadPhase == 0
    ensures g.world.chunks.generatedCount == 0 && ChunkManager.Progress(g.world.chunks) == 0.0
    ensures g.world.otter.state == OtterController.Idle
    ensures g.world.otter.x == 0.0 && g.world.otter.z == 0.0
    ensures g.world.otter.y == Terrain.TerrainHeight(env, 0.0, 0.0) + 0.1
    ensures g.world.camera.mode == CameraSystem.ThirdPersonMode && g.world.camera.shake == 0.0
    ensures |g.world.rockets.rockets| == 0 && !g.world.shockwave.active
    ensures g.world.building.blocks == map[]
    ensures g.world.crowd.people == [] && g.world.crowd.riderStack == []
    ensures g.world.herds == Animals.Herds([], [], [], [], [], [])
  {
    var chunks := ChunkManager.Initial();
    var ground := Terrain.Ground(env, chunks.heights);
    Terrain.CachedFallback(env, chunks.heights, 0.0, 0.0);
    Game(Loading, 0, World(chunks, OtterController.Initial(ground), CameraSystem.Initial(),
                           Rockets.Empty(), Shockwave.Initial(), Building.Initial(),
                           Animals.Herds([], [], [], [], [], []),
                           Crowd.Crowd([], [], Debris.Empty())))
  }

  // ---------------------------------------------------------------- loading

  /** The part of the game the loading sequence drives: the application
      state, the phase and the number of chunks generated. */
  datatype Loader = Loader(state: AppState, phase: int, count: int)

  function LoaderOf(g: Game): (l: Loader)
    ensures l.state == g.state && l.phase == g.loadPhase && l.count == g.world.chunks.generatedCount
  {
    Loader(g.state, g.loadPhase, g.world.chunks.generatedCount)
  }

  /** One loading frame (`loadStep`) as seen by the loader: phase 0 adds a
      batch of chunks and moves on once all exist, phases 1 to 8 (the world
      set-up steps) each move on by one, and phase 9 shows the title screen.
      Loading is left only that way; phases and chunks never go back. */
  function LoadTick(l: Loader): (l': Loader)
    requires l.state == Loading
    requires LoaderInv(l)
    ensures LoaderInv(l')
    ensures l'.state == Loading || l'.state == Title
    ensures l'.state == Title <==> l.phase == LAST_PHASE
    ensures l.phase <= l'.phase && l.count <= l'.count
  {
    if l.phase == 0 then
      var count := if l.count + LOAD_BATCH < ChunkManager.TOTAL_CHUNKS then l.count + LOAD_BATCH
                   else ChunkManager.TOTAL_CHUNKS;
      Loader(Loading, if count >= ChunkManager.TOTAL_CHUNKS then 1 else 0, count)
    else if l.phase < LAST_PHASE then l.(phase := l.phase + 1)
    else l.(state := Title)
  }

  /** Loading frames in a row; the frames after the title appears change
      nothing here. */
  function RunLoad(l: Loader, n: nat): (l': Loader)
    requires LoaderInv(l)
    requires l.state == Loading || l.state == Title
    ensures LoaderInv(l')
    ensures l'.state == Loading || l'.state == Title
    decreases n
  {
    if n == 0 || l.state == Title then l else RunLoad(LoadTick(l), n - 1)
  }

  /** Frames still needed before the title screen appears: a batch of four
      chunks per frame (the last one partial), then one frame per remaining
      phase. */
  function FramesLeft(l: Loader): int {
    if l.phase == 0 then (ChunkManager.TOTAL_CHUNKS - l.count + LOAD_BATCH - 1) / LOAD_BATCH + LAST_PHASE
    else LAST_PHASE + 1 - l.phase
  }

  /** Each loading frame brings the title screen exactly one frame closer. */
  lemma LoadTickCounts(l: Loader)
    requires l.state == Loading && LoaderInv(l)
    ensures FramesLeft(l) >= 1
    ensures LoadTick(l).state == Loading ==> FramesLeft(LoadTick(l)) == FramesLeft(l) - 1
    ensures LoadTick(l).state == Title <==> FramesLeft(l) == 1
  {
  }

  /** Loading ends on exactly the frame the count predicts: after n frames
      the title screen is up if and only if n >= FramesLeft. From a fresh
      start that is 256 batch frames plus 9 phase frames. */
  lemma {:induction false} LoadingFinishes(l: Loader, n: nat)
    requires l.state == Loading && LoaderInv(l)
    ensures RunLoad(l, n).state == Title <==> n >= FramesLeft(l)
    decreases n
  {
    LoadTickCounts(l);
    if n > 0 {
      var l1 := LoadTick(l);
      if l1.state == Loading {
        LoadingFinishes(l1, n - 1);
      } else {
        assert RunLoad(l1, n - 1) == l1;
      }
    }
  }

  lemma FreshLoadTakes265Frames()
    ensures FramesLeft(Loader(Loading, 0, 0)) == 265
  {
  }

  /** A freshly constructed game shows the title screen after n loading
      frames exactly when n >= 265. */
  lemma InitialLoadsIn265Frames(env: Env, n: nat)
    requires Valid(env)
    ensures RunLoad(LoaderOf(Initial(env)), n).state == Title <==> n >= 265
  {
    var l := LoaderOf(Initial(env));
    assert l == Loader(Loading, 0, 0);
    FreshLoadTakes265Frames();
    LoadingFinishes(l, n);
  }

  /** What one loading frame changes in the world: phase 0 only the chunk
      manager, phase 5 only the herds, phase 6 only the crowd, phase 7 only
      the building system (made afresh); the other phases nothing. */
  ghost predicate LoadChanges(phase: int, w: World, w': World) {
    && (phase == 0 ==> w' == w.(chunks := w'.chunks))
    && (phase == 5 ==> w' == w.(herds := w'.herds))
    && (phase == 6 ==> w' == w.(crowd := w'.crowd))
    && (phase == 7 ==> w' == w.(building := Building.Initial()))
    && (phase !in {0, 5, 6, 7} ==> w' == w)
  }

  /** `loadStep`: phase 0 generates the next batch of chunks; phase 5
      spawns the animals, phase 6 the people (both on the cached terrain,
      all of which exists by then), phase 7 sets up the building system;
      the other set-up phases only build scenery and advance; phase 9 shows
      the title screen. */
  method LoadStep(env: Env, g: Game, d: Draws) returns (g': Game)
    requires Valid(env)
    requires DrawsOk(d)
    requires Inv(g)
    requires g.state == Loading
    ensures Inv(g')
    ensures LoaderOf(g') == LoadTick(LoaderOf(g))
    ensures LoadChanges(g.loadPhase, g.world, g'.world)
    ensures g'.world.chunks.chunks.Keys >= g.world.chunks.chunks.Keys
    ensures g.loadPhase == 5 ==>
              var h := g'.world.herds;
              && |h.deer| <= Animals.DEER_COUNT && |h.rabbits| <= Animals.RABBIT_COUNT
              && |h.birds| == Animals.BIRD_COUNT && |h.fish| <= Animals.FISH_COUNT
              && |h.turtles| <= Animals.TURTLE_COUNT && |h.jellyfish| <= Animals.JELLYFISH_COUNT
    ensures g.loadPhase == 6 ==>
              var ground := Terrain.Ground(env, g.world.chunks.heights);
              var c := g'.world.crowd;
              && c.riderStack == [] && |c.people| <= Crowd.PERSON_COUNT
              && forall k :: 0 <= k < |c.people| ==> Crowd.PlacedOk(env, ground, c.people[k])
  {
    var ground := Terrain.Ground(env, g.world.chunks.heights);
    if g.loadPhase == 0 {
      var m, done := ChunkManager.GenerateBatch(env, g.world.chunks, LOAD_BATCH);
      g' := g.(loadPhase := if done then 1 else 0, world := g.world.(chunks := m));
    } else if g.loadPhase == 5 {
      var herds := Animals.Spawn(ground, d.animals);
      g' := g.(loadPhase := 6, world := g.world.(herds := herds));
    } else if g.loadPhase == 6 {
      var crowd := Crowd.Spawn(env, ground, d.people);
      g' := g.(loadPhase := 7, world := g.world.(crowd := crowd));
    } else if g.loadPhase == 7 {
      g' := g.(loadPhase := 8, world := g.world.(building := Building.Initial()));
    } else if g.loadPhase < LAST_PHASE {
      g' := g.(loadPhase := g.loadPhase + 1);
    } else {
      g' := g.(state := Title);
    }
  }

  // ---------------------------------------------------------------- callbacks

  /** The title screen's play button. */
  function Play(g: Game): (g': Game)
    ensures g'.state == Playing
    ensures g'.world == g.world && g'.loadPhase == g.loadPhase
  {
    g.(state := Playing)
  }

  /** The pause screen's resume button. */
  function Resume(g: Game): (g': Game)
    ensures g'.state == Playing
    ensures g'.world == g.world && g'.loadPhase == g.loadPhase
  {
    g.(state := Playing)
  }

  // ---------------------------------------------------------------- playing

  /** One frame's input as the input manager hands it over. `previewAt` is
      where the building preview's ray cast lands this frame and
      `removeHit` the position of the block mesh the removal ray hits. */
  datatype Controls = Controls(
    delta: real, time: real,
    pauseToggle: bool, toggleCamera: bool,
    mouseDx: real, mouseDy: real, scroll: real,
    moveX: real, moveY: real, wantFly: bool, wantDescend: bool,
    shoot: bool, repel: bool,
    cycleDir: int, selectNum: int,
    place: bool, previewAt: Building.Point,
    remove: bool, removeHit: Option<Building.Point>)

  /** The `Math.random` streams of one frame: the crowd's update, the repel
      blast and the animals. */
  datatype Draws = Draws(people: (int, int) -> real, repel: (int, int) -> real, animals: (int, int) -> real)

  ghost predicate DrawsOk(d: Draws) {
    IsRandom(d.people) && IsRandom(d.repel) && IsRandom(d.animals)
  }

  /** The frame's dt: the clock's delta, capped. */
  function FrameDt(delta: real): (dt: real)
    ensures dt <= MAX_DT && dt <= delta
    ensures dt == delta || dt == MAX_DT
  {
    if delta < MAX_DT then delta else MAX_DT
  }

  /** Under the frame cap the 30 Hz and 12 Hz rates lose no time: every
      frame is at most MAX_DT long, so a decimated step never reaches the
      0.25 s cut and the time stepped plus the time banked is the time
      elapsed. At the 4 Hz rate time is never gained but may be lost
      (`TickRate.TimeLostAtFourHz`). */
  lemma DecimationUnderFrameCap(accum: real, dts: seq<real>, interval: real)
    requires interval in {1.0 / 30.0, 1.0 / 12.0, 0.25}
    requires 0.0 <= accum < interval
    requires forall k :: 0 <= k < |dts| ==> 0.0 <= dts[k] <= MAX_DT
    ensures var st := TickRate.Stepped(accum, dts, interval);
            && (interval < TickRate.MAX_STEP ==> st.0 + st.1 == accum + TickRate.Sum(dts))
            && st.0 + st.1 <= accum + TickRate.Sum(dts)
            && 0.0 <= st.1 < interval
  {
    TickRate.TimeNeverGained(accum, dts, interval);
    if interval < TickRate.MAX_STEP {
      TickRate.TimeConserved(accum, dts, interval);
    }
  }

  /** Rockets and the repel blast are refused while the otter falls or after
      the game is over. */
  predicate CanAct(o: OtterController.Otter) {
    o.state != OtterController.Fall && o.state != OtterController.GameOver
  }

  /** The camera's part of the frame before the otter moves: an optional
      mode switch, then the mouse and wheel. */
  function CameraInput(cam: CameraSystem.Sys, c: Controls): (cam': CameraSystem.Sys)
    requires CameraSystem.Inv(cam)
    ensures CameraSystem.Inv(cam')
    ensures cam'.mode == (if c.toggleCamera then CameraSystem.Toggle(cam).mode else cam.mode)
    ensures cam'.shake == cam.shake
  {
    var cam1 := if c.toggleCamera then CameraSystem.Toggle(cam) else cam;
    CameraSystem.ApplyInput(cam1, c.mouseDx, c.mouseDy, c.scroll)
  }

  /** The rocket pool's part of the frame: a shot (when asked for and
      allowed) from the otter's new position along its heading, then the
      ageing of every rocket. */
  function RocketStep(env: Env, p: Rockets.Pool, o: OtterController.Otter, fire: bool, dt: real): (p': Rockets.Pool)
    requires Valid(env)
    requires Rockets.Inv(p)
    ensures Rockets.Inv(p')
    ensures !fire ==> p' == Rockets.Update(p, dt)
    ensures fire ==> p' == Rockets.Update(Rockets.Shoot(env, p, o.x, o.y, o.z, o.heading, 0.0).pool, dt)
    ensures |p'.rockets| <= Rockets.MAX_ROCKETS
  {
    var p1 := if fire then Rockets.Shoot(env, p, o.x, o.y, o.z, o.heading, 0.0).pool else p;
    Rockets.Update(p1, dt)
  }

  /** The palette controls: a cycle step, then a direct selection. */
  function SelectStep(b: Building.Building, c: Controls): (b': Building.Building)
    requires Building.Inv(b)
    ensures Building.Inv(b')
    ensures b'.blocks == b.blocks && b'.previewVisible == b.previewVisible
  {
    var b1 := if c.cycleDir != 0 then Building.CycleBlock(b, c.cycleDir) else b;
    if c.selectNum >= 0 then Building.SelectBlock(b1, c.selectNum) else b1
  }

  /** The building controls: palette cycling and selection, placing at the
      preview (which is shown only for the placement and hidden again every
      frame), and removal. */
  function BuildStep(b: Building.Building, c: Controls): (b': Building.Building)
    requires Building.Inv(b)
    ensures Building.Inv(b')
    ensures !b'.previewVisible
    ensures !c.place && !c.remove ==> b'.blocks == b.blocks
  {
    var b2 := SelectStep(b, c);
    var b3 := if c.place then Building.PlaceBlock(Building.ShowPreview(b2, c.previewAt.x, c.previewAt.y, c.previewAt.z)).b else b2;
    var b4 := Building.HidePreview(b3);
    if c.remove then Building.RemoveBlock(b4, c.removeHit).b else b4
  }

  /** The player's part of a playing frame, up to the shockwave: camera
      input, the otter's update with the camera's yaw, the rockets, and the
      repel blast with its shockwave and camera shake. Returns whether a
      rocket was shot and whether the blast went off. */
  method PlayerStep(env: Env, w: World, c: Controls, dt: real, repelDraws: (int, int) -> real)
    returns (w': World, shot: bool, repelled: bool)
    requires Valid(env)
    requires IsRandom(repelDraws)
    requires WorldInv(w)
    ensures WorldInv(w')
    ensures w'.chunks == w.chunks && w'.building == w.building && w'.herds == w.herds
    ensures var ground := Terrain.Ground(env, w.chunks.heights);
            var cam := CameraInput(w.camera, c);
            var input := OtterController.Input(c.moveX, c.moveY, c.wantFly, c.wantDescend, CameraSystem.CameraYaw(cam));
            w'.otter == OtterController.Update(env, ground, w.otter, dt, input)
    ensures shot <==> c.shoot && CanAct(w'.otter)
    ensures repelled <==> c.repel && CanAct(w'.otter)
    ensures w'.rockets == RocketStep(env, w.rockets, w'.otter, shot, dt)
    ensures var o := w'.otter;
            w'.shockwave == Shockwave.Update(
              if repelled then Shockwave.Trigger(w.shockwave, o.x, o.y, o.z) else w.shockwave, dt)
    ensures w'.camera == (if repelled then CameraSystem.Shake(CameraInput(w.camera, c), REPEL_SHAKE)
                          else CameraInput(w.camera, c))
    ensures !repelled ==> w'.crowd == w.crowd
    ensures repelled ==> w'.crowd.riderStack == [] && w'.crowd.debris == w.crowd.debris
    ensures repelled ==> |w'.crowd.people| == |w.crowd.people|
    ensures repelled ==> forall j :: 0 <= j < |w.crowd.people| ==> w'.crowd.people[j].state != Person.Riding
    ensures var ground := Terrain.Ground(env, w.chunks.heights);
            var o := w'.otter;
            repelled ==> forall j :: 0 <= j < |w.crowd.people| && w.crowd.people[j].state == Person.Riding ==>
              w'.crowd.people[j] == Crowd.RepelRider(env, ground, w.crowd.people[j], j, o.x, o.z, repelDraws)
    ensures var o := w'.otter;
            repelled ==> forall j :: 0 <= j < |w.crowd.people| && Crowd.InBlast(w.crowd.people[j], o.x, o.z) ==>
              w'.crowd.people[j] == Person.Launch(env, w.crowd.people[j], o.x, o.z, repelDraws(j, 2), repelDraws(j, 3))
    ensures var o := w'.otter;
            repelled ==> forall j :: 0 <= j < |w.crowd.people| && w.crowd.people[j].state != Person.Riding
                                     && !Crowd.InBlast(w.crowd.people[j], o.x, o.z) ==>
              w'.crowd.people[j] == w.crowd.people[j]
  {
    var ground := Terrain.Ground(env, w.chunks.heights);
    var cam := CameraInput(w.camera, c);
    var input := OtterController.Input(c.moveX, c.moveY, c.wantFly, c.wantDescend, CameraSystem.CameraYaw(cam));
    var o := OtterController.Update(env, ground, w.otter, dt, input);
    shot := c.shoot && CanAct(o);
    var rockets := RocketStep(env, w.rockets, o, shot, dt);
    repelled := c.repel && CanAct(o);
    var crowd := w.crowd;
    var shockwave := w.shockwave;
    if repelled {
      shockwave := Shockwave.Trigger(shockwave, o.x, o.y, o.z);
      cam := CameraSystem.Shake(cam, REPEL_SHAKE);
      crowd := Crowd.RepelAll(env, ground, crowd, o.x, o.z, repelDraws);
    }
    shockwave := Shockwave.Update(shockwave, dt);
    w' := w.(otter := o, camera := cam, rockets := rockets, shockwave := shockwave, crowd := crowd);
  }

  /** The scenery part of the rest of a frame: the camera follows the
      otter, the building controls run and the visibility window moves. */
  function SceneStep(env: Env, w: World, c: Controls, dt: real): (w': World)
    requires Valid(env)
    requires WorldInv(w)
    ensures WorldInv(w')
    ensures w'.otter == w.otter && w'.rockets == w.rockets && w'.shockwave == w.shockwave
    ensures w'.herds == w.herds && w'.crowd == w.crowd
    ensures w'.building == BuildStep(w.building, c)
    ensures w'.chunks == ChunkManager.Update(w.chunks, w.otter.x, w.otter.z)
    ensures w'.camera.mode == w.camera.mode
    ensures 0.0 <= dt ==> w'.camera.shake <= w.camera.shake
  {
    var o := w.otter;
    w.(camera := CameraSystem.Update(env, w.camera, dt, o.x, o.y, o.z),
       building := BuildStep(w.building, c),
       chunks := ChunkManager.Update(w.chunks, o.x, o.z))
  }

  /** The living part of the rest of a frame: the animals, then the crowd,
      on the cached terrain. */
  method LifeStep(env: Env, w: World, c: Controls, dt: real, d: Draws) returns (w': World)
    requires Valid(env)
    requires DrawsOk(d)
    requires WorldInv(w)
    ensures WorldInv(w')
    ensures w' == w.(herds := w'.herds, crowd := w'.crowd)
    ensures |w'.crowd.people| == |w.crowd.people|
    ensures Animals.HerdsOk(w.herds) ==> Animals.HerdsOk(w'.herds)
  {
    var o := w.otter;
    var ground := Terrain.Ground(env, w.chunks.heights);
    var herds := Animals.Update(env, ground, w.herds, dt, c.time, o.x, o.z, d.animals);
    var crowd := Crowd.Update(env, ground, w.crowd, dt, o.x, o.y, o.z, d.people);
    w' := w.(herds := herds, crowd := crowd);
  }

  /** One pass of the frame loop (`loop`). While loading, only the loading
      sequence runs; the title screen and the pause screen run nothing; a
      pause request while playing pauses before anything moves; otherwise
      the world takes one frame of at most MAX_DT seconds. */
  method Frame(env: Env, g: Game, c: Controls, d: Draws) returns (g': Game, shot: bool, repelled: bool)
    requires Valid(env)
    requires DrawsOk(d)
    requires Inv(g)
    ensures Inv(g')
    ensures g'.state == NextState(g.state, g.loadPhase, c.pauseToggle)
    ensures g.state == Loading ==>
              && LoaderOf(g') == LoadTick(LoaderOf(g))
              && LoadChanges(g.loadPhase, g.world, g'.world)
    ensures g.state == Title || g.state == Paused ==> g' == g
    ensures g.state == Playing && c.pauseToggle ==> g' == g.(state := Paused)
    ensures g.state == Playing && !c.pauseToggle ==> g'.state == Playing && g'.loadPhase == g.loadPhase
    ensures shot ==> g.state == Playing && !c.pauseToggle && c.shoot && CanAct(g'.world.otter)
    ensures repelled ==> g.state == Playing && !c.pauseToggle && c.repel && CanAct(g'.world.otter)
    ensures g.state == Playing && !c.pauseToggle ==>
              && (shot <==> c.shoot && CanAct(g'.world.otter))
              && (repelled <==> c.repel && CanAct(g'.world.otter))
    ensures g.state == Playing && !c.pauseToggle ==>
              g'.world.camera.mode == CameraInput(g.world.camera, c).mode
    ensures repelled && 0.0 <= c.delta ==> g'.world.camera.shake <= REPEL_SHAKE
    ensures !repelled && 0.0 <= c.delta ==> g'.world.camera.shake <= g.world.camera.shake
  {
    var dt := FrameDt(c.delta);
    shot, repelled := false, false;
    if g.state == Loading {
      g' := LoadStep(env, g, d);
    } else if g.state == Title || g.state == Paused {
      g' := g;
    } else if c.pauseToggle {
      g' := g.(state := Paused);
    } else {
      var w;
      w, shot, repelled := PlayerStep(env, g.world, c, dt, d.repel);
      w := SceneStep(env, w, c, dt);
      w := LifeStep(env, w, c, dt, d);
      g' := g.(world := w);
    }
  }

  /** The application state after one pass of the frame loop. */
  function NextState(state: AppState, loadPhase: int, pauseToggle: bool): AppState {
    match state
    case Loading => if loadPhase == LAST_PHASE then Title else Loading
    case Title => Title
    case Playing => if pauseToggle then Paused else Playing
    case Paused => Paused
  }

  /** The frame loop moves the application state only along the arrows of
      the state machine: loading to title (only from the last phase),
      playing to paused (only on a pause request); title and paused are
      left only by the play and resume buttons. */
  lemma StateArrows(state: AppState, loadPhase: int, pauseToggle: bool)
    ensures var s' := NextState(state, loadPhase, pauseToggle);
            && (s' == Title ==> state == Title || (state == Loading && loadPhase == LAST_PHASE))
            && (s' == Playing ==> state == Playing)
            && (s' == Paused ==> state == Paused || (state == Playing && pauseToggle))
            && (s' == Loading ==> state == Loading)
  {
  }
}
