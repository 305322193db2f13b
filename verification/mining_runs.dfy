/**
 * The mining daemon over whole runs: its regions interleave with each other,
 * with background Starts, monitor ticks and other users of the Docker engine.
 */
module MiningRuns {
  import opened Wrappers
  import opened Mining
  import D = Docker

  /**
   * `starts` counts Start calls that have not run yet. `gpuOf` and `faults`
   * only observe: the GPU each mining container was made for, and whether
   * Docker ever left one running that the daemon gave up, or misreported one
   * as not running.
   */
  datatype MineSys = MineSys(d: Daemon, w: D.World, now: int, starts: nat, gpuOf: map<nat, string>, faults: bool)

  datatype Action =
    | Tick(elapsed: nat)
    | CallStart
    | RunStart(calls: StartCalls)
    | RunStop(stopped: bool, removed: bool)
    | Pause(gpus: set<string>, stopped: bool, removed: bool)
    | Resume(gpus: set<string>)
    | Monitor(alive: bool)
    | Foreign(world: D.World)

  const INIT := MineSys(INITIAL, D.World(map[], 0), 0, 0, map[], false)

  predicate IsRunning(w: D.World, c: nat) {
    c in w.containers && w.containers[c].running
  }

  /**
   * Other users of the engine do not change or start mining containers, but
   * these may stop by themselves, and others may remove one that has stopped.
   */
  predicate Undisturbed(s: MineSys, world: D.World) {
    && D.Valid(world) && s.w.nextId <= world.nextId
    && forall c :: c in s.gpuOf ==>
                     && (c in world.containers ==>
                           c in s.w.containers
                           && world.containers[c].(running := s.w.containers[c].running) == s.w.containers[c])
                     && (c in s.w.containers && c !in world.containers ==> !IsRunning(s.w, c))
                     && (IsRunning(world, c) ==> IsRunning(s.w, c))
  }

  predicate Enabled(s: MineSys, a: Action) {
    match a
    case RunStart(_) => s.starts > 0
    case Monitor(alive) => Interrupts(s.d) && alive ==> IsRunning(s.w, s.d.containerID.value)
    case Foreign(world) => Undisturbed(s, world)
    case _ => true
  }

  /** Whether taking down the daemon's container leaves it running. */
  predicate LeftRunning(s: MineSys, stopped: bool, removed: bool) {
    Interrupts(s.d) && IsRunning(s.w, s.d.containerID.value) && !stopped && !removed
  }

  /** A region's effect, with the observers brought up to date. */
  function Update(cfg: Config, s: MineSys, e: Effect): MineSys {
    var gpuOf := if e.w.nextId > s.w.nextId && Available(cfg.gpus, s.d.rented) != []
                 then s.gpuOf[s.w.nextId := Available(cfg.gpus, s.d.rented)[0]] else s.gpuOf;
    s.(d := e.d, w := e.w, gpuOf := gpuOf)
  }

  function Apply(cfg: Config, s: MineSys, a: Action): MineSys
    requires Enabled(s, a)
  {
    match a
    case Tick(elapsed) => s.(now := s.now + elapsed)
    case CallStart => s.(starts := s.starts + 1)
    case RunStart(o) => Update(cfg, s, DoStart(cfg, s.d, s.w, s.now, o)).(starts := s.starts - 1)
    case RunStop(stopped, removed) =>
      Update(cfg, s, DoStop(s.d, s.w, stopped, removed)).(faults := s.faults || LeftRunning(s, stopped, removed))
    case Pause(gpus, stopped, removed) =>
      Update(cfg, s, DoPause(cfg, s.d, s.w, s.now, gpus, stopped, removed)).(
        starts := s.starts + if PauseRestarts(cfg, s.d, gpus) then 1 else 0,
        faults := s.faults || LeftRunning(s, stopped, removed))
    case Resume(gpus) =>
      s.(d := DoResume(s.d, gpus), starts := s.starts + if ResumeRestarts(s.d) then 1 else 0)
    case Monitor(alive) =>
      if Interrupts(s.d) && !alive then
        s.(d := DoCrash(s.d), starts := s.starts + 1, faults := s.faults || IsRunning(s.w, s.d.containerID.value))
      else s
    case Foreign(world) => s.(w := world)
  }

  function RunFrom(cfg: Config, s: MineSys, acts: seq<Action>): Option<MineSys> {
    if acts == [] then Some(s)
    else
      var n := |acts| - 1;
      match RunFrom(cfg, s, acts[..n])
      case None => None
      case Some(m) => if Enabled(m, acts[n]) then Some(Apply(cfg, m, acts[n])) else None
  }

  function Run(cfg: Config, acts: seq<Action>): Option<MineSys> {
    RunFrom(cfg, INIT, acts)
  }

  // ----- The four shapes -----

  datatype Shape = Idle | Mining | Hollow | OnHold

  /** Which of the four combinations of state, container and pause time the daemon shows, if any of them. */
  function ShapeOf(d: Daemon): Option<Shape> {
    if d.state == Stopped && d.containerID.None? && d.pausedAt.None? then Some(Idle)
    else if d.state == Running && d.containerID.Some? && d.pausedAt.None? then Some(Mining)
    else if d.state == Running && d.containerID.None? && d.pausedAt.None? then Some(Hollow)
    else if d.state == Paused && d.containerID.None? && d.pausedAt.Some? then Some(OnHold)
    else None
  }

  lemma ShapeStep(cfg: Config, s: MineSys, a: Action)
    requires Enabled(s, a) && ShapeOf(s.d).Some?
    ensures ShapeOf(Apply(cfg, s, a).d).Some?
    ensures ShapeOf(s.d) != Some(Hollow) && ShapeOf(Apply(cfg, s, a).d) == Some(Hollow) ==>
              a.Pause? && ShapeOf(s.d) == Some(Mining) && Available(cfg.gpus, Apply(cfg, s, a).d.rented) != []
    ensures ShapeOf(s.d) == Some(Hollow) && ShapeOf(Apply(cfg, s, a).d) != Some(Hollow) ==>
              a.RunStop? && ShapeOf(Apply(cfg, s, a).d) == Some(Idle)
    ensures !cfg.enabled && ShapeOf(s.d) == Some(Idle) ==> ShapeOf(Apply(cfg, s, a).d) == Some(Idle)
  {
  }

  lemma {:induction false} ShapesAlways(cfg: Config, acts: seq<Action>)
    requires Run(cfg, acts).Some?
    ensures ShapeOf(Run(cfg, acts).value.d).Some?
    ensures !cfg.enabled ==> ShapeOf(Run(cfg, acts).value.d) == Some(Idle)
  {
    if acts != [] {
      var n := |acts| - 1;
      ShapesAlways(cfg, acts[..n]);
      ShapeStep(cfg, Run(cfg, acts[..n]).value, acts[n]);
    }
  }

  ghost predicate Reachable(cfg: Config, shape: Shape) {
    exists acts :: Run(cfg, acts).Some? && ShapeOf(Run(cfg, acts).value.d) == Some(shape)
  }

  lemma Extend(cfg: Config, acts: seq<Action>, a: Action)
    requires Run(cfg, acts).Some? && Enabled(Run(cfg, acts).value, a)
    ensures Run(cfg, acts + [a]) == Some(Apply(cfg, Run(cfg, acts).value, a))
  {
    assert (acts + [a])[..|acts|] == acts;
  }

  const WILLING := StartCalls(true, true, true)

  lemma StartsMining(cfg: Config) returns (acts: seq<Action>)
    requires cfg.enabled
    ensures acts == [CallStart, RunStart(WILLING)] && Run(cfg, acts).Some?
    ensures ShapeOf(Run(cfg, acts).value.d) == Some(Mining) && Run(cfg, acts).value.d.rented == {}
    ensures var s := Run(cfg, acts).value;
            && s.d.containerID == Some(0) && s.w.nextId == 1 && s.w.containers.Keys == {0} && s.w.containers[0].name == NAME
            && Available(cfg.gpus, s.d.rented) != []
  {
    if cfg.gpus != [] {
      FirstUnrented(cfg.gpus, {}, 0);
    }
    Extend(cfg, [], CallStart);
    acts := [] + [CallStart];
    Extend(cfg, acts, RunStart(WILLING));
    acts := acts + [RunStart(WILLING)];
  }

  lemma EveryShapeReached(cfg: Config, shape: Shape)
    requires cfg.enabled
    ensures Reachable(cfg, shape)
  {
    if shape == Idle {
      assert Run(cfg, []) == Some(INIT);
    } else {
      var acts := StartsMining(cfg);
      if shape == Hollow {
        if cfg.gpus != [] {
          FirstUnrented(cfg.gpus, {}, 0);
        }
        Extend(cfg, acts, Pause({}, true, true));
        assert {} + {} == Run(cfg, acts).value.d.rented + {};
        acts := acts + [Pause({}, true, true)];
      } else if shape == OnHold {
        var gpus := Elements(cfg.gpus) + {"all"};
        NoneUnrented(cfg.gpus, gpus);
        Extend(cfg, acts, Pause(gpus, true, true));
        assert Run(cfg, acts).value.d.rented + gpus == gpus;
        acts := acts + [Pause(gpus, true, true)];
      }
      assert ShapeOf(Run(cfg, acts).value.d) == Some(shape);
    }
  }

  /** Enabled mining shows exactly the four shapes, disabled mining only the idle one. */
  lemma ExactShapes(cfg: Config, acts: seq<Action>, shape: Shape)
    ensures Run(cfg, acts).Some? ==> ShapeOf(Run(cfg, acts).value.d).Some?
    ensures Reachable(cfg, shape) <==> cfg.enabled || shape == Idle
  {
    if Run(cfg, acts).Some? {
      ShapesAlways(cfg, acts);
    }
    if cfg.enabled {
      EveryShapeReached(cfg, shape);
    } else {
      assert Run(cfg, []) == Some(INIT);
      forall acts | Run(cfg, acts).Some?
        ensures ShapeOf(Run(cfg, acts).value.d) == Some(Idle)
      {
        ShapesAlways(cfg, acts);
      }
    }
  }

  // ----- Never on a rented GPU -----

  /** Mining containers are known to the engine by their name and GPU. */
  predicate Known(s: MineSys, c: nat)
    requires c in s.gpuOf
  {
    && c < s.w.nextId
    && (c in s.w.containers ==> s.w.containers[c].name == NAME && s.w.containers[c].gpu == s.gpuOf[c])
    && (!s.faults && IsRunning(s.w, c) ==> s.d.containerID == Some(c))
    && (s.d.containerID.Some? && c in s.w.containers ==> s.d.containerID == Some(c))
  }

  predicate MineOk(cfg: Config, s: MineSys) {
    && ShapeOf(s.d).Some?
    && (s.d.containerID.Some? ==>
          s.d.containerID.value in s.gpuOf
          && s.gpuOf[s.d.containerID.value] in Available(cfg.gpus, s.d.rented))
    && (forall c :: c in s.gpuOf ==> Known(s, c))
  }

  lemma StartKeepsOk(cfg: Config, s: MineSys, o: StartCalls)
    requires MineOk(cfg, s)
    ensures MineOk(cfg, Update(cfg, s, DoStart(cfg, s.d, s.w, s.now, o)))
  {
    var s' := Update(cfg, s, DoStart(cfg, s.d, s.w, s.now, o));
    forall c | c in s'.gpuOf
      ensures Known(s', c)
    {
      if c in s.gpuOf {
        assert Known(s, c);
      }
    }
  }

  lemma DiscardKeepsKnown(cfg: Config, s: MineSys, d: Daemon, stopped: bool, removed: bool, faults: bool, c: nat)
    requires MineOk(cfg, s) && c in s.gpuOf && d.containerID.None? && faults == (s.faults || LeftRunning(s, stopped, removed))
    ensures Known(s.(d := d, w := Discard(s.w, s.d.containerID, stopped, removed), faults := faults), c)
  {
    assert Known(s, c);
  }

  lemma StopKeepsOk(cfg: Config, s: MineSys, stopped: bool, removed: bool)
    requires MineOk(cfg, s)
    ensures MineOk(cfg, Update(cfg, s, DoStop(s.d, s.w, stopped, removed)).(faults := s.faults || LeftRunning(s, stopped, removed)))
  {
    var s' := Update(cfg, s, DoStop(s.d, s.w, stopped, removed)).(faults := s.faults || LeftRunning(s, stopped, removed));
    forall c | c in s'.gpuOf
      ensures Known(s', c)
    {
      assert Known(s, c);
      if s.d.state != Stopped {
        DiscardKeepsKnown(cfg, s, s'.d, stopped, removed, s'.faults, c);
      }
    }
  }

  lemma PauseKeepsOk(cfg: Config, s: MineSys, gpus: set<string>, stopped: bool, removed: bool)
    requires MineOk(cfg, s)
    ensures MineOk(cfg, Update(cfg, s, DoPause(cfg, s.d, s.w, s.now, gpus, stopped, removed)).(faults := s.faults || LeftRunning(s, stopped, removed)))
  {
    var s' := Update(cfg, s, DoPause(cfg, s.d, s.w, s.now, gpus, stopped, removed)).(faults := s.faults || LeftRunning(s, stopped, removed));
    forall c | c in s'.gpuOf
      ensures Known(s', c)
    {
      assert Known(s, c);
      if Interrupts(s.d) {
        DiscardKeepsKnown(cfg, s, s'.d, stopped, removed, s'.faults, c);
      }
    }
  }

  lemma ResumeKeepsOk(cfg: Config, s: MineSys, gpus: set<string>)
    requires MineOk(cfg, s)
    ensures MineOk(cfg, s.(d := DoResume(s.d, gpus)))
  {
    var s' := s.(d := DoResume(s.d, gpus));
    forall c | c in s'.gpuOf
      ensures Known(s', c)
    {
      assert Known(s, c);
    }
    if s.d.containerID.Some? {
      ResumeKeepsAvailable(cfg.gpus, s.d.rented, gpus, s.gpuOf[s.d.containerID.value]);
    }
  }

  lemma MonitorKeepsOk(cfg: Config, s: MineSys)
    requires MineOk(cfg, s) && Interrupts(s.d)
    ensures MineOk(cfg, s.(d := DoCrash(s.d), faults := s.faults || IsRunning(s.w, s.d.containerID.value)))
  {
    var s' := s.(d := DoCrash(s.d), faults := s.faults || IsRunning(s.w, s.d.containerID.value));
    forall c | c in s'.gpuOf
      ensures Known(s', c)
    {
      assert Known(s, c);
    }
  }

  lemma ForeignKeepsOk(cfg: Config, s: MineSys, world: D.World)
    requires MineOk(cfg, s) && Undisturbed(s, world)
    ensures MineOk(cfg, s.(w := world))
  {
    var s' := s.(w := world);
    forall c | c in s'.gpuOf
      ensures Known(s', c)
    {
      assert Known(s, c);
    }
  }

  lemma ClockKeepsOk(cfg: Config, s: MineSys, now: int, starts: nat)
    requires MineOk(cfg, s)
    ensures MineOk(cfg, s.(now := now, starts := starts))
  {
    var s' := s.(now := now, starts := starts);
    forall c | c in s'.gpuOf
      ensures Known(s', c)
    {
      assert Known(s, c);
    }
  }

  lemma MineStep(cfg: Config, s: MineSys, a: Action)
    requires MineOk(cfg, s) && Enabled(s, a)
    ensures MineOk(cfg, Apply(cfg, s, a))
  {
    var s' := Apply(cfg, s, a);
    match a
    case Tick(_) => ClockKeepsOk(cfg, s, s'.now, s.starts);
    case CallStart => ClockKeepsOk(cfg, s, s.now, s'.starts);
    case RunStart(o) =>
      StartKeepsOk(cfg, s, o);
      ClockKeepsOk(cfg, Update(cfg, s, DoStart(cfg, s.d, s.w, s.now, o)), s.now, s'.starts);
    case RunStop(stopped, removed) => StopKeepsOk(cfg, s, stopped, removed);
    case Pause(gpus, stopped, removed) =>
      PauseKeepsOk(cfg, s, gpus, stopped, removed);
      ClockKeepsOk(cfg, Update(cfg, s, DoPause(cfg, s.d, s.w, s.now, gpus, stopped, removed)).(faults := s.faults || LeftRunning(s, stopped, removed)),
                   s.now, s'.starts);
    case Resume(gpus) =>
      ResumeKeepsOk(cfg, s, gpus);
      ClockKeepsOk(cfg, s.(d := DoResume(s.d, gpus)), s.now, s'.starts);
    case Monitor(alive) =>
      if Interrupts(s.d) && !alive {
        MonitorKeepsOk(cfg, s);
        ClockKeepsOk(cfg, s.(d := DoCrash(s.d), faults := s'.faults), s.now, s'.starts);
      }
    case Foreign(world) => ForeignKeepsOk(cfg, s, world);
  }

  lemma {:induction false} MineAlways(cfg: Config, acts: seq<Action>)
    requires Run(cfg, acts).Some?
    ensures MineOk(cfg, Run(cfg, acts).value)
  {
    if acts != [] {
      var n := |acts| - 1;
      MineAlways(cfg, acts[..n]);
      MineStep(cfg, Run(cfg, acts[..n]).value, acts[n]);
    }
  }

  /** Whatever happens, the container the daemon tracks runs on a GPU that counts as available, never on a rented one. */
  lemma NeverTracksRentedGPU(cfg: Config, acts: seq<Action>)
    requires Run(cfg, acts).Some? && Run(cfg, acts).value.d.containerID.Some?
    ensures var s := Run(cfg, acts).value;
            var c := s.d.containerID.value;
            && s.d.state == Running
            && c in s.gpuOf
            && s.gpuOf[c] in Available(cfg.gpus, s.d.rented)
            && s.gpuOf[c] !in s.d.rented
            && (cfg.gpus == [] ==> s.gpuOf[c] == "all" && s.d.rented == {})
  {
    MineAlways(cfg, acts);
    var s := Run(cfg, acts).value;
    if cfg.gpus != [] {
      UnrentedMembers(cfg.gpus, s.d.rented, s.gpuOf[s.d.containerID.value]);
    }
  }

  /** As long as Docker stops or removes what it is told to and reports truthfully, no mining container at all runs on a rented GPU. */
  lemma NothingRunsOnRentedGPU(cfg: Config, acts: seq<Action>, c: nat)
    requires Run(cfg, acts).Some? && !Run(cfg, acts).value.faults
    requires c in Run(cfg, acts).value.gpuOf && IsRunning(Run(cfg, acts).value.w, c)
    ensures var s := Run(cfg, acts).value;
            && s.d.containerID == Some(c)
            && s.w.containers[c].gpu == s.gpuOf[c]
            && s.gpuOf[c] !in s.d.rented
  {
    MineAlways(cfg, acts);
    assert Known(Run(cfg, acts).value, c);
    NeverTracksRentedGPU(cfg, acts);
  }

  // ----- Hub commands alone -----

  /** Under Hub commands mining is resumed without naming any GPU. */
  predicate HubAction(a: Action) {
    a.Resume? ==> a.gpus == {}
  }

  predicate HubRun(cfg: Config, s: MineSys, acts: seq<Action>) {
    RunFrom(cfg, s, acts).Some? && forall n :: 0 <= n < |acts| ==> HubAction(acts[n])
  }

  predicate AllRented(cfg: Config, d: Daemon) {
    Available(cfg.gpus, d.rented) == []
  }

  /** Nothing configured is left when all of it is rented, or, with nothing configured, when anything is. */
  lemma AllRentedMeans(cfg: Config, d: Daemon)
    ensures AllRented(cfg, d) <==> if cfg.gpus == [] then d.rented != {} else forall g :: g in cfg.gpus ==> g in d.rented
  {
    if cfg.gpus != [] {
      if AllRented(cfg, d) {
        forall g | g in cfg.gpus
          ensures g in d.rented
        {
          UnrentedMembers(cfg.gpus, d.rented, g);
        }
      } else {
        UnrentedMembers(cfg.gpus, d.rented, Unrented(cfg.gpus, d.rented)[0]);
      }
    }
  }

  lemma {:induction false} RentedOnlyGrows(cfg: Config, s: MineSys, acts: seq<Action>)
    requires HubRun(cfg, s, acts)
    ensures s.d.rented <= RunFrom(cfg, s, acts).value.d.rented
  {
    if acts != [] {
      RentedOnlyGrows(cfg, s, acts[..|acts| - 1]);
    }
  }

  lemma StillAllRented(cfg: Config, d: Daemon, later: Daemon)
    requires AllRented(cfg, d) && d.rented <= later.rented
    ensures AllRented(cfg, later)
  {
    AllRentedMeans(cfg, d);
    AllRentedMeans(cfg, later);
  }

  /** Once no GPU is left, Hub commands never lead to another mining container. */
  lemma {:induction false} NoMiningAfterAllRented(cfg: Config, s: MineSys, acts: seq<Action>)
    requires HubRun(cfg, s, acts) && AllRented(cfg, s.d)
    ensures RunFrom(cfg, s, acts).value.gpuOf == s.gpuOf
    ensures AllRented(cfg, RunFrom(cfg, s, acts).value.d)
  {
    if acts != [] {
      NoMiningAfterAllRented(cfg, s, acts[..|acts| - 1]);
    }
    RentedOnlyGrows(cfg, s, acts);
    StillAllRented(cfg, s.d, RunFrom(cfg, s, acts).value.d);
  }

  /** A new mining container is never made for a GPU that was rented before. */
  lemma NewContainerStep(cfg: Config, s: MineSys, a: Action, g: string)
    requires MineOk(cfg, s) && Enabled(s, a) && g in s.d.rented
    ensures var s' := Apply(cfg, s, a);
            forall c :: c in s'.gpuOf ==> (c in s.gpuOf && s'.gpuOf[c] == s.gpuOf[c]) || s'.gpuOf[c] != g
  {
    if a.RunStart? && Available(cfg.gpus, s.d.rented) != [] {
      UnrentedMembers(cfg.gpus, s.d.rented, Available(cfg.gpus, s.d.rented)[0]);
      assert forall c :: c in s.gpuOf ==> Known(s, c);
    }
  }

  /** Under Hub commands a GPU once rented is never mined on again. */
  lemma {:induction false} NeverMinedAgain(cfg: Config, before: seq<Action>, acts: seq<Action>, g: string)
    requires Run(cfg, before).Some? && g in Run(cfg, before).value.d.rented && HubRun(cfg, Run(cfg, before).value, acts)
    ensures var s := Run(cfg, before).value;
            var f := RunFrom(cfg, s, acts).value;
            && MineOk(cfg, f)
            && (forall c :: c in f.gpuOf ==> (c in s.gpuOf && f.gpuOf[c] == s.gpuOf[c]) || f.gpuOf[c] != g)
            && (f.d.containerID.Some? ==> f.d.containerID.value in f.gpuOf && f.gpuOf[f.d.containerID.value] != g)
  {
    var s := Run(cfg, before).value;
    if acts == [] {
      MineAlways(cfg, before);
    } else {
      var n := |acts| - 1;
      var m := RunFrom(cfg, s, acts[..n]).value;
      NeverMinedAgain(cfg, before, acts[..n], g);
      RentedOnlyGrows(cfg, s, acts[..n]);
      MineStep(cfg, m, acts[n]);
      NewContainerStep(cfg, m, acts[n], g);
    }
    RentedOnlyGrows(cfg, s, acts);
    var f := RunFrom(cfg, s, acts).value;
    if f.d.containerID.Some? && cfg.gpus != [] {
      UnrentedMembers(cfg.gpus, f.d.rented, f.gpuOf[f.d.containerID.value]);
    }
  }

  // ----- Resuming -----

  /**
   * Resuming a daemon that is not running, for whatever reason, calls Start,
   * which with a GPU available, the name free and Docker willing tracks a
   * running container on the first of these. Resuming a running one changes
   * the rented set and nothing else.
   */
  lemma ResumeMines(cfg: Config, s: MineSys, gpus: set<string>)
    ensures s.d.state == Running ==> Apply(cfg, s, Resume(gpus)) == s.(d := s.d.(rented := s.d.rented - gpus))
    ensures s.d.state != Running ==>
              var resumed, c := Apply(cfg, s, Resume(gpus)), s.w.nextId;
              && resumed == s.(d := s.d.(rented := s.d.rented - gpus), starts := s.starts + 1)
              && Enabled(resumed, RunStart(WILLING))
              && (cfg.enabled && Available(cfg.gpus, s.d.rented - gpus) != [] && !D.NameTaken(s.w, "worldland-mining") ==>
                    var f := Apply(cfg, resumed, RunStart(WILLING));
                    && f.d.state == Running && f.d.containerID == Some(c) && f.d.startedAt == Some(s.now) && f.d.pausedAt == None
                    && f.w.containers
                       == s.w.containers[c := D.Container("worldland-mining", None, Available(cfg.gpus, s.d.rented - gpus)[0], true)]
                    && f.starts == s.starts)
  {
    if !D.NameTaken(s.w, NAME) && Available(cfg.gpus, s.d.rented - gpus) != [] && D.Valid(s.w) {
      D.RemoveUndoesCreate(s.w, NAME, None, Available(cfg.gpus, s.d.rented - gpus)[0]);
    }
  }

  // ----- Reported times -----

  /** The reported start time is when the Start ran that made the tracked container. */
  lemma {:induction false} StartTimeIsTrue(cfg: Config, acts: seq<Action>) returns (n: nat)
    requires Run(cfg, acts).Some? && Run(cfg, acts).value.d.containerID.Some?
    ensures n < |acts| && acts[n].RunStart? && Run(cfg, acts[..n]).Some?
    ensures var before, s := Run(cfg, acts[..n]).value, Run(cfg, acts).value;
            && before.d.containerID == None && s.d.startedAt == Some(before.now) && s.d.containerID == Some(before.w.nextId)
  {
    var l := |acts| - 1;
    var m := Run(cfg, acts[..l]).value;
    ShapesAlways(cfg, acts[..l]);
    if m.d.containerID.Some? {
      n := StartTimeIsTrue(cfg, acts[..l]);
      assert acts[..l][..n] == acts[..n];
    } else {
      n := l;
    }
  }

  /** The reported pause time is when a pause or a Start found no GPU to mine on. */
  lemma {:induction false} PauseTimeIsTrue(cfg: Config, acts: seq<Action>) returns (n: nat)
    requires Run(cfg, acts).Some? && Run(cfg, acts).value.d.pausedAt.Some?
    ensures n < |acts| && (acts[n].RunStart? || acts[n].Pause?) && Run(cfg, acts[..n + 1]).Some?
    ensures var found, s := Run(cfg, acts[..n + 1]).value, Run(cfg, acts).value;
            && s.d.pausedAt == Some(found.now) && found.d.pausedAt == s.d.pausedAt && found.d.state == Paused
            && Available(cfg.gpus, found.d.rented) == []
  {
    var l := |acts| - 1;
    var m := Run(cfg, acts[..l]).value;
    assert acts[..l + 1] == acts;
    if m.d.pausedAt == Run(cfg, acts).value.d.pausedAt {
      n := PauseTimeIsTrue(cfg, acts[..l]);
      assert acts[..l][..n + 1] == acts[..n + 1];
    } else {
      n := l;
    }
  }

  // ----- Restarting after a crash -----

  /** Nothing is tracked while a mining container still exists. */
  predicate Stranded(s: MineSys, c: nat) {
    s.d.containerID.None? && c in s.gpuOf && c in s.w.containers && s.w.containers[c].name == NAME
  }

  /** Nobody but the node removes c in this continuation. */
  predicate Spares(s: MineSys, acts: seq<Action>, c: nat) {
    c in s.w.containers ==> forall n :: 0 <= n < |acts| && acts[n].Foreign? ==> c in acts[n].world.containers
  }

  lemma StrandedStep(cfg: Config, s: MineSys, a: Action, c: nat)
    requires Stranded(s, c) && Enabled(s, a) && (a.Foreign? ==> c in a.world.containers)
    ensures Stranded(Apply(cfg, s, a), c)
    ensures Apply(cfg, s, a).gpuOf == s.gpuOf
  {
    if a.RunStart? {
      assert D.NameTaken(s.w, NAME);
    }
  }

  /** A container that is forgotten but not removed keeps its name, and with it every later Start from succeeding. */
  lemma {:induction false} StrandedForever(cfg: Config, s: MineSys, acts: seq<Action>, c: nat)
    requires Stranded(s, c) && RunFrom(cfg, s, acts).Some? && Spares(s, acts, c)
    ensures Stranded(RunFrom(cfg, s, acts).value, c)
    ensures RunFrom(cfg, s, acts).value.gpuOf == s.gpuOf
  {
    if acts != [] {
      var n := |acts| - 1;
      StrandedForever(cfg, s, acts[..n], c);
      StrandedStep(cfg, RunFrom(cfg, s, acts[..n]).value, acts[n], c);
    }
  }

  /** A Start that Docker does not refuse tracks a container exactly if there is a GPU for it and its name is free. */
  lemma StartTracksExactly(cfg: Config, s: MineSys)
    requires s.starts > 0 && s.d.containerID.None?
    ensures Apply(cfg, s, RunStart(WILLING)).d.containerID.Some?
            <==> cfg.enabled && s.d.state != Running && Available(cfg.gpus, s.d.rented) != [] && !D.NameTaken(s.w, NAME)
  {
  }

  lemma {:induction false} ValidAlways(cfg: Config, acts: seq<Action>)
    requires Run(cfg, acts).Some?
    ensures D.Valid(Run(cfg, acts).value.w)
  {
    if acts != [] {
      var n := |acts| - 1;
      var s := Run(cfg, acts[..n]).value;
      ValidAlways(cfg, acts[..n]);
      if acts[n].RunStart? && !D.NameTaken(s.w, NAME) && Available(cfg.gpus, s.d.rented) != [] {
        D.CreateKeepsValid(s.w, NAME, None, Available(cfg.gpus, s.d.rented)[0]);
      }
    }
  }

  /** The engine with every container stopped, and then removed. */
  function Halted(w: D.World): D.World {
    D.World(map c | c in w.containers :: w.containers[c].(running := false), w.nextId)
  }

  function Cleared(w: D.World): D.World {
    D.World(map[], w.nextId)
  }

  /** Others may remove what is in the way of a Start. */
  lemma OthersClear(cfg: Config, s: MineSys) returns (acts: seq<Action>)
    requires D.Valid(s.w)
    ensures RunFrom(cfg, s, acts) == Some(s.(w := Cleared(s.w))) && forall n :: 0 <= n < |acts| ==> acts[n].Foreign?
    ensures forall c :: c in s.gpuOf && c !in s.w.containers ==> Spares(s, acts, c)
  {
    acts := [Foreign(Halted(s.w)), Foreign(Cleared(s.w))];
    assert acts[..1] == [Foreign(Halted(s.w))] && acts[..1][..0] == [];
    assert RunFrom(cfg, s, []) == Some(s);
    assert Enabled(s, acts[0]);
    assert RunFrom(cfg, s, acts[..1]) == Some(s.(w := Halted(s.w)));
    assert Enabled(s.(w := Halted(s.w)), acts[1]);
  }

  /** After s some continuation tracks a mining container. */
  ghost predicate CanMineAgain(cfg: Config, s: MineSys) {
    exists acts :: RunFrom(cfg, s, acts).Some? && RunFrom(cfg, s, acts).value.d.containerID.Some?
  }

  /** And does so although nobody but the node removes c. */
  ghost predicate CanMineSparing(cfg: Config, s: MineSys, c: nat) {
    exists acts :: RunFrom(cfg, s, acts).Some? && RunFrom(cfg, s, acts).value.d.containerID.Some? && Spares(s, acts, c)
  }

  lemma MinesOnceCleared(cfg: Config, s: MineSys, c: nat)
    requires D.Valid(s.w) && s.starts > 0 && s.d.containerID.None?
    requires cfg.enabled && s.d.state != Running && Available(cfg.gpus, s.d.rented) != []
    ensures CanMineAgain(cfg, s) && (c !in s.w.containers ==> CanMineSparing(cfg, s, c))
  {
    var acts := OthersClear(cfg, s);
    var f := s.(w := Cleared(s.w));
    StartTracksExactly(cfg, f);
    var again := acts + [RunStart(WILLING)];
    assert again[..|acts|] == acts;
    assert RunFrom(cfg, s, again) == Some(Apply(cfg, f, RunStart(WILLING)));
    assert c !in s.w.containers ==> Spares(s, again, c);
  }

  /**
   * The node forgets a crashed container without removing it, and its name is
   * in the way: unless others remove it, mining can start again exactly if it
   * is gone already. If they do, it can in any case.
   */
  lemma CrashRestart(cfg: Config, acts: seq<Action>)
    requires cfg.enabled && Run(cfg, acts).Some? && Interrupts(Run(cfg, acts).value.d)
    ensures var s := Run(cfg, acts).value;
            var crashed, c := Apply(cfg, s, Monitor(false)), s.d.containerID.value;
            && (CanMineSparing(cfg, crashed, c) <==> c !in s.w.containers)
            && CanMineAgain(cfg, crashed)
  {
    var s := Run(cfg, acts).value;
    var c := s.d.containerID.value;
    var crashed := Apply(cfg, s, Monitor(false));
    MineAlways(cfg, acts);
    ValidAlways(cfg, acts);
    assert Known(s, c);
    MinesOnceCleared(cfg, crashed, c);
    if c in s.w.containers {
      assert Stranded(crashed, c);
      forall more | RunFrom(cfg, crashed, more).Some? && Spares(crashed, more, c)
        ensures RunFrom(cfg, crashed, more).value.d.containerID.None?
      {
        StrandedForever(cfg, crashed, more, c);
      }
    }
  }

  /** Mining is tracked and its container, the only one there was, has stopped and, if `gone`, been removed. */
  predicate Died(s: MineSys, gone: bool) {
    && Interrupts(s.d) && s.d.containerID.value == 0 && s.w.nextId == 1
    && s.w.containers.Keys == (if gone then {} else {0})
    && (!gone ==> s.w.containers[0].name == NAME && !s.w.containers[0].running)
  }

  lemma Dies(cfg: Config, gone: bool) returns (acts: seq<Action>)
    requires cfg.enabled
    ensures Run(cfg, acts).Some? && Died(Run(cfg, acts).value, gone)
    ensures Available(cfg.gpus, Run(cfg, acts).value.d.rented) != []
  {
    acts := StartsMining(cfg);
    var s := Run(cfg, acts).value;
    Extend(cfg, acts, Foreign(Halted(s.w)));
    acts := acts + [Foreign(Halted(s.w))];
    if gone {
      Extend(cfg, acts, Foreign(Cleared(s.w)));
      acts := acts + [Foreign(Cleared(s.w))];
    }
  }

  /** Both cases of a crash are reached, and the monitor's restart works in the one and fails in the other. */
  lemma CrashEitherWay(cfg: Config, gone: bool) returns (acts: seq<Action>)
    requires cfg.enabled
    ensures var r, again := Run(cfg, acts), Run(cfg, acts + [Monitor(false), RunStart(WILLING)]);
            && r.Some? && Died(r.value, gone) && again.Some?
            && (again.value.d.containerID.Some? <==> gone)
  {
    acts := Dies(cfg, gone);
    var s := Run(cfg, acts).value;
    Extend(cfg, acts, Monitor(false));
    var crashed := Apply(cfg, s, Monitor(false));
    assert D.NameTaken(crashed.w, NAME) <==> !gone by {
      assert !gone ==> 0 in crashed.w.containers;
    }
    StartTracksExactly(cfg, crashed);
    Extend(cfg, acts + [Monitor(false)], RunStart(WILLING));
    assert acts + [Monitor(false)] + [RunStart(WILLING)] == acts + [Monitor(false), RunStart(WILLING)];
  }
}
