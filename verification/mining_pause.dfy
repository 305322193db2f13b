/**
 * What becomes of mining when a rental takes a GPU from it while others are
 * left: the Start spawned to go on with these finds the daemon still counting
 * as running, and does nothing.
 */
module MiningPause {
  import opened Wrappers
  import opened Mining
  import opened MiningRuns
  import D = Docker

  /** Nothing is tracked, and no Start can change that. */
  predicate Dead(cfg: Config, d: Daemon) {
    d.containerID.None? && (d.state == Running || !cfg.enabled || Available(cfg.gpus, d.rented) == [])
  }

  predicate Unstopped(acts: seq<Action>) {
    forall n :: 0 <= n < |acts| ==> !acts[n].RunStop?
  }

  lemma DeadStep(cfg: Config, s: MineSys, a: Action)
    requires Dead(cfg, s.d) && Enabled(s, a) && HubAction(a) && !a.RunStop?
    ensures Dead(cfg, Apply(cfg, s, a).d) && Apply(cfg, s, a).gpuOf == s.gpuOf
  {
    if a.Pause? && AllRented(cfg, s.d) {
      StillAllRented(cfg, s.d, Apply(cfg, s, a).d);
    } else if a.Resume? {
      assert s.d.rented - {} == s.d.rented;
    }
  }

  lemma {:induction false} DeadForever(cfg: Config, s: MineSys, acts: seq<Action>)
    requires Dead(cfg, s.d) && HubRun(cfg, s, acts) && Unstopped(acts)
    ensures Dead(cfg, RunFrom(cfg, s, acts).value.d) && RunFrom(cfg, s, acts).value.gpuOf == s.gpuOf
  {
    if acts != [] {
      var n := |acts| - 1;
      DeadForever(cfg, s, acts[..n]);
      DeadStep(cfg, RunFrom(cfg, s, acts[..n]).value, acts[n]);
    }
  }

  /**
   * A pause of a daemon that is mining leaves it running without a container
   * exactly if GPUs are left, and on hold otherwise. The Start spawned in the
   * first case changes nothing, whenever it runs and whatever Docker would answer.
   */
  lemma PauseKills(cfg: Config, s: MineSys, gpus: set<string>, stopped: bool, removed: bool)
    requires ShapeOf(s.d) == Some(Mining)
    ensures var s' := Apply(cfg, s, Pause(gpus, stopped, removed));
            && Dead(cfg, s'.d)
            && ShapeOf(s'.d) == Some(if PauseRestarts(cfg, s.d, gpus) then Hollow else OnHold)
            && s'.starts == s.starts + (if PauseRestarts(cfg, s.d, gpus) then 1 else 0)
            && (PauseRestarts(cfg, s.d, gpus) ==>
                  forall w, now, o :: DoStart(cfg, s'.d, w, now, o) == Effect(s'.d, w))
  {
  }

  /** From then on, until Stop is called, no Hub command or background Start makes or tracks a mining container. */
  lemma PauseEndsMining(cfg: Config, s: MineSys, gpus: set<string>, stopped: bool, removed: bool, acts: seq<Action>)
    requires ShapeOf(s.d) == Some(Mining) && HubRun(cfg, Apply(cfg, s, Pause(gpus, stopped, removed)), acts) && Unstopped(acts)
    ensures var f := RunFrom(cfg, Apply(cfg, s, Pause(gpus, stopped, removed)), acts).value;
            f.d.containerID.None? && f.gpuOf == s.gpuOf
  {
    PauseKills(cfg, s, gpus, stopped, removed);
    DeadForever(cfg, Apply(cfg, s, Pause(gpus, stopped, removed)), acts);
  }

  /** If Docker does as it is told, a pause leaves no mining container at all, whichever GPUs it is for. */
  lemma GrantedPauseLeavesNone(cfg: Config, before: seq<Action>, gpus: set<string>, stopped: bool)
    requires Run(cfg, before).Some? && ShapeOf(Run(cfg, before).value.d) == Some(Mining)
    ensures var s' := Apply(cfg, Run(cfg, before).value, Pause(gpus, stopped, true));
            forall c :: c in s'.gpuOf ==> c !in s'.w.containers
  {
    var s := Run(cfg, before).value;
    MineAlways(cfg, before);
    forall c | c in s.gpuOf
      ensures c !in Apply(cfg, s, Pause(gpus, stopped, true)).w.containers
    {
      assert Known(s, c);
    }
  }

  // ----- Exactly when mining can go on -----

  /** Under Hub commands and without Stop, some continuation tracks a container. */
  ghost predicate CanMineOn(cfg: Config, s: MineSys) {
    exists acts :: HubRun(cfg, s, acts) && Unstopped(acts) && RunFrom(cfg, s, acts).value.d.containerID.Some?
  }

  predicate SparesAll(s: MineSys, acts: seq<Action>) {
    forall c :: c in s.gpuOf ==> Spares(s, acts, c)
  }

  /** And does so although nobody but the node removes a mining container. */
  ghost predicate CanMineUnaided(cfg: Config, s: MineSys) {
    exists acts :: HubRun(cfg, s, acts) && Unstopped(acts) && RunFrom(cfg, s, acts).value.d.containerID.Some? && SparesAll(s, acts)
  }

  /** A Start would find a GPU. */
  predicate Ready(cfg: Config, s: MineSys) {
    cfg.enabled && s.d.state != Running && Available(cfg.gpus, s.d.rented) != []
  }

  /** No container of mining's own is in its way. */
  predicate NoneLeft(s: MineSys) {
    forall c :: c in s.gpuOf ==> c !in s.w.containers
  }

  lemma ReadyMines(cfg: Config, s: MineSys)
    requires Ready(cfg, s) && s.d.containerID.None? && D.Valid(s.w)
    ensures CanMineOn(cfg, s) && (NoneLeft(s) ==> CanMineUnaided(cfg, s))
  {
    var clear := OthersClear(cfg, s);
    var f := s.(w := Cleared(s.w), starts := s.starts + 1);
    var acts := clear + [CallStart, RunStart(WILLING)];
    assert acts[..|clear| + 1] == clear + [CallStart] && (clear + [CallStart])[..|clear|] == clear;
    assert RunFrom(cfg, s, clear + [CallStart]) == Some(f);
    StartTracksExactly(cfg, f);
    assert RunFrom(cfg, s, acts) == Some(Apply(cfg, f, RunStart(WILLING)));
    assert HubRun(cfg, s, acts) && Unstopped(acts);
    assert NoneLeft(s) ==> SparesAll(s, acts);
  }

  lemma NotReadyStays(cfg: Config, s: MineSys, acts: seq<Action>)
    requires MineOk(cfg, s) && s.d.containerID.None? && HubRun(cfg, s, acts) && Unstopped(acts)
    requires !Ready(cfg, s) || (!NoneLeft(s) && SparesAll(s, acts))
    ensures RunFrom(cfg, s, acts).value.d.containerID.None?
  {
    if !Ready(cfg, s) {
      DeadForever(cfg, s, acts);
    } else {
      var c :| c in s.gpuOf && c in s.w.containers;
      assert Known(s, c);
      StrandedForever(cfg, s, acts, c);
    }
  }

  /**
   * In every reachable state: mining goes on if it is going on, or if it is
   * not marked as running and a Start can find a GPU; and without help by
   * others only if moreover none of its containers is left.
   */
  lemma MineOnExactly(cfg: Config, before: seq<Action>)
    requires Run(cfg, before).Some?
    ensures var s := Run(cfg, before).value;
            && (CanMineOn(cfg, s) <==> s.d.containerID.Some? || Ready(cfg, s))
            && (CanMineUnaided(cfg, s) <==> s.d.containerID.Some? || (Ready(cfg, s) && NoneLeft(s)))
  {
    var s := Run(cfg, before).value;
    MineAlways(cfg, before);
    ValidAlways(cfg, before);
    if s.d.containerID.Some? {
      assert HubRun(cfg, s, []) && Unstopped([]) && SparesAll(s, []);
    } else {
      if Ready(cfg, s) {
        ReadyMines(cfg, s);
      }
      forall acts | HubRun(cfg, s, acts) && Unstopped(acts) && (!Ready(cfg, s) || (!NoneLeft(s) && SparesAll(s, acts)))
        ensures RunFrom(cfg, s, acts).value.d.containerID.None?
      {
        NotReadyStays(cfg, s, acts);
      }
    }
  }

  /** So after a pause mining can go on with the GPUs left exactly if the pause found no mining to interrupt. */
  lemma GoesOnAfterPauseExactly(cfg: Config, before: seq<Action>, gpus: set<string>, stopped: bool, removed: bool)
    requires Run(cfg, before).Some?
    ensures var s := Run(cfg, before).value;
            var s' := Apply(cfg, s, Pause(gpus, stopped, removed));
            && (CanMineOn(cfg, s') <==> !Interrupts(s.d) && Ready(cfg, s'))
            && (CanMineUnaided(cfg, s') <==> !Interrupts(s.d) && Ready(cfg, s') && NoneLeft(s'))
  {
    var a := Pause(gpus, stopped, removed);
    MineAlways(cfg, before);
    Extend(cfg, before, a);
    MineOnExactly(cfg, before + [a]);
  }

  // ----- Runs that get there -----

  /** A run as the command handlers make it: every start command takes the one GPU it names, and resuming names none. */
  predicate CommandRun(cfg: Config, acts: seq<Action>) {
    && HubRun(cfg, INIT, acts)
    && forall n :: 0 <= n < |acts| && acts[n].Pause? ==> exists g :: g in acts[n].gpus && g != "" && acts[n].gpus == {g}
  }

  /** And in which the Hub only names GPUs that mining is configured with. */
  predicate MatchingRun(cfg: Config, acts: seq<Action>) {
    CommandRun(cfg, acts) && forall n :: 0 <= n < |acts| && acts[n].Pause? ==> acts[n].gpus <= Elements(cfg.gpus)
  }

  predicate EndsHollow(cfg: Config, acts: seq<Action>) {
    Run(cfg, acts).Some? && ShapeOf(Run(cfg, acts).value.d) == Some(Hollow)
  }

  predicate NamedAndOther(cfg: Config, g: string, h: string) {
    g in cfg.gpus && h in cfg.gpus && g != "" && g != h
  }

  /** Getting stuck takes a command whose GPU leaves another configured one. */
  lemma {:induction false} HollowLeavesOne(cfg: Config, acts: seq<Action>) returns (n: nat, g: string, h: string)
    requires CommandRun(cfg, acts) && EndsHollow(cfg, acts)
    ensures n < |acts| && acts[n].Pause? && acts[n].gpus == {g} && g != ""
    ensures cfg.gpus != [] && h in cfg.gpus && g != h
  {
    n := |acts| - 1;
    var s, f := Run(cfg, acts[..n]).value, Run(cfg, acts).value;
    ShapesAlways(cfg, acts[..n]);
    if ShapeOf(s.d) == Some(Hollow) {
      n, g, h := HollowLeavesOne(cfg, acts[..n]);
    } else {
      ShapeStep(cfg, s, acts[n]);
      g :| g in acts[n].gpus && g != "" && acts[n].gpus == {g};
      h := Available(cfg.gpus, f.d.rented)[0];
      assert cfg.gpus != [];
      UnrentedMembers(cfg.gpus, f.d.rented, h);
    }
  }

  /** Taking any GPU while a configured one is left. */
  lemma PauseOneOfTwo(cfg: Config, g: string, h: string) returns (acts: seq<Action>)
    requires cfg.enabled && g != "" && h in cfg.gpus && g != h
    ensures CommandRun(cfg, acts) && EndsHollow(cfg, acts)
    ensures forall n :: 0 <= n < |acts| && acts[n].Pause? ==> acts[n].gpus == {g}
  {
    acts := StartsMining(cfg);
    var s := Run(cfg, acts).value;
    UnrentedMembers(cfg.gpus, {} + {g}, h);
    PauseKills(cfg, s, {g}, true, true);
    Extend(cfg, acts, Pause({g}, true, true));
    acts := acts + [Pause({g}, true, true)];
  }

  /**
   * The handler does not compare the GPU a command names with the configured
   * ones, so one that is not among them is enough: commands can get mining
   * stuck on every node that mines and has GPUs configured.
   */
  lemma StuckExactly(cfg: Config)
    ensures (exists acts :: CommandRun(cfg, acts) && EndsHollow(cfg, acts)) <==> cfg.enabled && cfg.gpus != []
  {
    if cfg.enabled && cfg.gpus != [] {
      var acts := PauseOneOfTwo(cfg, cfg.gpus[0] + "x", cfg.gpus[0]);
    }
    forall acts | CommandRun(cfg, acts) && EndsHollow(cfg, acts)
      ensures cfg.enabled && cfg.gpus != []
    {
      ShapesAlways(cfg, acts);
      var n, g, h := HollowLeavesOne(cfg, acts);
    }
  }

  /** With a Hub that only names configured GPUs it takes a second one beside one that can be rented. */
  lemma StuckByMatchingExactly(cfg: Config)
    ensures (exists acts :: MatchingRun(cfg, acts) && EndsHollow(cfg, acts))
            <==> cfg.enabled && exists g, h :: NamedAndOther(cfg, g, h)
  {
    if cfg.enabled && exists g, h :: NamedAndOther(cfg, g, h) {
      var g, h :| NamedAndOther(cfg, g, h);
      var acts := PauseOneOfTwo(cfg, g, h);
      assert MatchingRun(cfg, acts);
    }
    forall acts: seq<Action> | MatchingRun(cfg, acts) && EndsHollow(cfg, acts)
      ensures cfg.enabled && exists g, h :: NamedAndOther(cfg, g, h)
    {
      ShapesAlways(cfg, acts);
      var n, g, h := HollowLeavesOne(cfg, acts);
      assert g in acts[n].gpus;
      assert NamedAndOther(cfg, g, h);
    }
  }
}
