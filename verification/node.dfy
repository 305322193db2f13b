/**
 * The node: Hub commands drive the rental executor and the mining daemon,
 * which share one Docker engine and one clock. Every run of the node is a run
 * of either component as seen by it, so what they guarantee on their own
 * holds here; together they keep mining off every GPU handed to a rental.
 */
module Node {
  import opened Wrappers
  import D = Docker
  import M = Mining
  import MP = MiningPause
  import MR = MiningRuns
  import R = RentalProtocol
  import RI = RentalInvariants
  import RO = RentalOwnership

  datatype Config = Config(rental: R.Config, mining: M.Config)

  /** A start command whose GPU has been taken from mining and that has yet to call the executor. */
  datatype Call = Call(session: string, gpu: string)

  datatype NodeSys = NodeSys(sys: R.Sys, mine: MR.MineSys, calls: map<nat, Call>, nextCall: nat)

  const INIT := NodeSys(R.INIT, MR.INIT, map[], 0)

  datatype Action =
    | Rental(rental: R.Action)                                        // a step of running rental calls, or the clock
    | Mining(mining: MR.Action)                                       // a Start, Stop or monitor tick of the daemon
    | HubStart(session: string, gpu: string, stopped: bool, removed: bool)
    | HubBegin(call: nat)                                             // StartRental accepts the session
    | HubReject(call: nat)                                            // StartRental finds the session active
    | HubResume                                                       // after a successful StopRental
    | Others(world: D.World)                                          // other users of the engine

  predicate Enabled(k: Config, n: NodeSys, a: Action) {
    match a
    case Rental(step) => !step.Begin? && !step.Foreign? && R.Enabled(k.rental, n.sys, step)
    case Mining(step) =>
      (step.CallStart? || step.RunStart? || step.RunStop? || step.Monitor?) && MR.Enabled(n.mine, step)
    case HubStart(_, _, _, _) => true
    case HubBegin(c) => c in n.calls && n.calls[c].session !in n.sys.rentals
    case HubReject(c) => c in n.calls && n.calls[c].session in n.sys.rentals
    case HubResume => true
    case Others(world) => R.Undisturbed(n.sys, world) && MR.Undisturbed(n.mine, world)
  }

  /** The executor took a step; the daemon sees its engine and clock. */
  function AfterRental(n: NodeSys, sys: R.Sys): NodeSys {
    n.(sys := sys, mine := n.mine.(w := sys.docker, now := sys.now))
  }

  /** The daemon took a step; the executor sees its engine. */
  function AfterMining(n: NodeSys, mine: MR.MineSys): NodeSys {
    n.(sys := n.sys.(docker := mine.w), mine := mine)
  }

  function PauseFor(k: Config, n: NodeSys, gpu: string, stopped: bool, removed: bool): NodeSys {
    if gpu == "" then n
    else AfterMining(n, MR.Apply(k.mining, n.mine, MR.Pause({gpu}, stopped, removed)))
  }

  function Apply(k: Config, n: NodeSys, a: Action): NodeSys
    requires Enabled(k, n, a)
  {
    match a
    case Rental(step) => AfterRental(n, R.Apply(k.rental, n.sys, step))
    case Mining(step) => AfterMining(n, MR.Apply(k.mining, n.mine, step))
    case HubStart(session, gpu, stopped, removed) =>
      PauseFor(k, n, gpu, stopped, removed).(
        calls := n.calls[n.nextCall := Call(session, gpu)], nextCall := n.nextCall + 1)
    case HubBegin(c) =>
      AfterRental(n, R.DoBegin(n.sys, n.calls[c].session, n.calls[c].gpu)).(calls := n.calls - {c})
    case HubReject(c) => n.(calls := n.calls - {c})
    case HubResume => AfterMining(n, MR.Apply(k.mining, n.mine, MR.Resume({})))
    case Others(world) => n.(sys := n.sys.(docker := world), mine := n.mine.(w := world))
  }

  function Run(k: Config, acts: seq<Action>): Option<NodeSys> {
    if acts == [] then Some(INIT)
    else
      var l := |acts| - 1;
      match Run(k, acts[..l])
      case None => None
      case Some(n) => if Enabled(k, n, acts[l]) then Some(Apply(k, n, acts[l])) else None
  }

  // ----- The invariant -----

  /** Both components see the same engine and clock, and their containers are different ones. */
  predicate Shared(n: NodeSys) {
    && n.mine.w == n.sys.docker && n.mine.now == n.sys.now
    && (forall c :: c in n.sys.makers ==> c < n.sys.docker.nextId && c !in n.mine.gpuOf)
  }

  predicate Taken(n: NodeSys, gpu: string) {
    gpu != "" ==> gpu in n.mine.d.rented
  }

  /** Every GPU a Hub command has asked for is marked as rented. */
  predicate GPUsTaken(n: NodeSys) {
    && (forall i :: i in n.sys.insts ==> Taken(n, n.sys.insts[i].gpu))
    && (forall c :: c in n.calls ==> Taken(n, n.calls[c].gpu))
  }

  predicate NodeOk(k: Config, n: NodeSys) {
    D.Valid(n.sys.docker) && RI.Core(n.sys) && MR.MineOk(k.mining, n.mine) && Shared(n) && GPUsTaken(n)
  }

  // ----- Each component's steps are interference to the other -----

  lemma CreateUndisturbed(k: Config, n: NodeSys, i: nat, ok: bool)
    requires NodeOk(k, n) && R.At(n.sys, i, R.Allocated) && (ok ==> !D.NameTaken(n.sys.docker, n.sys.insts[i].session))
    ensures MR.Undisturbed(n.mine, R.DoCreate(n.sys, i, ok).docker)
  {
    RO.StepValid(k.rental, n.sys, R.Create(i, ok));
    assert forall c :: c in n.mine.gpuOf ==> MR.Known(n.mine, c);
  }

  /** Starting, stopping or removing a rental's container leaves mining's alone. */
  lemma UpdatesUndisturbed(k: Config, n: NodeSys, c: nat, running: bool)
    requires NodeOk(k, n) && c in n.sys.makers
    ensures MR.Undisturbed(n.mine, D.SetRunning(n.sys.docker, c, running))
    ensures MR.Undisturbed(n.mine, D.Remove(n.sys.docker, c))
  {
    D.UpdatesKeepValid(n.sys.docker, c, running);
  }

  lemma RentalUndisturbed(k: Config, n: NodeSys, step: R.Action)
    requires NodeOk(k, n) && R.Enabled(k.rental, n.sys, step) && !step.Foreign?
    ensures MR.Undisturbed(n.mine, R.Apply(k.rental, n.sys, step).docker)
  {
    match step
    case Create(i, ok) => CreateUndisturbed(k, n, i, ok);
    case StartContainer(i, ok) =>
      assert RI.InstanceOk(n.sys, i);
      UpdatesUndisturbed(k, n, n.sys.insts[i].cid.value, true);
    case RollbackRemove(i, ok) =>
      assert RI.InstanceOk(n.sys, i);
      UpdatesUndisturbed(k, n, n.sys.insts[i].cid.value, true);
    case StopContainer(t, ok) =>
      assert RI.CleanupOk(n.sys, n.sys.cleanups[t]) && RI.InstanceOk(n.sys, n.sys.cleanups[t].inst);
      UpdatesUndisturbed(k, n, n.sys.cleanups[t].cid, false);
    case Remove(t, ok) =>
      assert RI.CleanupOk(n.sys, n.sys.cleanups[t]) && RI.InstanceOk(n.sys, n.sys.cleanups[t].inst);
      UpdatesUndisturbed(k, n, n.sys.cleanups[t].cid, false);
    case _ =>
  }

  lemma StartUndisturbed(k: Config, n: NodeSys, o: M.StartCalls)
    requires NodeOk(k, n)
    ensures var e := M.DoStart(k.mining, n.mine.d, n.mine.w, n.mine.now, o); R.Undisturbed(n.sys, e.w)
  {
    if !D.NameTaken(n.mine.w, M.NAME) && M.Available(k.mining.gpus, n.mine.d.rented) != [] {
      D.CreateKeepsValid(n.mine.w, M.NAME, None, M.Available(k.mining.gpus, n.mine.d.rented)[0]);
    }
    forall i | i in n.sys.insts && n.sys.insts[i].cid.Some?
      ensures n.sys.insts[i].cid.value < n.sys.docker.nextId
    {
      assert RI.InstanceOk(n.sys, i);
    }
  }

  lemma DiscardUndisturbed(k: Config, n: NodeSys, stopped: bool, removed: bool)
    requires NodeOk(k, n)
    ensures R.Undisturbed(n.sys, M.Discard(n.mine.w, n.mine.d.containerID, stopped, removed))
  {
    forall i | i in n.sys.insts && n.sys.insts[i].cid.Some?
      ensures n.sys.insts[i].cid.value !in n.mine.gpuOf
    {
      assert RI.InstanceOk(n.sys, i);
    }
  }

  lemma MiningUndisturbed(k: Config, n: NodeSys, step: MR.Action)
    requires NodeOk(k, n) && MR.Enabled(n.mine, step) && !step.Foreign?
    ensures R.Undisturbed(n.sys, MR.Apply(k.mining, n.mine, step).w)
  {
    if step.RunStart? {
      StartUndisturbed(k, n, step.calls);
    } else if step.RunStop? || step.Pause? {
      DiscardUndisturbed(k, n, step.stopped, step.removed);
    }
  }

  // ----- The invariant is kept -----

  /** Nothing but Begin, Create and the clock changes who has which GPU, who made which container, or the time. */
  predicate KeepsIdentity(s: R.Sys, s': R.Sys) {
    && s'.makers == s.makers && s.docker.nextId <= s'.docker.nextId && s'.now == s.now
    && forall i :: i in s'.insts ==> i in s.insts && s'.insts[i].gpu == s.insts[i].gpu
  }

  lemma AllocateIdentity(k: R.Config, s: R.Sys, i: nat)
    requires i in s.insts
    ensures KeepsIdentity(s, R.DoAllocate(k, s, i))
  {
  }

  lemma StartIdentity(s: R.Sys, i: nat, ok: bool)
    requires i in s.insts && s.insts[i].cid.Some?
    ensures KeepsIdentity(s, R.DoStart(s, i, ok))
  {
  }

  lemma RollbackIdentity(s: R.Sys, i: nat, ok: bool)
    requires i in s.insts && s.insts[i].cid.Some?
    ensures KeepsIdentity(s, R.SetPhase(R.RemoveContainer(s, s.insts[i].cid.value, ok), i, R.Releasing))
  {
  }

  lemma StopIdentity(s: R.Sys, t: nat, ok: bool)
    requires t in s.cleanups && s.cleanups[t].inst in s.insts
    ensures KeepsIdentity(s, R.DoStop(s, t, ok)) && KeepsIdentity(s, R.DoRelease(s, t))
  {
  }

  lemma StepIdentity(k: R.Config, s: R.Sys, step: R.Action)
    requires R.Enabled(k, s, step) && !step.Begin? && !step.Create? && !step.Foreign? && !step.Tick?
    ensures KeepsIdentity(s, R.Apply(k, s, step))
  {
    match step
    case Allocate(i) => AllocateIdentity(k, s, i);
    case StartContainer(i, ok) => StartIdentity(s, i, ok);
    case RollbackRemove(i, ok) => RollbackIdentity(s, i, ok);
    case StopContainer(t, ok) => StopIdentity(s, t, ok);
    case Release(t) => StopIdentity(s, t, true);
    case _ =>
  }

  lemma CreateSharing(k: Config, n: NodeSys, i: nat, ok: bool)
    requires NodeOk(k, n) && R.At(n.sys, i, R.Allocated)
    ensures Shared(AfterRental(n, R.DoCreate(n.sys, i, ok))) && GPUsTaken(AfterRental(n, R.DoCreate(n.sys, i, ok)))
  {
    assert forall c :: c in n.mine.gpuOf ==> MR.Known(n.mine, c);
  }

  lemma BeginSharing(k: Config, n: NodeSys, session: string, gpu: string)
    requires NodeOk(k, n) && Taken(n, gpu)
    ensures Shared(AfterRental(n, R.DoBegin(n.sys, session, gpu))) && GPUsTaken(AfterRental(n, R.DoBegin(n.sys, session, gpu)))
  {
  }

  lemma RentalSharing(k: Config, n: NodeSys, step: R.Action)
    requires NodeOk(k, n) && R.Enabled(k.rental, n.sys, step) && !step.Foreign?
    requires step.Begin? ==> Taken(n, step.gpu)
    ensures Shared(AfterRental(n, R.Apply(k.rental, n.sys, step)))
    ensures GPUsTaken(AfterRental(n, R.Apply(k.rental, n.sys, step)))
  {
    if step.Begin? {
      BeginSharing(k, n, step.session, step.gpu);
    } else if step.Create? {
      CreateSharing(k, n, step.inst, step.ok);
    } else if !step.Tick? {
      StepIdentity(k.rental, n.sys, step);
    }
  }

  lemma RentalKeepsOk(k: Config, n: NodeSys, step: R.Action)
    requires NodeOk(k, n) && R.Enabled(k.rental, n.sys, step) && !step.Foreign?
    requires step.Begin? ==> Taken(n, step.gpu)
    ensures NodeOk(k, AfterRental(n, R.Apply(k.rental, n.sys, step)))
  {
    var sys' := R.Apply(k.rental, n.sys, step);
    RO.StepValid(k.rental, n.sys, step);
    RI.CoreStep(k.rental, n.sys, step);
    RentalUndisturbed(k, n, step);
    MR.ForeignKeepsOk(k.mining, n.mine, sys'.docker);
    MR.ClockKeepsOk(k.mining, n.mine.(w := sys'.docker), sys'.now, n.mine.starts);
    RentalSharing(k, n, step);
  }

  /** The ids of mining containers stay apart from those of rentals, and nothing is taken off the rented list. */
  lemma MiningSharing(k: Config, n: NodeSys, step: MR.Action)
    requires NodeOk(k, n) && MR.Enabled(n.mine, step) && !step.Foreign? && !step.Tick? && MR.HubAction(step)
    ensures Shared(AfterMining(n, MR.Apply(k.mining, n.mine, step)))
    ensures GPUsTaken(AfterMining(n, MR.Apply(k.mining, n.mine, step)))
  {
    assert n.mine.d.rented <= MR.Apply(k.mining, n.mine, step).d.rented;
  }

  lemma MiningKeepsOk(k: Config, n: NodeSys, step: MR.Action)
    requires NodeOk(k, n) && MR.Enabled(n.mine, step) && !step.Foreign? && !step.Tick? && MR.HubAction(step)
    ensures NodeOk(k, AfterMining(n, MR.Apply(k.mining, n.mine, step)))
  {
    var mine' := MR.Apply(k.mining, n.mine, step);
    MiningUndisturbed(k, n, step);
    RI.WorldKeepsCore(n.sys, mine'.w);
    MR.MineStep(k.mining, n.mine, step);
    MiningSharing(k, n, step);
  }

  lemma OthersKeepOk(k: Config, n: NodeSys, world: D.World)
    requires NodeOk(k, n) && R.Undisturbed(n.sys, world) && MR.Undisturbed(n.mine, world)
    ensures NodeOk(k, n.(sys := n.sys.(docker := world), mine := n.mine.(w := world)))
  {
    RI.WorldKeepsCore(n.sys, world);
    MR.ForeignKeepsOk(k.mining, n.mine, world);
  }

  lemma CallsKeepOk(k: Config, n: NodeSys, calls: map<nat, Call>, next: nat)
    requires NodeOk(k, n) && forall c :: c in calls ==> Taken(n, calls[c].gpu)
    ensures NodeOk(k, n.(calls := calls, nextCall := next))
  {
  }

  lemma HubStartKeepsOk(k: Config, n: NodeSys, session: string, gpu: string, stopped: bool, removed: bool)
    requires NodeOk(k, n)
    ensures NodeOk(k, Apply(k, n, HubStart(session, gpu, stopped, removed)))
  {
    var m := PauseFor(k, n, gpu, stopped, removed);
    if gpu != "" {
      MiningKeepsOk(k, n, MR.Pause({gpu}, stopped, removed));
    }
    CallsKeepOk(k, m, n.calls[n.nextCall := Call(session, gpu)], n.nextCall + 1);
  }

  lemma NodeStep(k: Config, n: NodeSys, a: Action)
    requires NodeOk(k, n) && Enabled(k, n, a)
    ensures NodeOk(k, Apply(k, n, a))
  {
    match a
    case Rental(step) => RentalKeepsOk(k, n, step);
    case Mining(step) => MiningKeepsOk(k, n, step);
    case HubStart(session, gpu, stopped, removed) => HubStartKeepsOk(k, n, session, gpu, stopped, removed);
    case HubBegin(c) =>
      RentalKeepsOk(k, n, R.Begin(n.calls[c].session, n.calls[c].gpu));
      var m := AfterRental(n, R.DoBegin(n.sys, n.calls[c].session, n.calls[c].gpu));
      CallsKeepOk(k, m, n.calls - {c}, n.nextCall);
    case HubReject(c) => CallsKeepOk(k, n, n.calls - {c}, n.nextCall);
    case HubResume => MiningKeepsOk(k, n, MR.Resume({}));
    case Others(world) => OthersKeepOk(k, n, world);
  }

  lemma {:induction false} NodeAlways(k: Config, acts: seq<Action>)
    requires Run(k, acts).Some?
    ensures NodeOk(k, Run(k, acts).value)
  {
    if acts != [] {
      var l := |acts| - 1;
      NodeAlways(k, acts[..l]);
      NodeStep(k, Run(k, acts[..l]).value, acts[l]);
    }
  }

  // ----- GPU exclusivity -----

  /**
   * In every state of the node the GPU of the tracked mining container differs
   * from the GPU of every start command, whether that command is still waiting
   * to call the executor, building its container, polling health or done.
   */
  lemma GPUExclusivity(k: Config, acts: seq<Action>)
    requires Run(k, acts).Some? && Run(k, acts).value.mine.d.containerID.Some?
    ensures var n := Run(k, acts).value;
            var c := n.mine.d.containerID.value;
            && c in n.mine.gpuOf
            && (forall i :: i in n.sys.insts && n.sys.insts[i].gpu != "" ==> n.mine.gpuOf[c] != n.sys.insts[i].gpu)
            && (forall j :: j in n.calls && n.calls[j].gpu != "" ==> n.mine.gpuOf[c] != n.calls[j].gpu)
  {
    NodeAlways(k, acts);
    var n := Run(k, acts).value;
    assert forall i :: i in n.sys.insts ==> Taken(n, n.sys.insts[i].gpu);
    assert forall j :: j in n.calls ==> Taken(n, n.calls[j].gpu);
    if k.mining.gpus != [] {
      M.UnrentedMembers(k.mining.gpus, n.mine.d.rented, n.mine.gpuOf[n.mine.d.containerID.value]);
    }
  }

  /** Unless Docker left one running or misreported one, no mining container at all runs on the GPU of a rental's container. */
  lemma RunningExclusivity(k: Config, acts: seq<Action>, i: nat, c: nat)
    requires Run(k, acts).Some? && !Run(k, acts).value.mine.faults
    requires var n := Run(k, acts).value;
             && i in n.sys.insts && n.sys.insts[i].gpu != "" && RI.Exists(n.sys, n.sys.insts[i])
             && c in n.mine.gpuOf && MR.IsRunning(n.sys.docker, c)
    ensures var n := Run(k, acts).value;
            n.sys.docker.containers[c].gpu != n.sys.docker.containers[n.sys.insts[i].cid.value].gpu
  {
    NodeAlways(k, acts);
    var n := Run(k, acts).value;
    assert MR.Known(n.mine, c);
    assert RI.InstanceOk(n.sys, i);
    GPUExclusivity(k, acts);
  }

  // ----- A run of the node is a run of its parts -----

  /** How the executor sees a step of the node. */
  function RentalView(k: Config, n: NodeSys, a: Action): R.Action
    requires Enabled(k, n, a)
  {
    match a
    case Rental(step) => step
    case HubBegin(c) => R.Begin(n.calls[c].session, n.calls[c].gpu)
    case _ => R.Foreign(Apply(k, n, a).sys.docker)
  }

  lemma RentalViewStep(k: Config, n: NodeSys, a: Action)
    requires NodeOk(k, n) && Enabled(k, n, a)
    ensures R.Enabled(k.rental, n.sys, RentalView(k, n, a))
    ensures Apply(k, n, a).sys == R.Apply(k.rental, n.sys, RentalView(k, n, a))
  {
    match a
    case Mining(step) => MiningUndisturbed(k, n, step);
    case HubStart(_, gpu, stopped, removed) =>
      if gpu != "" {
        MiningUndisturbed(k, n, MR.Pause({gpu}, stopped, removed));
      }
    case HubResume => MiningUndisturbed(k, n, MR.Resume({}));
    case _ =>
  }

  /** Whatever the node does is, to the rental executor, a run of its own: its guarantees hold in the node. */
  lemma {:induction false} NodeRunIsRentalRun(k: Config, acts: seq<Action>) returns (racts: seq<R.Action>)
    requires Run(k, acts).Some?
    ensures R.Run(k.rental, racts) == Some(Run(k, acts).value.sys)
  {
    racts := [];
    if acts != [] {
      var l := |acts| - 1;
      var n := Run(k, acts[..l]).value;
      racts := NodeRunIsRentalRun(k, acts[..l]);
      NodeAlways(k, acts[..l]);
      RentalViewStep(k, n, acts[l]);
      R.AppendAction(k.rental, R.INIT, racts, RentalView(k, n, acts[l]));
      racts := racts + [RentalView(k, n, acts[l])];
    }
  }

  /** How the mining daemon sees a step of the node. */
  function MiningView(k: Config, n: NodeSys, a: Action): MR.Action
    requires Enabled(k, n, a)
  {
    match a
    case Rental(step) => if step.Tick? then MR.Tick(step.elapsed) else MR.Foreign(R.Apply(k.rental, n.sys, step).docker)
    case Mining(step) => step
    case HubStart(_, gpu, stopped, removed) => if gpu == "" then MR.Tick(0) else MR.Pause({gpu}, stopped, removed)
    case HubBegin(_) => MR.Tick(0)
    case HubReject(_) => MR.Tick(0)
    case HubResume => MR.Resume({})
    case Others(world) => MR.Foreign(world)
  }

  lemma ClockOnlyTicks(k: R.Config, s: R.Sys, step: R.Action)
    requires R.Enabled(k, s, step) && !step.Tick?
    ensures R.Apply(k, s, step).now == s.now
  {
    if !step.Begin? && !step.Create? && !step.Foreign? {
      StepIdentity(k, s, step);
    }
  }

  predicate OneNamed(a: MR.Action) {
    a.Pause? ==> exists g :: g in a.gpus && g != "" && a.gpus == {g}
  }

  lemma MiningViewStep(k: Config, n: NodeSys, a: Action)
    requires NodeOk(k, n) && Enabled(k, n, a)
    ensures MR.Enabled(n.mine, MiningView(k, n, a)) && MR.HubAction(MiningView(k, n, a)) && OneNamed(MiningView(k, n, a))
    ensures Apply(k, n, a).mine == MR.Apply(k.mining, n.mine, MiningView(k, n, a))
  {
    if a.Rental? {
      RentalUndisturbed(k, n, a.rental);
      if !a.rental.Tick? {
        ClockOnlyTicks(k.rental, n.sys, a.rental);
      }
    } else if a.HubStart? && a.gpu != "" {
      assert a.gpu in {a.gpu};
    }
  }

  /**
   * Likewise for the mining daemon, which sees what command handlers do only:
   * each start takes one named GPU, and the rented set never shrinks.
   */
  lemma {:induction false} NodeRunIsMiningRun(k: Config, acts: seq<Action>) returns (macts: seq<MR.Action>)
    requires Run(k, acts).Some?
    ensures MP.CommandRun(k.mining, macts) && MR.Run(k.mining, macts) == Some(Run(k, acts).value.mine)
  {
    macts := [];
    if acts != [] {
      var l := |acts| - 1;
      var n := Run(k, acts[..l]).value;
      macts := NodeRunIsMiningRun(k, acts[..l]);
      NodeAlways(k, acts[..l]);
      MiningViewStep(k, n, acts[l]);
      MR.Extend(k.mining, macts, MiningView(k, n, acts[l]));
      macts := macts + [MiningView(k, n, acts[l])];
    }
  }

  // ----- Mining stuck by a command -----

  lemma NodeExtend(k: Config, acts: seq<Action>, a: Action)
    requires Run(k, acts).Some? && Enabled(k, Run(k, acts).value, a)
    ensures Run(k, acts + [a]) == Some(Apply(k, Run(k, acts).value, a))
  {
    assert (acts + [a])[..|acts|] == acts;
  }

  predicate EndsStuck(k: Config, acts: seq<Action>) {
    Run(k, acts).Some? && MR.ShapeOf(Run(k, acts).value.mine.d) == Some(MR.Hollow)
  }

  /** A node that mines, as its daemon sees it. */
  lemma NodeStartsMining(k: Config) returns (acts: seq<Action>)
    requires k.mining.enabled
    ensures Run(k, acts).Some? && MR.ShapeOf(Run(k, acts).value.mine.d) == Some(MR.Mining)
    ensures Run(k, acts).value.mine.d.rented == {}
  {
    var macts := MR.StartsMining(k.mining);
    var start := MR.RunStart(MR.WILLING);
    assert macts[..1] == [MR.CallStart] && macts[..1][..0] == [];
    assert MR.Run(k.mining, []) == Some(MR.INIT);
    NodeExtend(k, [], Mining(MR.CallStart));
    assert [] + [Mining(MR.CallStart)] == [Mining(MR.CallStart)];
    NodeExtend(k, [Mining(MR.CallStart)], Mining(start));
    acts := [Mining(MR.CallStart)] + [Mining(start)];
  }

  /** One start command, for a GPU that need not exist, gets mining stuck on exactly the nodes that mine and have GPUs configured. */
  lemma NodeStuckExactly(k: Config)
    ensures (exists acts :: EndsStuck(k, acts)) <==> k.mining.enabled && k.mining.gpus != []
  {
    if k.mining.enabled && k.mining.gpus != [] {
      var acts := NodeStartsMining(k);
      var n, g := Run(k, acts).value, k.mining.gpus[0] + "x";
      M.UnrentedMembers(k.mining.gpus, {} + {g}, k.mining.gpus[0]);
      MP.PauseKills(k.mining, n.mine, {g}, true, true);
      NodeExtend(k, acts, HubStart("a", g, true, true));
      assert EndsStuck(k, acts + [HubStart("a", g, true, true)]);
    }
    forall acts | EndsStuck(k, acts)
      ensures k.mining.enabled && k.mining.gpus != []
    {
      var macts := NodeRunIsMiningRun(k, acts);
      assert MP.EndsHollow(k.mining, macts);
      MP.StuckExactly(k.mining);
    }
  }
}
