/**
 * Runs in which no rental is successfully stopped twice: exact port
 * ownership, no shared host ports, and how long a stopped rental's port
 * stays out of use.
 */
module RentalSingleStop {
  import opened Wrappers
  import opened RentalProtocol
  import opened RentalInvariants
  import opened RentalOwnership
  import L = Leases
  import D = Docker

  predicate StoppedOnce(s: Sys) {
    forall i :: i in s.insts ==> s.insts[i].stops <= 1
  }

  /** A cleanup past its StopContainer call belongs to a successful stop, and acts first if that stop is the only one. */
  predicate TaskOk(k: Config, s: Sys, c: Cleanup, t: nat) {
    !c.stage.Stopping? ==>
      && c.inst in s.insts
      && var x := s.insts[c.inst];
         && x.stops >= 1
         && (x.stops == 1 ==> x.stopTask == t && x.stopMark == c.markedAt)
         && (x.stops == 1 && !c.stage.Freed? ==> x.phase == Registered)
         && (c.stage.Removed? ==> s.now >= c.stage.since + k.grace)
  }

  predicate StopOk(k: Config, x: Instance) {
    x.phase.Released? ==> x.stops >= 1 && (x.stops == 1 ==> x.phase.at >= x.stopMark + k.grace)
  }

  predicate Solo(k: Config, s: Sys) {
    && (forall t :: t in s.cleanups ==> TaskOk(k, s, s.cleanups[t], t))
    && (forall i :: i in s.insts ==> StopOk(k, s.insts[i]))
  }

  predicate SameStops(x: Instance, y: Instance) {
    && y.stops == x.stops && y.stopTask == x.stopTask && y.stopMark == x.stopMark
    && (x.phase == Registered ==> y.phase == Registered)
    && (y.phase.Released? ==> y.phase == x.phase)
  }

  /** From s to s' no stop succeeds and no cleanup moves on, though cleanups may begin or go. */
  predicate Calm(s: Sys, s': Sys) {
    && s.now <= s'.now
    && (forall t :: t in s'.cleanups ==> s'.cleanups[t].stage.Stopping? || (t in s.cleanups && s'.cleanups[t] == s.cleanups[t]))
    && (forall i :: i in s.insts ==> i in s'.insts && SameStops(s.insts[i], s'.insts[i]))
    && (forall i :: i in s'.insts && i !in s.insts ==> s'.insts[i].phase == Checked && s'.insts[i].stops == 0)
  }

  lemma SoloFrame(k: Config, s: Sys, s': Sys)
    requires Solo(k, s) && Calm(s, s')
    ensures Solo(k, s')
  {
    forall t | t in s'.cleanups
      ensures TaskOk(k, s', s'.cleanups[t], t)
    {
      if t in s.cleanups {
        assert TaskOk(k, s, s.cleanups[t], t);
      }
    }
    forall i | i in s'.insts
      ensures StopOk(k, s'.insts[i])
    {
      if i in s.insts {
        assert StopOk(k, s.insts[i]) && SameStops(s.insts[i], s'.insts[i]);
      }
    }
  }

  predicate MovesCleanup(a: Action) {
    a.Remove? || a.Release? || (a.StopContainer? && a.ok)
  }

  lemma CalmBegin(s: Sys, session: string, gpu: string)
    requires s.nextInst !in s.insts
    ensures Calm(s, DoBegin(s, session, gpu))
  {
  }

  lemma CalmAllocate(k: Config, s: Sys, i: nat)
    requires At(s, i, Checked)
    ensures Calm(s, DoAllocate(k, s, i))
  {
  }

  lemma CalmCreate(s: Sys, i: nat, ok: bool)
    requires At(s, i, Allocated)
    ensures Calm(s, DoCreate(s, i, ok))
  {
  }

  lemma CalmStart(s: Sys, i: nat, ok: bool)
    requires At(s, i, Created) && s.insts[i].cid.Some?
    ensures Calm(s, DoStart(s, i, ok))
  {
  }

  lemma CalmRollback(s: Sys, i: nat, ok: bool)
    requires At(s, i, Failing) && s.insts[i].cid.Some?
    ensures Calm(s, SetPhase(RemoveContainer(s, s.insts[i].cid.value, ok), i, Releasing))
  {
  }

  lemma CalmStep(k: Config, s: Sys, a: Action)
    requires Enabled(k, s, a) && !MovesCleanup(a) && s.nextInst !in s.insts
    ensures Calm(s, Apply(k, s, a))
  {
    match a
    case Begin(n, g) => CalmBegin(s, n, g);
    case Allocate(i) => CalmAllocate(k, s, i);
    case Create(i, ok) => CalmCreate(s, i, ok);
    case StartContainer(i, ok) => CalmStart(s, i, ok);
    case RollbackRemove(i, ok) => CalmRollback(s, i, ok);
    case _ =>
  }

  predicate Idle(a: Action) {
    !(a.Mark? || a.Delete? || a.StopContainer? || a.Remove? || a.Release?)
  }

  lemma BuildingRecords(s: Sys, i: nat, ok: bool)
    requires i in s.insts && s.insts[i].cid.Some?
    ensures DoStart(s, i, ok).cleanups == s.cleanups && DoStart(s, i, ok).rentals == s.rentals
    ensures var m := RemoveContainer(s, s.insts[i].cid.value, ok); m.cleanups == s.cleanups && m.rentals == s.rentals
  {
  }

  lemma AllocateRecords(k: Config, s: Sys, i: nat)
    requires i in s.insts
    ensures DoAllocate(k, s, i).cleanups == s.cleanups && DoAllocate(k, s, i).rentals == s.rentals
  {
  }

  lemma IdleCleanups(k: Config, s: Sys, a: Action)
    requires Enabled(k, s, a) && Idle(a)
    ensures Apply(k, s, a).cleanups == s.cleanups
    ensures !a.Register? ==> Apply(k, s, a).rentals == s.rentals
  {
    if a.StartContainer? || a.RollbackRemove? {
      BuildingRecords(s, a.inst, a.ok);
    } else if a.Allocate? {
      AllocateRecords(k, s, a.inst);
    }
  }

  lemma StopSolo(k: Config, s: Sys, t: nat)
    requires Core(s) && Solo(k, s) && t in s.cleanups && s.cleanups[t].stage.Stopping?
    ensures Solo(k, DoStop(s, t, true))
  {
    var s', i := DoStop(s, t, true), s.cleanups[t].inst;
    assert CleanupOk(s, s.cleanups[t]) && StopOk(k, s.insts[i]);
    forall u | u in s'.cleanups
      ensures TaskOk(k, s', s'.cleanups[u], u)
    {
      assert TaskOk(k, s, s.cleanups[u], u);
    }
  }

  lemma RemoveSolo(k: Config, s: Sys, t: nat, ok: bool)
    requires Core(s) && Solo(k, s) && t in s.cleanups && s.cleanups[t].stage.Sleeping?
    requires s.now >= s.cleanups[t].stage.since + k.grace
    ensures Solo(k, SetStage(RemoveContainer(s, s.cleanups[t].cid, ok), t, Removed(s.cleanups[t].stage.since)))
  {
    var s' := SetStage(RemoveContainer(s, s.cleanups[t].cid, ok), t, Removed(s.cleanups[t].stage.since));
    forall u | u in s'.cleanups
      ensures TaskOk(k, s', s'.cleanups[u], u)
    {
      assert TaskOk(k, s, s.cleanups[u], u);
    }
  }

  lemma ReleaseSolo(k: Config, s: Sys, t: nat)
    requires Core(s) && Solo(k, s) && t in s.cleanups && s.cleanups[t].stage.Removed?
    ensures Solo(k, DoRelease(s, t))
  {
    var s', c := DoRelease(s, t), s.cleanups[t];
    assert CleanupOk(s, c) && TaskOk(k, s, c, t);
    forall u | u in s'.cleanups
      ensures TaskOk(k, s', s'.cleanups[u], u)
    {
      assert TaskOk(k, s, s.cleanups[u], u);
    }
  }

  lemma SoloStep(k: Config, s: Sys, a: Action)
    requires Core(s) && Solo(k, s) && Enabled(k, s, a)
    ensures Solo(k, Apply(k, s, a))
  {
    if a.Remove? {
      RemoveSolo(k, s, a.task, a.ok);
    } else if a.Release? {
      ReleaseSolo(k, s, a.task);
    } else if a.StopContainer? && a.ok {
      StopSolo(k, s, a.task);
    } else {
      NextIsNew(s);
      CalmStep(k, s, a);
      SoloFrame(k, s, Apply(k, s, a));
    }
  }

  lemma {:induction false} SoloAlways(k: Config, acts: seq<Action>)
    requires Run(k, acts).Some?
    ensures Solo(k, Run(k, acts).value)
  {
    if acts != [] {
      var n := |acts| - 1;
      SoloAlways(k, acts[..n]);
      CoreAlways(k, acts[..n]);
      SoloStep(k, Run(k, acts[..n]).value, acts[n]);
    }
  }

  /** y is a later state of x that has forgotten no stop, nor changed the port of a stopped rental. */
  predicate Remembers(x: Instance, y: Instance) {
    && x.stops <= y.stops
    && (y.stops == x.stops ==> y.stopMark == x.stopMark)
    && (x.stops > 0 ==> y.port == x.port)
  }

  lemma StopRemembers(s: Sys, t: nat, ok: bool, i: nat)
    requires t in s.cleanups && s.cleanups[t].inst in s.insts && i in s.insts
    ensures i in DoStop(s, t, ok).insts && Remembers(s.insts[i], DoStop(s, t, ok).insts[i])
  {
  }

  lemma ReleaseRemembers(s: Sys, t: nat, i: nat)
    requires t in s.cleanups && s.cleanups[t].inst in s.insts && i in s.insts
    ensures i in DoRelease(s, t).insts && Remembers(s.insts[i], DoRelease(s, t).insts[i])
    ensures DoRelease(s, t).insts[i].stops == s.insts[i].stops
  {
  }

  lemma StopsKept(k: Config, s: Sys, a: Action, i: nat)
    requires Enabled(k, s, a) && i in s.insts && InstanceOk(s, i) && s.nextInst !in s.insts
    ensures i in Apply(k, s, a).insts && Remembers(s.insts[i], Apply(k, s, a).insts[i])
  {
    if a.StopContainer? {
      StopRemembers(s, a.task, a.ok, i);
    } else if a.Release? {
      ReleaseRemembers(s, a.task, i);
    } else if !a.Remove? {
      CalmStep(k, s, a);
      assert SameStops(s.insts[i], Apply(k, s, a).insts[i]);
      if !TouchesLeases(a) {
        QuietStep(k, s, a);
        assert SameHolding(s.insts[i], Apply(k, s, a).insts[i]);
      }
    }
  }

  lemma StoppedOnceBefore(k: Config, s: Sys, a: Action)
    requires Core(s) && Enabled(k, s, a) && StoppedOnce(Apply(k, s, a))
    ensures StoppedOnce(s)
  {
    NextIsNew(s);
    forall i | i in s.insts
      ensures s.insts[i].stops <= 1
    {
      StopsKept(k, s, a, i);
    }
  }

  // ----- Exact port ownership -----

  /** With at most one successful stop a rental's port is released at most once. */
  lemma NothingHarmful(k: Config, s: Sys, t: nat)
    requires Core(s) && Solo(k, s) && StoppedOnce(s)
    ensures !Harmful(s, t)
  {
    if t in s.cleanups {
      assert TaskOk(k, s, s.cleanups[t], t);
    }
  }

  lemma {:induction false} OwnAlways(k: Config, acts: seq<Action>)
    requires Run(k, acts).Some? && StoppedOnce(Run(k, acts).value)
    ensures Own(Run(k, acts).value)
  {
    if acts != [] {
      var n := |acts| - 1;
      var s := Run(k, acts[..n]).value;
      CoreAlways(k, acts[..n]);
      SoloAlways(k, acts[..n]);
      StoppedOnceBefore(k, s, acts[n]);
      OwnAlways(k, acts[..n]);
      if acts[n].Release? {
        NothingHarmful(k, s, acts[n].task);
      }
      OwnStep(k, s, acts[n]);
    }
  }

  ghost function Holders(s: Sys): set<nat> {
    set i | i in s.insts && Holds(s.insts[i].phase)
  }

  ghost function LeasedPorts(s: Sys): set<int> {
    set p | p in s.leases && L.Live(s.leases, p)
  }

  ghost function PortsOf(s: Sys, holders: set<nat>): set<int>
    requires forall i :: i in holders ==> i in s.insts
  {
    set i | i in holders :: s.insts[i].port
  }

  /** Ports in use and instances holding one correspond one to one, and each lease names its holder's session. */
  lemma ExactOwnership(k: Config, acts: seq<Action>)
    requires Run(k, acts).Some? && StoppedOnce(Run(k, acts).value)
    ensures var s := Run(k, acts).value;
            && LeasedPorts(s) == PortsOf(s, Holders(s))
            && (forall i, j :: i in Holders(s) && j in Holders(s) && s.insts[i].port == s.insts[j].port ==> i == j)
            && (forall i :: i in Holders(s) ==> s.insts[i].port in s.leases && s.leases[s.insts[i].port].session == s.insts[i].session)
  {
    var s := Run(k, acts).value;
    OwnAlways(k, acts);
    forall i | i in Holders(s)
      ensures L.Live(s.leases, s.insts[i].port) && s.owners[s.insts[i].port] == i
      ensures s.leases[s.insts[i].port].session == s.insts[i].session
    {
      assert HolderOk(s, i);
    }
    forall p | p in LeasedPorts(s)
      ensures p in PortsOf(s, Holders(s))
    {
      assert LeaseOk(s, p);
      assert s.owners[p] in Holders(s);
    }
  }

  /** x's container exists, and no attempt to remove it has failed. */
  predicate Unleaked(s: Sys, x: Instance) {
    Exists(s, x) && x.cid.value !in s.leaks
  }

  /** The containers that exist for two calls are bound to different host ports, unless removing one of them failed. */
  lemma NoSharedHostPort(k: Config, acts: seq<Action>, i: nat, j: nat)
    requires Run(k, acts).Some? && StoppedOnce(Run(k, acts).value)
    requires var s := Run(k, acts).value;
             i in s.insts && j in s.insts && i != j && Unleaked(s, s.insts[i]) && Unleaked(s, s.insts[j])
    ensures var s := Run(k, acts).value;
            s.docker.containers[s.insts[i].cid.value].hostPort != s.docker.containers[s.insts[j].cid.value].hostPort
  {
    OwnAlways(k, acts);
    CoreAlways(k, acts);
    DistinctHostPorts(Run(k, acts).value, i, j);
  }

  lemma DistinctHostPorts(s: Sys, i: nat, j: nat)
    requires Core(s) && Own(s)
    requires i in s.insts && j in s.insts && i != j && Unleaked(s, s.insts[i]) && Unleaked(s, s.insts[j])
    ensures s.docker.containers[s.insts[i].cid.value].hostPort != s.docker.containers[s.insts[j].cid.value].hostPort
  {
    assert InstanceOk(s, i) && InstanceOk(s, j);
    assert HolderOk(s, i) && HolderOk(s, j);
  }

  // ----- Reuse distance -----

  /** Once stopped, x's port is either still x's to the allocator or has waited out both grace periods. */
  predicate ReuseOk(k: Config, s: Sys, i: nat)
    requires i in s.insts
  {
    var x := s.insts[i];
    x.stops == 1 ==>
      || (x.port in s.owners && s.owners[x.port] == i)
      || s.now >= x.stopMark + k.grace + k.ports.grace
  }

  predicate Reuse(k: Config, s: Sys) {
    forall i :: i in s.insts ==> ReuseOk(k, s, i)
  }

  /** When the allocator hands a stopped rental's port to someone, both grace periods are over. */
  lemma GrantIsLate(k: Config, s: Sys, i: nat)
    requires Core(s) && Own(s) && Solo(k, s) && Reuse(k, s) && i in s.insts && s.insts[i].stops == 1
    requires L.Choose(k.ports, s.leases, s.now) == Some(s.insts[i].port)
    ensures s.now >= s.insts[i].stopMark + k.grace + k.ports.grace
  {
    var x := s.insts[i];
    assert ReuseOk(k, s, i) && HolderOk(s, i) && StopOk(k, x) && InstanceOk(s, i);
  }

  lemma AllocateKeeps(k: Config, s: Sys, a: nat, i: nat)
    requires At(s, a, Checked) && i in s.insts
    ensures var s' := DoAllocate(k, s, a);
            && i in s'.insts && s'.insts[i].stops == s.insts[i].stops && (i != a ==> s'.insts[i] == s.insts[i]) && s'.now == s.now
            && s'.owners == match L.Choose(k.ports, s.leases, s.now) { case None => s.owners case Some(p) => s.owners[p := a] }
  {
  }

  lemma AllocateReuse(k: Config, s: Sys, a: nat, i: nat)
    requires Core(s) && Own(s) && Solo(k, s) && Reuse(k, s) && At(s, a, Checked) && i in s.insts
    ensures ReuseOk(k, DoAllocate(k, s, a), i)
  {
    assert ReuseOk(k, s, i) && InstanceOk(s, a);
    AllocateKeeps(k, s, a, i);
    if s.insts[i].stops == 1 && L.Choose(k.ports, s.leases, s.now) == Some(s.insts[i].port) {
      GrantIsLate(k, s, i);
    }
  }

  /** A first successful stop finds the rental still registered, so its port is still its own. */
  lemma StopReuse(k: Config, s: Sys, t: nat, ok: bool, i: nat)
    requires Core(s) && Own(s) && Solo(k, s) && Reuse(k, s) && i in s.insts
    requires t in s.cleanups && s.cleanups[t].stage.Stopping?
    ensures ReuseOk(k, DoStop(s, t, ok), i)
  {
    assert ReuseOk(k, s, i) && HolderOk(s, i) && StopOk(k, s.insts[i]) && CleanupOk(s, s.cleanups[t]);
  }

  lemma OwnersKept(k: Config, s: Sys, a: Action)
    requires Enabled(k, s, a) && !a.Allocate? && s.nextInst !in s.insts
    ensures Apply(k, s, a).owners == s.owners
  {
    if !TouchesLeases(a) {
      QuietStep(k, s, a);
    }
  }

  lemma TimePasses(k: Config, s: Sys, a: Action)
    requires Enabled(k, s, a) && s.nextInst !in s.insts
    ensures s.now <= Apply(k, s, a).now
  {
    if !MovesCleanup(a) {
      CalmStep(k, s, a);
    }
  }

  lemma RemovalInstances(s: Sys, c: nat, ok: bool)
    ensures RemoveContainer(s, c, ok).insts == s.insts
  {
  }

  lemma StopInstances(s: Sys, t: nat, ok: bool)
    requires t in s.cleanups && s.cleanups[t].inst in s.insts
    ensures DoStop(s, t, ok).insts.Keys == DoRelease(s, t).insts.Keys == s.insts.Keys
  {
  }

  lemma NewlyBegun(k: Config, s: Sys, a: Action, i: nat)
    requires Enabled(k, s, a) && s.nextInst !in s.insts && i !in s.insts && i in Apply(k, s, a).insts
    ensures Apply(k, s, a).insts[i].stops == 0
  {
    if a.Remove? {
      RemovalInstances(s, s.cleanups[a.task].cid, a.ok);
    } else if MovesCleanup(a) {
      StopInstances(s, a.task, true);
    } else {
      CalmStep(k, s, a);
    }
  }

  lemma StopsUnchanged(k: Config, s: Sys, a: Action, i: nat)
    requires Enabled(k, s, a) && i in s.insts && s.nextInst !in s.insts && !a.StopContainer?
    ensures i in Apply(k, s, a).insts && Apply(k, s, a).insts[i].stops == s.insts[i].stops
  {
    if a.Release? {
      ReleaseRemembers(s, a.task, i);
    } else if !MovesCleanup(a) {
      CalmStep(k, s, a);
      assert SameStops(s.insts[i], Apply(k, s, a).insts[i]);
    }
  }

  lemma ReuseStep(k: Config, s: Sys, a: Action, i: nat)
    requires Core(s) && Own(s) && Solo(k, s) && Reuse(k, s) && Enabled(k, s, a) && i in Apply(k, s, a).insts
    ensures ReuseOk(k, Apply(k, s, a), i)
  {
    NextIsNew(s);
    if i !in s.insts {
      NewlyBegun(k, s, a, i);
    } else if a.Allocate? {
      AllocateReuse(k, s, a.inst, i);
    } else if a.StopContainer? {
      StopReuse(k, s, a.task, a.ok, i);
    } else {
      assert InstanceOk(s, i) && ReuseOk(k, s, i);
      StopsKept(k, s, a, i);
      StopsUnchanged(k, s, a, i);
      OwnersKept(k, s, a);
      TimePasses(k, s, a);
    }
  }

  lemma {:induction false} ReuseAlways(k: Config, acts: seq<Action>)
    requires Run(k, acts).Some? && StoppedOnce(Run(k, acts).value)
    ensures Reuse(k, Run(k, acts).value)
  {
    if acts != [] {
      var n := |acts| - 1;
      var s := Run(k, acts[..n]).value;
      CoreAlways(k, acts[..n]);
      SoloAlways(k, acts[..n]);
      StoppedOnceBefore(k, s, acts[n]);
      OwnAlways(k, acts[..n]);
      ReuseAlways(k, acts[..n]);
      forall i | i in Run(k, acts).value.insts
        ensures ReuseOk(k, Run(k, acts).value, i)
      {
        ReuseStep(k, s, acts[n], i);
      }
    }
  }

  lemma {:induction false} StoppedOncePrefix(k: Config, acts: seq<Action>, n: nat)
    requires Run(k, acts).Some? && StoppedOnce(Run(k, acts).value) && n <= |acts|
    ensures Run(k, acts[..n]).Some? && StoppedOnce(StateAt(k, acts, n))
    decreases |acts| - n
  {
    if n == |acts| {
      assert acts[..n] == acts;
    } else {
      StoppedOncePrefix(k, acts, n + 1);
      PrefixRuns(k, INIT, acts, n);
      CoreAlways(k, acts[..n]);
      StoppedOnceBefore(k, StateAt(k, acts, n), acts[n]);
    }
  }

  lemma {:induction false} StopRemembered(k: Config, acts: seq<Action>, j: nat, n: nat, i: nat)
    requires Run(k, acts).Some? && StoppedOnce(Run(k, acts).value) && j <= n <= |acts|
    requires i in StateAt(k, acts, j).insts && StateAt(k, acts, j).insts[i].stops == 1
    ensures var x, s := StateAt(k, acts, j).insts[i], StateAt(k, acts, n);
            i in s.insts && s.insts[i].stops == 1 && s.insts[i].stopMark == x.stopMark && s.insts[i].port == x.port
    decreases n
  {
    if j < n {
      StopRemembered(k, acts, j, n - 1, i);
      PrefixRuns(k, INIT, acts, n - 1);
      var s := StateAt(k, acts, n - 1);
      CoreAlways(k, acts[..n - 1]);
      NextIsNew(s);
      StopsKept(k, s, acts[n - 1], i);
      StoppedOncePrefix(k, acts, n);
    }
  }

  /**
   * A port whose rental is successfully stopped at the j-th action is handed
   * out again only after the rental's and then the port's grace period,
   * counted from the moment the stop was marked.
   */
  lemma ReuseDistance(k: Config, acts: seq<Action>, j: nat, n: nat, t: nat)
    requires Run(k, acts).Some? && StoppedOnce(Run(k, acts).value) && j < n < |acts|
    requires acts[j] == StopContainer(t, true) && acts[n].Allocate?
    requires t in StateAt(k, acts, j).cleanups
    requires var c, s := StateAt(k, acts, j).cleanups[t], StateAt(k, acts, n);
             L.Choose(k.ports, s.leases, s.now) == Some(c.port)
    ensures StateAt(k, acts, n).now >= StateAt(k, acts, j).cleanups[t].markedAt + k.grace + k.ports.grace
  {
    var s := StateAt(k, acts, j);
    var c := s.cleanups[t];
    PrefixRuns(k, INIT, acts, j);
    CoreAlways(k, acts[..j]);
    assert CleanupOk(s, c);
    StopRemembers(s, t, true, c.inst);
    StoppedOncePrefix(k, acts, j + 1);
    StopRemembered(k, acts, j + 1, n, c.inst);
    StoppedOncePrefix(k, acts, n);
    PrefixRuns(k, INIT, acts, n);
    CoreAlways(k, acts[..n]);
    SoloAlways(k, acts[..n]);
    OwnAlways(k, acts[..n]);
    ReuseAlways(k, acts[..n]);
    GrantIsLate(k, StateAt(k, acts, n), c.inst);
  }
}
