/**
 * What every interleaving keeps, whatever the callers do: records agree with
 * the instances they came from, and a container is gone before its port is
 * given back unless Docker failed to remove it.
 */
module RentalInvariants {
  import opened Wrappers
  import opened RentalProtocol
  import L = Leases
  import D = Docker

  predicate Building(p: Phase) {
    p == Created || p == Started || p == Healthy
  }

  predicate PastRegistration(p: Phase) {
    p == Registered || p.Released?
  }

  /** The instance has passed Allocate and not yet reached its Release. */
  predicate Holds(p: Phase) {
    p == Allocated || Building(p) || p == Failing || p == Releasing || p == Registered
  }

  predicate Exists(s: Sys, x: Instance) {
    x.cid.Some? && x.cid.value in s.docker.containers
  }

  predicate GoneOrLeaked(s: Sys, x: Instance) {
    Exists(s, x) ==> x.cid.value in s.leaks
  }

  predicate InstanceOk(s: Sys, i: nat)
    requires i in s.insts
  {
    var x := s.insts[i];
    && i < s.nextInst
    && (x.phase == Checked || x.phase == Rejected || x.phase == Allocated ==> x.cid.None?)
    && (x.cid.Some? ==> x.cid.value < s.docker.nextId && x.cid.value in s.makers && s.makers[x.cid.value] == i)
    && (Exists(s, x) ==> var c := s.docker.containers[x.cid.value];
                         c.name == x.session && c.hostPort == Some(x.port) && c.gpu == x.gpu)
    && (Building(x.phase) ==> Exists(s, x))
    && (x.phase == Failing || PastRegistration(x.phase) ==> x.cid.Some?)
    && (x.phase == Releasing || x.phase == Aborted || x.phase.Released? ==> GoneOrLeaked(s, x))
    && (x.stops > 0 ==> PastRegistration(x.phase))
    && (x.phase.Released? ==> x.phase.at <= s.now)
  }

  /** Instance x is the registered rental that a record with these fields speaks of. */
  predicate SpeaksOf(x: Instance, session: string, cid: nat, port: int) {
    PastRegistration(x.phase) && x.session == session && x.cid == Some(cid) && x.port == port
  }

  predicate EntryOk(s: Sys, session: string, e: Entry) {
    e.inst in s.insts && SpeaksOf(s.insts[e.inst], session, e.cid, e.port)
  }

  predicate CleanupOk(s: Sys, c: Cleanup) {
    && c.inst in s.insts
    && SpeaksOf(s.insts[c.inst], c.session, c.cid, c.port)
    && c.markedAt <= s.now
    && (c.stage.Removed? || c.stage.Freed? ==> GoneOrLeaked(s, s.insts[c.inst]))
    && (c.stage.Freed? ==> s.insts[c.inst].phase.Released? && c.stage.at <= s.now)
    && (c.stage.Sleeping? || c.stage.Removed? ==> c.markedAt <= c.stage.since <= s.now)
  }

  predicate InstancesOk(s: Sys) {
    forall i :: i in s.insts ==> InstanceOk(s, i)
  }

  predicate EntriesOk(s: Sys) {
    forall n :: n in s.rentals ==> EntryOk(s, n, s.rentals[n])
  }

  predicate CleanupsOk(s: Sys) {
    forall t :: t in s.cleanups ==> t < s.nextCleanup && CleanupOk(s, s.cleanups[t])
  }

  predicate Core(s: Sys) {
    InstancesOk(s) && EntriesOk(s) && CleanupsOk(s)
  }

  // ----- One step changes at most one instance -----

  /** What the engine knows of x's container is the same in both states, except whether it runs. */
  predicate Kept(s: Sys, s': Sys, x: Instance) {
    x.cid.Some? ==>
      var c := x.cid.value;
      && (c in s'.docker.containers <==> c in s.docker.containers)
      && (c in s.docker.containers ==>
            s'.docker.containers[c].(running := s.docker.containers[c].running) == s.docker.containers[c])
  }

  /** x' is a possible later state of instance x. */
  predicate Follows(s: Sys, x: Instance, s': Sys, x': Instance) {
    && (PastRegistration(x.phase) ==>
          PastRegistration(x'.phase) && x'.session == x.session && x'.cid == x.cid && x'.port == x.port)
    && (x.phase.Released? ==> x'.phase.Released?)
    && (PastRegistration(x.phase) && GoneOrLeaked(s, x) ==> GoneOrLeaked(s', x'))
  }

  predicate SameRecord(e: Entry, e': Entry) {
    e' == e.(stoppedAt := e'.stoppedAt)
  }

  /** From s to s' at most instance i changes, and everything new in s' is in order. */
  predicate Changes(s: Sys, s': Sys, i: nat) {
    && s.now <= s'.now && s.docker.nextId <= s'.docker.nextId && s.leaks <= s'.leaks
    && s.nextInst <= s'.nextInst && s.nextCleanup <= s'.nextCleanup
    && (forall c :: c in s.makers && c < s.docker.nextId ==> c in s'.makers && s'.makers[c] == s.makers[c])
    && (forall j :: j in s'.insts && j != i ==> j in s.insts && s'.insts[j] == s.insts[j])
    && (forall j :: j in s.insts && j != i ==> j in s'.insts && Kept(s, s', s.insts[j]))
    && (i in s.insts ==> i in s'.insts && Follows(s, s.insts[i], s', s'.insts[i]))
    && (i in s'.insts ==> InstanceOk(s', i))
    && (forall n :: n in s'.rentals ==>
          (n in s.rentals && SameRecord(s.rentals[n], s'.rentals[n])) || EntryOk(s', n, s'.rentals[n]))
    && (forall t :: t in s'.cleanups ==>
          (t in s.cleanups && s'.cleanups[t] == s.cleanups[t])
          || (t < s'.nextCleanup && CleanupOk(s', s'.cleanups[t])))
  }

  lemma InstanceFrame(s: Sys, s': Sys, i: nat, j: nat)
    requires InstancesOk(s) && Changes(s, s', i) && j in s'.insts
    ensures InstanceOk(s', j)
  {
  }

  lemma EntryFrame(s: Sys, s': Sys, i: nat, n: string)
    requires EntriesOk(s) && Changes(s, s', i) && n in s'.rentals
    ensures EntryOk(s', n, s'.rentals[n])
  {
  }

  lemma CleanupFrame(s: Sys, s': Sys, i: nat, t: nat)
    requires CleanupsOk(s) && Changes(s, s', i) && t in s'.cleanups
    ensures t < s'.nextCleanup && CleanupOk(s', s'.cleanups[t])
  {
  }

  lemma CoreFrame(s: Sys, s': Sys, i: nat)
    requires Core(s) && Changes(s, s', i)
    ensures Core(s')
  {
    forall j | j in s'.insts
      ensures InstanceOk(s', j)
    {
      InstanceFrame(s, s', i, j);
    }
    forall n | n in s'.rentals
      ensures EntryOk(s', n, s'.rentals[n])
    {
      EntryFrame(s, s', i, n);
    }
    forall t | t in s'.cleanups
      ensures t < s'.nextCleanup && CleanupOk(s', s'.cleanups[t])
    {
      CleanupFrame(s, s', i, t);
    }
  }

  lemma CreateKeepsInstance(s: Sys, i: nat, ok: bool)
    requires Core(s) && At(s, i, Allocated)
    ensures InstanceOk(DoCreate(s, i, ok), i)
  {
    assert InstanceOk(s, i);
  }

  lemma CreateKeepsOthers(s: Sys, i: nat, ok: bool, j: nat)
    requires InstancesOk(s) && At(s, i, Allocated) && j in s.insts && j != i
    ensures j in DoCreate(s, i, ok).insts && DoCreate(s, i, ok).insts[j] == s.insts[j]
    ensures Kept(s, DoCreate(s, i, ok), s.insts[j])
  {
    assert InstanceOk(s, j);
  }

  lemma CreateChanges(s: Sys, i: nat, ok: bool)
    requires Core(s) && At(s, i, Allocated)
    ensures Changes(s, DoCreate(s, i, ok), i)
  {
    var s' := DoCreate(s, i, ok);
    CreateKeepsInstance(s, i, ok);
    forall j | j in s.insts && j != i
      ensures j in s'.insts && s'.insts[j] == s.insts[j] && Kept(s, s', s.insts[j])
    {
      CreateKeepsOthers(s, i, ok, j);
    }
  }

  lemma CreateKeepsCore(s: Sys, i: nat, ok: bool)
    requires Core(s) && At(s, i, Allocated)
    ensures Core(DoCreate(s, i, ok))
  {
    var s' := DoCreate(s, i, ok);
    CreateChanges(s, i, ok);
    CoreFrame(s, s', i);
  }

  lemma WorldKeepsCore(s: Sys, world: D.World)
    requires Core(s) && s.docker.nextId <= world.nextId && SameContainers(s, world)
    ensures Core(s.(docker := world))
  {
    CoreFrame(s, s.(docker := world), s.nextInst);
  }

  lemma PhaseKeepsCore(s: Sys, i: nat, p: Phase)
    requires Core(s) && i in s.insts && InstanceOk(SetPhase(s, i, p), i) && Follows(s, s.insts[i], s, s.insts[i].(phase := p))
    ensures Core(SetPhase(s, i, p))
  {
    CoreFrame(s, SetPhase(s, i, p), i);
  }

  lemma StartKeepsCore(s: Sys, i: nat, ok: bool)
    requires Core(s) && At(s, i, Created)
    ensures Core(DoStart(s, i, ok))
  {
    if ok {
      var world := D.SetRunning(s.docker, s.insts[i].cid.value, true);
      WorldKeepsCore(s, world);
      PhaseKeepsCore(s.(docker := world), i, Started);
    } else {
      PhaseKeepsCore(s, i, Failing);
    }
  }

  lemma LeasesKeepCore(s: Sys, leases: L.Table, owners: map<int, nat>)
    requires Core(s)
    ensures Core(s.(leases := leases, owners := owners))
  {
    CoreFrame(s, s.(leases := leases, owners := owners), s.nextInst);
  }

  lemma PortKeepsCore(s: Sys, i: nat, p: int)
    requires Core(s) && At(s, i, Checked)
    ensures Core(s.(insts := s.insts[i := s.insts[i].(port := p, phase := Allocated)]))
  {
    var s' := s.(insts := s.insts[i := s.insts[i].(port := p, phase := Allocated)]);
    assert InstanceOk(s', i);
    CoreFrame(s, s', i);
  }

  lemma AllocateKeepsCore(k: Config, s: Sys, i: nat)
    requires Core(s) && At(s, i, Checked)
    ensures Core(DoAllocate(k, s, i))
  {
    match L.Choose(k.ports, s.leases, s.now)
    case None =>
      PhaseKeepsCore(s, i, Rejected);
    case Some(p) =>
      PortKeepsCore(s, i, p);
      var m := s.(insts := s.insts[i := s.insts[i].(port := p, phase := Allocated)]);
      var leases := L.Allocate(k.ports, s.leases, s.insts[i].session, s.now);
      LeasesKeepCore(m, leases, s.owners[p := i]);
      assert DoAllocate(k, s, i) == m.(leases := leases, owners := s.owners[p := i]);
  }

  lemma RegisterKeepsCore(s: Sys, i: nat)
    requires Core(s) && At(s, i, Healthy)
    ensures Core(DoRegister(s, i))
  {
    var s' := DoRegister(s, i);
    assert InstanceOk(s', i);
    CoreFrame(s, s', i);
  }

  /** Removing the container of instance i, successfully or not, touches no other instance's container. */
  lemma RemovalKeepsOthers(s: Sys, i: nat, j: nat, ok: bool)
    requires InstancesOk(s) && i in s.insts && j in s.insts && i != j && s.insts[i].cid.Some?
    ensures Kept(s, RemoveContainer(s, s.insts[i].cid.value, ok), s.insts[j])
  {
  }

  lemma RemovalChanges(s: Sys, i: nat, ok: bool)
    requires InstancesOk(s) && i in s.insts && !Building(s.insts[i].phase) && s.insts[i].cid.Some?
    ensures InstanceOk(RemoveContainer(s, s.insts[i].cid.value, ok), i)
    ensures GoneOrLeaked(RemoveContainer(s, s.insts[i].cid.value, ok), s.insts[i])
  {
  }

  lemma LeakKeepsCore(s: Sys, c: nat)
    requires Core(s)
    ensures Core(s.(leaks := s.leaks + {c}))
  {
    CoreFrame(s, s.(leaks := s.leaks + {c}), s.nextInst);
  }

  lemma RemovalKeepsCore(s: Sys, i: nat, ok: bool)
    requires Core(s) && i in s.insts && !Building(s.insts[i].phase) && s.insts[i].cid.Some?
    ensures Core(RemoveContainer(s, s.insts[i].cid.value, ok))
    ensures GoneOrLeaked(RemoveContainer(s, s.insts[i].cid.value, ok), s.insts[i])
  {
    if ok {
      var s' := RemoveContainer(s, s.insts[i].cid.value, ok);
      forall j | j in s.insts && j != i
        ensures Kept(s, s', s.insts[j])
      {
        RemovalKeepsOthers(s, i, j, ok);
      }
      RemovalChanges(s, i, ok);
      CoreFrame(s, s', i);
    } else {
      LeakKeepsCore(s, s.insts[i].cid.value);
    }
  }

  lemma RollbackRemoveKeepsCore(s: Sys, i: nat, ok: bool)
    requires Core(s) && At(s, i, Failing)
    ensures Core(SetPhase(RemoveContainer(s, s.insts[i].cid.value, ok), i, Releasing))
  {
    RemovalKeepsCore(s, i, ok);
    PhaseKeepsCore(RemoveContainer(s, s.insts[i].cid.value, ok), i, Releasing);
  }

  lemma RollbackReleaseKeepsCore(s: Sys, i: nat)
    requires Core(s) && At(s, i, Releasing)
    ensures Core(DoRollbackRelease(s, i))
  {
    var leases := L.Release(s.leases, s.insts[i].port, s.now);
    LeasesKeepCore(s, leases, s.owners);
    PhaseKeepsCore(s.(leases := leases), i, Aborted);
  }

  lemma StageKeepsCore(s: Sys, t: nat, g: Stage)
    requires Core(s) && t in s.cleanups && CleanupOk(SetStage(s, t, g), s.cleanups[t].(stage := g))
    ensures Core(SetStage(s, t, g))
  {
    CoreFrame(s, SetStage(s, t, g), s.nextInst);
  }

  lemma StopCountKeepsCore(s: Sys, i: nat, t: nat, mark: int)
    requires Core(s) && i in s.insts && PastRegistration(s.insts[i].phase)
    ensures Core(CountStop(s, i, t, mark))
  {
    CoreFrame(s, CountStop(s, i, t, mark), i);
  }

  lemma SleepKeepsCore(s: Sys, t: nat, world: D.World)
    requires Core(s) && t in s.cleanups && s.cleanups[t].stage.Stopping?
    requires s.docker.nextId <= world.nextId && SameContainers(s, world)
    ensures Core(SetStage(s.(docker := world), t, Sleeping(s.now)))
  {
    WorldKeepsCore(s, world);
    StageKeepsCore(s.(docker := world), t, Sleeping(s.now));
  }

  lemma DropKeepsCore(s: Sys, t: nat)
    requires Core(s)
    ensures Core(s.(cleanups := s.cleanups - {t}))
  {
    CoreFrame(s, s.(cleanups := s.cleanups - {t}), s.nextInst);
  }

  lemma StopKeepsCore(s: Sys, t: nat, ok: bool)
    requires Core(s) && t in s.cleanups && s.cleanups[t].stage.Stopping?
    ensures Core(DoStop(s, t, ok))
  {
    var c := s.cleanups[t];
    if ok {
      var world := D.SetRunning(s.docker, c.cid, false);
      SleepKeepsCore(s, t, world);
      StopCountKeepsCore(SetStage(s.(docker := world), t, Sleeping(s.now)), c.inst, t, c.markedAt);
    } else {
      DropKeepsCore(s, t);
    }
  }

  lemma CleanupRemoveKeepsCore(s: Sys, t: nat, ok: bool)
    requires Core(s) && t in s.cleanups && s.cleanups[t].stage.Sleeping?
    ensures Core(SetStage(RemoveContainer(s, s.cleanups[t].cid, ok), t, Removed(s.cleanups[t].stage.since)))
  {
    RemovalKeepsCore(s, s.cleanups[t].inst, ok);
    StageKeepsCore(RemoveContainer(s, s.cleanups[t].cid, ok), t, Removed(s.cleanups[t].stage.since));
  }

  lemma ReleaseKeepsCore(s: Sys, t: nat)
    requires Core(s) && t in s.cleanups && s.cleanups[t].stage.Removed?
    ensures Core(DoRelease(s, t))
  {
    var c := s.cleanups[t];
    var m := s.(leases := L.Release(s.leases, c.port, s.now));
    LeasesKeepCore(s, m.leases, s.owners);
    if s.insts[c.inst].phase == Registered {
      PhaseKeepsCore(m, c.inst, Released(s.now, t));
      m := SetPhase(m, c.inst, Released(s.now, t));
    }
    StageKeepsCore(m, t, Freed(s.now));
  }

  lemma MarkKeepsCore(s: Sys, session: string)
    requires Core(s) && session in s.rentals
    ensures Core(DoMark(s, session))
  {
    CoreFrame(s, DoMark(s, session), s.nextInst);
  }

  lemma BeginKeepsCore(s: Sys, session: string, gpu: string)
    requires Core(s)
    ensures Core(DoBegin(s, session, gpu))
  {
    CoreFrame(s, DoBegin(s, session, gpu), s.nextInst);
  }

  lemma DeleteKeepsCore(s: Sys, t: nat)
    requires Core(s) && t in s.cleanups
    ensures Core(DoDelete(s, t))
  {
    CoreFrame(s, DoDelete(s, t), s.nextInst);
  }

  lemma TickKeepsCore(s: Sys, elapsed: nat)
    requires Core(s)
    ensures Core(s.(now := s.now + elapsed))
  {
    CoreFrame(s, s.(now := s.now + elapsed), s.nextInst);
  }

  lemma CallStep(k: Config, s: Sys, a: Action)
    requires Core(s) && Enabled(k, s, a)
    requires a.Begin? || a.Allocate? || a.Create? || a.StartContainer? || a.Health? || a.Register?
             || a.RollbackRemove? || a.RollbackRelease?
    ensures Core(Apply(k, s, a))
  {
    match a
    case Begin(n, g) => BeginKeepsCore(s, n, g);
    case Allocate(i) => AllocateKeepsCore(k, s, i);
    case Create(i, ok) => CreateKeepsCore(s, i, ok);
    case StartContainer(i, ok) => StartKeepsCore(s, i, ok);
    case Health(i, ok) => PhaseKeepsCore(s, i, if ok then Healthy else Failing);
    case Register(i) => RegisterKeepsCore(s, i);
    case RollbackRemove(i, ok) => RollbackRemoveKeepsCore(s, i, ok);
    case RollbackRelease(i) => RollbackReleaseKeepsCore(s, i);
  }

  lemma StopStep(k: Config, s: Sys, a: Action)
    requires Core(s) && Enabled(k, s, a)
    requires a.Mark? || a.StopContainer? || a.Remove? || a.Release? || a.Delete?
    ensures Core(Apply(k, s, a))
  {
    match a
    case Mark(n) => MarkKeepsCore(s, n);
    case StopContainer(t, ok) => StopKeepsCore(s, t, ok);
    case Remove(t, ok) => CleanupRemoveKeepsCore(s, t, ok);
    case Release(t) => ReleaseKeepsCore(s, t);
    case Delete(t) => DeleteKeepsCore(s, t);
  }

  lemma CoreStep(k: Config, s: Sys, a: Action)
    requires Core(s) && Enabled(k, s, a)
    ensures Core(Apply(k, s, a))
  {
    if a.Tick? {
      TickKeepsCore(s, a.elapsed);
    } else if a.Foreign? {
      WorldKeepsCore(s, a.world);
    } else if a.Mark? || a.StopContainer? || a.Remove? || a.Release? || a.Delete? {
      StopStep(k, s, a);
    } else {
      CallStep(k, s, a);
    }
  }

  lemma {:induction false} CoreAlways(k: Config, acts: seq<Action>)
    requires Run(k, acts).Some?
    ensures Core(Run(k, acts).value)
  {
    if acts != [] {
      var n := |acts| - 1;
      CoreAlways(k, acts[..n]);
      CoreStep(k, Run(k, acts[..n]).value, acts[n]);
    }
  }
}
