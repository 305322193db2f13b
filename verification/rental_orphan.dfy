/**
 * What the gap between the duplicate check and registration can cost when a
 * session id is used twice: a cleanup of the first rental deletes the record
 * of the second, which then runs on with nobody able to stop it.
 */
module RentalOrphan {
  import opened Wrappers
  import opened RentalProtocol
  import opened RentalInvariants
  import opened RentalOwnership
  import opened RentalSingleStop
  import opened RentalRecords
  import opened RentalSequential
  import L = Leases
  import D = Docker

  /** A registered rental whose container exists, with no record and no cleanup speaking of it. */
  predicate Orphan(s: Sys, i: nat) {
    && i in s.insts && s.insts[i].phase == Registered && Exists(s, s.insts[i])
    && Unmentioned(s, i)
  }

  /** The instance itself and whether its container exists. */
  predicate Untouched(s: Sys, s': Sys, i: nat)
    requires i in s.insts
  {
    i in s'.insts && s'.insts[i] == s.insts[i] && (Exists(s, s.insts[i]) ==> Exists(s', s.insts[i]))
  }

  lemma StartUntouched(s: Sys, j: nat, ok: bool, i: nat)
    requires i in s.insts && j in s.insts && i != j && s.insts[j].cid.Some?
    ensures Untouched(s, DoStart(s, j, ok), i)
  {
  }

  lemma RemovalUntouched(s: Sys, c: nat, ok: bool, i: nat)
    requires i in s.insts && s.insts[i].cid != Some(c)
    ensures Untouched(s, RemoveContainer(s, c, ok), i)
  {
  }

  lemma StopUntouched(s: Sys, t: nat, ok: bool, i: nat)
    requires i in s.insts && t in s.cleanups && s.cleanups[t].inst in s.insts && s.cleanups[t].inst != i
    ensures Untouched(s, DoStop(s, t, ok), i) && Untouched(s, DoRelease(s, t), i)
  {
  }

  lemma AllocateUntouched(k: Config, s: Sys, j: nat, i: nat)
    requires i in s.insts && j in s.insts && i != j
    ensures Untouched(s, DoAllocate(k, s, j), i)
  {
  }

  lemma OtherContainer(s: Sys, i: nat, j: nat)
    requires InstancesOk(s) && i in s.insts && j in s.insts && i != j && s.insts[j].cid.Some?
    ensures s.insts[i].cid != s.insts[j].cid
  {
  }

  lemma CreateUntouched(s: Sys, j: nat, ok: bool, i: nat)
    requires i in s.insts && j in s.insts && i != j
    ensures Untouched(s, DoCreate(s, j, ok), i)
  {
  }

  lemma PlainUntouched(k: Config, s: Sys, a: Action, i: nat)
    requires Enabled(k, s, a) && i in s.insts && s.insts[i].phase == Registered && s.nextInst !in s.insts
    requires a.Tick? || a.Begin? || a.Health? || a.Register? || a.RollbackRelease? || a.Mark? || a.Delete? || a.Foreign?
    ensures Untouched(s, Apply(k, s, a), i)
  {
  }

  lemma OrphanUntouched(k: Config, s: Sys, a: Action, i: nat)
    requires Core(s) && Orphan(s, i) && Enabled(k, s, a)
    ensures Untouched(s, Apply(k, s, a), i)
  {
    NextIsNew(s);
    match a
    case Allocate(j) => AllocateUntouched(k, s, j, i);
    case Create(j, ok) => CreateUntouched(s, j, ok, i);
    case StartContainer(j, ok) => StartUntouched(s, j, ok, i);
    case RollbackRemove(j, ok) =>
      OtherContainer(s, i, j);
      RemovalUntouched(s, s.insts[j].cid.value, ok, i);
    case StopContainer(t, ok) => StopUntouched(s, t, ok, i);
    case Remove(t, ok) =>
      assert CleanupOk(s, s.cleanups[t]);
      OtherContainer(s, i, s.cleanups[t].inst);
      RemovalUntouched(s, s.cleanups[t].cid, ok, i);
    case Release(t) => StopUntouched(s, t, true, i);
    case _ => PlainUntouched(k, s, a, i);
  }

  predicate Unmentioned(s: Sys, i: nat) {
    && (forall n :: n in s.rentals ==> s.rentals[n].inst != i)
    && (forall t :: t in s.cleanups ==> s.cleanups[t].inst != i)
  }

  lemma MarkUnmentioned(s: Sys, session: string, i: nat)
    requires Unmentioned(s, i) && session in s.rentals
    ensures Unmentioned(DoMark(s, session), i)
  {
  }

  lemma RegisterUnmentioned(s: Sys, j: nat, i: nat)
    requires Unmentioned(s, i) && j in s.insts && s.insts[j].cid.Some? && i != j
    ensures Unmentioned(DoRegister(s, j), i)
  {
  }

  lemma CleanupUnmentioned(s: Sys, t: nat, ok: bool, i: nat)
    requires Unmentioned(s, i) && t in s.cleanups && s.cleanups[t].inst in s.insts
    ensures Unmentioned(DoStop(s, t, ok), i) && Unmentioned(DoRelease(s, t), i) && Unmentioned(DoDelete(s, t), i)
  {
  }

  lemma RemoveUnmentioned(s: Sys, t: nat, ok: bool, g: Stage, i: nat)
    requires Unmentioned(s, i) && t in s.cleanups
    ensures Unmentioned(SetStage(RemoveContainer(s, s.cleanups[t].cid, ok), t, g), i)
  {
  }

  lemma CleanupStepUnmentioned(k: Config, s: Sys, a: Action, i: nat)
    requires Unmentioned(s, i) && CleanupsOk(s) && Enabled(k, s, a)
    requires a.StopContainer? || a.Remove? || a.Release? || a.Delete?
    ensures Unmentioned(Apply(k, s, a), i)
  {
    assert CleanupOk(s, s.cleanups[a.task]);
    if a.Remove? {
      RemoveUnmentioned(s, a.task, a.ok, Removed(s.cleanups[a.task].stage.since), i);
    } else if a.StopContainer? {
      CleanupUnmentioned(s, a.task, a.ok, i);
    } else {
      CleanupUnmentioned(s, a.task, true, i);
    }
  }

  /** No step makes a record or cleanup speak of an instance that none speaks of and that is registered. */
  lemma OrphanUnmentioned(k: Config, s: Sys, a: Action, i: nat)
    requires Core(s) && Orphan(s, i) && Enabled(k, s, a)
    ensures Unmentioned(Apply(k, s, a), i)
  {
    if a.StopContainer? || a.Remove? || a.Release? || a.Delete? {
      CleanupStepUnmentioned(k, s, a, i);
    } else if a.Register? {
      RegisterUnmentioned(s, a.inst, i);
    } else if a.Mark? {
      MarkUnmentioned(s, a.session, i);
    } else {
      IdleCleanups(k, s, a);
    }
  }

  lemma {:induction false} OrphanForever(k: Config, s: Sys, acts: seq<Action>, i: nat)
    requires Core(s) && Orphan(s, i) && RunFrom(k, s, acts).Some?
    ensures Core(RunFrom(k, s, acts).value) && Orphan(RunFrom(k, s, acts).value, i)
  {
    if acts != [] {
      var n := |acts| - 1;
      var m := RunFrom(k, s, acts[..n]).value;
      OrphanForever(k, s, acts[..n], i);
      CoreStep(k, m, acts[n]);
      OrphanUntouched(k, m, acts[n], i);
      OrphanUnmentioned(k, m, acts[n], i);
    }
  }

  // ----- Runs that never get there -----

  lemma TrackedIsNoOrphan(s: Sys, i: nat)
    requires Tracked(s)
    ensures !Orphan(s, i)
  {
    assert Orphan(s, i) ==> Runs(s, i);
  }

  /** A run that leaves an orphan had a cleanup delete the record of a running rental. */
  lemma OrphanWasMisplaced(k: Config, acts: seq<Action>, i: nat)
    requires Run(k, acts).Some? && Orphan(Run(k, acts).value, i)
    ensures !NeverMisplaced(k, acts)
  {
    TrackedExactly(k, acts);
    if AlwaysTracked(k, acts) {
      TrackedIsNoOrphan(Run(k, acts).value, i);
    }
  }

  /** No orphans when a session is begun only once everything earlier of that session is finished. */
  lemma PatientRunHasNoOrphan(k: Config, acts: seq<Action>, i: nat)
    requires PatientRun(k, acts)
    ensures !Orphan(Run(k, acts).value, i)
  {
    PatientRunTracks(k, acts);
    TrackedIsNoOrphan(Run(k, acts).value, i);
  }

  /** Without any port nothing gets past Allocate. */
  predicate Barren(s: Sys) {
    && s.rentals == map[] && s.cleanups == map[]
    && forall i :: i in s.insts ==> s.insts[i].phase == Checked || s.insts[i].phase == Rejected
  }

  lemma BarrenStep(k: Config, s: Sys, a: Action)
    requires Barren(s) && Enabled(k, s, a) && k.ports.minPort > k.ports.maxPort
    ensures Barren(Apply(k, s, a))
  {
    if a.Allocate? {
      assert L.Choose(k.ports, s.leases, s.now).None?;
    }
  }

  lemma {:induction false} NoPortsNoRentals(k: Config, acts: seq<Action>)
    requires Run(k, acts).Some? && k.ports.minPort > k.ports.maxPort
    ensures Barren(Run(k, acts).value)
  {
    if acts != [] {
      var n := |acts| - 1;
      NoPortsNoRentals(k, acts[..n]);
      BarrenStep(k, Run(k, acts[..n]).value, acts[n]);
    }
  }

  // ----- A run that gets there -----

  /** A call for session "a" that has passed the duplicate check, and one that has its port as well. */
  const WAITING := Instance("a", "", 0, None, Checked, 0, 0, 0)

  function Granted(p: int): Instance {
    WAITING.(port := p, phase := Allocated)
  }

  lemma BothChecked(k: Config)
    ensures var r := Run(k, [Begin("a", ""), Begin("a", "")]);
            && r.Some? && r.value.now == 0 && r.value.leases == map[] && r.value.rentals == map[]
            && r.value.docker == D.World(map[], 0) && r.value.cleanups == map[] && r.value.nextCleanup == 0
            && r.value.insts == map[0 := WAITING, 1 := WAITING]
  {
    AppendAction(k, INIT, [], Begin("a", ""));
    assert [] + [Begin("a", "")] == [Begin("a", "")];
    AppendAction(k, INIT, [Begin("a", "")], Begin("a", ""));
    assert [Begin("a", "")] + [Begin("a", "")] == [Begin("a", ""), Begin("a", "")];
  }

  /** The first of two calls that have both passed the duplicate check takes the lowest port. */
  lemma FirstGranted(k: Config) returns (acts: seq<Action>)
    requires k.ports.minPort <= k.ports.maxPort
    ensures var r, p := Run(k, acts), k.ports.minPort;
            && r.Some? && r.value.now == 0 && r.value.rentals == map[] && r.value.leases == map[p := L.Lease("a", 0, None)]
            && r.value.docker == D.World(map[], 0) && r.value.cleanups == map[] && r.value.nextCleanup == 0
            && r.value.insts == map[0 := Granted(p), 1 := WAITING]
  {
    var p := k.ports.minPort;
    BothChecked(k);
    acts := [Begin("a", ""), Begin("a", "")];
    L.ChooseIsLeast(k.ports, map[], 0, p);
    AppendAction(k, INIT, acts, Allocate(0));
    acts := acts + [Allocate(0)];
    assert Run(k, acts).value.insts == map[0 := Granted(p), 1 := WAITING];
    assert Run(k, acts).value.leases == map[p := L.Lease("a", 0, None)];
  }

  /** The second is still waiting, the first holds the only lease in use. */
  predicate OneUp(s: Sys, p: int) {
    && s.leases == map[p := L.Lease("a", 0, None)]
    && 0 in s.insts && 1 in s.insts && s.insts[1] == WAITING
    && s.insts[0] == Instance("a", "", p, Some(0), Registered, s.insts[0].stops, 0, 0)
  }

  lemma FirstRegistered(k: Config) returns (acts: seq<Action>)
    requires k.ports.minPort <= k.ports.maxPort
    ensures var r, p := Run(k, acts), k.ports.minPort;
            && r.Some? && r.value.now == 0 && OneUp(r.value, p)
            && r.value.docker.containers.Keys == {0} && r.value.docker.nextId == 1
            && r.value.rentals == map["a" := Entry(0, 0, p, 0, None)]
            && r.value.cleanups == map[] && r.value.nextCleanup == 0
  {
    acts := FirstGranted(k);
    var build := [Create(0, true), StartContainer(0, true), Health(0, true), Register(0)];
    BuildAndRegister(k, Run(k, acts).value, 0);
    RunConcat(k, INIT, acts, build);
    acts := acts + build;
  }

  lemma FirstStopped(k: Config) returns (acts: seq<Action>)
    requires k.ports.minPort <= k.ports.maxPort
    ensures var r, p := Run(k, acts), k.ports.minPort;
            && r.Some? && r.value.now == 0 && OneUp(r.value, p)
            && r.value.docker.containers.Keys == {0} && r.value.docker.nextId == 1
            && r.value.cleanups == map[0 := Cleanup(0, "a", 0, p, 0, Sleeping(0))]
  {
    acts := FirstRegistered(k);
    var p := k.ports.minPort;
    AppendAction(k, INIT, acts, Mark("a"));
    acts := acts + [Mark("a")];
    var s := Run(k, acts).value;
    assert s.cleanups == map[0 := Cleanup(0, "a", 0, p, 0, Stopping)];
    assert DoStop(s, 0, true).cleanups == map[0 := Cleanup(0, "a", 0, p, 0, Sleeping(0))];
    AppendAction(k, INIT, acts, StopContainer(0, true));
    acts := acts + [StopContainer(0, true)];
  }

  lemma FirstRemoved(k: Config) returns (acts: seq<Action>)
    requires k.ports.minPort <= k.ports.maxPort
    ensures var r, p := Run(k, acts), k.ports.minPort;
            && r.Some? && r.value.now == k.grace && OneUp(r.value, p)
            && r.value.docker == D.World(map[], 1)
            && r.value.cleanups == map[0 := Cleanup(0, "a", 0, p, 0, Removed(0))]
  {
    var p := k.ports.minPort;
    acts := FirstStopped(k);
    AppendAction(k, INIT, acts, Tick(k.grace));
    acts := acts + [Tick(k.grace)];
    AppendAction(k, INIT, acts, Remove(0, true));
    acts := acts + [Remove(0, true)];
    assert Run(k, acts).value.cleanups == map[0 := Cleanup(0, "a", 0, p, 0, Removed(0))];
    assert Run(k, acts).value.docker.containers == map[];
  }

  /** Its cleanup has removed the container and released the port, but not yet deleted the record. */
  predicate OneFreed(k: Config, s: Sys) {
    var p := k.ports.minPort;
    && s.leases == map[p := L.Lease("a", 0, Some(k.grace))]
    && s.docker == D.World(map[], 1)
    && s.cleanups == map[0 := Cleanup(0, "a", 0, p, 0, Freed(k.grace))]
  }

  lemma FirstFreed(k: Config) returns (acts: seq<Action>)
    requires k.ports.minPort <= k.ports.maxPort
    ensures var r := Run(k, acts);
            r.Some? && r.value.now == k.grace && OneFreed(k, r.value) && 1 in r.value.insts && r.value.insts[1] == WAITING
  {
    acts := FirstRemoved(k);
    var s, p := Run(k, acts).value, k.ports.minPort;
    assert DoRelease(s, 0).cleanups == map[0 := Cleanup(0, "a", 0, p, 0, Freed(k.grace))];
    assert DoRelease(s, 0).leases == map[p := L.Lease("a", 0, Some(k.grace))];
    AppendAction(k, INIT, acts, Release(0));
    acts := acts + [Release(0)];
  }

  /** Once the port's grace period is over the second call gets the same port. */
  lemma SecondGranted(k: Config) returns (acts: seq<Action>)
    requires k.ports.minPort <= k.ports.maxPort
    ensures var r, p := Run(k, acts), k.ports.minPort;
            && r.Some? && r.value.docker == D.World(map[], 1) && 1 in r.value.insts && r.value.insts[1] == Granted(p)
            && r.value.cleanups == map[0 := Cleanup(0, "a", 0, p, 0, Freed(k.grace))]
  {
    acts := FirstFreed(k);
    var wait: nat := if k.ports.grace > 0 then k.ports.grace else 0;
    AppendAction(k, INIT, acts, Tick(wait));
    acts := acts + [Tick(wait)];
    var s := Run(k, acts).value;
    L.ChooseIsLeast(k.ports, s.leases, s.now, k.ports.minPort);
    AppendAction(k, INIT, acts, Allocate(1));
    acts := acts + [Allocate(1)];
  }

  /**
   * A reused session id can leave a rental running for good: some schedule
   * reaches a registered rental with an existing container that no record
   * speaks of, and no continuation ever stops, records or removes it.
   */
  lemma ReusedSessionOrphansRental(k: Config) returns (acts: seq<Action>, i: nat)
    requires k.ports.minPort <= k.ports.maxPort
    ensures Run(k, acts).Some? && Orphan(Run(k, acts).value, i)
    ensures forall more :: RunFrom(k, Run(k, acts).value, more).Some? ==> Orphan(RunFrom(k, Run(k, acts).value, more).value, i)
  {
    acts := SecondGranted(k);
    i := 1;
    var s := Run(k, acts).value;
    var build := [Create(1, true), StartContainer(1, true), Health(1, true), Register(1)];
    BuildAndRegister(k, s, 1);
    RunConcat(k, INIT, acts, build);
    acts := acts + build;
    s := Run(k, acts).value;
    CoreAlways(k, acts);
    AppendAction(k, INIT, acts, Delete(0));
    acts := acts + [Delete(0)];
    OnlyRecord(s);
    s := Run(k, acts).value;
    CoreAlways(k, acts);
    forall more | RunFrom(k, s, more).Some?
      ensures Orphan(RunFrom(k, s, more).value, 1)
    {
      OrphanForever(k, s, more, 1);
    }
  }

  /** Records are kept under the session of the rental they speak of. */
  lemma OnlyRecord(s: Sys)
    requires Core(s) && 1 in s.insts && s.insts[1].session == "a"
    ensures forall n :: n in s.rentals && n != "a" ==> s.rentals[n].inst != 1
  {
    forall n | n in s.rentals && n != "a"
      ensures s.rentals[n].inst != 1
    {
      assert EntryOk(s, n, s.rentals[n]);
    }
  }

  // ----- Exactly when -----

  /** However the node is used, no registered rental is ever beyond reach. */
  ghost predicate NeverOrphans(k: Config) {
    forall acts, i: nat :: Run(k, acts).Some? ==> !Orphan(Run(k, acts).value, i)
  }

  /** The same when session ids are used patiently. */
  ghost predicate PatienceNeverOrphans(k: Config) {
    forall acts, i: nat :: PatientRun(k, acts) ==> !Orphan(Run(k, acts).value, i)
  }

  /** The same when no session id is used twice. */
  ghost predicate FreshNeverOrphans(k: Config) {
    forall acts, i: nat :: Run(k, acts).Some? && FreshSessions(Run(k, acts).value) ==> !Orphan(Run(k, acts).value, i)
  }

  /**
   * Impatient use can orphan a rental on every node that has a port at all;
   * patient use, and with it using every session id once, can on none.
   */
  lemma OrphansExactly(k: Config)
    ensures NeverOrphans(k) <==> k.ports.minPort > k.ports.maxPort
    ensures PatienceNeverOrphans(k) && FreshNeverOrphans(k)
  {
    if k.ports.minPort <= k.ports.maxPort {
      var acts, i := ReusedSessionOrphansRental(k);
    } else {
      forall acts, i: nat | Run(k, acts).Some?
        ensures !Orphan(Run(k, acts).value, i)
      {
        NoPortsNoRentals(k, acts);
      }
    }
    forall acts, i: nat | PatientRun(k, acts)
      ensures !Orphan(Run(k, acts).value, i)
    {
      PatientRunHasNoOrphan(k, acts, i);
    }
    forall acts, i: nat | Run(k, acts).Some? && FreshSessions(Run(k, acts).value)
      ensures !Orphan(Run(k, acts).value, i)
    {
      FreshIsPatient(k, acts);
      PatientRunHasNoOrphan(k, acts, i);
    }
  }
}
