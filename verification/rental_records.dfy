/**
 * When every running rental is on record under its own session, so that it
 * can be asked about and stopped. A cleanup deletes whatever record it finds
 * under its session id; this module says exactly when that does harm, and
 * which way of using session ids rules it out.
 */
module RentalRecords {
  import opened Wrappers
  import opened RentalProtocol
  import opened RentalInvariants
  import opened RentalOwnership
  import opened RentalSingleStop
  import D = Docker

  /** A start on its way, or a rental whose port has not been released. */
  predicate Unfinished(p: Phase) {
    p != Rejected && p != Aborted && !p.Released?
  }

  predicate Runs(s: Sys, i: nat) {
    i in s.insts && s.insts[i].phase == Registered && Exists(s, s.insts[i])
  }

  predicate OnRecord(s: Sys, i: nat) {
    i in s.insts && s.insts[i].session in s.rentals && s.rentals[s.insts[i].session].inst == i
  }

  /** Every registered rental with a container is on record. */
  predicate Tracked(s: Sys) {
    forall i :: i in s.insts && Runs(s, i) ==> OnRecord(s, i)
  }

  /** A cleanup deleting the record of a rental that is still running. */
  predicate Misplaced(s: Sys, a: Action) {
    && a.Delete? && a.task in s.cleanups && s.cleanups[a.task].session in s.rentals
    && Runs(s, s.rentals[s.cleanups[a.task].session].inst)
  }

  // ----- How instances move on -----

  /** y is a later state of instance x, which has not just registered. */
  predicate AgesTo(s: Sys, x: Instance, s': Sys, y: Instance) {
    && y.session == x.session
    && (Unfinished(y.phase) ==> Unfinished(x.phase))
    && (y.phase == Registered ==> x.phase == Registered && y.cid == x.cid && (Exists(s', y) ==> Exists(s, x)))
  }

  predicate Ages(s: Sys, s': Sys) {
    && (forall i :: i in s.insts ==> i in s'.insts && AgesTo(s, s.insts[i], s', s'.insts[i]))
    && (forall i :: i in s'.insts && i !in s.insts ==> s'.insts[i].phase == Checked)
  }

  lemma CreateAges(s: Sys, i: nat, ok: bool)
    requires InstancesOk(s) && At(s, i, Allocated)
    ensures Ages(s, DoCreate(s, i, ok))
  {
    var s' := DoCreate(s, i, ok);
    forall j | j in s.insts
      ensures j in s'.insts && AgesTo(s, s.insts[j], s', s'.insts[j])
    {
      assert InstanceOk(s, j);
    }
  }

  lemma StartAges(s: Sys, i: nat, ok: bool)
    requires At(s, i, Created) && s.insts[i].cid.Some?
    ensures Ages(s, DoStart(s, i, ok))
  {
  }

  lemma AllocateAges(k: Config, s: Sys, i: nat)
    requires At(s, i, Checked)
    ensures Ages(s, DoAllocate(k, s, i))
  {
  }

  lemma RollbackAges(s: Sys, i: nat, ok: bool)
    requires At(s, i, Failing) && s.insts[i].cid.Some?
    ensures Ages(s, SetPhase(RemoveContainer(s, s.insts[i].cid.value, ok), i, Releasing))
  {
  }

  lemma StopAges(s: Sys, t: nat, ok: bool)
    requires t in s.cleanups && s.cleanups[t].inst in s.insts
    ensures Ages(s, DoStop(s, t, ok))
  {
  }

  lemma ReleaseAges(s: Sys, t: nat)
    requires t in s.cleanups && s.cleanups[t].inst in s.insts
    ensures Ages(s, DoRelease(s, t))
  {
  }

  lemma RemoveAges(s: Sys, t: nat, ok: bool, g: Stage)
    requires t in s.cleanups
    ensures Ages(s, SetStage(RemoveContainer(s, s.cleanups[t].cid, ok), t, g))
  {
  }

  lemma PlainAges(k: Config, s: Sys, a: Action)
    requires InstancesOk(s) && Enabled(k, s, a)
    requires a.Tick? || a.Begin? || a.Health? || a.RollbackRelease? || a.Mark? || a.Delete? || a.Foreign?
    ensures Ages(s, Apply(k, s, a))
  {
    NextIsNew(s);
  }

  lemma AgeStep(k: Config, s: Sys, a: Action)
    requires InstancesOk(s) && Enabled(k, s, a) && !a.Register?
    ensures Ages(s, Apply(k, s, a))
  {
    match a
    case Allocate(i) => AllocateAges(k, s, i);
    case Create(i, ok) => CreateAges(s, i, ok);
    case StartContainer(i, ok) => StartAges(s, i, ok);
    case RollbackRemove(i, ok) => RollbackAges(s, i, ok);
    case StopContainer(t, ok) => StopAges(s, t, ok);
    case Remove(t, ok) => RemoveAges(s, t, ok, Removed(s.cleanups[t].stage.since));
    case Release(t) => ReleaseAges(s, t);
    case _ => PlainAges(k, s, a);
  }

  /** Only Register and Delete change which instance a session's record speaks of. */
  lemma RecordsStay(k: Config, s: Sys, a: Action)
    requires Enabled(k, s, a) && !a.Register? && !a.Delete?
    ensures var s' := Apply(k, s, a);
            s'.rentals.Keys == s.rentals.Keys && forall n :: n in s.rentals ==> s'.rentals[n].inst == s.rentals[n].inst
  {
    if Idle(a) {
      IdleCleanups(k, s, a);
    }
  }

  // ----- Exactly one kind of step loses a rental -----

  lemma RegisterTracked(s: Sys, i: nat)
    requires Core(s) && D.Valid(s.docker) && Tracked(s) && At(s, i, Healthy) && s.insts[i].cid.Some?
    ensures Tracked(DoRegister(s, i))
  {
    var s' := DoRegister(s, i);
    assert InstanceOk(s, i);
    forall j | j in s'.insts && Runs(s', j)
      ensures OnRecord(s', j)
    {
      if j != i {
        assert Runs(s, j) && InstanceOk(s, j);
      }
    }
  }

  lemma DeleteTracked(s: Sys, t: nat)
    requires Core(s) && Tracked(s) && t in s.cleanups
    ensures Tracked(DoDelete(s, t)) <==> !Misplaced(s, Delete(t))
  {
    var s', n := DoDelete(s, t), s.cleanups[t].session;
    if Misplaced(s, Delete(t)) {
      var i := s.rentals[n].inst;
      assert EntryOk(s, n, s.rentals[n]);
      assert Runs(s', i) && !OnRecord(s', i);
    } else {
      forall i | i in s'.insts && Runs(s', i)
        ensures OnRecord(s', i)
      {
        assert Runs(s, i);
      }
    }
  }

  /** A running rental drops off the records exactly when a cleanup deletes the record of a running rental. */
  lemma TrackedStep(k: Config, s: Sys, a: Action)
    requires Core(s) && D.Valid(s.docker) && Tracked(s) && Enabled(k, s, a)
    ensures Tracked(Apply(k, s, a)) <==> !Misplaced(s, a)
  {
    if a.Register? {
      RegisterTracked(s, a.inst);
    } else if a.Delete? {
      DeleteTracked(s, a.task);
    } else {
      var s' := Apply(k, s, a);
      AgeStep(k, s, a);
      RecordsStay(k, s, a);
      forall i | i in s'.insts && Runs(s', i)
        ensures OnRecord(s', i)
      {
        assert i in s.insts && AgesTo(s, s.insts[i], s', s'.insts[i]) && Runs(s, i) && OnRecord(s, i);
      }
    }
  }

  predicate AlwaysTracked(k: Config, acts: seq<Action>) {
    && Run(k, acts).Some? && Tracked(Run(k, acts).value)
    && (acts != [] ==> AlwaysTracked(k, acts[..|acts| - 1]))
  }

  predicate NeverMisplaced(k: Config, acts: seq<Action>) {
    && Run(k, acts).Some?
    && (acts != [] ==>
          var n := |acts| - 1;
          NeverMisplaced(k, acts[..n]) && !Misplaced(Run(k, acts[..n]).value, acts[n]))
  }

  /** Throughout a run every running rental is on record, if and only if no cleanup deletes the record of a running one. */
  lemma {:induction false} TrackedExactly(k: Config, acts: seq<Action>)
    requires Run(k, acts).Some?
    ensures AlwaysTracked(k, acts) <==> NeverMisplaced(k, acts)
  {
    if acts != [] {
      var n := |acts| - 1;
      var s := Run(k, acts[..n]).value;
      TrackedExactly(k, acts[..n]);
      CoreAlways(k, acts[..n]);
      NamesAlways(k, acts[..n]);
      if Tracked(s) {
        TrackedStep(k, s, acts[n]);
      }
    }
  }

  // ----- Using session ids one at a time -----

  /** A session is begun only when no earlier start, rental or cleanup of it is unfinished. */
  predicate Patient(s: Sys, a: Action) {
    a.Begin? ==>
      && (forall i :: i in s.insts && s.insts[i].session == a.session ==> !Unfinished(s.insts[i].phase))
      && (forall t :: t in s.cleanups ==> s.cleanups[t].session != a.session)
  }

  predicate PatientRun(k: Config, acts: seq<Action>) {
    && Run(k, acts).Some?
    && (acts != [] ==>
          var n := |acts| - 1;
          PatientRun(k, acts[..n]) && Patient(Run(k, acts[..n]).value, acts[n]))
  }

  /** While instance i is unfinished, it is the only one, and all its session's records and cleanups speak of it. */
  predicate SoleOk(s: Sys, i: nat)
    requires i in s.insts
  {
    var n := s.insts[i].session;
    Unfinished(s.insts[i].phase) ==>
      && (forall j :: j in s.insts && s.insts[j].session == n && Unfinished(s.insts[j].phase) ==> j == i)
      && (forall t :: t in s.cleanups && s.cleanups[t].session == n ==> s.cleanups[t].inst == i)
      && (n in s.rentals ==> s.rentals[n].inst == i)
      && (s.insts[i].phase == Registered ==> n in s.rentals)
  }

  predicate Sole(s: Sys) {
    forall i :: i in s.insts ==> SoleOk(s, i)
  }

  /** Cleanups of a later state speak of the sessions and instances of an earlier one. */
  predicate SameTasks(s: Sys, s': Sys) {
    forall t :: t in s'.cleanups ==>
                  t in s.cleanups && s'.cleanups[t].session == s.cleanups[t].session && s'.cleanups[t].inst == s.cleanups[t].inst
  }

  lemma SoleFrame(s: Sys, s': Sys)
    requires Sole(s) && Ages(s, s') && s'.insts.Keys == s.insts.Keys && SameTasks(s, s')
    requires s'.rentals.Keys == s.rentals.Keys && forall n :: n in s.rentals ==> s'.rentals[n].inst == s.rentals[n].inst
    ensures Sole(s')
  {
    forall i | i in s'.insts
      ensures SoleOk(s', i)
    {
      assert SoleOk(s, i) && AgesTo(s, s.insts[i], s', s'.insts[i]);
      forall j | j in s'.insts && Unfinished(s'.insts[j].phase)
        ensures Unfinished(s.insts[j].phase) && s.insts[j].session == s'.insts[j].session
      {
        assert AgesTo(s, s.insts[j], s', s'.insts[j]);
      }
    }
  }

  lemma BeginSole(s: Sys, session: string, gpu: string)
    requires InstancesOk(s) && Sole(s) && session !in s.rentals && Patient(s, Begin(session, gpu))
    ensures Sole(DoBegin(s, session, gpu))
  {
    NextIsNew(s);
    var s' := DoBegin(s, session, gpu);
    forall i | i in s'.insts
      ensures SoleOk(s', i)
    {
      if i in s.insts {
        assert SoleOk(s, i);
      }
    }
  }

  lemma RegisterSole(s: Sys, i: nat)
    requires Sole(s) && At(s, i, Healthy) && s.insts[i].cid.Some?
    ensures Sole(DoRegister(s, i))
  {
    var s' := DoRegister(s, i);
    assert SoleOk(s, i);
    forall j | j in s'.insts
      ensures SoleOk(s', j)
    {
      assert SoleOk(s, j);
    }
  }

  lemma MarkSole(s: Sys, session: string)
    requires Sole(s) && session in s.rentals
    ensures Sole(DoMark(s, session))
  {
    var s' := DoMark(s, session);
    forall i | i in s'.insts
      ensures SoleOk(s', i)
    {
      assert SoleOk(s, i);
    }
  }

  lemma DeleteSole(s: Sys, t: nat)
    requires Core(s) && Sole(s) && t in s.cleanups && s.cleanups[t].stage.Freed?
    ensures Sole(DoDelete(s, t))
  {
    var s' := DoDelete(s, t);
    assert CleanupOk(s, s.cleanups[t]);
    forall i | i in s'.insts
      ensures SoleOk(s', i)
    {
      assert SoleOk(s, i);
    }
  }

  lemma RemovalStays(s: Sys, c: nat, ok: bool)
    ensures var m := RemoveContainer(s, c, ok); m.cleanups == s.cleanups && m.insts == s.insts && m.now == s.now
  {
  }

  lemma StopTasks(s: Sys, t: nat, ok: bool)
    requires t in s.cleanups && s.cleanups[t].inst in s.insts
    ensures SameTasks(s, DoStop(s, t, ok)) && DoStop(s, t, ok).insts.Keys == s.insts.Keys
    ensures SameTasks(s, DoRelease(s, t)) && DoRelease(s, t).insts.Keys == s.insts.Keys
  {
  }

  lemma TasksStay(k: Config, s: Sys, a: Action)
    requires Enabled(k, s, a) && !a.Mark?
    ensures SameTasks(s, Apply(k, s, a))
  {
    if Idle(a) {
      IdleCleanups(k, s, a);
    } else if a.Remove? {
      RemovalStays(s, s.cleanups[a.task].cid, a.ok);
    } else if !a.Delete? {
      StopTasks(s, a.task, !a.StopContainer? || a.ok);
    }
  }

  lemma InstancesStay(k: Config, s: Sys, a: Action)
    requires Enabled(k, s, a) && !a.Begin?
    ensures Apply(k, s, a).insts.Keys == s.insts.Keys
  {
    match a
    case RollbackRemove(i, ok) => RemovalStays(s, s.insts[i].cid.value, ok);
    case Remove(t, ok) => RemovalStays(s, s.cleanups[t].cid, ok);
    case StopContainer(t, ok) => StopTasks(s, t, ok);
    case Release(t) => StopTasks(s, t, true);
    case _ =>
  }

  lemma PlainSole(k: Config, s: Sys, a: Action)
    requires Core(s) && Sole(s) && Enabled(k, s, a) && !a.Begin? && !a.Register? && !a.Mark? && !a.Delete?
    ensures Sole(Apply(k, s, a))
  {
    AgeStep(k, s, a);
    RecordsStay(k, s, a);
    TasksStay(k, s, a);
    InstancesStay(k, s, a);
    SoleFrame(s, Apply(k, s, a));
  }

  lemma SoleStep(k: Config, s: Sys, a: Action)
    requires Core(s) && Sole(s) && Enabled(k, s, a) && Patient(s, a)
    ensures Sole(Apply(k, s, a))
  {
    match a
    case Begin(n, g) => BeginSole(s, n, g);
    case Register(i) => RegisterSole(s, i);
    case Mark(n) => MarkSole(s, n);
    case Delete(t) => DeleteSole(s, t);
    case _ => PlainSole(k, s, a);
  }

  /** With patience in using session ids every registered rental is on record, whether or not its container still exists. */
  lemma {:induction false} PatientRunTracks(k: Config, acts: seq<Action>)
    requires PatientRun(k, acts)
    ensures Sole(Run(k, acts).value)
    ensures var s := Run(k, acts).value; forall i :: i in s.insts && s.insts[i].phase == Registered ==> OnRecord(s, i)
  {
    if acts != [] {
      var n := |acts| - 1;
      PatientRunTracks(k, acts[..n]);
      CoreAlways(k, acts[..n]);
      SoleStep(k, Run(k, acts[..n]).value, acts[n]);
    }
    var s := Run(k, acts).value;
    forall i | i in s.insts && s.insts[i].phase == Registered
      ensures OnRecord(s, i)
    {
      assert SoleOk(s, i);
    }
  }

  /** No two calls ever made used the same session id. */
  predicate FreshSessions(s: Sys) {
    forall i, j :: i in s.insts && j in s.insts && s.insts[i].session == s.insts[j].session ==> i == j
  }

  lemma SessionsStay(k: Config, s: Sys, a: Action)
    requires InstancesOk(s) && Enabled(k, s, a)
    ensures forall i :: i in s.insts ==> i in Apply(k, s, a).insts && Apply(k, s, a).insts[i].session == s.insts[i].session
  {
    if !a.Register? {
      AgeStep(k, s, a);
      assert forall i :: i in s.insts ==> AgesTo(s, s.insts[i], Apply(k, s, a), Apply(k, s, a).insts[i]);
    }
  }

  lemma FreshBefore(k: Config, s: Sys, a: Action)
    requires Core(s) && Enabled(k, s, a) && FreshSessions(Apply(k, s, a))
    ensures FreshSessions(s) && Patient(s, a)
  {
    SessionsStay(k, s, a);
    if a.Begin? {
      NextIsNew(s);
      assert DoBegin(s, a.session, a.gpu).insts[s.nextInst].session == a.session;
      assert forall t :: t in s.cleanups ==> CleanupOk(s, s.cleanups[t]);
    }
  }

  /** Never using a session id twice is one way of being patient. */
  lemma {:induction false} FreshIsPatient(k: Config, acts: seq<Action>)
    requires Run(k, acts).Some? && FreshSessions(Run(k, acts).value)
    ensures PatientRun(k, acts)
  {
    if acts != [] {
      var n := |acts| - 1;
      CoreAlways(k, acts[..n]);
      FreshBefore(k, Run(k, acts[..n]).value, acts[n]);
      FreshIsPatient(k, acts[..n]);
    }
  }
}
