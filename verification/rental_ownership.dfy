/**
 * Who owns which port, which names and which container over every
 * interleaving, and what a second successful stop of one rental can break.
 */
module RentalOwnership {
  import opened Wrappers
  import opened RentalProtocol
  import opened RentalInvariants
  import L = Leases
  import D = Docker

  // ----- Container names -----

  lemma StepValid(k: Config, s: Sys, a: Action)
    requires D.Valid(s.docker) && Enabled(k, s, a)
    ensures D.Valid(Apply(k, s, a).docker)
  {
    match a
    case Create(i, ok) =>
      if ok {
        D.CreateKeepsValid(s.docker, s.insts[i].session, Some(s.insts[i].port), s.insts[i].gpu);
      }
    case StartContainer(i, _) => D.UpdatesKeepValid(s.docker, s.insts[i].cid.value, true);
    case RollbackRemove(i, _) => D.UpdatesKeepValid(s.docker, s.insts[i].cid.value, true);
    case StopContainer(t, _) => D.UpdatesKeepValid(s.docker, s.cleanups[t].cid, false);
    case Remove(t, _) => D.UpdatesKeepValid(s.docker, s.cleanups[t].cid, false);
    case _ =>
  }

  lemma {:induction false} NamesAlways(k: Config, acts: seq<Action>)
    requires Run(k, acts).Some?
    ensures D.Valid(Run(k, acts).value.docker)
  {
    if acts != [] {
      var n := |acts| - 1;
      NamesAlways(k, acts[..n]);
      StepValid(k, Run(k, acts[..n]).value, acts[n]);
    }
  }

  /** Two calls for one session never both have an existing container. */
  lemma OneContainerPerSession(k: Config, acts: seq<Action>, i: nat, j: nat)
    requires Run(k, acts).Some?
    requires var s := Run(k, acts).value;
             i in s.insts && j in s.insts && i != j && s.insts[i].session == s.insts[j].session
    ensures var s := Run(k, acts).value;
            !(Exists(s, s.insts[i]) && Exists(s, s.insts[j]))
  {
    var s := Run(k, acts).value;
    CoreAlways(k, acts);
    NamesAlways(k, acts);
    assert InstanceOk(s, i) && InstanceOk(s, j);
  }

  /** Registering over an existing record is only possible once that record's container has been removed. */
  lemma OverwriteOnlyAfterRemoval(k: Config, acts: seq<Action>, i: nat)
    requires Run(k, acts + [Register(i)]).Some?
    ensures Run(k, acts).Some?
    ensures var s := Run(k, acts).value;
            && i in s.insts
            && (s.insts[i].session in s.rentals ==>
                  var e := s.rentals[s.insts[i].session];
                  e.inst in s.insts && e.inst != i && s.insts[e.inst].cid == Some(e.cid) && e.cid !in s.docker.containers)
  {
    assert (acts + [Register(i)])[..|acts|] == acts;
    var s := Run(k, acts).value;
    CoreAlways(k, acts);
    assert InstanceOk(s, i);
    if s.insts[i].session in s.rentals {
      var e := s.rentals[s.insts[i].session];
      assert EntryOk(s, s.insts[i].session, e);
      OneContainerPerSession(k, acts, i, e.inst);
    }
  }

  // ----- Port ownership -----

  /** The live lease on x's port is x's. */
  predicate HolderOk(s: Sys, i: nat)
    requires i in s.insts
  {
    var x := s.insts[i];
    && (Holds(x.phase) ==>
          L.Live(s.leases, x.port) && s.leases[x.port].session == x.session
          && x.port in s.owners && s.owners[x.port] == i)
    && (x.phase.Released? && x.port in s.owners && s.owners[x.port] == i ==>
          x.port in s.leases && s.leases[x.port].releasedAt == Some(x.phase.at))
  }

  /** A live lease belongs to an instance that still holds it. */
  predicate LeaseOk(s: Sys, p: int) {
    L.Live(s.leases, p) ==>
      p in s.owners && s.owners[p] in s.insts
      && Holds(s.insts[s.owners[p]].phase) && s.insts[s.owners[p]].port == p
  }

  predicate Own(s: Sys) {
    && (forall i :: i in s.insts ==> HolderOk(s, i))
    && (forall p :: p in s.leases ==> LeaseOk(s, p))
  }

  /** From s to s' no lease changes hands. */
  predicate Quiet(s: Sys, s': Sys) {
    && s'.leases == s.leases && s'.owners == s.owners
    && (forall i :: i in s.insts ==> i in s'.insts && SameHolding(s.insts[i], s'.insts[i]))
    && (forall i :: i in s'.insts && i !in s.insts ==> s'.insts[i].phase == Checked)
  }

  predicate SameHolding(x: Instance, y: Instance) {
    && (Holds(y.phase) <==> Holds(x.phase)) && (y.phase.Released? ==> y.phase == x.phase)
    && y.port == x.port && y.session == x.session
  }

  lemma OwnFrame(s: Sys, s': Sys)
    requires Own(s) && Quiet(s, s')
    ensures Own(s')
  {
    forall i | i in s'.insts
      ensures HolderOk(s', i)
    {
      if i in s.insts {
        assert HolderOk(s, i) && SameHolding(s.insts[i], s'.insts[i]);
      }
    }
    forall p | p in s'.leases
      ensures LeaseOk(s', p)
    {
      assert LeaseOk(s, p);
    }
  }

  predicate TouchesLeases(a: Action) {
    a.Allocate? || a.RollbackRelease? || a.Release?
  }

  lemma QuietBegin(s: Sys, session: string, gpu: string)
    requires s.nextInst !in s.insts
    ensures Quiet(s, DoBegin(s, session, gpu))
  {
  }

  lemma QuietCreate(s: Sys, i: nat, ok: bool)
    requires At(s, i, Allocated)
    ensures Quiet(s, DoCreate(s, i, ok))
  {
  }

  lemma QuietStart(s: Sys, i: nat, ok: bool)
    requires At(s, i, Created) && s.insts[i].cid.Some?
    ensures Quiet(s, DoStart(s, i, ok))
  {
  }

  lemma QuietRegister(s: Sys, i: nat)
    requires At(s, i, Healthy) && s.insts[i].cid.Some?
    ensures Quiet(s, DoRegister(s, i))
  {
  }

  lemma QuietRollback(s: Sys, i: nat, ok: bool)
    requires At(s, i, Failing) && s.insts[i].cid.Some?
    ensures Quiet(s, SetPhase(RemoveContainer(s, s.insts[i].cid.value, ok), i, Releasing))
  {
  }

  lemma QuietCountedStop(s: Sys, t: nat, ok: bool)
    requires t in s.cleanups && s.cleanups[t].inst in s.insts
    ensures Quiet(s, DoStop(s, t, ok))
  {
  }

  lemma QuietRemove(s: Sys, t: nat, ok: bool)
    requires t in s.cleanups && s.cleanups[t].stage.Sleeping?
    ensures Quiet(s, SetStage(RemoveContainer(s, s.cleanups[t].cid, ok), t, Removed(s.cleanups[t].stage.since)))
  {
  }

  /** A step that touches no lease leaves every holding as it was. */
  lemma QuietStep(k: Config, s: Sys, a: Action)
    requires Enabled(k, s, a) && !TouchesLeases(a) && s.nextInst !in s.insts
    ensures Quiet(s, Apply(k, s, a))
  {
    match a
    case Begin(n, g) => QuietBegin(s, n, g);
    case Create(i, ok) => QuietCreate(s, i, ok);
    case StartContainer(i, ok) => QuietStart(s, i, ok);
    case Register(i) => QuietRegister(s, i);
    case RollbackRemove(i, ok) => QuietRollback(s, i, ok);
    case StopContainer(t, ok) => QuietCountedStop(s, t, ok);
    case Remove(t, ok) => QuietRemove(s, t, ok);
    case _ =>
  }

  /** Port p, which nobody holds, becomes i's. */
  lemma GrantKeepsOwn(s: Sys, i: nat, p: int)
    requires Own(s) && At(s, i, Checked) && !L.Live(s.leases, p)
    ensures Own(s.(leases := s.leases[p := L.Lease(s.insts[i].session, s.now, None)],
                   owners := s.owners[p := i],
                   insts := s.insts[i := s.insts[i].(port := p, phase := Allocated)]))
  {
    var s' := s.(leases := s.leases[p := L.Lease(s.insts[i].session, s.now, None)],
                 owners := s.owners[p := i],
                 insts := s.insts[i := s.insts[i].(port := p, phase := Allocated)]);
    forall j | j in s'.insts
      ensures HolderOk(s', j)
    {
      assert HolderOk(s, j);
    }
    forall q | q in s'.leases
      ensures LeaseOk(s', q)
    {
      assert q in s.leases ==> LeaseOk(s, q);
    }
  }

  lemma AllocateKeepsOwn(k: Config, s: Sys, i: nat)
    requires Own(s) && At(s, i, Checked)
    ensures Own(DoAllocate(k, s, i))
  {
    match L.Choose(k.ports, s.leases, s.now)
    case None => OwnFrame(s, DoAllocate(k, s, i));
    case Some(p) => GrantKeepsOwn(s, i, p);
  }

  /** Giving back port p of its holder i, which then stops holding it. */
  lemma ReleaseKeepsOwn(s: Sys, i: nat, p: Phase)
    requires Own(s) && i in s.insts && Holds(s.insts[i].phase) && !Holds(p)
    requires p.Released? ==> p.at == s.now
    ensures Own(SetPhase(s.(leases := L.Release(s.leases, s.insts[i].port, s.now)), i, p))
  {
    var s' := SetPhase(s.(leases := L.Release(s.leases, s.insts[i].port, s.now)), i, p);
    assert HolderOk(s, i);
    forall j | j in s'.insts
      ensures HolderOk(s', j)
    {
      assert HolderOk(s, j);
    }
    forall q | q in s'.leases
      ensures LeaseOk(s', q)
    {
      assert LeaseOk(s, q);
    }
  }

  /** A cleanup about to release the port of a rental whose port is already released, and that now is someone else's. */
  predicate Harmful(s: Sys, t: nat) {
    && t in s.cleanups && s.cleanups[t].stage.Removed? && s.cleanups[t].inst in s.insts
    && s.insts[s.cleanups[t].inst].phase != Registered
    && L.Live(s.leases, s.cleanups[t].port)
  }

  lemma CleanupReleaseKeepsOwn(s: Sys, t: nat)
    requires Core(s) && Own(s) && t in s.cleanups && s.cleanups[t].stage.Removed? && !Harmful(s, t)
    ensures Own(DoRelease(s, t))
  {
    var c := s.cleanups[t];
    assert CleanupOk(s, c);
    if s.insts[c.inst].phase == Registered {
      var m := SetPhase(s.(leases := L.Release(s.leases, c.port, s.now)), c.inst, Released(s.now, t));
      ReleaseKeepsOwn(s, c.inst, Released(s.now, t));
      OwnFrame(m, DoRelease(s, t));
    } else {
      OwnFrame(s, DoRelease(s, t));
    }
  }

  lemma NextIsNew(s: Sys)
    requires InstancesOk(s)
    ensures s.nextInst !in s.insts
  {
  }

  /** Such a release leaves the port's owner with a released lease. */
  lemma HarmBreaksOwn(s: Sys, t: nat)
    requires Core(s) && Own(s) && Harmful(s, t)
    ensures !Own(DoRelease(s, t))
  {
    var p := s.cleanups[t].port;
    assert CleanupOk(s, s.cleanups[t]) && LeaseOk(s, p);
    assert !HolderOk(DoRelease(s, t), s.owners[p]);
  }

  /** A harmful release is exactly what breaks ownership. */
  lemma OwnStep(k: Config, s: Sys, a: Action)
    requires Core(s) && Own(s) && Enabled(k, s, a)
    ensures Own(Apply(k, s, a)) <==> !(a.Release? && Harmful(s, a.task))
  {
    if a.Release? && Harmful(s, a.task) {
      HarmBreaksOwn(s, a.task);
    } else if a.Allocate? {
      AllocateKeepsOwn(k, s, a.inst);
    } else if a.RollbackRelease? {
      ReleaseKeepsOwn(s, a.inst, Aborted);
    } else if a.Release? {
      CleanupReleaseKeepsOwn(s, a.task);
    } else {
      NextIsNew(s);
      QuietStep(k, s, a);
      OwnFrame(s, Apply(k, s, a));
    }
  }
}
