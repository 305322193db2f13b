/**
 * The steps of the concurrent system, taken by one call without
 * interruption, amount to what the executor's methods promise as a whole.
 */
module RentalSequential {
  import opened Wrappers
  import opened RentalProtocol
  import opened RentalInvariants
  import D = Docker
  import E = RentalExecution
  import L = Leases
  import Text

  function RecordOf(session: string, e: Entry): E.Record {
    E.Record(session, e.cid, e.port, e.startedAt, e.stoppedAt)
  }

  function RecordsOf(rentals: map<string, Entry>): map<string, E.Record> {
    map n | n in rentals :: RecordOf(n, rentals[n])
  }

  function SnapshotOf(s: Sys): E.Snapshot {
    E.Snapshot(RecordsOf(s.rentals), s.leases, s.docker)
  }

  /** A start up to the port: everything but the instances and the taken lease is as before. */
  lemma TakePort(k: Config, s: Sys, session: string, gpu: string)
    requires Core(s) && session !in s.rentals && L.Choose(k.ports, s.leases, s.now).Some?
    ensures var p, i := L.Choose(k.ports, s.leases, s.now).value, s.nextInst;
            var r := RunFrom(k, s, [Begin(session, gpu), Allocate(i)]);
            && r.Some?
            && At(r.value, i, Allocated) && r.value.insts[i].session == session && r.value.insts[i].gpu == gpu
            && r.value.insts[i].port == p
            && r.value.leases == L.Allocate(k.ports, s.leases, session, s.now)
            && r.value.rentals == s.rentals && r.value.docker == s.docker && r.value.now == s.now
  {
    AppendAction(k, s, [], Begin(session, gpu));
    AppendAction(k, s, [Begin(session, gpu)], Allocate(s.nextInst));
    assert [] + [Begin(session, gpu)] == [Begin(session, gpu)];
    assert [Begin(session, gpu)] + [Allocate(s.nextInst)] == [Begin(session, gpu), Allocate(s.nextInst)];
  }

  lemma BuildAlone(k: Config, s: Sys, i: nat)
    requires D.Valid(s.docker) && At(s, i, Allocated) && !D.NameTaken(s.docker, s.insts[i].session)
    ensures var r, x := RunFrom(k, s, [Create(i, true), StartContainer(i, true)]), s.insts[i];
            && r.Some? && r.value.leases == s.leases && r.value.rentals == s.rentals && r.value.now == s.now
            && r.value.docker.containers
               == s.docker.containers[s.docker.nextId := D.Container(x.session, Some(x.port), x.gpu, true)]
            && r.value.docker.nextId == s.docker.nextId + 1
            && r.value.insts == s.insts[i := x.(cid := Some(s.docker.nextId), phase := Started)]
            && r.value.cleanups == s.cleanups && r.value.nextCleanup == s.nextCleanup
  {
    AppendAction(k, s, [], Create(i, true));
    assert [] + [Create(i, true)] == [Create(i, true)];
    AppendAction(k, s, [Create(i, true)], StartContainer(i, true));
    assert [Create(i, true)] + [StartContainer(i, true)] == [Create(i, true), StartContainer(i, true)];
    D.RemoveUndoesCreate(s.docker, s.insts[i].session, Some(s.insts[i].port), s.insts[i].gpu);
  }

  lemma RegisterAlone(k: Config, s: Sys, i: nat)
    requires At(s, i, Started) && s.insts[i].cid.Some?
    ensures var r, x := RunFrom(k, s, [Health(i, true), Register(i)]), s.insts[i];
            && r == Some(s.(rentals := s.rentals[x.session := Entry(i, x.cid.value, x.port, s.now, None)],
                            insts := s.insts[i := x.(phase := Registered)]))
  {
    AppendAction(k, s, [], Health(i, true));
    assert [] + [Health(i, true)] == [Health(i, true)];
    AppendAction(k, s, [Health(i, true)], Register(i));
    assert [Health(i, true)] + [Register(i)] == [Health(i, true), Register(i)];
    var x := s.insts[i];
    assert s.insts[i := x.(phase := Healthy)][i := x.(phase := Registered)] == s.insts[i := x.(phase := Registered)];
  }

  /** Given its port, an unhindered call builds the container and registers. */
  lemma BuildAndRegister(k: Config, s: Sys, i: nat)
    requires D.Valid(s.docker) && At(s, i, Allocated) && !D.NameTaken(s.docker, s.insts[i].session)
    ensures var acts := [Create(i, true), StartContainer(i, true), Health(i, true), Register(i)];
            var r, x := RunFrom(k, s, acts), s.insts[i];
            && r.Some?
            && r.value.leases == s.leases
            && r.value.docker.containers
               == s.docker.containers[s.docker.nextId := D.Container(x.session, Some(x.port), x.gpu, true)]
            && r.value.rentals == s.rentals[x.session := Entry(i, s.docker.nextId, x.port, s.now, None)]
            && r.value.insts == s.insts[i := x.(cid := Some(s.docker.nextId), phase := Registered)]
            && r.value.cleanups == s.cleanups && r.value.nextCleanup == s.nextCleanup && r.value.now == s.now
            && r.value.docker.nextId == s.docker.nextId + 1
  {
    var first, second := [Create(i, true), StartContainer(i, true)], [Health(i, true), Register(i)];
    BuildAlone(k, s, i);
    RegisterAlone(k, RunFrom(k, s, first).value, i);
    RunConcat(k, s, first, second);
    assert first + second == [Create(i, true), StartContainer(i, true), Health(i, true), Register(i)];
  }

  function StartingSteps(i: nat, session: string, gpu: string): seq<Action> {
    [Begin(session, gpu), Allocate(i), Create(i, true), StartContainer(i, true), Health(i, true), Register(i)]
  }

  function Connection(host: string, port: int, container: nat): E.ConnectionInfo {
    E.ConnectionInfo(host, port, "ubuntu", "ssh -p " + Text.Integer(port) + " ubuntu@" + host, container)
  }

  /** An unhindered start does what the sequential method promises on success. */
  lemma StartAlone(k: Config, s: Sys, session: string, gpu: string, host: string)
    requires Core(s) && D.Valid(s.docker) && session !in s.rentals && !D.NameTaken(s.docker, session)
    requires L.Choose(k.ports, s.leases, s.now).Some?
    ensures var r := RunFrom(k, s, StartingSteps(s.nextInst, session, gpu));
            && r.Some?
            && E.Completed(k.ports, E.StartRentalRequest(session, gpu, host), E.StartTimes(s.now, s.now, s.now, s.now),
                           SnapshotOf(s), SnapshotOf(r.value),
                           Connection(host, L.Choose(k.ports, s.leases, s.now).value, s.docker.nextId))
  {
    var i, p := s.nextInst, L.Choose(k.ports, s.leases, s.now).value;
    var first := [Begin(session, gpu), Allocate(i)];
    var second := [Create(i, true), StartContainer(i, true), Health(i, true), Register(i)];
    assert first + second == StartingSteps(i, session, gpu);
    TakePort(k, s, session, gpu);
    var m := RunFrom(k, s, first).value;
    BuildAndRegister(k, m, i);
    RunConcat(k, s, first, second);
    var f := RunFrom(k, s, first + second).value;
    CompletedWhen(k, s, f, Entry(i, s.docker.nextId, p, s.now, None), E.StartRentalRequest(session, gpu, host), p);
  }

  lemma CompletedWhen(k: Config, s: Sys, f: Sys, e: Entry, req: E.StartRentalRequest, p: int)
    requires req.sessionID !in s.rentals && L.Choose(k.ports, s.leases, s.now) == Some(p)
    requires e == Entry(e.inst, s.docker.nextId, p, s.now, None)
    requires f.leases == L.Allocate(k.ports, s.leases, req.sessionID, s.now)
    requires f.rentals == s.rentals[req.sessionID := e]
    requires f.docker.containers
             == s.docker.containers[s.docker.nextId := D.Container(req.sessionID, Some(p), req.gpuDeviceID, true)]
    ensures E.Completed(k.ports, req, E.StartTimes(s.now, s.now, s.now, s.now), SnapshotOf(s), SnapshotOf(f),
                        Connection(req.host, p, s.docker.nextId))
  {
    assert RecordsOf(f.rentals) == RecordsOf(s.rentals)[req.sessionID := RecordOf(req.sessionID, e)];
  }

  /** Where an unhindered start fails: at creating, at starting or at waiting for health. */
  datatype Failure = AtCreate | AtStart | AtHealth

  function FailingSteps(i: nat, f: Failure, removed: bool): seq<Action> {
    match f
    case AtCreate => [Create(i, false), RollbackRelease(i)]
    case AtStart => [Create(i, true), StartContainer(i, false), RollbackRemove(i, removed), RollbackRelease(i)]
    case AtHealth =>
      [Create(i, true), StartContainer(i, true), Health(i, false), RollbackRemove(i, removed), RollbackRelease(i)]
  }

  /** A container that was made for x and may be there or, if it is, was left behind by a failed removal. */
  predicate Undone(before: D.World, after: D.World, removed: bool) {
    if removed then after.containers == before.containers
    else before.nextId in after.containers && D.Remove(after, before.nextId).containers == before.containers
  }

  lemma FailAtCreate(k: Config, s: Sys, i: nat)
    requires At(s, i, Allocated)
    ensures var r := RunFrom(k, s, FailingSteps(i, AtCreate, true));
            && r.Some? && r.value.rentals == s.rentals && r.value.docker == s.docker
            && r.value.leases == L.Release(s.leases, s.insts[i].port, s.now)
  {
    AppendAction(k, s, [], Create(i, false));
    assert [] + [Create(i, false)] == [Create(i, false)];
    AppendAction(k, s, [Create(i, false)], RollbackRelease(i));
    assert [Create(i, false)] + [RollbackRelease(i)] == FailingSteps(i, AtCreate, true);
  }

  /** From a container that would not start or get healthy, the rollback removes it and then releases the port. */
  lemma RollBack(k: Config, s: Sys, i: nat, removed: bool)
    requires At(s, i, Failing) && s.insts[i].cid.Some?
    ensures var r := RunFrom(k, s, [RollbackRemove(i, removed), RollbackRelease(i)]);
            && r.Some? && r.value.rentals == s.rentals
            && r.value.docker == (if removed then D.Remove(s.docker, s.insts[i].cid.value) else s.docker)
            && r.value.leases == L.Release(s.leases, s.insts[i].port, s.now)
  {
    AppendAction(k, s, [], RollbackRemove(i, removed));
    assert [] + [RollbackRemove(i, removed)] == [RollbackRemove(i, removed)];
    AppendAction(k, s, [RollbackRemove(i, removed)], RollbackRelease(i));
    assert [RollbackRemove(i, removed)] + [RollbackRelease(i)] == [RollbackRemove(i, removed), RollbackRelease(i)];
  }

  function BuildingSteps(i: nat, f: Failure): seq<Action>
    requires !f.AtCreate?
  {
    if f.AtStart? then [Create(i, true), StartContainer(i, false)]
    else [Create(i, true), StartContainer(i, true), Health(i, false)]
  }

  lemma FailBuilding(k: Config, s: Sys, i: nat, f: Failure)
    requires D.Valid(s.docker) && At(s, i, Allocated) && !D.NameTaken(s.docker, s.insts[i].session) && !f.AtCreate?
    ensures var r, x := RunFrom(k, s, BuildingSteps(i, f)), s.insts[i];
            && r.Some? && r.value.rentals == s.rentals && r.value.leases == s.leases && r.value.now == s.now
            && At(r.value, i, Failing) && r.value.insts[i].cid == Some(s.docker.nextId) && r.value.insts[i].port == x.port
            && var made := D.Create(s.docker, x.session, Some(x.port), x.gpu);
               r.value.docker == (if f.AtStart? then made else D.SetRunning(made, s.docker.nextId, true))
  {
    AppendAction(k, s, [], Create(i, true));
    assert [] + [Create(i, true)] == [Create(i, true)];
    AppendAction(k, s, [Create(i, true)], StartContainer(i, !f.AtStart?));
    assert [Create(i, true)] + [StartContainer(i, !f.AtStart?)] == [Create(i, true), StartContainer(i, !f.AtStart?)];
    if f.AtHealth? {
      AppendAction(k, s, [Create(i, true), StartContainer(i, true)], Health(i, false));
      assert [Create(i, true), StartContainer(i, true)] + [Health(i, false)] == BuildingSteps(i, f);
    }
  }

  lemma FailAfterCreate(k: Config, s: Sys, i: nat, f: Failure, removed: bool)
    requires D.Valid(s.docker) && At(s, i, Allocated) && !D.NameTaken(s.docker, s.insts[i].session) && !f.AtCreate?
    ensures var r := RunFrom(k, s, FailingSteps(i, f, removed));
            && r.Some? && r.value.rentals == s.rentals && Undone(s.docker, r.value.docker, removed)
            && r.value.leases == L.Release(s.leases, s.insts[i].port, s.now)
  {
    var x := s.insts[i];
    FailBuilding(k, s, i, f);
    var m := RunFrom(k, s, BuildingSteps(i, f)).value;
    RollBack(k, m, i, removed);
    RunConcat(k, s, BuildingSteps(i, f), [RollbackRemove(i, removed), RollbackRelease(i)]);
    assert BuildingSteps(i, f) + [RollbackRemove(i, removed), RollbackRelease(i)] == FailingSteps(i, f, removed);
    D.RemoveUndoesCreate(s.docker, x.session, Some(x.port), x.gpu);
  }

  /** An unhindered start that fails, wherever it does, undoes what the sequential method promises to undo. */
  lemma FailAlone(k: Config, s: Sys, session: string, gpu: string, host: string, f: Failure, removed: bool)
    requires Core(s) && D.Valid(s.docker) && session !in s.rentals && L.Choose(k.ports, s.leases, s.now).Some?
    requires f.AtCreate? || !D.NameTaken(s.docker, session)
    ensures var r := RunFrom(k, s, [Begin(session, gpu), Allocate(s.nextInst)] + FailingSteps(s.nextInst, f, removed));
            && r.Some?
            && E.RolledBack(k.ports, E.StartRentalRequest(session, gpu, host), E.StartTimes(s.now, s.now, s.now, s.now),
                            SnapshotOf(s), SnapshotOf(r.value), !f.AtCreate? && !removed)
  {
    var i := s.nextInst;
    TakePort(k, s, session, gpu);
    var m := RunFrom(k, s, [Begin(session, gpu), Allocate(i)]).value;
    if f.AtCreate? {
      FailAtCreate(k, m, i);
    } else {
      FailAfterCreate(k, m, i, f, removed);
    }
    RunConcat(k, s, [Begin(session, gpu), Allocate(i)], FailingSteps(i, f, removed));
  }

  lemma RecordsPut(rentals: map<string, Entry>, n: string, e: Entry)
    ensures RecordsOf(rentals[n := e]) == RecordsOf(rentals)[n := RecordOf(n, e)]
  {
  }

  lemma RecordsDrop(rentals: map<string, Entry>, n: string)
    ensures RecordsOf(rentals - {n}) == RecordsOf(rentals) - {n}
  {
  }

  /** A stop that fails may have stopped the container all the same: then the container stops by itself in between. */
  function MarkingSteps(s: Sys, n: string, ok: bool, halted: bool): seq<Action>
    requires n in s.rentals
  {
    if halted && !ok then [Mark(n), Foreign(D.SetRunning(s.docker, s.rentals[n].cid, false))] else [Mark(n)]
  }

  function StoppingSteps(s: Sys, n: string, ok: bool, halted: bool): seq<Action>
    requires n in s.rentals
  {
    MarkingSteps(s, n, ok, halted) + [StopContainer(s.nextCleanup, ok)]
  }

  lemma HaltIsForeign(s: Sys, n: string)
    requires D.Valid(s.docker) && n in s.rentals
    ensures Undisturbed(DoMark(s, n), D.SetRunning(s.docker, s.rentals[n].cid, false))
  {
    D.UpdatesKeepValid(s.docker, s.rentals[n].cid, false);
  }

  lemma MarkAlone(k: Config, s: Sys, n: string, ok: bool, halted: bool)
    requires D.Valid(s.docker) && n in s.rentals
    ensures var r, world := RunFrom(k, s, MarkingSteps(s, n, ok, halted)), D.SetRunning(s.docker, s.rentals[n].cid, false);
            && r == Some(DoMark(s, n).(docker := if halted && !ok then world else s.docker))
            && RecordsOf(r.value.rentals)
               == RecordsOf(s.rentals)[n := RecordOf(n, s.rentals[n]).(stoppedAt := Some(s.now))]
  {
    RecordsPut(s.rentals, n, s.rentals[n].(stoppedAt := Some(s.now)));
    AppendAction(k, s, [], Mark(n));
    assert [] + [Mark(n)] == [Mark(n)];
    if halted && !ok {
      var world := D.SetRunning(s.docker, s.rentals[n].cid, false);
      HaltIsForeign(s, n);
      AppendAction(k, s, [Mark(n)], Foreign(world));
      assert [Mark(n)] + [Foreign(world)] == MarkingSteps(s, n, ok, halted);
    }
  }

  /** A stop and, later, its cleanup likewise do what the executor's methods promise. */
  lemma StopAlone(k: Config, s: Sys, n: string, ok: bool, halted: bool)
    requires Core(s) && D.Valid(s.docker) && n in s.rentals && (ok ==> halted)
    ensures var r := RunFrom(k, s, StoppingSteps(s, n, ok, halted));
            && r.Some? && r.value.now == s.now && r.value.leases == s.leases
            && RecordsOf(r.value.rentals)
               == RecordsOf(s.rentals)[n := RecordOf(n, s.rentals[n]).(stoppedAt := Some(s.now))]
            && r.value.docker == (if halted then D.SetRunning(s.docker, s.rentals[n].cid, false) else s.docker)
            && (s.nextCleanup in r.value.cleanups <==> ok)
  {
    var t, first := s.nextCleanup, MarkingSteps(s, n, ok, halted);
    assert EntryOk(s, n, s.rentals[n]);
    MarkAlone(k, s, n, ok, halted);
    AppendAction(k, s, first, StopContainer(t, ok));
  }

  lemma RemoveOnce(k: Config, s: Sys, t: nat, removed: bool)
    requires Core(s) && Enabled(k, s, Remove(t, removed))
    ensures var r, c := RunFrom(k, s, [Remove(t, removed)]), s.cleanups[t];
            && r.Some? && r.value.leases == s.leases && r.value.rentals == s.rentals && r.value.now == s.now
            && r.value.docker == (if removed then D.Remove(s.docker, c.cid) else s.docker)
            && Enabled(k, r.value, Release(t))
            && r.value.cleanups[t].port == c.port && r.value.cleanups[t].session == c.session
  {
    assert CleanupOk(s, s.cleanups[t]);
    AppendAction(k, s, [], Remove(t, removed));
    assert [] + [Remove(t, removed)] == [Remove(t, removed)];
  }

  lemma ReleaseOnce(k: Config, s: Sys, t: nat)
    requires Enabled(k, s, Release(t))
    ensures var r, c := RunFrom(k, s, [Release(t)]), s.cleanups[t];
            && r.Some? && r.value.leases == L.Release(s.leases, c.port, s.now) && r.value.rentals == s.rentals
            && r.value.docker == s.docker
            && t in r.value.cleanups && r.value.cleanups[t].stage.Freed? && r.value.cleanups[t].session == c.session
  {
    AppendAction(k, s, [], Release(t));
    assert [] + [Release(t)] == [Release(t)];
  }

  lemma CleanupAlone(k: Config, s: Sys, t: nat, removed: bool)
    requires Core(s) && Enabled(k, s, Remove(t, removed))
    ensures var r, c := RunFrom(k, s, [Remove(t, removed), Release(t), Delete(t)]), s.cleanups[t];
            && r.Some? && r.value.leases == L.Release(s.leases, c.port, s.now)
            && RecordsOf(r.value.rentals) == RecordsOf(s.rentals) - {c.session}
            && r.value.docker == (if removed then D.Remove(s.docker, c.cid) else s.docker)
  {
    RemoveOnce(k, s, t, removed);
    var m := RunFrom(k, s, [Remove(t, removed)]).value;
    ReleaseOnce(k, m, t);
    RunConcat(k, s, [Remove(t, removed)], [Release(t)]);
    assert [Remove(t, removed)] + [Release(t)] == [Remove(t, removed), Release(t)];
    RecordsDrop(s.rentals, s.cleanups[t].session);
    AppendAction(k, s, [Remove(t, removed), Release(t)], Delete(t));
    assert [Remove(t, removed), Release(t)] + [Delete(t)] == [Remove(t, removed), Release(t), Delete(t)];
  }
}
