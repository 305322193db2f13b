/**
 * Pending cleanups commute: once their grace periods are over, running their
 * remaining steps in any order, interleaved in any way, ends in one and the
 * same state of ports, records and containers.
 */
module RentalDrain {
  import opened Wrappers
  import opened RentalProtocol
  import opened RentalInvariants
  import opened RentalOwnership
  import opened RentalSingleStop
  import opened RentalRecords
  import L = Leases
  import D = Docker

  /** What draining is about: leases in use, records and containers. */
  datatype Outcome = Outcome(live: L.Table, rentals: map<string, Entry>, containers: map<nat, D.Container>)

  ghost function LiveLeases(s: Sys): L.Table {
    map p | p in s.leases && L.Live(s.leases, p) :: s.leases[p]
  }

  ghost function Observed(s: Sys): Outcome {
    Outcome(LiveLeases(s), s.rentals, s.docker.containers)
  }

  type Tasks = map<nat, Cleanup>

  ghost function Asleep(cs: Tasks): set<nat> {
    set t | t in cs && cs[t].stage.Sleeping?
  }

  ghost function Emptied(cs: Tasks): set<nat> {
    set t | t in cs && cs[t].stage.Removed?
  }

  ghost function Closing(cs: Tasks): set<nat> {
    set t | t in cs && cs[t].stage.Freed?
  }

  ghost function Pending(cs: Tasks): set<nat> {
    set t | t in cs && !cs[t].stage.Stopping?
  }

  /** Cleanup steps still to be taken. */
  ghost function Work(cs: Tasks): nat {
    3 * |Asleep(cs)| + 2 * |Emptied(cs)| + |Closing(cs)|
  }

  ghost function DoomedPorts(cs: Tasks): set<int> {
    set t | t in cs && (cs[t].stage.Sleeping? || cs[t].stage.Removed?) :: cs[t].port
  }

  ghost function DoomedSessions(cs: Tasks): set<string> {
    set t | t in cs && !cs[t].stage.Stopping? :: cs[t].session
  }

  ghost function DoomedContainers(cs: Tasks): set<nat> {
    set t | t in cs && cs[t].stage.Sleeping? :: cs[t].cid
  }

  /** The state of leases, records and containers once every pending cleanup has run. */
  ghost function Target(s: Sys): Outcome {
    Outcome(LiveLeases(s) - DoomedPorts(s.cleanups), s.rentals - DoomedSessions(s.cleanups),
            s.docker.containers - DoomedContainers(s.cleanups))
  }

  /** A step of a pending cleanup whose removal succeeds, or the passing of time. */
  predicate Draining(a: Action) {
    a.Tick? || (a.Remove? && a.ok) || a.Release? || a.Delete?
  }

  lemma RemoveWork(cs: Tasks, t: nat, g: Stage)
    requires t in cs && cs[t].stage.Sleeping? && g.Removed?
    ensures Work(cs[t := cs[t].(stage := g)]) == Work(cs) - 1
  {
    var cs' := cs[t := cs[t].(stage := g)];
    assert Asleep(cs') == Asleep(cs) - {t} && Emptied(cs') == Emptied(cs) + {t} && Closing(cs') == Closing(cs);
  }

  lemma RemoveDooms(cs: Tasks, t: nat, g: Stage)
    requires t in cs && cs[t].stage.Sleeping? && g.Removed?
    ensures var cs' := cs[t := cs[t].(stage := g)];
            && DoomedPorts(cs') == DoomedPorts(cs) && DoomedSessions(cs') == DoomedSessions(cs)
            && DoomedContainers(cs) == DoomedContainers(cs') + {cs[t].cid}
  {
    var cs' := cs[t := cs[t].(stage := g)];
    forall u | u in cs
      ensures cs'[u].port == cs[u].port && cs'[u].session == cs[u].session && cs'[u].cid == cs[u].cid
    {
    }
    assert forall p :: p in DoomedPorts(cs) ==> p in DoomedPorts(cs');
    assert forall n :: n in DoomedSessions(cs) ==> n in DoomedSessions(cs');
    assert forall c :: c in DoomedContainers(cs) ==> c in DoomedContainers(cs') + {cs[t].cid};
  }

  lemma ReleaseWork(cs: Tasks, t: nat, g: Stage)
    requires t in cs && cs[t].stage.Removed? && g.Freed?
    ensures Work(cs[t := cs[t].(stage := g)]) == Work(cs) - 1
  {
    var cs' := cs[t := cs[t].(stage := g)];
    assert Asleep(cs') == Asleep(cs) && Emptied(cs') == Emptied(cs) - {t} && Closing(cs') == Closing(cs) + {t};
  }

  lemma ReleaseDooms(cs: Tasks, t: nat, g: Stage)
    requires t in cs && cs[t].stage.Removed? && g.Freed?
    ensures var cs' := cs[t := cs[t].(stage := g)];
            && DoomedPorts(cs) == DoomedPorts(cs') + {cs[t].port}
            && DoomedSessions(cs') == DoomedSessions(cs) && DoomedContainers(cs') == DoomedContainers(cs)
  {
    var cs' := cs[t := cs[t].(stage := g)];
    forall u | u in cs
      ensures cs'[u].port == cs[u].port && cs'[u].session == cs[u].session && cs'[u].cid == cs[u].cid
    {
    }
    assert forall p :: p in DoomedPorts(cs) ==> p in DoomedPorts(cs') + {cs[t].port};
    assert forall n :: n in DoomedSessions(cs) ==> n in DoomedSessions(cs');
    assert forall c :: c in DoomedContainers(cs) ==> c in DoomedContainers(cs');
  }

  lemma DeleteWork(cs: Tasks, t: nat)
    requires t in cs && cs[t].stage.Freed?
    ensures Work(cs - {t}) == Work(cs) - 1
  {
    var cs' := cs - {t};
    assert Asleep(cs') == Asleep(cs) && Emptied(cs') == Emptied(cs) && Closing(cs') == Closing(cs) - {t};
  }

  lemma DeleteDooms(cs: Tasks, t: nat)
    requires t in cs && cs[t].stage.Freed?
    ensures DoomedPorts(cs - {t}) == DoomedPorts(cs) && DoomedContainers(cs - {t}) == DoomedContainers(cs)
    ensures DoomedSessions(cs) == DoomedSessions(cs - {t}) + {cs[t].session}
  {
    var cs' := cs - {t};
    forall u | u in cs && u != t
      ensures u in cs' && cs'[u].port == cs[u].port && cs'[u].session == cs[u].session && cs'[u].cid == cs[u].cid
    {
    }
    assert forall p :: p in DoomedPorts(cs) ==> p in DoomedPorts(cs');
    assert forall c :: c in DoomedContainers(cs) ==> c in DoomedContainers(cs');
    assert forall n :: n in DoomedSessions(cs) ==> n in DoomedSessions(cs') + {cs[t].session};
  }

  lemma RemoveDrains(s: Sys, t: nat)
    requires t in s.cleanups && s.cleanups[t].stage.Sleeping?
    ensures var s' := SetStage(RemoveContainer(s, s.cleanups[t].cid, true), t, Removed(s.cleanups[t].stage.since));
            Target(s') == Target(s) && Work(s'.cleanups) == Work(s.cleanups) - 1
  {
    var s' := SetStage(RemoveContainer(s, s.cleanups[t].cid, true), t, Removed(s.cleanups[t].stage.since));
    RemoveWork(s.cleanups, t, Removed(s.cleanups[t].stage.since));
    RemoveDooms(s.cleanups, t, Removed(s.cleanups[t].stage.since));
    assert LiveLeases(s') == LiveLeases(s);
    assert Target(s').containers == Target(s).containers;
  }

  lemma ReleaseLives(s: Sys, t: nat)
    requires t in s.cleanups && s.cleanups[t].inst in s.insts
    ensures LiveLeases(DoRelease(s, t)) == LiveLeases(s) - {s.cleanups[t].port}
  {
  }

  lemma TakeTwice(m: L.Table, p: int, ports: set<int>)
    ensures m - {p} - ports == m - (ports + {p})
  {
  }

  lemma ReleaseDrains(s: Sys, t: nat)
    requires t in s.cleanups && s.cleanups[t].stage.Removed? && s.cleanups[t].inst in s.insts
    ensures Target(DoRelease(s, t)) == Target(s) && Work(DoRelease(s, t).cleanups) == Work(s.cleanups) - 1
  {
    var s' := DoRelease(s, t);
    ReleaseWork(s.cleanups, t, Freed(s.now));
    ReleaseDooms(s.cleanups, t, Freed(s.now));
    ReleaseLives(s, t);
    TakeTwice(LiveLeases(s), s.cleanups[t].port, DoomedPorts(s'.cleanups));
  }

  lemma DeleteDrains(s: Sys, t: nat)
    requires t in s.cleanups && s.cleanups[t].stage.Freed?
    ensures Target(DoDelete(s, t)) == Target(s) && Work(DoDelete(s, t).cleanups) == Work(s.cleanups) - 1
  {
    var s' := DoDelete(s, t);
    DeleteWork(s.cleanups, t);
    DeleteDooms(s.cleanups, t);
    assert LiveLeases(s') == LiveLeases(s);
    assert Target(s').rentals == Target(s).rentals;
  }

  /** Every draining step keeps the target, and all but the passing of time use up work. */
  lemma DrainStep(k: Config, s: Sys, a: Action)
    requires Enabled(k, s, a) && Draining(a)
    ensures Target(Apply(k, s, a)) == Target(s)
    ensures Work(Apply(k, s, a).cleanups) == if a.Tick? then Work(s.cleanups) else Work(s.cleanups) - 1
  {
    match a
    case Tick(d) => assert LiveLeases(s.(now := s.now + d)) == LiveLeases(s);
    case Remove(t, _) => RemoveDrains(s, t);
    case Release(t) => ReleaseDrains(s, t);
    case Delete(t) => DeleteDrains(s, t);
  }

  predicate DrainRun(k: Config, s: Sys, acts: seq<Action>) {
    RunFrom(k, s, acts).Some? && forall n :: 0 <= n < |acts| ==> Draining(acts[n])
  }

  /** The number of cleanup steps in a schedule. */
  function Steps(acts: seq<Action>): nat {
    if acts == [] then 0
    else Steps(acts[..|acts| - 1]) + if acts[|acts| - 1].Tick? then 0 else 1
  }

  lemma {:induction false} DrainKeepsTarget(k: Config, s: Sys, acts: seq<Action>)
    requires DrainRun(k, s, acts)
    ensures var f := RunFrom(k, s, acts).value;
            Target(f) == Target(s) && Steps(acts) + Work(f.cleanups) == Work(s.cleanups)
  {
    if acts != [] {
      var n := |acts| - 1;
      DrainKeepsTarget(k, s, acts[..n]);
      DrainStep(k, RunFrom(k, s, acts[..n]).value, acts[n]);
    }
  }

  lemma NothingPending(s: Sys)
    requires Pending(s.cleanups) == {}
    ensures Observed(s) == Target(s) && Work(s.cleanups) == 0
  {
    var cs := s.cleanups;
    assert forall t :: t in cs && !cs[t].stage.Stopping? ==> t in Pending(cs);
    assert Asleep(cs) == {} && Emptied(cs) == {} && Closing(cs) == {};
    assert DoomedPorts(cs) == {} && DoomedSessions(cs) == {} && DoomedContainers(cs) == {};
    assert s.rentals - {} == s.rentals && s.docker.containers - {} == s.docker.containers;
  }

  /** Any two complete drains of one state, in whatever order, end alike, after equally many cleanup steps. */
  lemma DrainsAgree(k: Config, s: Sys, first: seq<Action>, second: seq<Action>)
    requires DrainRun(k, s, first) && DrainRun(k, s, second)
    requires Pending(RunFrom(k, s, first).value.cleanups) == {} && Pending(RunFrom(k, s, second).value.cleanups) == {}
    ensures Observed(RunFrom(k, s, first).value) == Observed(RunFrom(k, s, second).value) == Target(s)
    ensures Steps(first) == Steps(second) == Work(s.cleanups)
  {
    DrainKeepsTarget(k, s, first);
    DrainKeepsTarget(k, s, second);
    NothingPending(RunFrom(k, s, first).value);
    NothingPending(RunFrom(k, s, second).value);
  }

  predicate AllDue(k: Config, s: Sys) {
    forall t :: t in s.cleanups && s.cleanups[t].stage.Sleeping? ==> s.now >= s.cleanups[t].stage.since + k.grace
  }

  function NextStep(s: Sys, t: nat): Action
    requires t in s.cleanups && !s.cleanups[t].stage.Stopping?
  {
    match s.cleanups[t].stage
    case Sleeping(_) => Remove(t, true)
    case Removed(_) => Release(t)
    case Freed(_) => Delete(t)
  }

  /** Once all are due, every pending cleanup can always take its next step, and all stay due. */
  lemma NextStepPossible(k: Config, s: Sys, t: nat)
    requires Core(s) && AllDue(k, s) && t in s.cleanups && !s.cleanups[t].stage.Stopping?
    ensures Enabled(k, s, NextStep(s, t)) && Draining(NextStep(s, t)) && !NextStep(s, t).Tick?
    ensures AllDue(k, Apply(k, s, NextStep(s, t)))
  {
    assert CleanupOk(s, s.cleanups[t]);
  }

  lemma NextStepProgress(k: Config, s: Sys, t: nat)
    requires Core(s) && AllDue(k, s) && t in s.cleanups && !s.cleanups[t].stage.Stopping?
    ensures var a := NextStep(s, t);
            && Enabled(k, s, a) && Draining(a) && RunFrom(k, s, [a]) == Some(Apply(k, s, a))
            && Core(Apply(k, s, a)) && AllDue(k, Apply(k, s, a))
            && Work(Apply(k, s, a).cleanups) < Work(s.cleanups)
  {
    var a := NextStep(s, t);
    NextStepPossible(k, s, t);
    CoreStep(k, s, a);
    DrainStep(k, s, a);
    assert [a][..0] == [] && RunFrom(k, s, []) == Some(s);
  }

  lemma PrependStep(k: Config, s: Sys, a: Action, rest: seq<Action>)
    requires Enabled(k, s, a) && Draining(a) && RunFrom(k, s, [a]) == Some(Apply(k, s, a))
    requires DrainRun(k, Apply(k, s, a), rest)
    ensures DrainRun(k, s, [a] + rest) && RunFrom(k, s, [a] + rest) == RunFrom(k, Apply(k, s, a), rest)
  {
    RunConcat(k, s, [a], rest);
  }

  /** So no order of steps can get stuck: any drain can be completed. */
  lemma {:induction false} DrainCompletes(k: Config, s: Sys) returns (acts: seq<Action>)
    requires Core(s) && AllDue(k, s)
    ensures DrainRun(k, s, acts) && Pending(RunFrom(k, s, acts).value.cleanups) == {}
    decreases Work(s.cleanups)
  {
    acts := [];
    if Pending(s.cleanups) != {} {
      var t :| t in Pending(s.cleanups);
      var a := NextStep(s, t);
      NextStepProgress(k, s, t);
      var rest := DrainCompletes(k, Apply(k, s, a));
      PrependStep(k, s, a, rest);
      acts := [a] + rest;
    }
  }

  // ----- Which rentals survive -----

  /** The record of a successfully stopped rental has a pending cleanup that will delete it. */
  predicate StopPending(s: Sys, e: Entry) {
    e.inst in s.insts && s.insts[e.inst].stops > 0 ==>
      var t := s.insts[e.inst].stopTask;
      t in s.cleanups && !s.cleanups[t].stage.Stopping? && s.cleanups[t].inst == e.inst
  }

  predicate StopsPending(s: Sys) {
    forall n :: n in s.rentals ==> StopPending(s, s.rentals[n])
  }

  lemma MarkPending(s: Sys, session: string)
    requires Core(s) && StopsPending(s) && session in s.rentals
    ensures StopsPending(DoMark(s, session))
  {
    var s' := DoMark(s, session);
    forall n | n in s'.rentals
      ensures StopPending(s', s'.rentals[n])
    {
      assert StopPending(s, s.rentals[n]);
    }
  }

  lemma StopCallPending(s: Sys, t: nat, ok: bool)
    requires Core(s) && StopsPending(s) && t in s.cleanups && s.cleanups[t].stage.Stopping? && s.cleanups[t].inst in s.insts
    ensures StopsPending(DoStop(s, t, ok))
  {
    var s' := DoStop(s, t, ok);
    forall n | n in s'.rentals
      ensures StopPending(s', s'.rentals[n])
    {
      assert StopPending(s, s.rentals[n]);
    }
  }

  lemma RemovePending(s: Sys, t: nat, ok: bool)
    requires StopsPending(s) && t in s.cleanups && s.cleanups[t].stage.Sleeping?
    ensures StopsPending(SetStage(RemoveContainer(s, s.cleanups[t].cid, ok), t, Removed(s.cleanups[t].stage.since)))
  {
    var s' := SetStage(RemoveContainer(s, s.cleanups[t].cid, ok), t, Removed(s.cleanups[t].stage.since));
    forall n | n in s'.rentals
      ensures StopPending(s', s'.rentals[n])
    {
      assert StopPending(s, s.rentals[n]);
    }
  }

  lemma ReleasePending(s: Sys, t: nat)
    requires StopsPending(s) && t in s.cleanups && s.cleanups[t].stage.Removed? && s.cleanups[t].inst in s.insts
    ensures StopsPending(DoRelease(s, t))
  {
    var s' := DoRelease(s, t);
    forall n | n in s'.rentals
      ensures StopPending(s', s'.rentals[n])
    {
      assert StopPending(s, s.rentals[n]);
    }
  }

  lemma DeletePending(s: Sys, t: nat)
    requires Core(s) && StopsPending(s) && t in s.cleanups
    ensures StopsPending(DoDelete(s, t))
  {
    var s' := DoDelete(s, t);
    forall n | n in s'.rentals
      ensures StopPending(s', s'.rentals[n])
    {
      assert EntryOk(s, n, s.rentals[n]) && CleanupOk(s, s.cleanups[t]) && StopPending(s, s.rentals[n]);
    }
  }

  lemma RegisterPending(s: Sys, i: nat)
    requires Core(s) && StopsPending(s) && At(s, i, Healthy)
    ensures StopsPending(DoRegister(s, i))
  {
    var s' := DoRegister(s, i);
    assert InstanceOk(s, i);
    forall n | n in s'.rentals
      ensures StopPending(s', s'.rentals[n])
    {
      if n != s.insts[i].session {
        assert StopPending(s, s.rentals[n]);
      }
    }
  }

  /** Steps that change neither records nor cleanups. */
  lemma IdlePending(s: Sys, s': Sys)
    requires Core(s) && StopsPending(s) && Calm(s, s') && s'.cleanups == s.cleanups && s'.rentals == s.rentals
    ensures StopsPending(s')
  {
    forall n | n in s'.rentals
      ensures StopPending(s', s'.rentals[n])
    {
      assert EntryOk(s, n, s.rentals[n]) && StopPending(s, s.rentals[n]);
      assert SameStops(s.insts[s.rentals[n].inst], s'.insts[s.rentals[n].inst]);
    }
  }

  lemma IdlePendingStep(k: Config, s: Sys, a: Action)
    requires Core(s) && StopsPending(s) && Enabled(k, s, a) && Idle(a) && !a.Register?
    ensures StopsPending(Apply(k, s, a))
  {
    NextIsNew(s);
    CalmStep(k, s, a);
    IdleCleanups(k, s, a);
    IdlePending(s, Apply(k, s, a));
  }

  lemma StopsPendingStep(k: Config, s: Sys, a: Action)
    requires Core(s) && StopsPending(s) && Enabled(k, s, a)
    ensures StopsPending(Apply(k, s, a))
  {
    match a
    case Register(i) => RegisterPending(s, i);
    case Mark(n) => MarkPending(s, n);
    case StopContainer(t, ok) => StopCallPending(s, t, ok);
    case Remove(t, ok) => RemovePending(s, t, ok);
    case Release(t) => ReleasePending(s, t);
    case Delete(t) => DeletePending(s, t);
    case _ => IdlePendingStep(k, s, a);
  }

  lemma {:induction false} StopsPendingAlways(k: Config, acts: seq<Action>)
    requires Run(k, acts).Some?
    ensures StopsPending(Run(k, acts).value)
  {
    if acts != [] {
      var n := |acts| - 1;
      StopsPendingAlways(k, acts[..n]);
      CoreAlways(k, acts[..n]);
      StopsPendingStep(k, Run(k, acts[..n]).value, acts[n]);
    }
  }

  lemma NoStopNoCleanup(k: Config, s: Sys, n: string)
    requires Core(s) && Solo(k, s) && FreshSessions(s) && n in s.rentals
    requires s.rentals[n].inst in s.insts && s.insts[s.rentals[n].inst].stops == 0
    ensures n !in DoomedSessions(s.cleanups)
  {
    forall t | t in s.cleanups && !s.cleanups[t].stage.Stopping?
      ensures s.cleanups[t].session != n
    {
      assert CleanupOk(s, s.cleanups[t]) && TaskOk(k, s, s.cleanups[t], t) && EntryOk(s, n, s.rentals[n]);
    }
  }

  /** No pending cleanup will touch the container of a rental that was never successfully stopped. */
  lemma UnstoppedKeepsContainer(k: Config, s: Sys, i: nat)
    requires Core(s) && Solo(k, s) && i in s.insts && s.insts[i].stops == 0 && s.insts[i].cid.Some?
    ensures s.insts[i].cid.value !in DoomedContainers(s.cleanups)
  {
    forall t | t in s.cleanups && s.cleanups[t].stage.Sleeping?
      ensures s.cleanups[t].cid != s.insts[i].cid.value
    {
      assert CleanupOk(s, s.cleanups[t]) && TaskOk(k, s, s.cleanups[t], t);
      assert InstanceOk(s, i) && InstanceOk(s, s.cleanups[t].inst);
    }
  }

  /** Nor, with one stop each, its port. */
  lemma UnstoppedKeepsPort(k: Config, s: Sys, i: nat)
    requires Core(s) && Solo(k, s) && Own(s) && StoppedOnce(s)
    requires i in s.insts && s.insts[i].stops == 0 && PastRegistration(s.insts[i].phase)
    ensures L.Live(s.leases, s.insts[i].port) && s.leases[s.insts[i].port].session == s.insts[i].session
    ensures s.insts[i].port !in DoomedPorts(s.cleanups)
  {
    assert StopOk(k, s.insts[i]) && HolderOk(s, i);
    forall t | t in s.cleanups && (s.cleanups[t].stage.Sleeping? || s.cleanups[t].stage.Removed?)
      ensures s.cleanups[t].port != s.insts[i].port
    {
      assert CleanupOk(s, s.cleanups[t]) && TaskOk(k, s, s.cleanups[t], t) && HolderOk(s, s.cleanups[t].inst);
    }
  }

  /** The container of a stopped rental is gone after the drain, unless its removal had failed before. */
  lemma StoppedLosesContainer(k: Config, s: Sys, f: Sys, e: Entry)
    requires Core(s) && StopPending(s, e) && e.inst in s.insts && s.insts[e.inst].stops > 0
    requires f.docker.containers == s.docker.containers - DoomedContainers(s.cleanups)
    requires s.insts[e.inst].cid == Some(e.cid)
    ensures e.cid in f.docker.containers ==> e.cid in s.leaks
  {
    var c := s.cleanups[s.insts[e.inst].stopTask];
    assert CleanupOk(s, c);
    if c.stage.Sleeping? {
      assert c.cid in DoomedContainers(s.cleanups);
    }
  }

  /**
   * After any history and a complete drain, exactly the rentals that were
   * successfully stopped are gone: their records, and their containers unless
   * a removal had failed before. Every other record and its container are as
   * they were, and, with no rental stopped twice, so is its live lease.
   */
  lemma DrainRemovesStoppedOnly(k: Config, acts: seq<Action>, drain: seq<Action>, n: string)
    requires Run(k, acts).Some? && FreshSessions(Run(k, acts).value)
    requires DrainRun(k, Run(k, acts).value, drain)
    requires Pending(RunFrom(k, Run(k, acts).value, drain).value.cleanups) == {}
    requires n in Run(k, acts).value.rentals
    ensures var s, f := Run(k, acts).value, RunFrom(k, Run(k, acts).value, drain).value;
            var e := s.rentals[n];
            && e.inst in s.insts
            && (n in f.rentals <==> s.insts[e.inst].stops == 0)
            && (n !in f.rentals ==> e.cid in f.docker.containers ==> e.cid in s.leaks)
            && (n in f.rentals ==>
                  && f.rentals[n] == e
                  && (e.cid in f.docker.containers <==> e.cid in s.docker.containers)
                  && (e.cid in f.docker.containers ==> f.docker.containers[e.cid] == s.docker.containers[e.cid])
                  && (StoppedOnce(s) ==>
                        L.Live(s.leases, e.port) && L.Live(f.leases, e.port)
                        && f.leases[e.port] == s.leases[e.port] && s.leases[e.port].session == n))
  {
    var s, f := Run(k, acts).value, RunFrom(k, Run(k, acts).value, drain).value;
    var e := s.rentals[n];
    CoreAlways(k, acts);
    StopsPendingAlways(k, acts);
    SoloAlways(k, acts);
    DrainKeepsTarget(k, s, drain);
    NothingPending(f);
    assert EntryOk(s, n, e) && StopPending(s, e);
    if s.insts[e.inst].stops > 0 {
      assert CleanupOk(s, s.cleanups[s.insts[e.inst].stopTask]);
      assert n in DoomedSessions(s.cleanups);
      StoppedLosesContainer(k, s, f, e);
    } else {
      NoStopNoCleanup(k, s, n);
      UnstoppedKeepsContainer(k, s, e.inst);
      if StoppedOnce(s) {
        OwnAlways(k, acts);
        UnstoppedKeepsPort(k, s, e.inst);
        assert e.port in LiveLeases(f);
      }
    }
  }
}
