/**
 * Repeated stops on an engine that works: every removal succeeds and a
 * container that is gone cannot be stopped. Once a rental's container is
 * removed no further stop of it can succeed, so only the time a cleanup takes
 * after its grace period still matters.
 */
module RentalReliableEngine {
  import opened Wrappers
  import opened RentalProtocol
  import opened RentalInvariants
  import opened RentalOwnership
  import opened RentalSingleStop
  import opened RentalTiming
  import L = Leases

  predicate Awake(k: Config, late: nat, now: int, c: Cleanup) {
    c.stage.Sleeping? || c.stage.Removed? ==> now <= c.stage.since + k.grace + late
  }

  /** Cleanups have released their port at most `late` after their grace period. */
  predicate Punctual(k: Config, late: nat, s: Sys) {
    forall t :: t in s.cleanups ==> Awake(k, late, s.now, s.cleanups[t])
  }

  predicate ReliableRun(k: Config, late: nat, acts: seq<Action>) {
    && Run(k, acts).Some?
    && Punctual(k, late, Run(k, acts).value) && Run(k, acts).value.leaks == {}
    && (acts != [] ==>
          var n := |acts| - 1;
          ReliableRun(k, late, acts[..n]) && Honest(Run(k, acts[..n]).value, acts[n]))
  }

  /** A cleanup still to release the port of a released rental began its wait before that release. */
  predicate SettledTask(s: Sys, c: Cleanup) {
    (c.stage.Sleeping? || c.stage.Removed?) && c.inst in s.insts && s.insts[c.inst].phase.Released? ==>
      c.stage.since <= s.insts[c.inst].phase.at && OwnerIs(s, c.port, c.inst)
  }

  predicate Settled(s: Sys) {
    forall t :: t in s.cleanups ==> SettledTask(s, s.cleanups[t])
  }

  lemma CalmKeepsSettled(k: Config, s: Sys, a: Action)
    requires Core(s) && Settled(s) && Enabled(k, s, a) && !MovesCleanup(a) && !a.Allocate?
    ensures Settled(Apply(k, s, a))
  {
    var s' := Apply(k, s, a);
    NextIsNew(s);
    CalmStep(k, s, a);
    OwnersKept(k, s, a);
    forall t | t in s'.cleanups
      ensures SettledTask(s', s'.cleanups[t])
    {
      if !s'.cleanups[t].stage.Stopping? {
        var c := s.cleanups[t];
        assert CleanupOk(s, c) && SettledTask(s, c) && SameStops(s.insts[c.inst], s'.insts[c.inst]);
      }
    }
  }

  /** The port of a released rental with a cleanup left is not given to anyone else before that cleanup is done. */
  lemma StillKept(k: Config, late: nat, s: Sys, t: nat)
    requires Core(s) && Own(s) && Settled(s) && Punctual(k, late, s) && k.ports.grace > k.grace + late
    requires t in s.cleanups && (s.cleanups[t].stage.Sleeping? || s.cleanups[t].stage.Removed?)
    requires s.cleanups[t].inst in s.insts && s.insts[s.cleanups[t].inst].phase.Released?
    ensures !L.Eligible(k.ports.grace, s.leases, s.cleanups[t].port, s.now) && !L.Live(s.leases, s.cleanups[t].port)
  {
    var c := s.cleanups[t];
    assert CleanupOk(s, c) && SettledTask(s, c) && Awake(k, late, s.now, c) && HolderOk(s, c.inst);
  }

  lemma GrantKeepsSettled(k: Config, late: nat, s: Sys, i: nat)
    requires Core(s) && Own(s) && Settled(s) && Punctual(k, late, s) && k.ports.grace > k.grace + late && At(s, i, Checked)
    ensures Settled(DoAllocate(k, s, i))
  {
    var s' := DoAllocate(k, s, i);
    forall t | t in s'.cleanups
      ensures SettledTask(s', s'.cleanups[t])
    {
      var c := s.cleanups[t];
      assert CleanupOk(s, c) && SettledTask(s, c);
      if (c.stage.Sleeping? || c.stage.Removed?) && s.insts[c.inst].phase.Released? {
        StillKept(k, late, s, t);
      }
    }
  }

  /** A stop that succeeds found its container, so its rental's port is not released yet. */
  lemma StopKeepsSettled(s: Sys, t: nat)
    requires Core(s) && Settled(s) && s.leaks == {} && Honest(s, StopContainer(t, true))
    requires t in s.cleanups && s.cleanups[t].stage.Stopping? && s.cleanups[t].inst in s.insts
    ensures Settled(DoStop(s, t, true))
  {
    var s' := DoStop(s, t, true);
    assert CleanupOk(s, s.cleanups[t]) && InstanceOk(s, s.cleanups[t].inst);
    forall u | u in s'.cleanups
      ensures SettledTask(s', s'.cleanups[u])
    {
      assert SettledTask(s, s.cleanups[u]);
    }
  }

  lemma RemovalKeepsSettled(s: Sys, c: nat, ok: bool)
    requires Settled(s)
    ensures Settled(RemoveContainer(s, c, ok)) && RemoveContainer(s, c, ok).cleanups == s.cleanups
  {
    forall u | u in s.cleanups
      ensures SettledTask(RemoveContainer(s, c, ok), s.cleanups[u])
    {
      assert SettledTask(s, s.cleanups[u]);
    }
  }

  lemma RemovedKeepsSettled(s: Sys, t: nat)
    requires Settled(s) && t in s.cleanups && s.cleanups[t].stage.Sleeping?
    ensures Settled(SetStage(s, t, Removed(s.cleanups[t].stage.since)))
  {
    var s' := SetStage(s, t, Removed(s.cleanups[t].stage.since));
    forall u | u in s'.cleanups
      ensures SettledTask(s', s'.cleanups[u])
    {
      assert SettledTask(s, s.cleanups[u]);
    }
  }

  lemma ReleaseKeepsSettled(s: Sys, t: nat)
    requires Core(s) && Own(s) && Settled(s) && t in s.cleanups && s.cleanups[t].stage.Removed?
    ensures Settled(DoRelease(s, t))
  {
    var s', c := DoRelease(s, t), s.cleanups[t];
    assert CleanupOk(s, c) && HolderOk(s, c.inst);
    forall u | u in s'.cleanups
      ensures SettledTask(s', s'.cleanups[u])
    {
      assert SettledTask(s, s.cleanups[u]) && CleanupOk(s, s.cleanups[u]);
    }
  }

  lemma SettledStep(k: Config, late: nat, s: Sys, a: Action)
    requires Core(s) && Own(s) && Settled(s) && Punctual(k, late, s) && k.ports.grace > k.grace + late
    requires Enabled(k, s, a) && Honest(s, a) && s.leaks == {}
    ensures Settled(Apply(k, s, a))
  {
    if a.Allocate? {
      GrantKeepsSettled(k, late, s, a.inst);
    } else if !MovesCleanup(a) {
      CalmKeepsSettled(k, s, a);
    } else if a.StopContainer? {
      StopKeepsSettled(s, a.task);
    } else if a.Remove? {
      RemovalKeepsSettled(s, s.cleanups[a.task].cid, a.ok);
      RemovedKeepsSettled(RemoveContainer(s, s.cleanups[a.task].cid, a.ok), a.task);
    } else {
      ReleaseKeepsSettled(s, a.task);
    }
  }

  lemma {:induction false} ReliableRunIsSafe(k: Config, late: nat, acts: seq<Action>)
    requires ReliableRun(k, late, acts) && k.ports.grace > k.grace + late
    ensures Own(Run(k, acts).value) && Settled(Run(k, acts).value)
  {
    if acts != [] {
      var n := |acts| - 1;
      var s, a := Run(k, acts[..n]).value, acts[n];
      ReliableRunIsSafe(k, late, acts[..n]);
      CoreAlways(k, acts[..n]);
      SettledStep(k, late, s, a);
      if a.Release? && Harmful(s, a.task) {
        assert CleanupOk(s, s.cleanups[a.task]);
        StillKept(k, late, s, a.task);
      }
      OwnStep(k, s, a);
    }
  }

  // ----- Without the margin -----

  lemma LeaksStay(s: Sys, c: nat, ok: bool)
    ensures s.leaks <= RemoveContainer(s, c, ok).leaks
  {
  }

  lemma LeaksKept(k: Config, s: Sys, a: Action)
    requires Enabled(k, s, a)
    ensures s.leaks <= Apply(k, s, a).leaks
  {
    match a
    case RollbackRemove(i, ok) => LeaksStay(s, s.insts[i].cid.value, ok);
    case Remove(t, ok) => LeaksStay(s, s.cleanups[t].cid, ok);
    case _ =>
  }

  /** An honest, timely run in which nothing was left behind is reliable. */
  lemma {:induction false} HonestIsReliable(k: Config, d: Delays, acts: seq<Action>)
    requires HonestRun(k, d, acts) && Run(k, acts).value.leaks == {}
    ensures ReliableRun(k, d.late, acts)
  {
    var s := Run(k, acts).value;
    forall t | t in s.cleanups
      ensures Awake(k, d.late, s.now, s.cleanups[t])
    {
      assert InTime(k, d, s.now, s.cleanups[t]);
    }
    if acts != [] {
      var n := |acts| - 1;
      LeaksKept(k, Run(k, acts[..n]).value, acts[n]);
      HonestIsReliable(k, d, acts[..n]);
    }
  }

  /** Stopped once more just before its container goes. */
  lemma StoppedTwice(k: Config, d: Delays) returns (acts: seq<Action>)
    requires k.ports.minPort <= k.ports.maxPort
    ensures HonestRun(k, d, acts)
    ensures var s, p := Run(k, acts).value, k.ports.minPort;
            && s.now == k.grace && s.leaks == {} && s.leases == map[p := L.Lease("a", 0, None)]
            && s.rentals == map["a" := Entry(0, 0, p, 0, Some(k.grace))]
            && s.insts == map[0 := Instance("a", "", p, Some(0), Registered, 2, 1, k.grace)] && s.nextInst == 1
            && s.cleanups == map[0 := Cleanup(0, "a", 0, p, 0, Sleeping(0)),
                                 1 := Cleanup(0, "a", 0, p, k.grace, Sleeping(k.grace))]
  {
    acts := OneStoppedRental(k, d);
    var p, g, s := k.ports.minPort, k.grace, Run(k, acts).value;
    Extend(k, d, acts, Tick(g));
    acts := acts + [Tick(g)];
    s := Run(k, acts).value;
    Extend(k, d, acts, Mark("a"));
    acts := acts + [Mark("a")];
    s := Run(k, acts).value;
    assert s.cleanups == map[0 := Cleanup(0, "a", 0, p, 0, Sleeping(0)), 1 := Cleanup(0, "a", 0, p, g, Stopping)];
    assert s.rentals == map["a" := Entry(0, 0, p, 0, Some(g))];
    StopOnly(s, 1, s.insts[0]);
    assert DoStop(s, 1, true).cleanups
           == map[0 := Cleanup(0, "a", 0, p, 0, Sleeping(0)), 1 := Cleanup(0, "a", 0, p, g, Sleeping(g))];
    Extend(k, d, acts, StopContainer(1, true));
    acts := acts + [StopContainer(1, true)];
  }

  lemma FirstGone(k: Config, d: Delays) returns (acts: seq<Action>)
    requires k.ports.minPort <= k.ports.maxPort
    ensures HonestRun(k, d, acts)
    ensures var s, p := Run(k, acts).value, k.ports.minPort;
            && s.now == k.grace && s.leaks == {} && s.leases == map[p := L.Lease("a", 0, None)]
            && s.rentals == map["a" := Entry(0, 0, p, 0, Some(k.grace))]
            && s.insts == map[0 := Instance("a", "", p, Some(0), Registered, 2, 1, k.grace)] && s.nextInst == 1
            && s.cleanups == map[0 := Cleanup(0, "a", 0, p, 0, Removed(0)),
                                 1 := Cleanup(0, "a", 0, p, k.grace, Sleeping(k.grace))]
  {
    acts := StoppedTwice(k, d);
    var p, g := k.ports.minPort, k.grace;
    Extend(k, d, acts, Remove(0, true));
    acts := acts + [Remove(0, true)];
    assert Run(k, acts).value.cleanups
           == map[0 := Cleanup(0, "a", 0, p, 0, Removed(0)), 1 := Cleanup(0, "a", 0, p, g, Sleeping(g))];
  }

  lemma FirstFreed(k: Config, d: Delays) returns (acts: seq<Action>)
    requires k.ports.minPort <= k.ports.maxPort
    ensures HonestRun(k, d, acts)
    ensures var s, p := Run(k, acts).value, k.ports.minPort;
            && s.now == k.grace && s.leaks == {} && s.leases == map[p := L.Lease("a", 0, Some(k.grace))]
            && s.rentals == map["a" := Entry(0, 0, p, 0, Some(k.grace))]
            && s.insts == map[0 := Instance("a", "", p, Some(0), Released(k.grace, 0), 2, 1, k.grace)] && s.nextInst == 1
            && s.cleanups == map[0 := Cleanup(0, "a", 0, p, 0, Freed(k.grace)),
                                 1 := Cleanup(0, "a", 0, p, k.grace, Sleeping(k.grace))]
  {
    acts := FirstGone(k, d);
    var p, g, s := k.ports.minPort, k.grace, Run(k, acts).value;
    ReleaseOnly(s, p, s.insts[0]);
    assert DoRelease(s, 0).cleanups == map[0 := Cleanup(0, "a", 0, p, 0, Freed(g)), 1 := Cleanup(0, "a", 0, p, g, Sleeping(g))];
    Extend(k, d, acts, Release(0));
    acts := acts + [Release(0)];
  }

  /** The first cleanup is done; the second is still waiting. */
  lemma FirstDone(k: Config, d: Delays) returns (acts: seq<Action>)
    requires k.ports.minPort <= k.ports.maxPort && d.stop == d.gap == 0
    ensures HonestRun(k, d, acts) && Run(k, acts).value.leaks == {} && SleptAgain(k, d, Run(k, acts).value)
  {
    acts := FirstFreed(k, d);
    var p, g := k.ports.minPort, k.grace;
    Extend(k, d, acts, Delete(0));
    acts := acts + [Delete(0)];
    assert Run(k, acts).value.cleanups == map[1 := Cleanup(0, "a", 0, p, g, Sleeping(g))];
    assert Run(k, acts).value.rentals == map[];
  }

  /** On an engine that works, ports are owned by those who hold them. */
  ghost predicate ReliableStopsAreSafe(k: Config, late: nat) {
    forall acts :: ReliableRun(k, late, acts) ==> Own(Run(k, acts).value)
  }

  /** On an engine that works, only the delay after the grace period has to be made up for. */
  lemma SafeExactlyWhenLate(k: Config, late: nat)
    requires k.ports.minPort <= k.ports.maxPort
    ensures ReliableStopsAreSafe(k, late) <==> k.ports.grace > k.grace + late
  {
    if k.ports.grace > k.grace + late {
      forall acts | ReliableRun(k, late, acts)
        ensures Own(Run(k, acts).value)
      {
        ReliableRunIsSafe(k, late, acts);
      }
    } else {
      var d := Delays(0, late, 0);
      var acts := FirstDone(k, d);
      acts := PortTaken(k, d, acts);
      HonestIsReliable(k, d, acts);
    }
  }

  /** The shipped grace periods are equal: not even an engine that works and wakes without delay makes them safe. */
  lemma ShippedSettingsUnsafeAnyway(late: nat)
    ensures !ReliableStopsAreSafe(SHIPPED, late)
  {
    SafeExactlyWhenLate(SHIPPED, late);
  }
}
