/**
 * Rentals that may be stopped any number of times. A cleanup that comes after
 * its rental's port was already released is harmless as long as the port is
 * still quarantined, which is a matter of time: this module finds the exact
 * relation between the two grace periods and the delays of the node.
 */
module RentalTiming {
  import opened Wrappers
  import opened RentalProtocol
  import opened RentalInvariants
  import opened RentalOwnership
  import opened RentalSingleStop
  import L = Leases
  import D = Docker

  /** Bounds on StopContainer, on waking up, removing and releasing once the grace is over, and on release to delete. */
  datatype Delays = Delays(stop: nat, late: nat, gap: nat)

  predicate InTime(k: Config, d: Delays, now: int, c: Cleanup) {
    match c.stage
    case Stopping => now <= c.markedAt + d.stop
    case Sleeping(since) => now <= since + k.grace + d.late
    case Removed(since) => now <= since + k.grace + d.late
    case Freed(at) => now <= at + d.gap
  }

  predicate Timely(k: Config, d: Delays, s: Sys) {
    forall t :: t in s.cleanups ==> InTime(k, d, s.now, s.cleanups[t])
  }

  /** A possible schedule in which no delay ever exceeds its bound. */
  predicate TimelyRun(k: Config, d: Delays, acts: seq<Action>) {
    && Run(k, acts).Some?
    && Timely(k, d, Run(k, acts).value)
    && (acts != [] ==> TimelyRun(k, d, acts[..|acts| - 1]))
  }

  predicate Margin(k: Config, d: Delays) {
    k.ports.grace > k.grace + d.stop + d.late + d.gap
  }

  /** The allocator still has instance i on record for port p. */
  predicate OwnerIs(s: Sys, p: int, i: nat) {
    p in s.owners && s.owners[p] == i
  }

  /** A cleanup of an already released rental was marked before the rental's record went. */
  predicate LateOk(d: Delays, s: Sys, c: Cleanup) {
    && (c.stage.Sleeping? || c.stage.Removed? ==> c.stage.since <= c.markedAt + d.stop)
    && (c.inst in s.insts && s.insts[c.inst].phase.Released? && !c.stage.Freed? ==>
          c.markedAt <= s.insts[c.inst].phase.at + d.gap && OwnerIs(s, c.port, c.inst))
  }

  /** While the record of a released rental is there, the cleanup that released it is about to delete it. */
  predicate RecordOk(s: Sys, e: Entry) {
    e.inst in s.insts && s.insts[e.inst].phase.Released? ==>
      var r := s.insts[e.inst].phase;
      && OwnerIs(s, e.port, e.inst)
      && r.task in s.cleanups && s.cleanups[r.task].inst == e.inst && s.cleanups[r.task].stage == Freed(r.at)
  }

  predicate Timed(d: Delays, s: Sys) {
    && (forall t :: t in s.cleanups ==> LateOk(d, s, s.cleanups[t]))
    && (forall n :: n in s.rentals ==> RecordOk(s, s.rentals[n]))
  }

  /** Steps that leave records, cleanups and owners alone. */
  lemma IdleKeepsTimed(d: Delays, s: Sys, s': Sys)
    requires Core(s) && Timed(d, s) && Calm(s, s')
    requires s'.cleanups == s.cleanups && s'.owners == s.owners
    requires forall n :: n in s'.rentals ==>
               (n in s.rentals && s'.rentals[n] == s.rentals[n])
               || (s'.rentals[n].inst in s'.insts && !s'.insts[s'.rentals[n].inst].phase.Released?)
    ensures Timed(d, s')
  {
    forall t | t in s'.cleanups
      ensures LateOk(d, s', s'.cleanups[t])
    {
      assert CleanupOk(s, s.cleanups[t]) && LateOk(d, s, s.cleanups[t]);
      assert SameStops(s.insts[s.cleanups[t].inst], s'.insts[s.cleanups[t].inst]);
    }
    forall n | n in s'.rentals
      ensures RecordOk(s', s'.rentals[n])
    {
      if n in s.rentals && s'.rentals[n] == s.rentals[n] {
        assert EntryOk(s, n, s.rentals[n]) && RecordOk(s, s.rentals[n]);
        assert SameStops(s.insts[s.rentals[n].inst], s'.insts[s.rentals[n].inst]);
      }
    }
  }

  /** A port on record for a released rental that still has business with it is not yet eligible. */
  lemma StillQuarantined(k: Config, d: Delays, s: Sys, i: nat, p: int)
    requires Own(s) && Margin(k, d) && i in s.insts && s.insts[i].phase.Released?
    requires OwnerIs(s, p, i) && s.insts[i].port == p
    requires s.now <= s.insts[i].phase.at + k.grace + d.stop + d.late + d.gap
    ensures !L.Eligible(k.ports.grace, s.leases, p, s.now) && !L.Live(s.leases, p)
  {
    assert HolderOk(s, i);
  }

  /** How late a cleanup of a released rental can be before it releases the port again. */
  lemma LatenessBound(k: Config, d: Delays, s: Sys, t: nat)
    requires Core(s) && Timed(d, s) && Timely(k, d, s) && t in s.cleanups && !s.cleanups[t].stage.Freed?
    requires s.cleanups[t].inst in s.insts && s.insts[s.cleanups[t].inst].phase.Released?
    ensures s.now <= s.insts[s.cleanups[t].inst].phase.at + k.grace + d.stop + d.late + d.gap
  {
    assert LateOk(d, s, s.cleanups[t]) && InTime(k, d, s.now, s.cleanups[t]);
  }

  lemma GrantKeepsRecords(k: Config, d: Delays, s: Sys, i: nat)
    requires Core(s) && Own(s) && Timed(d, s) && Timely(k, d, s) && Margin(k, d) && At(s, i, Checked)
    ensures var s' := DoAllocate(k, s, i); forall n :: n in s'.rentals ==> RecordOk(s', s'.rentals[n])
  {
    var s' := DoAllocate(k, s, i);
    forall n | n in s'.rentals
      ensures RecordOk(s', s'.rentals[n])
    {
      var e := s.rentals[n];
      assert EntryOk(s, n, e) && RecordOk(s, e);
      if s.insts[e.inst].phase.Released? {
        assert InTime(k, d, s.now, s.cleanups[s.insts[e.inst].phase.task]);
        StillQuarantined(k, d, s, e.inst, e.port);
      }
    }
  }

  lemma GrantKeepsTimed(k: Config, d: Delays, s: Sys, i: nat)
    requires Core(s) && Own(s) && Timed(d, s) && Timely(k, d, s) && Margin(k, d) && At(s, i, Checked)
    ensures Timed(d, DoAllocate(k, s, i))
  {
    var s' := DoAllocate(k, s, i);
    GrantKeepsRecords(k, d, s, i);
    forall t | t in s'.cleanups
      ensures LateOk(d, s', s'.cleanups[t])
    {
      var c := s.cleanups[t];
      assert CleanupOk(s, c) && LateOk(d, s, c);
      if s.insts[c.inst].phase.Released? && !c.stage.Freed? {
        LatenessBound(k, d, s, t);
        StillQuarantined(k, d, s, c.inst, c.port);
      }
    }
  }

  lemma MarkKeepsTimed(k: Config, d: Delays, s: Sys, session: string)
    requires Core(s) && Timed(d, s) && Timely(k, d, s) && session in s.rentals
    ensures Timed(d, DoMark(s, session))
  {
    var s' := DoMark(s, session);
    forall t | t in s'.cleanups
      ensures LateOk(d, s', s'.cleanups[t])
    {
      if t == s.nextCleanup {
        var e := s.rentals[session];
        assert EntryOk(s, session, e) && RecordOk(s, e);
        if s.insts[e.inst].phase.Released? {
          assert InTime(k, d, s.now, s.cleanups[s.insts[e.inst].phase.task]);
        }
      } else {
        assert LateOk(d, s, s.cleanups[t]);
      }
    }
    forall n | n in s'.rentals
      ensures RecordOk(s', s'.rentals[n])
    {
      assert RecordOk(s, s.rentals[n]);
    }
  }

  lemma DeleteKeepsTimed(d: Delays, s: Sys, t: nat)
    requires Core(s) && Timed(d, s) && t in s.cleanups
    ensures Timed(d, DoDelete(s, t))
  {
    var s' := DoDelete(s, t);
    forall u | u in s'.cleanups
      ensures LateOk(d, s', s'.cleanups[u])
    {
      assert LateOk(d, s, s.cleanups[u]);
    }
    forall n | n in s'.rentals
      ensures RecordOk(s', s'.rentals[n])
    {
      assert CleanupOk(s, s.cleanups[t]) && EntryOk(s, n, s.rentals[n]) && RecordOk(s, s.rentals[n]);
    }
  }

  lemma StopKeepsTimed(k: Config, d: Delays, s: Sys, t: nat, ok: bool)
    requires Core(s) && Timed(d, s) && Timely(k, d, s) && t in s.cleanups && s.cleanups[t].stage.Stopping?
    ensures Timed(d, DoStop(s, t, ok))
  {
    var s' := DoStop(s, t, ok);
    assert CleanupOk(s, s.cleanups[t]) && InTime(k, d, s.now, s.cleanups[t]);
    forall u | u in s'.cleanups
      ensures LateOk(d, s', s'.cleanups[u])
    {
      assert LateOk(d, s, s.cleanups[u]);
    }
    forall n | n in s'.rentals
      ensures RecordOk(s', s'.rentals[n])
    {
      assert RecordOk(s, s.rentals[n]);
    }
  }

  lemma RemovalKeepsTimed(d: Delays, s: Sys, c: nat, ok: bool)
    requires Timed(d, s)
    ensures Timed(d, RemoveContainer(s, c, ok))
    ensures RemoveContainer(s, c, ok).cleanups == s.cleanups
  {
    var s' := RemoveContainer(s, c, ok);
    forall u | u in s'.cleanups
      ensures LateOk(d, s', s'.cleanups[u])
    {
      assert LateOk(d, s, s.cleanups[u]);
    }
    forall n | n in s'.rentals
      ensures RecordOk(s', s'.rentals[n])
    {
      assert RecordOk(s, s.rentals[n]);
    }
  }

  lemma RemovedKeepsTimed(d: Delays, s: Sys, t: nat)
    requires Timed(d, s) && t in s.cleanups && s.cleanups[t].stage.Sleeping?
    ensures Timed(d, SetStage(s, t, Removed(s.cleanups[t].stage.since)))
  {
    var s' := SetStage(s, t, Removed(s.cleanups[t].stage.since));
    forall u | u in s'.cleanups
      ensures LateOk(d, s', s'.cleanups[u])
    {
      assert LateOk(d, s, s.cleanups[u]);
    }
    forall n | n in s'.rentals
      ensures RecordOk(s', s'.rentals[n])
    {
      assert RecordOk(s, s.rentals[n]);
    }
  }

  lemma ReleaseKeepsTimed(d: Delays, s: Sys, t: nat)
    requires Core(s) && Own(s) && Timed(d, s) && t in s.cleanups && s.cleanups[t].stage.Removed?
    ensures Timed(d, DoRelease(s, t))
  {
    var s', c := DoRelease(s, t), s.cleanups[t];
    assert CleanupOk(s, c) && HolderOk(s, c.inst);
    forall u | u in s'.cleanups
      ensures LateOk(d, s', s'.cleanups[u])
    {
      assert LateOk(d, s, s.cleanups[u]) && CleanupOk(s, s.cleanups[u]);
    }
    forall n | n in s'.rentals
      ensures RecordOk(s', s'.rentals[n])
    {
      assert EntryOk(s, n, s.rentals[n]) && RecordOk(s, s.rentals[n]);
    }
  }

  lemma IdleStep(k: Config, d: Delays, s: Sys, a: Action)
    requires Core(s) && Timed(d, s) && Enabled(k, s, a) && Idle(a) && !a.Allocate?
    ensures Timed(d, Apply(k, s, a))
  {
    NextIsNew(s);
    CalmStep(k, s, a);
    OwnersKept(k, s, a);
    IdleCleanups(k, s, a);
    IdleKeepsTimed(d, s, Apply(k, s, a));
  }

  lemma TimedStep(k: Config, d: Delays, s: Sys, a: Action)
    requires Core(s) && Own(s) && Timed(d, s) && Timely(k, d, s) && Margin(k, d) && Enabled(k, s, a)
    ensures Timed(d, Apply(k, s, a))
  {
    match a
    case Allocate(i) => GrantKeepsTimed(k, d, s, i);
    case Mark(n) => MarkKeepsTimed(k, d, s, n);
    case Delete(t) => DeleteKeepsTimed(d, s, t);
    case StopContainer(t, ok) => StopKeepsTimed(k, d, s, t, ok);
    case Remove(t, ok) =>
      RemovalKeepsTimed(d, s, s.cleanups[t].cid, ok);
      RemovedKeepsTimed(d, RemoveContainer(s, s.cleanups[t].cid, ok), t);
    case Release(t) => ReleaseKeepsTimed(d, s, t);
    case _ => IdleStep(k, d, s, a);
  }

  /** With enough margin, a cleanup that comes too late finds the port quarantined: its Release does nothing. */
  lemma StaleReleaseIsHarmless(k: Config, d: Delays, s: Sys, t: nat)
    requires Core(s) && Own(s) && Timed(d, s) && Timely(k, d, s) && Margin(k, d)
    ensures !Harmful(s, t)
  {
    if Harmful(s, t) {
      var c := s.cleanups[t];
      assert CleanupOk(s, c) && LateOk(d, s, c);
      LatenessBound(k, d, s, t);
      StillQuarantined(k, d, s, c.inst, c.port);
    }
  }

  lemma {:induction false} TimelyRunIsSafe(k: Config, d: Delays, acts: seq<Action>)
    requires TimelyRun(k, d, acts) && Margin(k, d)
    ensures Own(Run(k, acts).value) && Timed(d, Run(k, acts).value)
  {
    if acts != [] {
      var n := |acts| - 1;
      var s := Run(k, acts[..n]).value;
      TimelyRunIsSafe(k, d, acts[..n]);
      CoreAlways(k, acts[..n]);
      TimedStep(k, d, s, acts[n]);
      if acts[n].Release? {
        StaleReleaseIsHarmless(k, d, s, acts[n].task);
      }
      OwnStep(k, s, acts[n]);
    }
  }

  /** With the margin, repeated stops never make two rentals share a host port, unless removing a container of one failed. */
  lemma NoSharedHostPortWithMargin(k: Config, d: Delays, acts: seq<Action>, i: nat, j: nat)
    requires TimelyRun(k, d, acts) && Margin(k, d)
    requires var s := Run(k, acts).value;
             i in s.insts && j in s.insts && i != j && Unleaked(s, s.insts[i]) && Unleaked(s, s.insts[j])
    ensures var s := Run(k, acts).value;
            s.docker.containers[s.insts[i].cid.value].hostPort != s.docker.containers[s.insts[j].cid.value].hostPort
  {
    TimelyRunIsSafe(k, d, acts);
    CoreAlways(k, acts);
    DistinctHostPorts(Run(k, acts).value, i, j);
  }

  // ----- Without the margin -----

  /** Docker reports a container as stopped only if the container is there. */
  predicate Honest(s: Sys, a: Action) {
    a.StopContainer? && a.ok && a.task in s.cleanups ==> s.cleanups[a.task].cid in s.docker.containers
  }

  predicate HonestRun(k: Config, d: Delays, acts: seq<Action>) {
    && TimelyRun(k, d, acts)
    && (acts != [] ==>
          var n := |acts| - 1;
          HonestRun(k, d, acts[..n]) && Honest(Run(k, acts[..n]).value, acts[n]))
  }

  lemma Extend(k: Config, d: Delays, acts: seq<Action>, a: Action)
    requires HonestRun(k, d, acts) && Enabled(k, Run(k, acts).value, a)
    requires Timely(k, d, Apply(k, Run(k, acts).value, a)) && Honest(Run(k, acts).value, a)
    ensures HonestRun(k, d, acts + [a])
    ensures Run(k, acts + [a]) == Some(Apply(k, Run(k, acts).value, a))
  {
    assert (acts + [a])[..|acts|] == acts;
  }

  /** Only instance 0, in state x, at time 0, with no record and no cleanup yet, and nothing left behind. */
  predicate Lone(s: Sys, x: Instance) {
    && s.now == 0 && s.rentals == map[] && s.cleanups == map[] && s.nextCleanup == 0
    && s.insts == map[0 := x] && s.nextInst == 1 && s.leaks == {}
  }

  /** Another step of instance 0 on its own. */
  lemma LoneStep(k: Config, d: Delays, acts: seq<Action>, a: Action, x: Instance, y: Instance)
    requires HonestRun(k, d, acts) && Lone(Run(k, acts).value, x)
    requires Enabled(k, Run(k, acts).value, a) && Lone(Apply(k, Run(k, acts).value, a), y) && !a.StopContainer?
    ensures HonestRun(k, d, acts + [a]) && Lone(Run(k, acts + [a]).value, y)
    ensures Run(k, acts + [a]) == Some(Apply(k, Run(k, acts).value, a))
  {
    Extend(k, d, acts, a);
  }

  lemma FirstAllocated(k: Config, d: Delays) returns (acts: seq<Action>)
    requires k.ports.minPort <= k.ports.maxPort
    ensures HonestRun(k, d, acts)
    ensures var s, p := Run(k, acts).value, k.ports.minPort;
            && Lone(s, Instance("a", "", p, None, Allocated, 0, 0, 0))
            && s.leases == map[p := L.Lease("a", 0, None)] && s.docker == D.World(map[], 0)
  {
    var p := k.ports.minPort;
    var x := Instance("a", "", 0, None, Checked, 0, 0, 0);
    acts := [Begin("a", "")];
    Extend(k, d, [], acts[0]);
    assert [] + [acts[0]] == acts;
    var s := Run(k, acts).value;
    assert s.insts == map[0 := x];
    L.ChooseIsLeast(k.ports, map[], 0, p);
    var y := x.(port := p, phase := Allocated);
    assert DoAllocate(k, s, 0).insts == map[0 := y];
    assert DoAllocate(k, s, 0).leases == map[p := L.Lease("a", 0, None)];
    LoneStep(k, d, acts, Allocate(0), x, y);
    acts := acts + [Allocate(0)];
  }

  lemma FirstCreated(k: Config, d: Delays) returns (acts: seq<Action>)
    requires k.ports.minPort <= k.ports.maxPort
    ensures HonestRun(k, d, acts)
    ensures var s, p := Run(k, acts).value, k.ports.minPort;
            && Lone(s, Instance("a", "", p, Some(0), Created, 0, 0, 0)) && 0 in s.docker.containers
            && s.leases == map[p := L.Lease("a", 0, None)]
  {
    acts := FirstAllocated(k, d);
    var p, s := k.ports.minPort, Run(k, acts).value;
    var x := Instance("a", "", p, None, Allocated, 0, 0, 0);
    var y := x.(cid := Some(0), phase := Created);
    assert DoCreate(s, 0, true).insts == map[0 := y];
    LoneStep(k, d, acts, Create(0, true), x, y);
    acts := acts + [Create(0, true)];
  }

  lemma FirstHealthy(k: Config, d: Delays) returns (acts: seq<Action>)
    requires k.ports.minPort <= k.ports.maxPort
    ensures HonestRun(k, d, acts)
    ensures var s, p := Run(k, acts).value, k.ports.minPort;
            && Lone(s, Instance("a", "", p, Some(0), Healthy, 0, 0, 0)) && 0 in s.docker.containers
            && s.leases == map[p := L.Lease("a", 0, None)]
  {
    acts := FirstCreated(k, d);
    var s, y := Run(k, acts).value, Instance("a", "", k.ports.minPort, Some(0), Created, 0, 0, 0);
    assert DoStart(s, 0, true).insts == map[0 := y.(phase := Started)];
    LoneStep(k, d, acts, StartContainer(0, true), y, y.(phase := Started));
    acts := acts + [StartContainer(0, true)];
    s := Run(k, acts).value;
    assert SetPhase(s, 0, Healthy).insts == map[0 := y.(phase := Healthy)];
    LoneStep(k, d, acts, Health(0, true), y.(phase := Started), y.(phase := Healthy));
    acts := acts + [Health(0, true)];
  }

  /** One rental, started, registered and stopped at time 0, waiting out its grace period. */
  predicate OneStopped(k: Config, s: Sys) {
    var p := k.ports.minPort;
    && s.now == 0 && 0 in s.docker.containers && s.leaks == {}
    && s.leases == map[p := L.Lease("a", 0, None)]
    && s.rentals == map["a" := Entry(0, 0, p, 0, Some(0))]
    && s.insts == map[0 := Instance("a", "", p, Some(0), Registered, 1, 0, 0)] && s.nextInst == 1
    && s.cleanups == map[0 := Cleanup(0, "a", 0, p, 0, Sleeping(0))] && s.nextCleanup == 1
  }

  lemma OneMarkedRental(k: Config, d: Delays) returns (acts: seq<Action>)
    requires k.ports.minPort <= k.ports.maxPort
    ensures HonestRun(k, d, acts)
    ensures var s, p := Run(k, acts).value, k.ports.minPort;
            && s.now == 0 && 0 in s.docker.containers && s.leaks == {} && s.leases == map[p := L.Lease("a", 0, None)]
            && s.rentals == map["a" := Entry(0, 0, p, 0, Some(0))]
            && s.insts == map[0 := Instance("a", "", p, Some(0), Registered, 0, 0, 0)] && s.nextInst == 1
            && s.cleanups == map[0 := Cleanup(0, "a", 0, p, 0, Stopping)] && s.nextCleanup == 1
  {
    acts := FirstHealthy(k, d);
    var p, s := k.ports.minPort, Run(k, acts).value;
    Extend(k, d, acts, Register(0));
    acts := acts + [Register(0)];
    s := Run(k, acts).value;
    assert s.rentals == map["a" := Entry(0, 0, p, 0, None)];
    assert s.insts == map[0 := Instance("a", "", p, Some(0), Registered, 0, 0, 0)];
    Extend(k, d, acts, Mark("a"));
    acts := acts + [Mark("a")];
    s := Run(k, acts).value;
    assert s.rentals == map["a" := Entry(0, 0, p, 0, Some(0))];
    assert s.cleanups == map[0 := Cleanup(0, "a", 0, p, 0, Stopping)];
  }

  /** Task t stops the container of the only rental. */
  lemma StopOnly(s: Sys, t: nat, x: Instance)
    requires s.insts == map[0 := x] && t in s.cleanups && s.cleanups[t].inst == 0
    ensures var s' := DoStop(s, t, true);
            && s'.insts == map[0 := x.(stops := x.stops + 1, stopTask := t, stopMark := s.cleanups[t].markedAt)]
            && s'.cleanups == s.cleanups[t := s.cleanups[t].(stage := Sleeping(s.now))]
            && s'.docker == D.SetRunning(s.docker, s.cleanups[t].cid, false)
            && s' == s.(docker := s'.docker, insts := s'.insts, cleanups := s'.cleanups)
  {
  }

  lemma OneStoppedRental(k: Config, d: Delays) returns (acts: seq<Action>)
    requires k.ports.minPort <= k.ports.maxPort
    ensures HonestRun(k, d, acts) && OneStopped(k, Run(k, acts).value)
  {
    acts := OneMarkedRental(k, d);
    var p, s := k.ports.minPort, Run(k, acts).value;
    StopOnly(s, 0, s.insts[0]);
    Extend(k, d, acts, StopContainer(0, true));
    acts := acts + [StopContainer(0, true)];
    s := Run(k, acts).value;
    assert s.cleanups == map[0 := Cleanup(0, "a", 0, p, 0, Sleeping(0))];
  }

  /** Its port released at time `grace`, its record about to go, and a second stop marked as late as possible. */
  predicate StoppedAgain(k: Config, d: Delays, s: Sys) {
    var p := k.ports.minPort;
    && s.now == k.grace + d.gap && 0 in s.docker.containers
    && s.leases == map[p := L.Lease("a", 0, Some(k.grace))]
    && s.insts == map[0 := Instance("a", "", p, Some(0), Released(k.grace, 0), 1, 0, 0)] && s.nextInst == 1
    && "a" in s.rentals && s.rentals.Keys == {"a"}
    && s.cleanups == map[0 := Cleanup(0, "a", 0, p, 0, Freed(k.grace)),
                         1 := Cleanup(0, "a", 0, p, s.now, Stopping)]
  }

  /** The first cleanup fails to remove the container, so a second stop still finds it. */
  lemma FirstRemovalFails(k: Config, d: Delays) returns (acts: seq<Action>)
    requires k.ports.minPort <= k.ports.maxPort
    ensures HonestRun(k, d, acts)
    ensures var s, p := Run(k, acts).value, k.ports.minPort;
            && s.now == k.grace && 0 in s.docker.containers && s.leases == map[p := L.Lease("a", 0, None)]
            && s.rentals == map["a" := Entry(0, 0, p, 0, Some(0))]
            && s.insts == map[0 := Instance("a", "", p, Some(0), Registered, 1, 0, 0)] && s.nextInst == 1
            && s.cleanups == map[0 := Cleanup(0, "a", 0, p, 0, Removed(0))] && s.nextCleanup == 1
  {
    acts := OneStoppedRental(k, d);
    var p := k.ports.minPort;
    Extend(k, d, acts, Tick(k.grace));
    acts := acts + [Tick(k.grace)];
    Extend(k, d, acts, Remove(0, false));
    acts := acts + [Remove(0, false)];
    assert Run(k, acts).value.cleanups == map[0 := Cleanup(0, "a", 0, p, 0, Removed(0))];
  }

  /** Cleanup 0 releases the only port of the only rental. */
  lemma ReleaseOnly(s: Sys, p: int, x: Instance)
    requires s.insts == map[0 := x] && x.phase == Registered && s.leases == map[p := L.Lease("a", 0, None)]
    requires 0 in s.cleanups && s.cleanups[0].inst == 0 && s.cleanups[0].port == p
    ensures var s' := DoRelease(s, 0);
            && s'.leases == map[p := L.Lease("a", 0, Some(s.now))]
            && s'.insts == map[0 := x.(phase := Released(s.now, 0))]
            && s'.cleanups == s.cleanups[0 := s.cleanups[0].(stage := Freed(s.now))]
            && s' == s.(leases := s'.leases, insts := s'.insts, cleanups := s'.cleanups)
  {
  }

  lemma FirstReleased(k: Config, d: Delays) returns (acts: seq<Action>)
    requires k.ports.minPort <= k.ports.maxPort
    ensures HonestRun(k, d, acts)
    ensures var s, p := Run(k, acts).value, k.ports.minPort;
            && s.now == k.grace && 0 in s.docker.containers
            && s.leases == map[p := L.Lease("a", 0, Some(k.grace))]
            && s.insts == map[0 := Instance("a", "", p, Some(0), Released(k.grace, 0), 1, 0, 0)] && s.nextInst == 1
            && s.rentals == map["a" := Entry(0, 0, p, 0, Some(0))]
            && s.cleanups == map[0 := Cleanup(0, "a", 0, p, 0, Freed(k.grace))] && s.nextCleanup == 1
  {
    acts := FirstRemovalFails(k, d);
    var p, s := k.ports.minPort, Run(k, acts).value;
    ReleaseOnly(s, p, s.insts[0]);
    Extend(k, d, acts, Release(0));
    acts := acts + [Release(0)];
    s := Run(k, acts).value;
    assert s.cleanups == map[0 := Cleanup(0, "a", 0, p, 0, Freed(k.grace))];
  }

  lemma SecondStop(k: Config, d: Delays) returns (acts: seq<Action>)
    requires k.ports.minPort <= k.ports.maxPort
    ensures HonestRun(k, d, acts) && StoppedAgain(k, d, Run(k, acts).value)
  {
    acts := FirstReleased(k, d);
    var p, s := k.ports.minPort, Run(k, acts).value;
    Extend(k, d, acts, Tick(d.gap));
    acts := acts + [Tick(d.gap)];
    s := Run(k, acts).value;
    Extend(k, d, acts, Mark("a"));
    acts := acts + [Mark("a")];
    s := Run(k, acts).value;
    assert s.cleanups == map[0 := Cleanup(0, "a", 0, p, 0, Freed(k.grace)), 1 := Cleanup(0, "a", 0, p, s.now, Stopping)];
  }

  /** The second stop's cleanup is about to release a port that was released long enough ago to be handed out. */
  predicate StaleRelease(k: Config, d: Delays, s: Sys) {
    && Forgotten(k, s) && s.now == k.grace + d.gap + d.stop + k.grace + d.late
    && s.cleanups == map[1 := Cleanup(0, "a", 0, k.ports.minPort, k.grace + d.gap, Removed(k.grace + d.gap + d.stop))]
  }

  predicate Forgotten(k: Config, s: Sys) {
    && s.leases == map[k.ports.minPort := L.Lease("a", 0, Some(k.grace))]
    && 0 in s.insts && s.insts.Keys == {0} && s.insts[0].phase == Released(k.grace, 0) && s.nextInst == 1
    && s.rentals == map[]
  }

  lemma FirstForgotten(k: Config, d: Delays) returns (acts: seq<Action>)
    requires k.ports.minPort <= k.ports.maxPort
    ensures HonestRun(k, d, acts)
    ensures var s := Run(k, acts).value;
            && Forgotten(k, s) && 0 in s.docker.containers && s.now == k.grace + d.gap + d.stop
            && s.cleanups == map[1 := Cleanup(0, "a", 0, k.ports.minPort, k.grace + d.gap, Stopping)]
  {
    acts := SecondStop(k, d);
    Extend(k, d, acts, Delete(0));
    acts := acts + [Delete(0)];
    assert Run(k, acts).value.cleanups == map[1 := Cleanup(0, "a", 0, k.ports.minPort, k.grace + d.gap, Stopping)];
    assert Run(k, acts).value.rentals == map[];
    Extend(k, d, acts, Tick(d.stop));
    acts := acts + [Tick(d.stop)];
  }

  /** The second stop has succeeded and its cleanup is waiting. */
  predicate SleptAgain(k: Config, d: Delays, s: Sys) {
    var m := k.grace + d.gap;
    && Forgotten(k, s) && s.now == m + d.stop
    && s.cleanups == map[1 := Cleanup(0, "a", 0, k.ports.minPort, m, Sleeping(m + d.stop))]
  }

  /** What the second stop does to a state in which only it is left to finish. */
  lemma SecondStopped(k: Config, d: Delays, s: Sys)
    requires Forgotten(k, s) && s.now == k.grace + d.gap + d.stop
    requires s.cleanups == map[1 := Cleanup(0, "a", 0, k.ports.minPort, k.grace + d.gap, Stopping)]
    ensures SleptAgain(k, d, DoStop(s, 1, true)) && Timely(k, d, DoStop(s, 1, true))
  {
    assert s.insts == map[0 := s.insts[0]];
    StopOnly(s, 1, s.insts[0]);
    assert DoStop(s, 1, true).cleanups
           == map[1 := Cleanup(0, "a", 0, k.ports.minPort, k.grace + d.gap, Sleeping(k.grace + d.gap + d.stop))];
  }

  lemma SecondSleep(k: Config, d: Delays) returns (acts: seq<Action>)
    requires k.ports.minPort <= k.ports.maxPort
    ensures HonestRun(k, d, acts) && SleptAgain(k, d, Run(k, acts).value)
  {
    acts := FirstForgotten(k, d);
    SecondStopped(k, d, Run(k, acts).value);
    Extend(k, d, acts, StopContainer(1, true));
    acts := acts + [StopContainer(1, true)];
  }

  lemma SecondCleanup(k: Config, d: Delays, before: seq<Action>) returns (acts: seq<Action>)
    requires HonestRun(k, d, before) && SleptAgain(k, d, Run(k, before).value)
    ensures HonestRun(k, d, acts) && StaleRelease(k, d, Run(k, acts).value)
    ensures Run(k, acts).value.leaks == Run(k, before).value.leaks
  {
    var p, m := k.ports.minPort, k.grace + d.gap;
    Extend(k, d, before, Tick(k.grace + d.late));
    acts := before + [Tick(k.grace + d.late)];
    Extend(k, d, acts, Remove(1, true));
    acts := acts + [Remove(1, true)];
    assert Run(k, acts).value.cleanups == map[1 := Cleanup(0, "a", 0, p, m, Removed(m + d.stop))];
  }

  /** Session "b" holds the port that the second cleanup is about to release. */
  predicate Regranted(s: Sys) {
    && 0 in s.insts && s.insts[0].phase.Released?
    && 1 in s.insts && s.insts[1].phase == Allocated
    && 1 in s.cleanups && s.cleanups[1].stage.Removed? && s.cleanups[1].inst == 0
    && s.cleanups[1].port == s.insts[1].port && L.Live(s.leases, s.cleanups[1].port)
  }

  lemma PortRegranted(k: Config, d: Delays, before: seq<Action>) returns (acts: seq<Action>)
    requires k.ports.minPort <= k.ports.maxPort && !Margin(k, d)
    requires HonestRun(k, d, before) && SleptAgain(k, d, Run(k, before).value)
    ensures HonestRun(k, d, acts) && Regranted(Run(k, acts).value)
    ensures Run(k, acts).value.leaks == Run(k, before).value.leaks
  {
    acts := SecondCleanup(k, d, before);
    Extend(k, d, acts, Begin("b", ""));
    acts := acts + [Begin("b", "")];
    var s := Run(k, acts).value;
    L.ChooseIsLeast(k.ports, s.leases, s.now, k.ports.minPort);
    Extend(k, d, acts, Allocate(1));
    acts := acts + [Allocate(1)];
  }

  /** Another session is given that port just before the stale release takes it away again. */
  lemma PortTaken(k: Config, d: Delays, before: seq<Action>) returns (acts: seq<Action>)
    requires k.ports.minPort <= k.ports.maxPort && !Margin(k, d)
    requires HonestRun(k, d, before) && SleptAgain(k, d, Run(k, before).value)
    ensures HonestRun(k, d, acts) && !Own(Run(k, acts).value)
    ensures Run(k, acts).value.leaks == Run(k, before).value.leaks
  {
    acts := PortRegranted(k, d, before);
    var s := Run(k, acts).value;
    forall t | t in DoRelease(s, 1).cleanups
      ensures InTime(k, d, s.now, DoRelease(s, 1).cleanups[t])
    {
      assert t == 1 || InTime(k, d, s.now, s.cleanups[t]);
    }
    Extend(k, d, acts, Release(1));
    acts := acts + [Release(1)];
    assert !HolderOk(Run(k, acts).value, 1);
  }

  /** Without the margin, a port can be taken from the session that was given it. */
  lemma StolenPort(k: Config, d: Delays) returns (acts: seq<Action>)
    requires k.ports.minPort <= k.ports.maxPort && !Margin(k, d)
    ensures HonestRun(k, d, acts) && !Own(Run(k, acts).value)
  {
    acts := SecondSleep(k, d);
    acts := PortTaken(k, d, acts);
  }

  /** Over every timely schedule, ports are owned by those who hold them. */
  ghost predicate RepeatedStopsAreSafe(k: Config, d: Delays) {
    forall acts :: TimelyRun(k, d, acts) ==> Own(Run(k, acts).value)
  }

  /** The same over the timely schedules in which Docker never stops a container that is gone. */
  ghost predicate HonestStopsAreSafe(k: Config, d: Delays) {
    forall acts :: HonestRun(k, d, acts) ==> Own(Run(k, acts).value)
  }

  /**
   * However often rentals are stopped, no cleanup ever frees another
   * session's port: exactly when the port's grace period exceeds the rental's
   * by more than all delays together.
   */
  lemma SafeExactlyWithMargin(k: Config, d: Delays)
    requires k.ports.minPort <= k.ports.maxPort
    ensures RepeatedStopsAreSafe(k, d) <==> Margin(k, d)
    ensures HonestStopsAreSafe(k, d) <==> Margin(k, d)
  {
    if Margin(k, d) {
      forall acts | TimelyRun(k, d, acts)
        ensures Own(Run(k, acts).value)
      {
        TimelyRunIsSafe(k, d, acts);
      }
    } else {
      var acts := StolenPort(k, d);
    }
  }

  const MINUTE := 60_000_000_000

  /** The node's own settings: ports 30000 to 32000, both grace periods thirty minutes. */
  const SHIPPED := Config(L.Config(30000, 32000, 30 * MINUTE), 30 * MINUTE)

  /** The shipped grace periods are equal, so even without any delay a repeated stop is not safe. */
  lemma ShippedSettingsUnsafe(d: Delays)
    ensures !HonestStopsAreSafe(SHIPPED, d)
  {
    SafeExactlyWithMargin(SHIPPED, d);
  }
}
