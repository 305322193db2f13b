/**
 * Nothing gets stuck: from every reachable state all starts, stops and
 * cleanups on their way can be brought to an end, and what is left then are
 * the registered rentals.
 */
module RentalFinish {
  import opened Wrappers
  import opened RentalProtocol
  import opened RentalInvariants
  import opened RentalOwnership
  import opened RentalSingleStop
  import opened RentalRecords
  import opened RentalDrain
  import L = Leases

  predicate Final(p: Phase) {
    p == Rejected || p == Aborted || p == Registered || p.Released?
  }

  /** No start is on its way. */
  predicate StartsDone(s: Sys) {
    forall i :: i in s.insts ==> Final(s.insts[i].phase)
  }

  predicate StopsDone(s: Sys) {
    forall t :: t in s.cleanups ==> !s.cleanups[t].stage.Stopping?
  }

  /** No start, stop or cleanup is on its way. */
  predicate AllDone(s: Sys) {
    StartsDone(s) && s.cleanups == map[]
  }

  // ----- Ending starts -----

  function Rank(p: Phase): nat {
    match p
    case Checked => 3
    case Created => 3
    case Started => 3
    case Allocated => 2
    case Failing => 2
    case Releasing => 1
    case Healthy => 1
    case _ => 0
  }

  /** A next step of a start that leads to its end: a healthy one registers, any other gives up. */
  function EndingStep(p: Phase, i: nat): Action
    requires !Final(p)
  {
    match p
    case Checked => Allocate(i)
    case Allocated => Create(i, false)
    case Created => StartContainer(i, false)
    case Started => Health(i, false)
    case Healthy => Register(i)
    case Failing => RollbackRemove(i, true)
    case Releasing => RollbackRelease(i)
  }

  /** Only instance i moves, and no stop or cleanup. */
  predicate MovesOnly(s: Sys, s': Sys, i: nat) {
    && i in s.insts && i in s'.insts && s'.insts.Keys == s.insts.Keys && s'.insts[i].stops == s.insts[i].stops
    && (forall j :: j in s.insts && j != i ==> s'.insts[j] == s.insts[j])
    && s'.cleanups == s.cleanups && s'.now == s.now
  }

  /** Action a is possible and takes instance i, and nothing else, nearer its end. */
  predicate Ends(k: Config, s: Sys, i: nat, a: Action) {
    && i in s.insts && Enabled(k, s, a) && MovesOnly(s, Apply(k, s, a), i)
    && Rank(Apply(k, s, a).insts[i].phase) < Rank(s.insts[i].phase)
  }

  lemma AllocateInstances(k: Config, s: Sys, i: nat)
    requires At(s, i, Checked)
    ensures var s' := DoAllocate(k, s, i);
            && s'.insts == s.insts[i := s'.insts[i]] && s'.insts[i].stops == s.insts[i].stops
            && Rank(s'.insts[i].phase) <= 2 && s'.now == s.now
  {
  }

  lemma AllocateMoves(k: Config, s: Sys, i: nat)
    requires At(s, i, Checked)
    ensures Ends(k, s, i, Allocate(i))
  {
    AllocateRecords(k, s, i);
    AllocateInstances(k, s, i);
  }

  lemma CreateMoves(k: Config, s: Sys, i: nat)
    requires At(s, i, Allocated)
    ensures Ends(k, s, i, Create(i, false))
  {
  }

  lemma StartMoves(k: Config, s: Sys, i: nat)
    requires At(s, i, Created) && s.insts[i].cid.Some?
    ensures Ends(k, s, i, StartContainer(i, false))
  {
  }

  lemma HealthMoves(k: Config, s: Sys, i: nat)
    requires At(s, i, Started)
    ensures Ends(k, s, i, Health(i, false))
  {
  }

  lemma RegisterMoves(k: Config, s: Sys, i: nat)
    requires At(s, i, Healthy) && s.insts[i].cid.Some?
    ensures Ends(k, s, i, Register(i))
  {
  }

  lemma RollbackMoves(k: Config, s: Sys, i: nat)
    requires At(s, i, Failing) && s.insts[i].cid.Some?
    ensures Ends(k, s, i, RollbackRemove(i, true))
  {
    RemovalStays(s, s.insts[i].cid.value, true);
  }

  lemma ReleaseMoves(k: Config, s: Sys, i: nat)
    requires At(s, i, Releasing)
    ensures Ends(k, s, i, RollbackRelease(i))
  {
  }

  lemma EndingStepWorks(k: Config, s: Sys, i: nat)
    requires Core(s) && i in s.insts && !Final(s.insts[i].phase)
    ensures Ends(k, s, i, EndingStep(s.insts[i].phase, i))
  {
    assert InstanceOk(s, i);
    match s.insts[i].phase
    case Checked => AllocateMoves(k, s, i);
    case Allocated => CreateMoves(k, s, i);
    case Created => StartMoves(k, s, i);
    case Started => HealthMoves(k, s, i);
    case Healthy => RegisterMoves(k, s, i);
    case Failing => RollbackMoves(k, s, i);
    case Releasing => ReleaseMoves(k, s, i);
  }

  lemma StepFirst(k: Config, s: Sys, a: Action, rest: seq<Action>)
    requires Enabled(k, s, a)
    ensures RunFrom(k, s, [a] + rest) == RunFrom(k, Apply(k, s, a), rest)
  {
    assert [a][..0] == [] && RunFrom(k, s, []) == Some(s);
    RunConcat(k, s, [a], rest);
  }

  /** Brings one start to its end. */
  lemma {:induction false} EndOne(k: Config, s: Sys, i: nat) returns (acts: seq<Action>)
    requires Core(s) && i in s.insts
    ensures RunFrom(k, s, acts).Some?
    ensures var f := RunFrom(k, s, acts).value; Core(f) && MovesOnly(s, f, i) && Final(f.insts[i].phase)
    decreases Rank(s.insts[i].phase)
  {
    acts := [];
    if !Final(s.insts[i].phase) {
      var a := EndingStep(s.insts[i].phase, i);
      EndingStepWorks(k, s, i);
      CoreStep(k, s, a);
      var rest := EndOne(k, Apply(k, s, a), i);
      StepFirst(k, s, a, rest);
      acts := [a] + rest;
    }
  }

  ghost function OnTheirWay(s: Sys): set<nat> {
    set i | i in s.insts && !Final(s.insts[i].phase)
  }

  predicate SameStopCounts(s: Sys, s': Sys) {
    s'.insts.Keys == s.insts.Keys && forall i :: i in s.insts ==> s'.insts[i].stops == s.insts[i].stops
  }

  lemma OneEnded(s: Sys, s': Sys, i: nat)
    requires MovesOnly(s, s', i) && Final(s'.insts[i].phase)
    ensures OnTheirWay(s') == OnTheirWay(s) - {i} && SameStopCounts(s, s')
  {
  }

  lemma {:induction false} EndStarts(k: Config, s: Sys) returns (acts: seq<Action>)
    requires Core(s)
    ensures RunFrom(k, s, acts).Some?
    ensures var f := RunFrom(k, s, acts).value;
            Core(f) && StartsDone(f) && f.cleanups == s.cleanups && SameStopCounts(s, f)
    decreases |OnTheirWay(s)|
  {
    acts := [];
    if OnTheirWay(s) != {} {
      var i :| i in OnTheirWay(s);
      var first := EndOne(k, s, i);
      var m := RunFrom(k, s, first).value;
      OneEnded(s, m, i);
      var rest := EndStarts(k, m);
      RunConcat(k, s, first, rest);
      acts := first + rest;
    } else {
      assert forall i :: i in s.insts && !Final(s.insts[i].phase) ==> i in OnTheirWay(s);
    }
  }

  // ----- Ending stops -----

  ghost function StopsOnTheirWay(s: Sys): set<nat> {
    set t | t in s.cleanups && s.cleanups[t].stage.Stopping?
  }

  /** A stop on its way may always fail, which ends it. */
  lemma FailStop(k: Config, s: Sys, t: nat)
    requires Core(s) && t in StopsOnTheirWay(s)
    ensures Enabled(k, s, StopContainer(t, false))
    ensures Apply(k, s, StopContainer(t, false)) == s.(cleanups := s.cleanups - {t})
    ensures StopsOnTheirWay(Apply(k, s, StopContainer(t, false))) == StopsOnTheirWay(s) - {t}
  {
    assert CleanupOk(s, s.cleanups[t]);
  }

  lemma {:induction false} EndStops(k: Config, s: Sys) returns (acts: seq<Action>)
    requires Core(s)
    ensures RunFrom(k, s, acts).Some?
    ensures var f := RunFrom(k, s, acts).value; Core(f) && StopsDone(f) && f.insts == s.insts
    decreases |StopsOnTheirWay(s)|
  {
    acts := [];
    if StopsOnTheirWay(s) != {} {
      var t :| t in StopsOnTheirWay(s);
      var a := StopContainer(t, false);
      FailStop(k, s, t);
      CoreStep(k, s, a);
      var rest := EndStops(k, Apply(k, s, a));
      StepFirst(k, s, a, rest);
      acts := [a] + rest;
    } else {
      assert forall t :: t in s.cleanups && s.cleanups[t].stage.Stopping? ==> t in StopsOnTheirWay(s);
    }
  }

  // ----- Ending cleanups -----

  predicate Ended(s: Sys) {
    StartsDone(s) && StopsDone(s)
  }

  lemma ReleaseEnds(s: Sys, t: nat)
    requires Ended(s) && t in s.cleanups && s.cleanups[t].stage.Removed? && s.cleanups[t].inst in s.insts
    ensures Ended(DoRelease(s, t)) && SameStopCounts(s, DoRelease(s, t))
  {
  }

  lemma RemoveEnds(s: Sys, t: nat)
    requires Ended(s) && t in s.cleanups && s.cleanups[t].stage.Sleeping?
    ensures var s' := SetStage(RemoveContainer(s, s.cleanups[t].cid, true), t, Removed(s.cleanups[t].stage.since));
            Ended(s') && SameStopCounts(s, s')
  {
  }

  /** Draining begins no start or stop, and counts no stop. */
  lemma DrainEnds(k: Config, s: Sys, a: Action)
    requires Ended(s) && Enabled(k, s, a) && Draining(a)
    ensures Ended(Apply(k, s, a)) && SameStopCounts(s, Apply(k, s, a))
  {
    if a.Release? {
      ReleaseEnds(s, a.task);
    } else if a.Remove? {
      RemoveEnds(s, a.task);
    }
  }

  lemma {:induction false} DrainRunEnds(k: Config, s: Sys, acts: seq<Action>)
    requires Ended(s) && DrainRun(k, s, acts)
    ensures Ended(RunFrom(k, s, acts).value) && SameStopCounts(s, RunFrom(k, s, acts).value)
  {
    if acts != [] {
      var n := |acts| - 1;
      DrainRunEnds(k, s, acts[..n]);
      DrainEnds(k, RunFrom(k, s, acts[..n]).value, acts[n]);
    }
  }

  /** After waiting for one grace period every pending cleanup is due. */
  lemma WaitForAll(k: Config, s: Sys)
    requires Core(s) && Ended(s)
    ensures var s' := s.(now := s.now + k.grace);
            RunFrom(k, s, [Tick(k.grace)]) == Some(s') && AllDue(k, s') && Core(s') && Ended(s')
  {
    assert [Tick(k.grace)][..0] == [] && RunFrom(k, s, []) == Some(s);
    CoreStep(k, s, Tick(k.grace));
    assert forall t :: t in s.cleanups ==> CleanupOk(s, s.cleanups[t]);
  }

  lemma EndCleanups(k: Config, s: Sys) returns (acts: seq<Action>)
    requires Core(s) && Ended(s)
    ensures RunFrom(k, s, acts).Some? && AllDone(RunFrom(k, s, acts).value)
    ensures SameStopCounts(s, RunFrom(k, s, acts).value)
  {
    var s' := s.(now := s.now + k.grace);
    WaitForAll(k, s);
    var rest := DrainCompletes(k, s');
    DrainRunEnds(k, s', rest);
    RunConcat(k, s, [Tick(k.grace)], rest);
    acts := [Tick(k.grace)] + rest;
    var f := RunFrom(k, s, acts).value;
    assert forall t :: t in f.cleanups ==> t in Pending(f.cleanups);
  }

  // ----- All together -----

  /** Every run can be continued until nothing is on its way, without any further successful stop. */
  lemma EverythingCanFinish(k: Config, acts: seq<Action>) returns (more: seq<Action>)
    requires Run(k, acts).Some?
    ensures Run(k, acts + more).Some? && AllDone(Run(k, acts + more).value)
    ensures SameStopCounts(Run(k, acts).value, Run(k, acts + more).value)
  {
    var s := Run(k, acts).value;
    CoreAlways(k, acts);
    var starts := EndStarts(k, s);
    var m := RunFrom(k, s, starts).value;
    var stops := EndStops(k, m);
    var n := RunFrom(k, m, stops).value;
    var cleanups := EndCleanups(k, n);
    RunConcat(k, m, stops, cleanups);
    RunConcat(k, s, starts, stops + cleanups);
    more := starts + (stops + cleanups);
    RunConcat(k, INIT, acts, more);
  }

  ghost function RegisteredRentals(s: Sys): set<nat> {
    set i | i in s.insts && s.insts[i].phase == Registered
  }

  /**
   * What is left then, with one stop each: the ports in use are exactly those
   * of the registered rentals, no two of which share one; and the containers
   * left are theirs, except those whose removal failed.
   */
  lemma WhatIsLeft(k: Config, acts: seq<Action>)
    requires Run(k, acts).Some? && AllDone(Run(k, acts).value)
    ensures var s := Run(k, acts).value;
            && (forall i :: i in s.insts && Exists(s, s.insts[i]) ==> i in RegisteredRentals(s) || s.insts[i].cid.value in s.leaks)
            && (StoppedOnce(s) ==>
                  && LeasedPorts(s) == PortsOf(s, RegisteredRentals(s))
                  && forall i, j :: i in RegisteredRentals(s) && j in RegisteredRentals(s) && s.insts[i].port == s.insts[j].port
                                    ==> i == j)
  {
    var s := Run(k, acts).value;
    CoreAlways(k, acts);
    forall i | i in s.insts && Exists(s, s.insts[i])
      ensures i in RegisteredRentals(s) || s.insts[i].cid.value in s.leaks
    {
      assert InstanceOk(s, i);
    }
    if StoppedOnce(s) {
      ExactOwnership(k, acts);
      assert RegisteredRentals(s) == Holders(s);
    }
  }

  /** So every run can be continued until the ports in use are exactly those of registered rentals. */
  lemma PortsComeBack(k: Config, acts: seq<Action>) returns (more: seq<Action>)
    requires Run(k, acts).Some? && StoppedOnce(Run(k, acts).value)
    ensures Run(k, acts + more).Some? && AllDone(Run(k, acts + more).value)
    ensures var f := Run(k, acts + more).value; LeasedPorts(f) == PortsOf(f, RegisteredRentals(f))
  {
    more := EverythingCanFinish(k, acts);
    var s, f := Run(k, acts).value, Run(k, acts + more).value;
    assert forall i :: i in f.insts ==> i in s.insts && f.insts[i].stops == s.insts[i].stops;
    WhatIsLeft(k, acts + more);
  }
}
