/**
 * Concurrent rental calls as a system of atomic steps. A step is one
 * lock-protected region, one call into the port manager or one Docker call;
 * steps of any number of StartRental calls, StopRental calls and delayed
 * cleanups interleave freely with the clock and with other users of the
 * Docker engine.
 */
module RentalProtocol {
  import opened Wrappers
  import L = Leases
  import D = Docker

  datatype Config = Config(ports: L.Config, grace: nat)

  /** Where one StartRental call, and the rental it becomes, stands. */
  datatype Phase =
    | Checked              // passed the duplicate check, holds nothing
    | Rejected             // no port was available
    | Allocated            // holds a port, about to create the container
    | Created              // about to start the container
    | Started              // polling health
    | Healthy              // about to register
    | Failing              // rolling back: about to remove the container
    | Releasing            // rolling back: about to release the port
    | Aborted              // rolled back
    | Registered           // returned to the caller
    | Released(at: int, task: nat)  // cleanup `task` of this rental has released the port

  /**
   * One call of StartRental. `stops` counts its successful stops; `stopTask`
   * and `stopMark` are the last of them and the time it began.
   */
  datatype Instance = Instance(session: string, gpu: string, port: int, cid: Option<nat>,
                               phase: Phase, stops: nat, stopTask: nat, stopMark: int)

  /** A record of the active-rentals map. */
  datatype Entry = Entry(inst: nat, cid: nat, port: int, startedAt: int, stoppedAt: Option<int>)

  datatype Stage =
    | Stopping                 // stop marked, waiting for Docker to stop the container
    | Sleeping(since: int)     // grace period running
    | Removed(since: int)      // container removal attempted, about to release the port
    | Freed(at: int)           // port released, about to delete the map entry

  /** A StopRental call that has marked its rental, and the cleanup it spawns. */
  datatype Cleanup = Cleanup(inst: nat, session: string, cid: nat, port: int, markedAt: int, stage: Stage)

  /**
   * `owners`, `makers` and `leaks` only observe: the instance a port was last
   * given to, the instance that created a container, and failed removals.
   */
  datatype Sys = Sys(now: int, leases: L.Table, owners: map<int, nat>, rentals: map<string, Entry>, docker: D.World,
                     insts: map<nat, Instance>, nextInst: nat, cleanups: map<nat, Cleanup>, nextCleanup: nat,
                     makers: map<nat, nat>, leaks: set<nat>)

  const INIT := Sys(0, map[], map[], map[], D.World(map[], 0), map[], 0, map[], 0, map[], {})

  datatype Action =
    | Tick(elapsed: nat)
    | Begin(session: string, gpu: string)
    | Allocate(inst: nat)
    | Create(inst: nat, ok: bool)
    | StartContainer(inst: nat, ok: bool)
    | Health(inst: nat, ok: bool)
    | Register(inst: nat)
    | RollbackRemove(inst: nat, ok: bool)
    | RollbackRelease(inst: nat)
    | Mark(session: string)
    | StopContainer(task: nat, ok: bool)
    | Remove(task: nat, ok: bool)
    | Release(task: nat)
    | Delete(task: nat)
    | Foreign(world: D.World)

  predicate At(s: Sys, i: nat, p: Phase) {
    i in s.insts && s.insts[i].phase == p
  }

  /** Every container made for a rental is in this world exactly if it is in the system's, up to whether it runs. */
  predicate SameContainers(s: Sys, world: D.World) {
    forall i :: i in s.insts && s.insts[i].cid.Some? ==>
                  var c := s.insts[i].cid.value;
                  && (c in world.containers <==> c in s.docker.containers)
                  && (c in world.containers ==>
                        world.containers[c].(running := s.docker.containers[c].running) == s.docker.containers[c])
  }

  /** Other users of the engine never touch a rental's container, but any container may stop running. */
  predicate Undisturbed(s: Sys, world: D.World) {
    D.Valid(world) && s.docker.nextId <= world.nextId && SameContainers(s, world)
  }

  predicate Enabled(k: Config, s: Sys, a: Action) {
    match a
    case Tick(_) => true
    case Begin(session, _) => session !in s.rentals
    case Allocate(i) => At(s, i, Checked)
    case Create(i, ok) => At(s, i, Allocated) && (ok ==> !D.NameTaken(s.docker, s.insts[i].session))
    case StartContainer(i, _) => At(s, i, Created) && s.insts[i].cid.Some?
    case Health(i, _) => At(s, i, Started)
    case Register(i) => At(s, i, Healthy) && s.insts[i].cid.Some?
    case RollbackRemove(i, _) => At(s, i, Failing) && s.insts[i].cid.Some?
    case RollbackRelease(i) => At(s, i, Releasing)
    case Mark(session) => session in s.rentals
    case StopContainer(t, _) => t in s.cleanups && s.cleanups[t].stage.Stopping? && s.cleanups[t].inst in s.insts
    case Remove(t, _) => t in s.cleanups && s.cleanups[t].stage.Sleeping? && s.now >= s.cleanups[t].stage.since + k.grace
    case Release(t) => t in s.cleanups && s.cleanups[t].stage.Removed? && s.cleanups[t].inst in s.insts
    case Delete(t) => t in s.cleanups && s.cleanups[t].stage.Freed?
    case Foreign(world) => Undisturbed(s, world)
  }

  function SetPhase(s: Sys, i: nat, p: Phase): Sys
    requires i in s.insts
  {
    s.(insts := s.insts[i := s.insts[i].(phase := p)])
  }

  function SetStage(s: Sys, t: nat, g: Stage): Sys
    requires t in s.cleanups
  {
    s.(cleanups := s.cleanups[t := s.cleanups[t].(stage := g)])
  }

  /** A removal that fails while the container exists leaves it behind. */
  function RemoveContainer(s: Sys, c: nat, ok: bool): Sys {
    if ok then s.(docker := D.Remove(s.docker, c))
    else if c in s.docker.containers then s.(leaks := s.leaks + {c})
    else s
  }

  function DoBegin(s: Sys, session: string, gpu: string): Sys {
    s.(insts := s.insts[s.nextInst := Instance(session, gpu, 0, None, Checked, 0, 0, 0)], nextInst := s.nextInst + 1)
  }

  function DoAllocate(k: Config, s: Sys, i: nat): Sys
    requires i in s.insts
  {
    match L.Choose(k.ports, s.leases, s.now)
    case None => SetPhase(s, i, Rejected)
    case Some(p) =>
      s.(leases := L.Allocate(k.ports, s.leases, s.insts[i].session, s.now),
         owners := s.owners[p := i],
         insts := s.insts[i := s.insts[i].(port := p, phase := Allocated)])
  }

  function DoCreate(s: Sys, i: nat, ok: bool): Sys
    requires i in s.insts
  {
    var x := s.insts[i];
    if ok then
      s.(docker := D.Create(s.docker, x.session, Some(x.port), x.gpu),
         makers := s.makers[s.docker.nextId := i],
         insts := s.insts[i := x.(cid := Some(s.docker.nextId), phase := Created)])
    else SetPhase(s, i, Releasing)
  }

  function DoStart(s: Sys, i: nat, ok: bool): Sys
    requires i in s.insts && s.insts[i].cid.Some?
  {
    if ok then SetPhase(s.(docker := D.SetRunning(s.docker, s.insts[i].cid.value, true)), i, Started)
    else SetPhase(s, i, Failing)
  }

  function DoRegister(s: Sys, i: nat): Sys
    requires i in s.insts && s.insts[i].cid.Some?
  {
    var x := s.insts[i];
    SetPhase(s.(rentals := s.rentals[x.session := Entry(i, x.cid.value, x.port, s.now, None)]), i, Registered)
  }

  function DoRollbackRelease(s: Sys, i: nat): Sys
    requires i in s.insts
  {
    SetPhase(s.(leases := L.Release(s.leases, s.insts[i].port, s.now)), i, Aborted)
  }

  function DoMark(s: Sys, session: string): Sys
    requires session in s.rentals
  {
    var e := s.rentals[session];
    s.(rentals := s.rentals[session := e.(stoppedAt := Some(s.now))],
       cleanups := s.cleanups[s.nextCleanup := Cleanup(e.inst, session, e.cid, e.port, s.now, Stopping)],
       nextCleanup := s.nextCleanup + 1)
  }

  function CountStop(s: Sys, i: nat, t: nat, mark: int): Sys
    requires i in s.insts
  {
    s.(insts := s.insts[i := s.insts[i].(stops := s.insts[i].stops + 1, stopTask := t, stopMark := mark)])
  }

  function DoStop(s: Sys, t: nat, ok: bool): Sys
    requires t in s.cleanups && s.cleanups[t].inst in s.insts
  {
    var c := s.cleanups[t];
    if ok then
      var stopped := s.(docker := D.SetRunning(s.docker, c.cid, false));
      CountStop(SetStage(stopped, t, Sleeping(s.now)), c.inst, t, c.markedAt)
    else s.(cleanups := s.cleanups - {t})
  }

  function DoRelease(s: Sys, t: nat): Sys
    requires t in s.cleanups && s.cleanups[t].inst in s.insts
  {
    var c := s.cleanups[t];
    var freed := SetStage(s.(leases := L.Release(s.leases, c.port, s.now)), t, Freed(s.now));
    if s.insts[c.inst].phase == Registered then SetPhase(freed, c.inst, Released(s.now, t)) else freed
  }

  function DoDelete(s: Sys, t: nat): Sys
    requires t in s.cleanups
  {
    s.(rentals := s.rentals - {s.cleanups[t].session}, cleanups := s.cleanups - {t})
  }

  function Apply(k: Config, s: Sys, a: Action): Sys
    requires Enabled(k, s, a)
  {
    match a
    case Tick(elapsed) => s.(now := s.now + elapsed)
    case Begin(session, gpu) => DoBegin(s, session, gpu)
    case Allocate(i) => DoAllocate(k, s, i)
    case Create(i, ok) => DoCreate(s, i, ok)
    case StartContainer(i, ok) => DoStart(s, i, ok)
    case Health(i, ok) => SetPhase(s, i, if ok then Healthy else Failing)
    case Register(i) => DoRegister(s, i)
    case RollbackRemove(i, ok) => SetPhase(RemoveContainer(s, s.insts[i].cid.value, ok), i, Releasing)
    case RollbackRelease(i) => DoRollbackRelease(s, i)
    case Mark(session) => DoMark(s, session)
    case StopContainer(t, ok) => DoStop(s, t, ok)
    case Remove(t, ok) => SetStage(RemoveContainer(s, s.cleanups[t].cid, ok), t, Removed(s.cleanups[t].stage.since))
    case Release(t) => DoRelease(s, t)
    case Delete(t) => DoDelete(s, t)
    case Foreign(world) => s.(docker := world)
  }

  /** The state a schedule of actions leads to from s, if every action was possible when it was taken. */
  function RunFrom(k: Config, s: Sys, acts: seq<Action>): Option<Sys> {
    if acts == [] then Some(s)
    else
      var n := |acts| - 1;
      match RunFrom(k, s, acts[..n])
      case None => None
      case Some(m) => if Enabled(k, m, acts[n]) then Some(Apply(k, m, acts[n])) else None
  }

  function Run(k: Config, acts: seq<Action>): Option<Sys> {
    RunFrom(k, INIT, acts)
  }

  /** Every prefix of a possible schedule is possible. */
  lemma {:induction false} PrefixRuns(k: Config, s: Sys, acts: seq<Action>, n: nat)
    requires RunFrom(k, s, acts).Some? && n <= |acts|
    ensures RunFrom(k, s, acts[..n]).Some?
    ensures n < |acts| ==>
              var m := RunFrom(k, s, acts[..n]).value;
              Enabled(k, m, acts[n]) && RunFrom(k, s, acts[..n + 1]) == Some(Apply(k, m, acts[n]))
    decreases |acts|
  {
    var l := |acts| - 1;
    if n == |acts| {
      assert acts[..n] == acts;
    } else if n == l {
      assert acts[..n + 1] == acts;
    } else {
      PrefixRuns(k, s, acts[..l], n);
      assert acts[..l][..n] == acts[..n] && acts[..l][..n + 1] == acts[..n + 1];
    }
  }

  lemma AppendAction(k: Config, s: Sys, acts: seq<Action>, a: Action)
    requires RunFrom(k, s, acts).Some? && Enabled(k, RunFrom(k, s, acts).value, a)
    ensures RunFrom(k, s, acts + [a]) == Some(Apply(k, RunFrom(k, s, acts).value, a))
  {
    assert (acts + [a])[..|acts|] == acts;
  }

  /** The state a schedule is in before its n-th action. */
  ghost function StateAt(k: Config, acts: seq<Action>, n: nat): Sys
    requires Run(k, acts).Some? && n <= |acts|
  {
    PrefixRuns(k, INIT, acts, n);
    Run(k, acts[..n]).value
  }

  lemma {:induction false} RunConcat(k: Config, s: Sys, first: seq<Action>, second: seq<Action>)
    requires RunFrom(k, s, first).Some?
    ensures RunFrom(k, s, first + second) == RunFrom(k, RunFrom(k, s, first).value, second)
    decreases |second|
  {
    if second == [] {
      assert first + second == first;
    } else {
      var n := |second| - 1;
      RunConcat(k, s, first, second[..n]);
      assert (first + second)[..|first + second| - 1] == first + second[..n];
    }
  }
}
