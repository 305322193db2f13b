/**
 * The rental executor as an object: a start that either completes or undoes
 * everything but the port's quarantine, the health poll it contains, stopping
 * and the cleanup that follows.
 */
module RentalExecution {
  import opened Wrappers
  import A = Arithmetic
  import D = Docker
  import L = Leases
  import P = PortManagement
  import Text

  datatype RentalError =
    | SessionAlreadyActive
    | SessionNotFound
    | ContainerNotHealthy
    | NoPort
    | CreateFailed
    | StartFailed
    | InspectFailed
    | Cancelled
    | ContainerStopped(state: string)
    | StopFailed

  datatype StartRentalRequest = StartRentalRequest(sessionID: string, gpuDeviceID: string, host: string)

  datatype ConnectionInfo = ConnectionInfo(host: string, port: int, user: string, command: string, containerID: nat)

  /** A rental's record as read from outside. */
  datatype Record = Record(sessionID: string, containerID: nat, sshPort: int, startedAt: int, stoppedAt: Option<int>)

  /** What the goroutine started by a successful stop carries. */
  datatype CleanupTask = CleanupTask(sessionID: string, containerID: nat, sshPort: int)

  // ----- Health -----

  datatype Inspection = InspectError | Seen(state: string, health: string)

  /** The k-th round of polling: the time at its start, whether the caller has cancelled, and what an inspection shows. */
  datatype Polls = Polls(at: nat -> int, cancelled: nat -> bool, seen: nat -> Inspection)

  predicate Spaced(p: Polls, k: nat, interval: int) {
    p.at(k + 1) >= p.at(k) + interval
  }

  /** Rounds follow each other no faster than the sleep between them. */
  ghost predicate Paced(p: Polls, interval: int) {
    forall k: nat :: Spaced(p, k, interval)
  }

  predicate Well(i: Inspection) {
    i.Seen? && i.state == "running" && (i.health == "" || i.health == "healthy")
  }

  /** What a single inspection decides, if anything. */
  function Decide(i: Inspection): Option<Result<(), RentalError>> {
    if i.InspectError? then Some(Err(InspectFailed))
    else if Well(i) then Some(Ok(()))
    else if i.state == "running" && i.health == "unhealthy" then Some(Err(ContainerNotHealthy))
    else if i.state == "exited" || i.state == "dead" then Some(Err(ContainerStopped(i.state)))
    else None
  }

  /** What round k decides: the deadline comes before cancellation, and both before inspecting. */
  function Verdict(p: Polls, deadline: int, k: nat): Option<Result<(), RentalError>> {
    if p.at(k) > deadline then Some(Err(ContainerNotHealthy))
    else if p.cancelled(k) then Some(Err(Cancelled))
    else Decide(p.seen(k))
  }

  /** Round n is the first that decides anything. */
  ghost predicate FirstDecision(p: Polls, deadline: int, n: nat) {
    Verdict(p, deadline, n).Some? && forall j :: 0 <= j < n ==> Verdict(p, deadline, j).None?
  }

  /** Why a start failed after taking its port: Docker's create or start, or what the health poll first decided. */
  ghost predicate Explains(e: RentalError, p: Polls, deadline: int, n: nat) {
    || e == CreateFailed
    || e == StartFailed
    || (FirstDecision(p, deadline, n) && Verdict(p, deadline, n) == Some(Err(e)))
  }

  /** Success is decided by one healthy observation, in time, with nothing decisive seen before it. */
  lemma SuccessMeansHealthy(p: Polls, deadline: int, n: nat)
    requires FirstDecision(p, deadline, n) && Verdict(p, deadline, n).value.Ok?
    ensures Well(p.seen(n)) && p.at(n) <= deadline && !p.cancelled(n)
    ensures forall j :: 0 <= j < n ==> !Well(p.seen(j))
  {
    forall j | 0 <= j < n
      ensures !Well(p.seen(j))
    {
      assert Verdict(p, deadline, j).None?;
    }
  }

  /** What every outcome of waiting says was observed: rounds that may yet lead to health, and then one that settles it. */
  lemma DecisionMeans(p: Polls, deadline: int, n: nat)
    requires FirstDecision(p, deadline, n)
    ensures forall j :: 0 <= j < n ==>
              && p.at(j) <= deadline && !p.cancelled(j) && p.seen(j).Seen?
              && p.seen(j).state != "exited" && p.seen(j).state != "dead"
              && (p.seen(j).state == "running" ==>
                    p.seen(j).health != "" && p.seen(j).health != "healthy" && p.seen(j).health != "unhealthy")
    ensures var r, i := Verdict(p, deadline, n).value, p.seen(n);
            var late, asked := p.at(n) > deadline, p.at(n) <= deadline && !p.cancelled(n);
            && (r.Ok? <==> asked && i.Seen? && i.state == "running" && (i.health == "" || i.health == "healthy"))
            && (r == Err(ContainerNotHealthy) <==> late || (asked && i.Seen? && i.state == "running" && i.health == "unhealthy"))
            && (r == Err(Cancelled) <==> !late && p.cancelled(n))
            && (r == Err(InspectFailed) <==> asked && i.InspectError?)
            && (forall state :: r == Err(ContainerStopped(state)) <==>
                                  asked && i.Seen? && i.state == state && (state == "exited" || state == "dead"))
  {
    forall j | 0 <= j < n
      ensures
              && p.at(j) <= deadline && !p.cancelled(j) && p.seen(j).Seen?
              && p.seen(j).state != "exited" && p.seen(j).state != "dead"
              && (p.seen(j).state == "running" ==>
                    p.seen(j).health != "" && p.seen(j).health != "healthy" && p.seen(j).health != "unhealthy")
    {
      assert Verdict(p, deadline, j).None?;
    }
  }

  lemma FirstDecisionUnique(p: Polls, deadline: int, m: nat, n: nat)
    requires FirstDecision(p, deadline, m) && FirstDecision(p, deadline, n)
    ensures m == n
  {
  }

  lemma RoundsBound(n: nat, interval: int, timeout: int)
    requires interval > 0 && n * interval <= timeout
    ensures n <= timeout / interval
  {
    assert n * interval >= 0;
    A.SpacedCount(n + 1, timeout, interval);
  }

  // ----- The executor -----

  class RentalState {
    const sessionID: string
    const containerID: nat
    const sshPort: int
    const startedAt: int
    var stoppedAt: Option<int>

    constructor (sessionID: string, containerID: nat, sshPort: int, startedAt: int)
      ensures View() == Record(sessionID, containerID, sshPort, startedAt, None)
    {
      this.sessionID, this.containerID, this.sshPort, this.startedAt := sessionID, containerID, sshPort, startedAt;
      stoppedAt := None;
    }

    function View(): Record
      reads this
    {
      Record(sessionID, containerID, sshPort, startedAt, stoppedAt)
    }
  }

  /** What a start that got its port asks of Docker, if next is the engine's next id, up to the failure there was. */
  function LaunchLog(req: StartRentalRequest, sshPort: int, next: nat, failure: Option<RentalError>, leaked: bool): seq<D.Call> {
    if failure == Some(CreateFailed) then [D.Created(req.sessionID, Some(sshPort), req.gpuDeviceID, None)]
    else
      [D.Created(req.sessionID, Some(sshPort), req.gpuDeviceID, Some(next)), D.Started(next, failure != Some(StartFailed))]
      + if failure.None? then [] else [D.Removed(next, !leaked)]
  }

  function StartLog(req: StartRentalRequest, port: Option<int>, next: nat, r: Result<ConnectionInfo, RentalError>, leaked: bool):
    seq<D.Call>
  {
    if r.Err? && (r.error == SessionAlreadyActive || r.error == NoPort) then []
    else if port.None? then []
    else LaunchLog(req, port.value, next, if r.Ok? then None else Some(r.error), leaked)
  }

  /** A refused start asks nothing; any other asks for a container, starts what it got, and on failure asks to remove it. */
  lemma StartAsks(req: StartRentalRequest, port: int, next: nat, r: Result<ConnectionInfo, RentalError>, leaked: bool)
    ensures var log := StartLog(req, Some(port), next, r, leaked);
            var made := D.Created(req.sessionID, Some(port), req.gpuDeviceID, Some(next));
            && (r.Ok? ==> log == [made, D.Started(next, true)])
            && (r == Err(SessionAlreadyActive) || r == Err(NoPort) ==> log == [])
            && (r == Err(CreateFailed) ==> log == [D.Created(req.sessionID, Some(port), req.gpuDeviceID, None)])
            && (r == Err(StartFailed) ==> log == [made, D.Started(next, false), D.Removed(next, !leaked)])
            && (r.Err? && r.error !in {SessionAlreadyActive, NoPort, CreateFailed, StartFailed} ==>
                  log == [made, D.Started(next, true), D.Removed(next, !leaked)])
  {
  }

  /** When a start looks for a port, registers, and, if it fails, releases the port. */
  datatype StartTimes = StartTimes(allocate: int, health: int, register: int, release: int)

  /** What a start can change: the records, the port table and the engine. */
  datatype Snapshot = Snapshot(rentals: map<string, Record>, table: L.Table, world: D.World)

  /** Refused without taking anything: the session is active, or no port is free. */
  predicate Refused(c: L.Config, req: StartRentalRequest, at: StartTimes, b: Snapshot, e: RentalError) {
    || (e == SessionAlreadyActive && req.sessionID in b.rentals)
    || (e == NoPort && req.sessionID !in b.rentals && L.Choose(c, b.table, at.allocate).None?)
  }

  /** Done: the least free port leased, a new container bound to it and running, and a new record. */
  predicate Completed(c: L.Config, req: StartRentalRequest, at: StartTimes, b: Snapshot, a: Snapshot, info: ConnectionInfo) {
    && req.sessionID !in b.rentals
    && L.Choose(c, b.table, at.allocate) == Some(info.port)
    && a.table == b.table[info.port := L.Lease(req.sessionID, at.allocate, None)]
    && info.containerID == b.world.nextId
    && a.world.containers
       == b.world.containers[info.containerID := D.Container(req.sessionID, Some(info.port), req.gpuDeviceID, true)]
    && a.rentals == b.rentals[req.sessionID := Record(req.sessionID, info.containerID, info.port, at.register, None)]
    && info.host == req.host && info.user == "ubuntu"
    && info.command == "ssh -p " + Text.Integer(info.port) + " ubuntu@" + req.host
  }

  /** Undone: the records as before, the port leased and released again, and no container left unless its removal failed. */
  predicate RolledBack(c: L.Config, req: StartRentalRequest, at: StartTimes, b: Snapshot, a: Snapshot, leaked: bool) {
    && req.sessionID !in b.rentals
    && a.rentals == b.rentals
    && L.Choose(c, b.table, at.allocate).Some?
    && a.table == L.Release(L.Allocate(c, b.table, req.sessionID, at.allocate),
                            L.Choose(c, b.table, at.allocate).value, at.release)
    && (if leaked then b.world.nextId in a.world.containers && D.Remove(a.world, b.world.nextId).containers == b.world.containers
        else a.world.containers == b.world.containers)
  }

  /** After a failed start no lease but that of the port it took differs, and that port is quarantined, not free. */
  lemma FailureQuarantines(c: L.Config, req: StartRentalRequest, at: StartTimes, b: Snapshot, a: Snapshot, leaked: bool,
                           now: int)
    requires RolledBack(c, req, at, b, a, leaked) && now < at.release + c.grace
    ensures var p := L.Choose(c, b.table, at.allocate).value;
            && a.table - {p} == b.table - {p}
            && !L.Live(a.table, p) && !L.Eligible(c.grace, a.table, p, now)
            && L.Choose(c, a.table, now) != Some(p)
  {
    var p := L.Choose(c, b.table, at.allocate).value;
    var taken := L.Allocate(c, b.table, req.sessionID, at.allocate);
    L.ReleaseQuarantines(c, taken, p, at.release, now);
    assert a.table - {p} == b.table - {p};
  }

  class RentalExecutor {
    const docker: D.Engine
    const portManager: P.PortManager
    const gracePeriod: int
    const healthTimeout: int
    const healthInterval: int
    var activeRentals: map<string, RentalState>

    ghost predicate Valid()
      reads this, activeRentals.Values, docker, portManager, portManager.allocations.Values
    {
      && portManager.Valid() && D.Valid(docker.View())
      && (forall n, m :: n in activeRentals && m in activeRentals && activeRentals[n] == activeRentals[m] ==> n == m)
    }

    ghost function Rentals(): map<string, Record>
      reads this, activeRentals.Values
    {
      map n | n in activeRentals :: activeRentals[n].View()
    }

    constructor (docker: D.Engine, portManager: P.PortManager, gracePeriod: int)
      requires portManager.Valid() && D.Valid(docker.View())
      ensures Valid() && Rentals() == map[]
      ensures this.docker == docker && this.portManager == portManager && this.gracePeriod == gracePeriod
      ensures healthTimeout == 60_000_000_000 && healthInterval == 2_000_000_000
    {
      this.docker, this.portManager, this.gracePeriod := docker, portManager, gracePeriod;
      healthTimeout, healthInterval := 60_000_000_000, 2_000_000_000;
      activeRentals := map[];
    }

    /** Polls until the first round that decides; `inspections` counts the calls into Docker. */
    method WaitForHealth(p: Polls, now: int) returns (r: Result<(), RentalError>, n: nat, inspections: nat)
      requires healthInterval > 0 && Paced(p, healthInterval) && now <= p.at(0)
      ensures FirstDecision(p, now + healthTimeout, n) && Verdict(p, now + healthTimeout, n) == Some(r)
      ensures r.Err? ==> r.error !in {SessionAlreadyActive, NoPort, CreateFailed, StartFailed}
      ensures inspections == if p.at(n) > now + healthTimeout || p.cancelled(n) then n else n + 1
      ensures healthTimeout >= 0 ==> inspections <= healthTimeout / healthInterval + 1
      ensures healthTimeout < 0 ==> inspections == 0
      // no round before the last decided anything
      ensures forall j :: 0 <= j < n ==>
                && p.at(j) <= now + healthTimeout && !p.cancelled(j) && p.seen(j).Seen?
                && p.seen(j).state != "exited" && p.seen(j).state != "dead"
                && (p.seen(j).state == "running" ==>
                      p.seen(j).health != "" && p.seen(j).health != "healthy" && p.seen(j).health != "unhealthy")
      // what the last one saw
      ensures var i, late := p.seen(n), p.at(n) > now + healthTimeout;
              var asked := !late && !p.cancelled(n);
              && (r.Ok? <==> asked && i.Seen? && i.state == "running" && (i.health == "" || i.health == "healthy"))
              && (r == Err(ContainerNotHealthy) <==> late || (asked && i.Seen? && i.state == "running" && i.health == "unhealthy"))
              && (r == Err(Cancelled) <==> !late && p.cancelled(n))
              && (r == Err(InspectFailed) <==> asked && i.InspectError?)
              && (forall state :: r == Err(ContainerStopped(state)) <==>
                                    asked && i.Seen? && i.state == state && (state == "exited" || state == "dead"))
    {
      var deadline := now + healthTimeout;
      n, inspections := 0, 0;
      while true
        invariant inspections == n
        invariant forall j :: 0 <= j < n ==> Verdict(p, deadline, j).None?
        invariant p.at(n) >= now + n * healthInterval
        invariant n > 0 ==> (n - 1) * healthInterval <= healthTimeout
        decreases deadline - p.at(n)
      {
        if n > 0 {
          RoundsBound(n - 1, healthInterval, healthTimeout);
        }
        if p.at(n) > deadline {
          r := Err(ContainerNotHealthy);
          break;
        }
        if p.cancelled(n) {
          r := Err(Cancelled);
          break;
        }
        assert n * healthInterval <= healthTimeout;
        RoundsBound(n, healthInterval, healthTimeout);
        var info := p.seen(n);
        inspections := inspections + 1;
        if info.InspectError? {
          r := Err(InspectFailed);
          break;
        }
        if info.state == "running" {
          if info.health == "" || info.health == "healthy" {
            r := Ok(());
            break;
          }
          if info.health == "unhealthy" {
            r := Err(ContainerNotHealthy);
            break;
          }
        }
        if info.state == "exited" || info.state == "dead" {
          r := Err(ContainerStopped(info.state));
          break;
        }
        assert Spaced(p, n, healthInterval);
        assert (n + 1) * healthInterval == n * healthInterval + healthInterval;
        n := n + 1;
      }
      DecisionMeans(p, deadline, n);
    }

    ghost function View(): Snapshot
      reads this, activeRentals.Values, docker, portManager, portManager.allocations.Values
    {
      Snapshot(Rentals(), portManager.Table(), docker.View())
    }

    /** Adds the record of a started rental. */
    method Track(sessionID: string, containerID: nat, sshPort: int, now: int)
      requires Valid()
      modifies this
      ensures Valid() && fresh(activeRentals.Values - old(activeRentals.Values))
      ensures Rentals() == old(Rentals())[sessionID := Record(sessionID, containerID, sshPort, now, None)]
    {
      var state := new RentalState(sessionID, containerID, sshPort, now);
      activeRentals := activeRentals[sessionID := state];
      assert Rentals() == old(Rentals())[sessionID := state.View()];
    }

    /**
     * Starts a rental, or undoes what was done so far. `leaked` tells that a
     * container was made and its removal failed; `n` is the round of polling
     * that decided.
     */
    method StartRental(req: StartRentalRequest, p: Polls, at: StartTimes)
      returns (r: Result<ConnectionInfo, RentalError>, ghost leaked: bool, ghost n: nat)
      requires Valid() && healthInterval > 0 && Paced(p, healthInterval) && at.health <= p.at(0)
      modifies this, docker, portManager, portManager.allocations.Values
      ensures Valid() && fresh(portManager.allocations.Values - old(portManager.allocations.Values))
      ensures fresh(activeRentals.Values - old(activeRentals.Values))
      ensures r.Ok? ==>
                && Completed(portManager.Config(), req, at, old(View()), View(), r.value)
                && FirstDecision(p, at.health + healthTimeout, n) && Well(p.seen(n))
      ensures r.Err? && (r.error == SessionAlreadyActive || r.error == NoPort) ==>
                View() == old(View()) && Refused(portManager.Config(), req, at, old(View()), r.error)
      ensures r.Err? && r.error != SessionAlreadyActive && r.error != NoPort ==>
                RolledBack(portManager.Config(), req, at, old(View()), View(), leaked)
      ensures r.Err? && r.error != SessionAlreadyActive && r.error != NoPort ==>
                Explains(r.error, p, at.health + healthTimeout, n) && (r.error == CreateFailed ==> !leaked)
      ensures r.Ok? ==>
                && r.value == ConnectionInfo(req.host, r.value.port, "ubuntu",
                                             "ssh -p " + Text.Integer(r.value.port) + " ubuntu@" + req.host, old(docker.nextId))
                && req.sessionID in Rentals()
                && Rentals()[req.sessionID] == Record(req.sessionID, old(docker.nextId), r.value.port, at.register, None)
      ensures r.Err? ==> Rentals() == old(Rentals())
      // what Docker was asked
      ensures docker.log == old(docker.log) + StartLog(req, L.Choose(portManager.Config(), old(View()).table, at.allocate),
                                                       old(docker.nextId), r, leaked)
    {
      leaked, n := false, 0;
      ghost var before := View();
      if req.sessionID in activeRentals {
        return Err(SessionAlreadyActive), leaked, n;
      }
      var port := portManager.Allocate(req.sessionID, at.allocate);
      if port.Err? {
        return Err(NoPort), leaked, n;
      }
      assert Rentals() == before.rentals && docker.View() == before.world && docker.log == old(docker.log);
      assert L.Choose(portManager.Config(), before.table, at.allocate) == Some(port.value);
      var launched, lost, rounds := Launch(req, port.value, p, at);
      leaked, n := lost, rounds;
      if launched.Err? {
        assert RolledBack(portManager.Config(), req, at, before, View(), leaked);
        return Err(launched.error), leaked, n;
      }
      Track(req.sessionID, launched.value, port.value, at.register);
      var command := "ssh -p " + Text.Integer(port.value) + " ubuntu@" + req.host;
      var info := ConnectionInfo(req.host, port.value, "ubuntu", command, launched.value);
      assert Completed(portManager.Config(), req, at, before, View(), info);
      return Ok(info), leaked, n;
    }

    /** Creates the container, starts it and waits for it; a container that was made is reported even on failure. */
    method Build(req: StartRentalRequest, sshPort: int, p: Polls, now: int)
      returns (id: Option<nat>, failure: Option<RentalError>, ghost n: nat)
      requires D.Valid(docker.View()) && healthInterval > 0 && Paced(p, healthInterval) && now <= p.at(0)
      modifies docker
      ensures D.Valid(docker.View())
      ensures id.None? ==> failure == Some(CreateFailed) && docker.View() == old(docker.View())
      ensures id.Some? ==>
                && id.value == old(docker.nextId)
                && D.Remove(docker.View(), id.value).containers == old(docker.containers)
                && id.value in docker.containers
      ensures failure.Some? ==>
                && failure.value != SessionAlreadyActive && failure.value != NoPort
                && Explains(failure.value, p, now + healthTimeout, n)
                && (failure.value == CreateFailed ==> id.None?)
      ensures failure.None? ==>
                && id.Some?
                && docker.containers
                   == old(docker.containers)[id.value := D.Container(req.sessionID, Some(sshPort), req.gpuDeviceID, true)]
                && FirstDecision(p, now + healthTimeout, n) && Well(p.seen(n))
      ensures docker.log == old(docker.log)
                            + [D.Created(req.sessionID, Some(sshPort), req.gpuDeviceID, id)]
                            + (if id.None? then [] else [D.Started(id.value, failure != Some(StartFailed))])
    {
      n := 0;
      D.RemoveUndoesCreate(docker.View(), req.sessionID, Some(sshPort), req.gpuDeviceID);
      id := docker.CreateContainer(req.sessionID, Some(sshPort), req.gpuDeviceID);
      if id.None? {
        return id, Some(CreateFailed), n;
      }
      var started := docker.StartContainer(id.value);
      if !started {
        return id, Some(StartFailed), n;
      }
      var health, rounds, _ := WaitForHealth(p, now);
      n := rounds;
      if health.Err? {
        return id, Some(health.error), n;
      }
      SuccessMeansHealthy(p, now + healthTimeout, n);
      failure := None;
    }

    /** The part of a start between taking the port and registering, with its rollback. */
    method Launch(req: StartRentalRequest, sshPort: int, p: Polls, at: StartTimes)
      returns (r: Result<nat, RentalError>, ghost leaked: bool, ghost n: nat)
      requires Valid() && healthInterval > 0 && Paced(p, healthInterval) && at.health <= p.at(0)
      modifies docker, portManager.allocations.Values
      ensures Valid() && portManager.allocations == old(portManager.allocations)
      ensures Rentals() == old(Rentals())
      ensures r.Ok? ==>
                && r.value == old(docker.nextId)
                && docker.containers
                   == old(docker.containers)[r.value := D.Container(req.sessionID, Some(sshPort), req.gpuDeviceID, true)]
                && portManager.Table() == old(portManager.Table())
                && FirstDecision(p, at.health + healthTimeout, n) && Well(p.seen(n))
      ensures r.Err? ==>
                && r.error != SessionAlreadyActive && r.error != NoPort
                && Explains(r.error, p, at.health + healthTimeout, n)
                && (r.error == CreateFailed ==> !leaked)
                && portManager.Table() == L.Release(old(portManager.Table()), sshPort, at.release)
                && (!leaked ==> docker.containers == old(docker.containers))
                && (leaked ==> old(docker.nextId) in docker.containers
                               && D.Remove(docker.View(), old(docker.nextId)).containers == old(docker.containers))
      ensures docker.log == old(docker.log) + LaunchLog(req, sshPort, old(docker.nextId), if r.Ok? then None else Some(r.error), leaked)
    {
      leaked := false;
      var id, failure, rounds := Build(req, sshPort, p, at.health);
      n := rounds;
      if failure.Some? {
        ghost var asked := docker.log;
        leaked := CleanupOnError(id, sshPort, at.release);
        assert asked + (if id.None? then [] else [D.Removed(id.value, !leaked)])
               == old(docker.log) + LaunchLog(req, sshPort, old(docker.nextId), failure, leaked);
        return Err(failure.value), leaked, n;
      }
      r := Ok(id.value);
    }

    /** Removes the container if there is one, ignoring whether that worked, then releases the port. */
    method CleanupOnError(id: Option<nat>, sshPort: int, now: int) returns (ghost leaked: bool)
      requires Valid()
      modifies docker, portManager.allocations.Values
      ensures Valid() && portManager.allocations == old(portManager.allocations)
      ensures id.None? ==> !leaked && docker.View() == old(docker.View())
      ensures id.Some? ==> docker.View() == if leaked then old(docker.View()) else D.Remove(old(docker.View()), id.value)
      ensures portManager.Table() == L.Release(old(portManager.Table()), sshPort, now)
      ensures docker.log == old(docker.log) + if id.None? then [] else [D.Removed(id.value, !leaked)]
    {
      leaked := false;
      if id.Some? {
        var removed := docker.RemoveContainer(id.value);
        leaked := !removed;
      }
      ReleasePort(sshPort, now);
    }

    /** Releases a port, ignoring whether it was allocated. */
    method ReleasePort(port: int, now: int)
      requires Valid()
      modifies portManager.allocations.Values
      ensures Valid() && portManager.allocations == old(portManager.allocations)
      ensures portManager.Table() == L.Release(old(portManager.Table()), port, now)
      ensures Rentals() == old(Rentals())
    {
      var _ := portManager.Release(port, now);
    }

    /** Marks the rental stopped, even if Docker then fails; only a successful stop hands out a cleanup. */
    method StopRental(sessionID: string, now: int) returns (r: Result<CleanupTask, RentalError>, ghost halted: bool)
      requires Valid()
      modifies docker, activeRentals.Values
      ensures Valid() && activeRentals == old(activeRentals) && portManager.Table() == old(portManager.Table())
      ensures sessionID !in activeRentals ==>
                r == Err(SessionNotFound) && Rentals() == old(Rentals()) && docker.View() == old(docker.View())
      ensures sessionID in activeRentals ==>
                var before := old(Rentals())[sessionID];
                && Rentals() == old(Rentals())[sessionID := before.(stoppedAt := Some(now))]
                && docker.View()
                   == (if halted then D.SetRunning(old(docker.View()), before.containerID, false) else old(docker.View()))
                && (r.Ok? ==> halted && r.value == CleanupTask(sessionID, before.containerID, before.sshPort))
                && (r.Err? ==> r.error == StopFailed)
      ensures docker.log == old(docker.log) + if sessionID !in activeRentals then []
                                              else [D.Stopped(old(Rentals())[sessionID].containerID, r.Ok?, halted)]
    {
      halted := false;
      if sessionID !in activeRentals {
        return Err(SessionNotFound), halted;
      }
      var state := activeRentals[sessionID];
      state.stoppedAt := Some(now);
      assert forall n :: n in activeRentals && n != sessionID ==> activeRentals[n].View() == old(activeRentals[n].View());
      var stopped, h := docker.StopContainer(state.containerID);
      halted := h;
      if !stopped {
        return Err(StopFailed), halted;
      }
      return Ok(CleanupTask(sessionID, state.containerID, state.sshPort)), halted;
    }

    /** What a cleanup does once its grace period is over. */
    method RunCleanup(task: CleanupTask, now: int) returns (ghost removed: bool)
      requires Valid()
      modifies this, docker, portManager.allocations.Values
      ensures Valid() && portManager.allocations == old(portManager.allocations)
      ensures docker.View() == if removed then D.Remove(old(docker.View()), task.containerID) else old(docker.View())
      ensures portManager.Table() == L.Release(old(portManager.Table()), task.sshPort, now)
      ensures Rentals() == old(Rentals()) - {task.sessionID}
      ensures docker.log == old(docker.log) + [D.Removed(task.containerID, removed)]
    {
      var ok := docker.RemoveContainer(task.containerID);
      removed := ok;
      assert Valid() && Rentals() == old(Rentals()) && portManager.Table() == old(portManager.Table());
      ReleasePort(task.sshPort, now);
      Forget(task.sessionID);
    }

    /** Drops the record under a session id, whichever rental it speaks of. */
    method Forget(sessionID: string)
      requires Valid()
      modifies this
      ensures Valid() && Rentals() == old(Rentals()) - {sessionID}
    {
      activeRentals := activeRentals - {sessionID};
    }

    /** A copy of the record: later stops do not change what was returned. */
    method GetRentalStatus(sessionID: string) returns (r: Result<Record, RentalError>)
      ensures r == if sessionID in Rentals() then Ok(Rentals()[sessionID]) else Err(SessionNotFound)
    {
      if sessionID !in activeRentals {
        return Err(SessionNotFound);
      }
      return Ok(activeRentals[sessionID].View());
    }
  }
}
