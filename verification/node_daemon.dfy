/** The command handlers of the node, driving the executor and the mining daemon in turn. */
module NodeService {
  import opened Wrappers
  import D = Docker
  import E = RentalExecution
  import L = Leases
  import M = Mining
  import MS = MiningService
  import P = PortManagement
  import Text

  /** A missing field and one of the wrong type look the same to the handlers. */
  datatype Command = Command(id: string, kind: string, sessionID: Option<string>, gpuDeviceID: Option<string>)

  datatype AckError =
    | UnknownCommand
    | NotConfigured
    | MissingSession
    | StartFailure(cause: E.RentalError)
    | StopWarning(cause: E.RentalError)

  datatype AckPayload = Nothing | Stopped(sessionID: string) | Started(sessionID: string, host: string, info: E.ConnectionInfo)

  datatype Ack = Ack(commandID: string, ok: bool, error: Option<AckError>, payload: AckPayload)

  /** What the outside contributes to one command: clock readings, health polls and the machine's outbound address. */
  datatype Outside = Outside(pauseAt: int, start: E.StartTimes, polls: E.Polls, stopAt: int, resumeAt: int, address: string)

  function Field(f: Option<string>): string {
    if f.Some? then f.value else ""
  }

  predicate IsStart(kind: string) {
    kind == "start_rental" || kind == "start_job"
  }

  predicate IsStop(kind: string) {
    kind == "stop_rental" || kind == "stop_job"
  }

  // ----- What the handlers do, on values -----

  /** The node's state: rentals, ports and engine, and the daemon's fields if there is a daemon. */
  datatype View = View(exec: E.Snapshot, mining: Option<M.Daemon>)

  /** What stays fixed. */
  datatype Setup = Setup(executor: bool, hostAddr: string, ports: L.Config, mining: M.Config, healthTimeout: int)

  /** How the Docker calls of one command turned out, and the round of polling that decided. */
  datatype Calls = Calls(down: M.Takedown, leaked: bool, round: nat, halted: bool, start: M.StartCalls)

  const NONE := Calls(M.Takedown(false, false, false), false, 0, false, M.StartCalls(false, false, false))

  /** The node once a GPU, if one is named and there is mining, has been taken from mining. */
  function Taken(c: Setup, b: View, gpu: string, now: int, k: Calls): View {
    if b.mining.None? || gpu == "" then b
    else
      var e := M.DoPause(c.mining, b.mining.value, b.exec.world, now, {gpu}, k.down.stopped, k.down.removed);
      View(b.exec.(world := e.w), Some(e.d))
  }

  /** Whether taking it spawns a Start of mining. */
  predicate TakingRestarts(c: Setup, b: View, gpu: string) {
    b.mining.Some? && gpu != "" && M.PauseRestarts(c.mining, b.mining.value, {gpu})
  }

  /** A command that is refused at once. */
  function Refusal(c: Setup, cmd: Command): Option<AckError> {
    if !c.executor then Some(NotConfigured)
    else if Field(cmd.sessionID) == "" then Some(MissingSession)
    else None
  }

  function Host(c: Setup, o: Outside): string {
    if c.hostAddr == "" || c.hostAddr == "localhost" then o.address else c.hostAddr
  }

  /** What the executor makes of a start request in state b, and how that is acknowledged. */
  ghost predicate Answered(c: Setup, b: E.Snapshot, a: E.Snapshot, cmd: Command, o: Outside, ack: Ack, k: Calls) {
    var req := E.StartRentalRequest(Field(cmd.sessionID), Field(cmd.gpuDeviceID), c.hostAddr);
    var deadline := o.start.health + c.healthTimeout;
    if ack.ok then
      && ack.payload.Started?
      && ack == Ack(cmd.id, true, None, Started(Field(cmd.sessionID), Host(c, o), ack.payload.info))
      && E.Completed(c.ports, req, o.start, b, a, ack.payload.info)
      && E.FirstDecision(o.polls, deadline, k.round) && E.Well(o.polls.seen(k.round))
    else
      && ack.error.Some? && ack.error.value.StartFailure?
      && ack == Ack(cmd.id, false, ack.error, Nothing)
      && var cause := ack.error.value.cause;
         if cause == E.SessionAlreadyActive || cause == E.NoPort then a == b && E.Refused(c.ports, req, o.start, b, cause)
         else E.RolledBack(c.ports, req, o.start, b, a, k.leaked) && E.Explains(cause, o.polls, deadline, k.round)
  }

  /**
   * A start command: the GPU is taken from mining first, then the executor
   * starts the rental on the engine as mining left it; it keeps the GPU even
   * if the start fails.
   */
  ghost predicate StartHandled(c: Setup, b: View, a: View, cmd: Command, o: Outside, ack: Ack, restart: bool, k: Calls) {
    var m := Taken(c, b, Field(cmd.gpuDeviceID), o.pauseAt, k);
    if Refusal(c, cmd).Some? then
      ack == Ack(cmd.id, false, Refusal(c, cmd), Nothing) && a == b && !restart
    else
      && a.mining == m.mining
      && restart == TakingRestarts(c, b, Field(cmd.gpuDeviceID))
      && Answered(c, m.exec, a.exec, cmd, o, ack, k)
  }

  /** What a start command asks of Docker: mining's container is taken down if there is one, and then the rental started. */
  function StartCommandLog(c: Setup, b: View, cmd: Command, o: Outside, ack: Ack, k: Calls): seq<D.Call>
    requires ack.ok ==> ack.payload.Started?
    requires !ack.ok ==> ack.error.Some?
  {
    if Refusal(c, cmd).Some? || (!ack.ok && !ack.error.value.StartFailure?) then []
    else
      var req := E.StartRentalRequest(Field(cmd.sessionID), Field(cmd.gpuDeviceID), c.hostAddr);
      (if b.mining.None? || Field(cmd.gpuDeviceID) == "" then [] else M.PauseLog(b.mining.value, k.down))
      + E.StartLog(req, L.Choose(c.ports, b.exec.table, o.start.allocate), b.exec.world.nextId,
                   if ack.ok then Ok(ack.payload.info) else Err(ack.error.value.cause), k.leaked)
  }

  /** What a stop command asks of Docker: its container is stopped and then, if that worked, mining resumed. */
  function StopCommandLog(c: Setup, b: View, cmd: Command, task: Option<E.CleanupTask>, k: Calls): seq<D.Call> {
    var n := Field(cmd.sessionID);
    if Refusal(c, cmd).Some? || n !in b.exec.rentals then []
    else
      [D.Stopped(b.exec.rentals[n].containerID, task.Some?, k.halted)]
      + if task.None? || b.mining.None? then [] else M.ResumeLog(c.mining, b.mining.value, {}, b.exec.world.nextId, k.start)
  }

  /** The node once mining has been resumed without returning any GPU to it. */
  function Resumed(c: Setup, b: View, now: int, k: Calls): View {
    match b.mining
    case None => b
    case Some(d) =>
      if M.ResumeRestarts(d) then
        var e := M.DoStart(c.mining, d, b.exec.world, now, k.start);
        View(b.exec.(world := e.w), Some(e.d))
      else b
  }

  /** The node once the record of a session is marked stopped and its container, if Docker did so, halted. */
  function Marked(b: View, n: string, now: int, halted: bool): View
    requires n in b.exec.rentals
  {
    var r := b.exec.rentals[n];
    b.(exec := b.exec.(rentals := b.exec.rentals[n := r.(stoppedAt := Some(now))],
                       world := if halted then D.SetRunning(b.exec.world, r.containerID, false) else b.exec.world))
  }

  /** A stop command: a stop that fails is acknowledged as ok with a warning; only one that succeeds resumes mining. */
  predicate StopHandled(c: Setup, b: View, a: View, cmd: Command, o: Outside, ack: Ack, task: Option<E.CleanupTask>, k: Calls) {
    var n := Field(cmd.sessionID);
    if Refusal(c, cmd).Some? then
      ack == Ack(cmd.id, false, Refusal(c, cmd), Nothing) && a == b && task.None?
    else if n !in b.exec.rentals then
      ack == Ack(cmd.id, true, Some(StopWarning(E.SessionNotFound)), Nothing) && a == b && task.None?
    else
      var marked, r := Marked(b, n, o.stopAt, k.halted), b.exec.rentals[n];
      match task
      case None => ack == Ack(cmd.id, true, Some(StopWarning(E.StopFailed)), Nothing) && a == marked
      case Some(t) =>
        && ack == Ack(cmd.id, true, None, Stopped(n)) && k.halted
        && t == E.CleanupTask(n, r.containerID, r.sshPort)
        && a == Resumed(c, marked, o.resumeAt, k)
  }

  /** Any command: the legacy job commands are aliases, and any other kind is refused. */
  ghost predicate Handled(c: Setup, b: View, a: View, cmd: Command, o: Outside, ack: Ack, restart: bool,
                          task: Option<E.CleanupTask>, k: Calls) {
    if IsStart(cmd.kind) then StartHandled(c, b, a, cmd, o, ack, restart, k) && task.None?
    else if IsStop(cmd.kind) then StopHandled(c, b, a, cmd, o, ack, task, k) && !restart
    else ack == Ack(cmd.id, false, Some(UnknownCommand), Nothing) && a == b && !restart && task.None?
  }

  function RentedIn(v: View): set<string> {
    if v.mining.None? then {} else v.mining.value.rented
  }

  /** The GPU that a command takes from mining for good, whatever becomes of the command. */
  function Claimed(c: Setup, b: View, cmd: Command): set<string> {
    if IsStart(cmd.kind) && Refusal(c, cmd).None? && b.mining.Some? && Field(cmd.gpuDeviceID) != "" then {Field(cmd.gpuDeviceID)}
    else {}
  }

  /** No command ever returns a GPU to mining; a start command takes its GPU, even if it fails; no other takes any. */
  lemma CommandsOnlyTake(c: Setup, b: View, a: View, cmd: Command, o: Outside, ack: Ack, restart: bool,
                         task: Option<E.CleanupTask>, k: Calls)
    requires Handled(c, b, a, cmd, o, ack, restart, task, k)
    ensures RentedIn(a) == RentedIn(b) + Claimed(c, b, cmd)
    ensures a.mining.Some? <==> b.mining.Some?
  {
    if IsStop(cmd.kind) && Refusal(c, cmd).None? && Field(cmd.sessionID) in b.exec.rentals {
      var marked := Marked(b, Field(cmd.sessionID), o.stopAt, k.halted);
      assert RentedIn(Resumed(c, marked, o.resumeAt, k)) == RentedIn(b);
    }
  }

  /** Taking the GPU and then starting the rental is what a start command does. */
  lemma TakenThenStarted(c: Setup, b: View, mid: View, a: View, cmd: Command, o: Outside, ack: Ack, restart: bool, k: Calls,
                         before: seq<D.Call>, between: seq<D.Call>, after: seq<D.Call>)
    requires Refusal(c, cmd).None? && mid == Taken(c, b, Field(cmd.gpuDeviceID), o.pauseAt, k) && a.mining == mid.mining
    requires restart == TakingRestarts(c, b, Field(cmd.gpuDeviceID)) && Answered(c, mid.exec, a.exec, cmd, o, ack, k)
    requires between == before + if b.mining.None? || Field(cmd.gpuDeviceID) == "" then [] else M.PauseLog(b.mining.value, k.down)
    requires after == between + E.StartLog(E.StartRentalRequest(Field(cmd.sessionID), Field(cmd.gpuDeviceID), c.hostAddr),
                                           L.Choose(c.ports, mid.exec.table, o.start.allocate), mid.exec.world.nextId,
                                           if ack.ok then Ok(ack.payload.info) else Err(ack.error.value.cause), k.leaked)
    ensures StartHandled(c, b, a, cmd, o, ack, restart, k)
    ensures after == before + StartCommandLog(c, b, cmd, o, ack, k)
  {
    TakingKeeps(c, b, Field(cmd.gpuDeviceID), o.pauseAt, k);
  }

  /** Taking a GPU from mining neither touches the ports nor uses up an id of the engine's. */
  lemma TakingKeeps(c: Setup, b: View, gpu: string, now: int, k: Calls)
    ensures var m := Taken(c, b, gpu, now, k);
            m.exec.table == b.exec.table && m.exec.rentals == b.exec.rentals && m.exec.world.nextId == b.exec.world.nextId
  {
  }

  /** Stopping the rental and then resuming mining is what a stop command that succeeds does. */
  lemma StoppedThenResumed(c: Setup, b: View, a: View, cmd: Command, o: Outside, ack: Ack, task: Option<E.CleanupTask>, k: Calls,
                           before: seq<D.Call>, after: seq<D.Call>)
    requires Refusal(c, cmd).None? && Field(cmd.sessionID) in b.exec.rentals && k.halted
    requires var n, r := Field(cmd.sessionID), b.exec.rentals[Field(cmd.sessionID)];
             && ack == Ack(cmd.id, true, None, Stopped(n)) && task == Some(E.CleanupTask(n, r.containerID, r.sshPort))
             && a == Resumed(c, Marked(b, n, o.stopAt, true), o.resumeAt, k)
             && after == before + [D.Stopped(r.containerID, true, true)]
                         + (if b.mining.None? then [] else M.ResumeLog(c.mining, b.mining.value, {}, b.exec.world.nextId, k.start))
    ensures StopHandled(c, b, a, cmd, o, ack, task, k)
    ensures after == before + StopCommandLog(c, b, cmd, task, k)
  {
  }

  /** What handling a start command amounts to, field by field. */
  lemma StartMeans(c: Setup, b: View, a: View, cmd: Command, o: Outside, ack: Ack, restart: bool, k: Calls)
    requires StartHandled(c, b, a, cmd, o, ack, restart, k)
    // refused
    ensures !c.executor ==> ack == Ack(cmd.id, false, Some(NotConfigured), Nothing)
    ensures c.executor && cmd.sessionID in {None, Some("")} ==> ack == Ack(cmd.id, false, Some(MissingSession), Nothing)
    ensures !c.executor || cmd.sessionID in {None, Some("")} ==> a == b && !restart && !ack.ok
    // accepted: the GPU is taken from mining, whatever becomes of the start
    ensures c.executor && cmd.sessionID !in {None, Some("")} && b.mining.Some? ==>
              && a.mining.Some?
              && a.mining.value.rented
                 == b.mining.value.rented + (if cmd.gpuDeviceID in {None, Some("")} then {} else {cmd.gpuDeviceID.value})
              && (cmd.gpuDeviceID in {None, Some("")} ==> a.mining == b.mining && !restart)
              && (cmd.gpuDeviceID !in {None, Some("")} && b.mining.value.state == M.Running ==>
                    a.mining.value.containerID == None
                    && (restart <==> b.mining.value.containerID.Some? && M.Available(c.mining.gpus, a.mining.value.rented) != []))
    ensures b.mining.None? ==> a.mining.None? && !restart
    // started
    ensures ack.ok ==>
              && cmd.sessionID.Some? && ack.payload.Started?
              && ack == Ack(cmd.id, true, None,
                            Started(cmd.sessionID.value, if c.hostAddr == "" || c.hostAddr == "localhost" then o.address else c.hostAddr,
                                    ack.payload.info))
              && ack.payload.info.host == c.hostAddr && ack.payload.info.user == "ubuntu"
              && ack.payload.info.command == "ssh -p " + Text.Integer(ack.payload.info.port) + " ubuntu@" + c.hostAddr
              && cmd.sessionID.value !in b.exec.rentals
              && a.exec.rentals
                 == b.exec.rentals[cmd.sessionID.value := E.Record(cmd.sessionID.value, ack.payload.info.containerID,
                                                                  ack.payload.info.port, o.start.register, None)]
              && ack.payload.info.containerID in a.exec.world.containers
              && a.exec.world.containers[ack.payload.info.containerID]
                 == D.Container(cmd.sessionID.value, Some(ack.payload.info.port), if cmd.gpuDeviceID.Some? then cmd.gpuDeviceID.value else "", true)
    // not started
    ensures !ack.ok ==> ack.commandID == cmd.id && ack.error.Some? && ack.payload == Nothing && a.exec.rentals == b.exec.rentals
  {
  }

  /** What it asks of Docker: mining's container is stopped and removed first, if there is one, and then the rental's made. */
  lemma StartCommandAsks(c: Setup, b: View, cmd: Command, o: Outside, ack: Ack, k: Calls, port: int)
    requires (ack.ok ==> ack.payload.Started?) && (!ack.ok ==> ack.error.Some?)
    requires c.executor && cmd.sessionID !in {None, Some("")} && L.Choose(c.ports, b.exec.table, o.start.allocate) == Some(port)
    requires ack.ok || ack.error == Some(StartFailure(E.CreateFailed))
    ensures var log := StartCommandLog(c, b, cmd, o, ack, k);
            var gpu := if cmd.gpuDeviceID.Some? then cmd.gpuDeviceID.value else "";
            var next := b.exec.world.nextId;
            var mined := b.mining.Some? && gpu != "" && b.mining.value.state == M.Running && b.mining.value.containerID.Some?;
            && (mined ==>
                  var down := b.mining.value.containerID.value;
                  && |log| >= 3 && log[0] == D.Stopped(down, k.down.answer, k.down.stopped) && log[1] == D.Removed(down, k.down.removed)
                  && log[2] == D.Created(cmd.sessionID.value, Some(port), gpu, if ack.ok then Some(next) else None))
            && (!mined ==>
                  |log| >= 1 && log[0] == D.Created(cmd.sessionID.value, Some(port), gpu, if ack.ok then Some(next) else None))
            && (ack.ok ==> log[|log| - 1] == D.Started(next, true))
  {
  }

  /** What handling a stop command amounts to, field by field, and what it asks of Docker. */
  lemma StopMeans(c: Setup, b: View, a: View, cmd: Command, o: Outside, ack: Ack, task: Option<E.CleanupTask>, k: Calls)
    requires StopHandled(c, b, a, cmd, o, ack, task, k)
    // refused
    ensures !c.executor ==> ack == Ack(cmd.id, false, Some(NotConfigured), Nothing)
    ensures c.executor && cmd.sessionID in {None, Some("")} ==> ack == Ack(cmd.id, false, Some(MissingSession), Nothing)
    ensures !c.executor || cmd.sessionID in {None, Some("")} ==> a == b && task == None && StopCommandLog(c, b, cmd, task, k) == []
    // no such rental
    ensures c.executor && cmd.sessionID !in {None, Some("")} && cmd.sessionID.value !in b.exec.rentals ==>
              && ack == Ack(cmd.id, true, Some(StopWarning(E.SessionNotFound)), Nothing) && task == None && a == b
              && StopCommandLog(c, b, cmd, task, k) == []
    // Docker is asked to stop the container, and only if it did is mining resumed, with no GPU more than before
    ensures c.executor && cmd.sessionID !in {None, Some("")} && cmd.sessionID.value in b.exec.rentals ==>
              var n, r, log := cmd.sessionID.value, b.exec.rentals[cmd.sessionID.value], StopCommandLog(c, b, cmd, task, k);
              && a.exec.rentals == b.exec.rentals[n := r.(stoppedAt := Some(o.stopAt))] && a.exec.table == b.exec.table
              && |log| > 0 && log[0] == D.Stopped(r.containerID, task.Some?, k.halted)
              && (task == None ==>
                    && ack == Ack(cmd.id, true, Some(StopWarning(E.StopFailed)), Nothing) && a.mining == b.mining && |log| == 1
                    && (!k.halted ==> a.exec.world == b.exec.world))
              && (task != None ==>
                    && ack == Ack(cmd.id, true, None, Stopped(n)) && task == Some(E.CleanupTask(n, r.containerID, r.sshPort))
                    && (r.containerID in a.exec.world.containers && r.containerID < b.exec.world.nextId
                        && r.containerID in b.exec.world.containers ==>
                          !a.exec.world.containers[r.containerID].running))
              && (task != None && b.mining.Some? ==> a.mining.Some? && a.mining.value.rented == b.mining.value.rented)
              && (task != None && b.mining.Some? && b.mining.value.state == M.Running ==> a.mining == b.mining && |log| == 1)
              && (task != None && b.mining.Some? && b.mining.value.state != M.Running && c.mining.enabled
                  && M.Available(c.mining.gpus, b.mining.value.rented) != [] ==>
                    && |log| > 1
                    && log[1] == D.Created("worldland-mining", None, M.Available(c.mining.gpus, b.mining.value.rented)[0],
                                           if k.start.created then Some(b.exec.world.nextId) else None))
  {
    if b.mining.Some? {
      assert M.DoResume(b.mining.value, {}) == b.mining.value;
    }
  }

  // ----- The handlers -----

  class NodeDaemon {
    const hostAddr: string
    const rentalExecutor: E.RentalExecutor?
    const miningDaemon: MS.MiningDaemon?

    constructor (hostAddr: string, rentalExecutor: E.RentalExecutor?, miningDaemon: MS.MiningDaemon?)
      ensures this.hostAddr == hostAddr && this.rentalExecutor == rentalExecutor && this.miningDaemon == miningDaemon
    {
      this.hostAddr, this.rentalExecutor, this.miningDaemon := hostAddr, rentalExecutor, miningDaemon;
    }

    /** All components share one engine. */
    ghost predicate Valid()
      reads this, Executor(), Engines(), Ports(), Records(), Allocations()
    {
      && (rentalExecutor != null ==> rentalExecutor.Valid() && rentalExecutor.healthInterval > 0)
      && (miningDaemon != null ==> D.Valid(miningDaemon.docker.View()))
      && (rentalExecutor != null && miningDaemon != null ==> miningDaemon.docker == rentalExecutor.docker)
    }

    ghost function Executor(): set<E.RentalExecutor> {
      if rentalExecutor == null then {} else {rentalExecutor}
    }

    ghost function Miner(): set<MS.MiningDaemon> {
      if miningDaemon == null then {} else {miningDaemon}
    }

    ghost function Engines(): set<D.Engine> {
      (if rentalExecutor == null then {} else {rentalExecutor.docker})
      + (if miningDaemon == null then {} else {miningDaemon.docker})
    }

    ghost function Ports(): set<P.PortManager> {
      if rentalExecutor == null then {} else {rentalExecutor.portManager}
    }

    ghost function Records(): set<E.RentalState>
      reads Executor()
    {
      if rentalExecutor == null then {} else rentalExecutor.activeRentals.Values
    }

    ghost function Allocations(): set<P.Allocation>
      reads Ports()
    {
      if rentalExecutor == null then {} else rentalExecutor.portManager.allocations.Values
    }

    /** The GPUs mining keeps off. */
    function Rented(): set<string>
      reads Miner()
    {
      if miningDaemon == null then {} else miningDaemon.pausedGPUs
    }

    ghost function Fixed(): Setup {
      Setup(rentalExecutor != null, hostAddr,
            if rentalExecutor == null then L.Config(0, 0, 0) else rentalExecutor.portManager.Config(),
            if miningDaemon == null then M.Config(false, []) else miningDaemon.Config(),
            if rentalExecutor == null then 0 else rentalExecutor.healthTimeout)
    }

    ghost function State(): View
      reads Executor(), Miner(), Engines(), Ports(), Records(), Allocations()
    {
      View(if rentalExecutor != null then rentalExecutor.View()
           else E.Snapshot(map[], map[], if miningDaemon != null then miningDaemon.docker.View() else D.World(map[], 0)),
           if miningDaemon == null then None else Some(miningDaemon.View()))
    }

    /** The calls to the engine so far. */
    ghost function Log(): seq<D.Call>
      reads Executor(), Miner(), Engines()
    {
      if rentalExecutor != null then rentalExecutor.docker.log
      else if miningDaemon != null then miningDaemon.docker.log
      else []
    }

    /** Pauses mining for one GPU, if mining is configured and a GPU is named; `restart` tells that a Start is spawned. */
    method TakeFromMining(gpu: string, now: int) returns (restart: bool, ghost calls: Calls)
      requires Valid() && rentalExecutor != null
      modifies Miner(), Engines()
      ensures Valid() && State() == Taken(Fixed(), old(State()), gpu, now, calls)
      ensures calls == NONE.(down := calls.down)
      ensures restart == TakingRestarts(Fixed(), old(State()), gpu)
      ensures miningDaemon == null || gpu == "" ==> State() == old(State()) && Log() == old(Log()) && !restart
      ensures miningDaemon != null && gpu != "" ==>
                Rented() == old(Rented()) + {gpu} && Log() == old(Log()) + M.PauseLog(old(miningDaemon.View()), calls.down)
    {
      restart, calls := false, NONE;
      if miningDaemon != null && gpu != "" {
        assert M.Elements([gpu]) == {gpu};
        var again, down := miningDaemon.PauseForRental([gpu], now);
        calls := calls.(down := down);
        restart := again;
        assert rentalExecutor.Rentals() == old(rentalExecutor.Rentals());
      }
    }

    /** `restart` tells that mining is to be started again in the background. */
    method HandleStartRental(cmd: Command, o: Outside) returns (ack: Ack, restart: bool, ghost calls: Calls)
      requires Valid()
      requires rentalExecutor != null ==> E.Paced(o.polls, rentalExecutor.healthInterval) && o.start.health <= o.polls.at(0)
      modifies Executor(), Miner(), Engines(), Ports(), Allocations()
      ensures Valid() && StartHandled(Fixed(), old(State()), State(), cmd, o, ack, restart, calls)
      ensures (ack.ok ==> ack.payload.Started?) && (!ack.ok ==> ack.error.Some?)
      ensures Log() == old(Log()) + StartCommandLog(Fixed(), old(State()), cmd, o, ack, calls)
    {
      restart, calls := false, NONE;
      if rentalExecutor == null {
        return Ack(cmd.id, false, Some(NotConfigured), Nothing), restart, calls;
      }
      var sessionID := Field(cmd.sessionID);
      if sessionID == "" {
        return Ack(cmd.id, false, Some(MissingSession), Nothing), restart, calls;
      }
      var again, pausing := TakeFromMining(Field(cmd.gpuDeviceID), o.pauseAt);
      restart := again;
      ghost var b, mid, pauseLog := old(State()), State(), Log();
      ack, calls := CallExecutor(cmd, o, pausing);
      TakenThenStarted(Fixed(), b, mid, State(), cmd, o, ack, restart, calls, old(Log()), pauseLog, Log());
    }

    method CallExecutor(cmd: Command, o: Outside, ghost pausing: Calls) returns (ack: Ack, ghost calls: Calls)
      requires Valid() && rentalExecutor != null
      requires E.Paced(o.polls, rentalExecutor.healthInterval) && o.start.health <= o.polls.at(0)
      modifies Executor(), Engines(), Ports(), Allocations()
      ensures Valid() && State().mining == old(State()).mining
      ensures calls == pausing.(leaked := calls.leaked, round := calls.round)
      ensures Answered(Fixed(), old(State()).exec, State().exec, cmd, o, ack, calls)
      ensures Log() == old(Log())
                       + E.StartLog(E.StartRentalRequest(Field(cmd.sessionID), Field(cmd.gpuDeviceID), hostAddr),
                                    L.Choose(rentalExecutor.portManager.Config(), old(State()).exec.table, o.start.allocate),
                                    old(State()).exec.world.nextId,
                                    if ack.ok then Ok(ack.payload.info) else Err(ack.error.value.cause), calls.leaked)
    {
      var sessionID, gpu := Field(cmd.sessionID), Field(cmd.gpuDeviceID);
      var r, leaked, round := rentalExecutor.StartRental(E.StartRentalRequest(sessionID, gpu, hostAddr), o.polls, o.start);
      calls := pausing.(leaked := leaked, round := round);
      assert State().exec == rentalExecutor.View() && old(State()).exec == old(rentalExecutor.View());
      if r.Err? {
        return Ack(cmd.id, false, Some(StartFailure(r.error)), Nothing), calls;
      }
      var sshHost := hostAddr;
      if sshHost == "" || sshHost == "localhost" {
        sshHost := o.address;
      }
      ack := Ack(cmd.id, true, None, Started(sessionID, sshHost, r.value));
    }

    /** A failing stop is still acknowledged as ok; a successful one resumes mining without returning any GPU to it. */
    method HandleStopRental(cmd: Command, o: Outside) returns (ack: Ack, task: Option<E.CleanupTask>, ghost calls: Calls)
      requires Valid()
      modifies Miner(), Engines(), Records()
      ensures Valid() && StopHandled(Fixed(), old(State()), State(), cmd, o, ack, task, calls)
      ensures Log() == old(Log()) + StopCommandLog(Fixed(), old(State()), cmd, task, calls)
    {
      task, calls := None, NONE;
      if rentalExecutor == null {
        return Ack(cmd.id, false, Some(NotConfigured), Nothing), task, calls;
      }
      var sessionID := Field(cmd.sessionID);
      if sessionID == "" {
        return Ack(cmd.id, false, Some(MissingSession), Nothing), task, calls;
      }
      var r, halted := rentalExecutor.StopRental(sessionID, o.stopAt);
      calls := calls.(halted := halted);
      if r.Err? {
        return Ack(cmd.id, true, Some(StopWarning(r.error)), Nothing), task, calls;
      }
      task := Some(r.value);
      ack := Ack(cmd.id, true, None, Stopped(sessionID));
      ghost var marked := State();
      assert marked == Marked(old(State()), sessionID, o.stopAt, halted);
      var start := ResumeMining(o.resumeAt);
      calls := calls.(start := start.start);
      StoppedThenResumed(Fixed(), old(State()), State(), cmd, o, ack, task, calls, old(Log()), Log());
    }

    /** Resumes mining, if there is any, naming no GPU. */
    method ResumeMining(now: int) returns (ghost calls: Calls)
      requires Valid()
      modifies Miner(), Engines()
      ensures Valid() && State() == Resumed(Fixed(), old(State()), now, calls)
      ensures Rented() == old(Rented())
      ensures rentalExecutor != null ==> rentalExecutor.Rentals() == old(rentalExecutor.Rentals())
      ensures Log() == old(Log())
                       + if miningDaemon == null then []
                         else M.ResumeLog(Fixed().mining, old(miningDaemon.View()), {}, old(State()).exec.world.nextId, calls.start)
    {
      calls := NONE;
      if miningDaemon != null {
        assert M.Elements([]) == {};
        assert M.DoResume(miningDaemon.View(), {}) == miningDaemon.View();
        var _, start := miningDaemon.ResumeAfterRental([], now);
        calls := calls.(start := start);
        assert rentalExecutor != null ==> rentalExecutor.Rentals() == old(rentalExecutor.Rentals());
      }
    }

    /** Dispatch; the legacy job commands are aliases. */
    method HandleCommand(cmd: Command, o: Outside)
      returns (ack: Ack, restart: bool, task: Option<E.CleanupTask>, ghost calls: Calls)
      requires Valid()
      requires rentalExecutor != null ==> E.Paced(o.polls, rentalExecutor.healthInterval) && o.start.health <= o.polls.at(0)
      modifies Executor(), Miner(), Engines(), Ports(), Records(), Allocations()
      ensures Valid() && Handled(Fixed(), old(State()), State(), cmd, o, ack, restart, task, calls)
      ensures Rented() == old(Rented()) + Claimed(Fixed(), old(State()), cmd)
      // by the names the Hub uses
      ensures cmd.kind == "start_rental" || cmd.kind == "start_job" ==>
                StartHandled(Fixed(), old(State()), State(), cmd, o, ack, restart, calls) && task == None
      ensures cmd.kind == "stop_rental" || cmd.kind == "stop_job" ==>
                StopHandled(Fixed(), old(State()), State(), cmd, o, ack, task, calls) && !restart
      ensures cmd.kind !in {"start_rental", "start_job", "stop_rental", "stop_job"} ==>
                && ack == Ack(cmd.id, false, Some(UnknownCommand), Nothing)
                && State() == old(State()) && Log() == old(Log()) && !restart && task == None
      ensures ack.ok && ack.payload.Started? ==>
                && (cmd.kind == "start_rental" || cmd.kind == "start_job")
                && cmd.sessionID.Some? && rentalExecutor != null && cmd.sessionID.value in rentalExecutor.Rentals()
      ensures ack.payload.Stopped? ==> (cmd.kind == "stop_rental" || cmd.kind == "stop_job") && task != None
    {
      restart, task, calls := false, None, NONE;
      if IsStart(cmd.kind) {
        ack, restart, calls := HandleStartRental(cmd, o);
      } else if IsStop(cmd.kind) {
        ack, task, calls := HandleStopRental(cmd, o);
      } else {
        ack := Ack(cmd.id, false, Some(UnknownCommand), Nothing);
      }
      CommandsOnlyTake(Fixed(), old(State()), State(), cmd, o, ack, restart, task, calls);
    }
  }
}
