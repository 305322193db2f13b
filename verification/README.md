# Resource lifecycle of a GPU rental node

A node lends its GPUs to renters and mines on those nobody rents. Three parts
share one Docker engine and one clock: the **port manager** hands out SSH ports
and keeps a released port quarantined for a grace period; the **rental
executor** starts a container for a session, waits for it to become healthy and
records the rental, and after a stop removes container, port and record once a
grace period is over; the **mining daemon** keeps one mining container on a GPU
that is not rented. Commands from the Hub drive executor and daemon together. A
fourth, small part builds the sign-in message with which the node logs in.

Each stateful part is modelled twice.

* As **classes**, in the form of the source, proved against functions on plain
  values: `PortManager` (over `Leases`), `Engine` (over `Docker`),
  `RentalExecutor`, `MiningDaemon` (over `Mining`) and `NodeDaemon`.
* As **systems of atomic steps**: a step is one mutex-protected region, one
  call into the port manager or one Docker call. Any number of starts, stops
  and delayed cleanups interleave with each other, with the clock and with
  other users of the engine; every Docker call may fail. `RentalProtocol`,
  `MiningRuns` and `Node` are these systems; a run is any sequence of possible
  steps, and the properties hold in every state a run can reach.
  `RentalSequential` and `NodeSequential` tie the two together: the steps of
  one uninterrupted operation or command do what the class contract of that
  operation says.

Every call of `StartRental` is an *instance* with a number of its own, so
ownership never depends on session ids. `owners`, `makers`, `leaks`, `gpuOf`
and `faults` only observe and guard nothing. So does the `log` of the engine,
which records every call and its answer; the class contracts say what an
operation appends to it.

Assumptions about Docker: ids of containers are never reused, two existing
containers never have the same name, and a call that fails changes nothing,
except that a failed call to stop a container may have stopped it. Nobody but
the node removes the node's rental containers, though these may stop by
themselves; a mining container that has stopped may also be removed by others.
Times are integers, in nanoseconds where constants appear. Strings are byte
strings.

## Where the code falls short of what is said about it

* **Repeated stops.** `StopRental` accepts a session already stopped, so one
  rental can have several cleanups and a late one may release a port that now
  belongs to someone else. This is ruled out exactly when the port's grace
  period exceeds the rental's by more than the node's delays
  (`RentalTiming.SafeExactlyWithMargin`), and with an engine whose removals
  never fail, by more than the wake-up delay
  (`RentalReliableEngine.SafeExactlyWhenLate`). The node ships with two equal
  grace periods (`cmd/node/main.go:367-371`), which is unsafe either way.
* **Reused session ids.** The duplicate check and the registration are
  separate critical sections, and a cleanup deletes whatever record it finds
  under its session id. Unique container names keep two containers of one
  session from existing at once, but a cleanup of the first rental can delete
  the record of the second, which then runs on with no record and no cleanup:
  on every node with a port at all some run does this, and none does if a
  session is begun only once everything earlier of that session is finished
  (`RentalOrphan.OrphansExactly`). A running rental drops off the records
  exactly when a cleanup deletes the record of a running rental
  (`RentalRecords.TrackedExactly`).
* **Resuming mining.** The repository's README and the comment at
  `internal/mining/daemon.go:210` speak of GPUs returning to mining after a
  rental. The stop handler resumes with an empty list
  (`internal/services/node_daemon.go:240`), so under Hub commands a GPU once
  rented is never mined on again (`MiningRuns.NeverMinedAgain`,
  `MiningRuns.NoMiningAfterAllRented`).
* **Restarting after a crash.** The monitor loop is documented to restart a
  crashed container. It forgets the dead container without removing it, and
  that container's name blocks every later create. Unless others remove the
  dead container, mining can start again exactly if it was gone already
  (`MiningRuns.CrashRestart`); both cases are reached
  (`MiningRuns.CrashEitherWay`).
* **Going on after a partial pause.** The comment at
  `internal/mining/daemon.go:162-164` promises that mining continues with the
  GPUs left. The pause drops the container but leaves the state at running, so
  the Start it spawns returns early. From then on, until Stop is called,
  nothing the Hub or the node does starts mining again
  (`MiningPause.PauseEndsMining`); mining can go on after a pause exactly if
  the pause found none to interrupt and a Start can find a GPU
  (`MiningPause.GoesOnAfterPauseExactly`). The start handler passes on any
  non-empty GPU id without comparing it with the configured ones, so a command
  can get a node stuck this way exactly if it mines and has GPUs configured,
  one being enough (`Node.NodeStuckExactly`). With a Hub that only names
  configured GPUs it takes a second one (`MiningPause.StuckByMatchingExactly`).

## Model

| member | source | states |
|---|---|---|
| PortManagement.PortManager.constructor | internal/port/manager.go:34-41 | starts with an empty table and the given range and grace period |
| PortManagement.PortManager.Allocate | internal/port/manager.go:45-76 | the scan returns the least eligible port of the range and leases it to the session at that instant, and fails without any change when there is none |
| PortManagement.PortManager.Release | internal/port/manager.go:79-91 | a live port becomes released at that instant; any other port is an error and nothing changes |
| PortManagement.PortManager.IsAvailable | internal/port/manager.go:94-108 | true exactly for eligible ports, whether or not they are in the range |
| PortManagement.PortManager.GetAllocation | internal/port/manager.go:111-122 | a copy of the record of any port ever allocated, and nothing for others |
| PortManagement.PortManager.AvailableCount | internal/port/manager.go:125-144 | the loop counts the eligible ports of the range |
| Leases.FirstEligible | internal/port/manager.go:51-73 | the result is eligible, inside the bounds, and nothing below it is; none only if no port in the bounds is eligible |
| Leases.ChooseIsLeast | internal/port/manager.go:51-73 | the least eligible port is unique, so the scan refines "some least eligible port" |
| Leases.PortsAreConserved | internal/port/manager.go:45-144 | fresh, live, quarantined and reusable ports always add up to the size of the range; the available ones are the fresh and the reusable |
| Leases.AllocateCount | internal/port/manager.go:45-76 | allocation fails exactly when the available count at that instant is 0, and success lowers it by exactly one and makes exactly that port live |
| Leases.ReleaseQuarantines | internal/port/manager.go:79-91 | a released port is eligible again exactly from one grace period later; other ports are unaffected; a second release does nothing |
| PortRate.SuccessiveGrantsSpaced | internal/port/manager.go:64-72 | in any trace of calls under a clock that never goes back, two grants of one port are at least a grace period apart |
| PortRate.SpacingIsTight | internal/port/manager.go:64-72 | and a port released at once is granted again exactly one grace period later |
| PortRate.GrantsOfOnePort | internal/port/manager.go:45-91 | k grants of one port in a window span at least k - 1 grace periods |
| PortRate.TotalIsSum | internal/port/manager.go:45-76 | every successful allocation is of exactly one port of the range |
| PortRate.AllocationRateBound | internal/port/manager.go:45-91 | a window of length w holds at most (size of range) * (floor(w / grace) + 1) successful allocations, whoever calls |
| Docker.CreateKeepsValid | internal/container/docker.go:183-186 | creating under a free name keeps names unique and ids fresh |
| Docker.RemoveUndoesCreate | internal/container/docker.go:183-255 | removing a new container, started or not, leaves exactly the containers there were |
| Docker.OnlyRunningChanges | internal/container/docker.go:191-241 | starting or stopping a container changes nothing but whether that container runs |
| Docker.Engine.CreateContainer | internal/container/docker.go:123-189 | fails without effect, always so when the name is taken, or makes a new container with that name, port and GPU |
| Docker.Engine.StopContainer | internal/container/docker.go:220-241 | success leaves the container not running; failure leaves everything as it was or the container not running |
| Docker.Engine.RemoveContainer | internal/container/docker.go:244-255 | fails without effect or leaves no such container |
| RentalExecution.RentalExecutor.constructor | internal/rental/executor.go:75-84 | no rentals; health timeout 60 s, poll interval 2 s |
| RentalExecution.RentalExecutor.StartRental | internal/rental/executor.go:87-164 | all or nothing: success leaves the least free port leased to the session, one new container bound to it and running, one new record and that connection info, after a healthy first verdict; refusal changes nothing; failure leaves records and other ports as they were, the port released, and no container unless its removal failed, and its error is Docker's or the first health verdict; Docker is asked to create, start and, on failure, remove, and nothing else |
| RentalExecution.RentalExecutor.Build | internal/rental/executor.go:124-140 | container created, started and healthy, or the reason why not, with exactly the calls made to Docker; removing what was made restores the engine |
| RentalExecution.RentalExecutor.CleanupOnError | internal/rental/executor.go:104-111 | asks Docker to remove the container if there is one and releases the port whatever the answer |
| RentalExecution.RentalExecutor.WaitForHealth | internal/rental/executor.go:167-214 | every round before the last was in time, not cancelled and saw a container neither gone nor settled; the result says exactly what the last round saw: late or unhealthy, cancelled, inspection failed, exited or dead, or running and healthy; inspections number at most floor(timeout / interval) + 1 |
| RentalExecution.DecisionMeans | internal/rental/executor.go:167-214 | the same of the first deciding round, over times, cancellations and inspections alone |
| RentalExecution.SuccessMeansHealthy | internal/rental/executor.go:189-193 | a successful wait saw a healthy running container in time and not cancelled, and no earlier round did |
| RentalExecution.FirstDecisionUnique | internal/rental/executor.go:167-214 | there is only one first deciding round, so the poll's result is determined by what is observed |
| RentalExecution.StartAsks | internal/rental/executor.go:104-140 | the calls of a start by its outcome: none when refused, a create alone when that fails, a removal last whenever a container was made and the start failed |
| RentalExecution.FailureQuarantines | internal/rental/executor.go:104-111 | after a failed start all other leases are as before and the port it took is quarantined, so it is not the next one allocated, for a whole port grace period |
| RentalExecution.RentalExecutor.StopRental | internal/rental/executor.go:217-239 | the record is marked stopped even if Docker then fails, with or without having stopped the container; only a successful stop hands out a cleanup, with the record's container and port; unknown sessions change nothing; Docker is asked to stop exactly that container |
| RentalExecution.RentalExecutor.RunCleanup | internal/rental/executor.go:242-256 | container removed unless that fails, port released if still live, record of that session id deleted whichever rental it speaks of; Docker is asked to remove exactly that container |
| RentalExecution.RentalExecutor.GetRentalStatus | internal/rental/executor.go:259-276 | a copy of the session's record or not found |
| RentalInvariants.CoreAlways | internal/rental/executor.go:87-256 | in every reachable state records, cleanups and containers agree with the instances they speak of; a rental past its Release has no container unless a removal failed |
| RentalOwnership.NamesAlways | internal/container/docker.go:183-186 | in every reachable state container names are unique |
| RentalOwnership.OneContainerPerSession | internal/rental/executor.go:88-94 | over every interleaving, two instances of one session never both have an existing container |
| RentalOwnership.OverwriteOnlyAfterRemoval | internal/rental/executor.go:150-152 | a registration that overwrites a record overwrites one of another instance whose container no longer exists |
| RentalOwnership.OwnStep | internal/rental/executor.go:87-256 | a step breaks port ownership if and only if it is a cleanup's release of a port whose rental had been released before and that is live again |
| RentalSingleStop.OwnAlways | internal/rental/executor.go:217-256 | if no instance is successfully stopped twice, no such release is ever reached |
| RentalSingleStop.ExactOwnership | internal/rental/executor.go:87-256 | then the live ports are in bijection with the instances between Allocate and Release, and each lease names its owner's session |
| RentalSingleStop.NoSharedHostPort | internal/rental/executor.go:104-111 | then no two existing rental containers are bound to the same host port, unless removing one of the two has failed |
| RentalSingleStop.ReuseDistance | internal/rental/executor.go:226-250 | then a port whose rental was stopped at time t is not allocated again before t + rental grace + port grace, in any run |
| RentalTiming.StaleReleaseIsHarmless | internal/rental/executor.go:242-256 | with port grace > rental grace + stop + wake-up + release-to-delete delays, no cleanup, however often its rental was stopped, is about to free a live port that is not its rental's |
| RentalTiming.TimelyRunIsSafe | internal/rental/executor.go:217-256 | with that margin ports are owned by those who hold them in every state of every run within the delays, with any number of stops |
| RentalTiming.NoSharedHostPortWithMargin | internal/rental/executor.go:246-250 | with that margin repeated stops never make two existing containers share a host port, unless removing one of the two has failed |
| RentalTiming.StolenPort | internal/port/manager.go:65 | without it, for any settings, a run in which Docker stops only existing containers takes a port from the session holding it |
| RentalTiming.SafeExactlyWithMargin | internal/rental/executor.go:217-256 | repeated stops are safe if and only if the margin holds, over all timely runs and also over those in which Docker never stops a container that is gone |
| RentalTiming.ShippedSettingsUnsafe | cmd/node/main.go:367-371 | the shipped equal grace periods are unsafe whatever the delays |
| RentalReliableEngine.ReliableRunIsSafe | internal/rental/executor.go:217-256 | when removals succeed and a removed container cannot be stopped, port grace > rental grace + wake-up delay is enough |
| RentalReliableEngine.SafeExactlyWhenLate | internal/rental/executor.go:242-256 | and it is exactly what is needed |
| RentalReliableEngine.ShippedSettingsUnsafeAnyway | cmd/node/main.go:367-371 | so the shipped settings are unsafe even on such an engine, with no delay at all |
| RentalDrain.DrainStep | internal/rental/executor.go:242-256 | each cleanup step lowers the remaining work by one and keeps the outcome that all pending cleanups lead to |
| RentalDrain.DrainsAgree | internal/rental/executor.go:242-256 | any two complete drains, in any order and interleaving, end with the same live leases, records and containers, after equally many steps |
| RentalDrain.NextStepPossible | internal/rental/executor.go:242-256 | once due, every pending cleanup can take its next step |
| RentalDrain.DrainCompletes | internal/rental/executor.go:242-256 | from every such state a complete drain exists |
| RentalDrain.StopsPendingAlways | internal/rental/executor.go:217-256 | the record of a successfully stopped rental always has a cleanup on its way |
| RentalDrain.DrainRemovesStoppedOnly | internal/rental/executor.go:235-256 | with session ids used once, a complete drain removes exactly the records of successfully stopped rentals, and their containers unless a removal had failed; every other record and container is as it was and, with no rental stopped twice, so is its live lease |
| RentalFinish.EverythingCanFinish | internal/rental/executor.go:87-256 | every run can be continued, without another successful stop, until no start, stop or cleanup is on its way |
| RentalFinish.WhatIsLeft | internal/rental/executor.go:87-256 | when none is, the existing rental containers are those of registered rentals and those whose removal failed; with one stop each the live ports are exactly those of registered rentals, one each |
| RentalFinish.PortsComeBack | internal/rental/executor.go:87-256 | so with one stop each every run can be continued until the live ports are exactly those of registered rentals |
| RentalSequential.StartAlone | internal/rental/executor.go:87-164 | begin, allocate, create, start, health and register, taken by one start without interruption, lead to what StartRental promises on success, with that connection info |
| RentalSequential.FailAlone | internal/rental/executor.go:104-140 | for a failure at create, start or health, the steps of one uninterrupted start lead to what StartRental promises on failure |
| RentalSequential.StopAlone | internal/rental/executor.go:217-239 | the steps of one uninterrupted stop, whether it succeeds, fails, or fails having stopped the container, lead to what StopRental promises |
| RentalSequential.CleanupAlone | internal/rental/executor.go:242-256 | the steps of one uninterrupted cleanup lead to what RunCleanup promises |
| RentalOrphan.OrphanForever | internal/rental/executor.go:217-223 | a registered rental without record or cleanup stays so, its container existing, in every continuation |
| RentalOrphan.ReusedSessionOrphansRental | internal/rental/executor.go:242-256 | with any port at all, some run with a reused session id ends in such a rental |
| RentalOrphan.OrphanWasMisplaced | internal/rental/executor.go:252-255 | a run that ends in such a rental had a cleanup delete the record of a running rental |
| RentalOrphan.PatientRunHasNoOrphan | internal/rental/executor.go:88-94 | no such rental when a session is begun only with no earlier start, rental or cleanup of it unfinished |
| RentalOrphan.OrphansExactly | internal/rental/executor.go:87-256 | no run at all ends in such a rental if and only if the port range is empty; no patient run and no run that uses each session id once ever does |
| RentalRecords.TrackedStep | internal/rental/executor.go:252-255 | while every running rental is on record, a step ends that if and only if it is a cleanup deleting the record of a running rental |
| RentalRecords.TrackedExactly | internal/rental/executor.go:87-256 | throughout a run every running rental is on record if and only if no cleanup of the run deletes the record of a running one |
| RentalRecords.PatientRunTracks | internal/rental/executor.go:88-94 | with patient use of session ids every registered rental is on record under its session, in every reachable state |
| RentalRecords.FreshIsPatient | internal/rental/executor.go:88-94 | using every session id once is patient use |
| Mining.UnrentedMembers | internal/mining/daemon.go:246-262 | exactly the configured GPUs that are not rented are available |
| Mining.UnrentedTwice | internal/mining/daemon.go:246-262 | renting out in two goes leaves what renting out at once leaves |
| Mining.UnrentedConcat | internal/mining/daemon.go:255-260 | availability keeps the configured order |
| Mining.FirstUnrented | internal/mining/daemon.go:88-101 | the GPU mined on is the first configured one that is not rented |
| Mining.ResumeKeepsAvailable | internal/mining/daemon.go:211-229 | returning GPUs never makes an available one unavailable, the unconfigured "all" included |
| Mining.ResumeUndoesPause | internal/mining/daemon.go:165-229 | resuming the GPUs of a pause restores the rented set exactly when none of them had been rented already |
| MiningService.MiningDaemon.constructor | internal/mining/daemon.go:50-58 | stopped, nothing tracked, nothing rented |
| MiningService.MiningDaemon.GetAvailableGPUs | internal/mining/daemon.go:246-262 | the loop returns the configured GPUs not rented, in order; "all" when none are configured and none rented |
| MiningService.MiningDaemon.Start | internal/mining/daemon.go:61-133 | no effect when disabled or running; paused, at that time, when nothing is available; otherwise Docker is asked for a container on the first available GPU, which is started, tracked and timed, or removed again with no change of state |
| MiningService.MiningDaemon.Stop | internal/mining/daemon.go:136-160 | stopped and nothing tracked; Docker is asked to stop and remove the tracked container, whatever it answers |
| MiningService.MiningDaemon.PauseForRental | internal/mining/daemon.go:165-208 | GPUs marked as rented; if mining, Docker is asked to stop and then remove the tracked container, which is gone if it agrees; a Start is spawned exactly if GPUs are left, and otherwise the daemon is paused at that time |
| MiningService.MiningDaemon.ResumeAfterRental | internal/mining/daemon.go:211-229 | GPUs no longer marked; nothing else if running; otherwise, paused or stopped, Docker is asked for a container on the first available GPU, which is tracked if granted |
| MiningService.MiningDaemon.MonitorTick | internal/mining/daemon.go:277-296 | a tracked container is inspected; not seen running, it is forgotten and Start called; otherwise nothing changes |
| MiningService.MiningDaemon.Status | internal/mining/daemon.go:232-243 | state, container, times and the number of available GPUs |
| MiningRuns.ShapeStep | internal/mining/daemon.go:165-208 | running without a container is entered only by a pause with GPUs left and left only by Stop |
| MiningRuns.ExactShapes | internal/mining/daemon.go:61-299 | enabled mining reaches exactly four combinations of state, container and pause time; disabled mining only the first |
| MiningRuns.NeverTracksRentedGPU | internal/mining/daemon.go:88-127 | over all interleavings a tracked container implies state running and a GPU that is still available, "all" included |
| MiningRuns.NothingRunsOnRentedGPU | internal/mining/daemon.go:165-208 | unless Docker neither stopped nor removed a running one it was told to, or misreported one, the only mining container that runs is the tracked one, on a GPU not rented |
| MiningRuns.ResumeMines | internal/mining/daemon.go:211-229 | resuming a daemon that is not running, with a GPU available then, the name free and Docker willing, leads to a tracked running container on the first of these; resuming a running one changes the rented set only |
| MiningRuns.StartTimeIsTrue | internal/mining/daemon.go:123-127 | in every reachable state the reported start time is that of the Start that made the tracked container |
| MiningRuns.PauseTimeIsTrue | internal/mining/daemon.go:88-96 | in every reachable state the reported pause time is that of a pause or Start that found no GPU |
| MiningRuns.RentedOnlyGrows | internal/services/node_daemon.go:238-244 | under Hub commands the rented set never shrinks |
| MiningRuns.AllRentedMeans | internal/mining/daemon.go:246-262 | no GPU is available exactly when all configured ones are rented or, with none configured, when anything is |
| MiningRuns.NeverMinedAgain | internal/services/node_daemon.go:238-244 | from the moment a GPU is rented, Hub commands never lead to a new or a tracked mining container on it |
| MiningRuns.NoMiningAfterAllRented | internal/services/node_daemon.go:238-244 | once no GPU is available, configured or not, no later Start makes a mining container |
| MiningRuns.StrandedForever | internal/mining/daemon.go:277-296 | as long as nobody else removes it, a container forgotten but not removed keeps every later Start from making one |
| MiningRuns.StartTracksExactly | internal/mining/daemon.go:61-133 | a Start that Docker does not refuse tracks a container if and only if mining is enabled, not marked running, has a GPU, and no container has mining's name |
| MiningRuns.CrashRestart | internal/mining/daemon.go:277-296 | after the monitor reports a crash, a continuation in which nobody else removes the dead container mines again if and only if that container is already gone; if others may remove it, some continuation always does |
| MiningRuns.CrashEitherWay | internal/mining/daemon.go:277-296 | crashes with the dead container gone and with it still there are both reached, and the monitor's restart works in the first and fails in the second |
| MiningPause.PauseKills | internal/mining/daemon.go:183-203 | pausing a daemon that mines leaves it running without a container exactly if GPUs are left, and paused otherwise; the Start spawned in the first case changes nothing, whenever it runs |
| MiningPause.PauseEndsMining | internal/mining/daemon.go:162-208 | after such a pause no continuation under Hub commands tracks or makes a mining container until Stop is called |
| MiningPause.GrantedPauseLeavesNone | internal/mining/daemon.go:177-184 | if Docker removes what it is told to, a pause of a mining daemon leaves no mining container at all |
| MiningPause.MineOnExactly | internal/mining/daemon.go:61-133 | in every reachable state mining can go on without Stop if and only if a container is tracked, or mining is enabled, not marked running and has a GPU; and without others removing containers only if, in the latter case, none of mining's own is left |
| MiningPause.GoesOnAfterPauseExactly | internal/mining/daemon.go:162-208 | after a pause mining can go on if and only if the pause found none to interrupt and a Start can find a GPU; without others removing containers, if moreover none of its own is left |
| MiningPause.StuckExactly | internal/services/node_daemon.go:151-158 | commands that each take the one GPU they name, configured or not, reach running without a container if and only if mining is enabled and has GPUs configured |
| MiningPause.StuckByMatchingExactly | internal/services/node_daemon.go:151-158 | if they only name configured GPUs, if and only if mining is enabled and one of these that can be rented has another beside it |
| Node.NodeAlways | internal/services/node_daemon.go:116-253 | in every reachable state of the node both components keep their invariants, share one engine and clock, and every GPU asked for is marked as rented |
| Node.GPUExclusivity | internal/services/node_daemon.go:151-173 | the tracked mining container's GPU id differs from the non-empty GPU id of every start command, from the moment its GPU is taken, before the executor is called, on |
| Node.RunningExclusivity | internal/services/node_daemon.go:151-173 | unless Docker neither stopped nor removed a running mining container it was told to, or misreported one, no running mining container has the GPU id of an existing rental container |
| Node.NodeRunIsRentalRun | internal/services/node_daemon.go:116-253 | every run of the node is a run of the rental system, so all its properties hold on the node |
| Node.NodeRunIsMiningRun | internal/services/node_daemon.go:116-253 | every run of the node is a run of the mining system in which each start command takes one named GPU and no GPU is returned |
| Node.NodeStuckExactly | internal/services/node_daemon.go:151-158 | some run of the node ends with mining running without a container if and only if mining is enabled and has GPUs configured |
| NodeService.NodeDaemon.HandleStartRental | internal/services/node_daemon.go:116-203 | a missing executor or session id is refused without effect; otherwise the GPU is taken from mining first, and the executor completes, refuses or rolls back on the engine as that pause left it; daemon, engine, records, ports and acknowledgement are all determined, and so are the calls to Docker |
| NodeService.NodeDaemon.HandleStopRental | internal/services/node_daemon.go:206-253 | a failed stop is acknowledged as ok with a warning and leaves mining alone; a successful one hands out the cleanup and resumes mining on the engine as the stop left it, returning no GPU |
| NodeService.StartMeans | internal/services/node_daemon.go:116-203 | the same field by field: refusals, the GPU taken, the acknowledged host (the configured one unless empty or "localhost"), port, user and ssh command, the new record and container |
| NodeService.StartCommandAsks | internal/services/node_daemon.go:151-173 | Docker is asked to stop and remove mining's container, if it is mining, before it is asked for the rental's |
| NodeService.StopMeans | internal/services/node_daemon.go:206-253 | a stop command field by field: refusals, the record marked, the container to stop, the warning or the cleanup, and a daemon that is not running asked to mine again |
| NodeService.NodeDaemon.HandleCommand | internal/services/node_daemon.go:95-113 | "start_rental" and "start_job" start, "stop_rental" and "stop_job" stop, with the handlers' outcomes; every other kind is refused without any effect |
| NodeSequential.StartCommandAlone | internal/services/node_daemon.go:116-203 | from every reachable state with a new session, a free name and a free port, the steps of a start command lead to what the handler promises, with the rental registered and on record and mining kept off its GPU |
| NodeSequential.StopCommandAlone | internal/services/node_daemon.go:206-253 | from every reachable state with the rental on record, the steps of a stop command that Docker grants lead to what the handler promises, with a cleanup on its way |
| NodeService.CommandsOnlyTake | internal/services/node_daemon.go:95-253 | no command ever returns a GPU to mining; an accepted start command takes exactly its GPU, even if it fails; no other takes any |
| Siwe.JoinSplit | internal/auth/siwe.go:124-160 | joining what was split restores the string |
| Siwe.SplitJoin | internal/auth/siwe.go:124-160 | splitting what was joined restores the parts when none contains the separator |
| Siwe.DomainIsHost | internal/auth/siwe.go:126-139 | with no domain set, the domain is the longest prefix without ':' or '/' after the first "://" of the hub URL, or localhost if that is empty |
| Siwe.NoSchemeIsLocal | internal/auth/siwe.go:126-139 | with no domain set and no "://" in the hub URL the domain is localhost |
| Siwe.MessageText | internal/auth/siwe.go:141-159 | the message, line by line |
| Siwe.DecodeMessage | internal/auth/siwe.go:141-159 | reading the message line by line as in the "ABNF Message Format" section of ERC-4361 recovers domain, address, URI, nonce and time of newline-free fields |
| Siwe.MessageDecode | internal/auth/siwe.go:141-159 | conversely every message that can be read is the one printed from what was read |
| Siwe.NewlinesAreAmbiguous | internal/auth/siwe.go:141-159 | newline-freeness is needed: for any base fields two different ones print the same message |
| Siwe.PrefixInjective | internal/auth/siwe.go:162-165 | the EIP-191 version 0x45 prefix is injective on all byte strings, messages starting with digits included |
| Siwe.PrefixedReads | internal/auth/siwe.go:162-165 | what is signed reads in exactly one way as the prefix, the message's length in decimal without leading zero, and the message |
| Siwe.SignatureCoversFields | internal/auth/siwe.go:124-165 | equal signed byte strings come from equal newline-free fields |
| Siwe.ClientMessageDecoded | internal/auth/siwe.go:33-160 | what is read from a client's message is its configured domain or else its URL's host, its address, its URL without a trailing slash, and the nonce and time passed |
| Siwe.ClientMessagesDiffer | internal/auth/siwe.go:124-165 | two clients sign the same byte string only for the same URL, address, nonce, time and, where configured, domain |
| Text.DecimalLengthMonotone | internal/auth/siwe.go:164 | a larger number never has a shorter decimal form |
| Text.DecimalReads | internal/auth/siwe.go:164 | the decimal form consists of digits, says the number, and has no leading zero |
| Text.OneDecimal | internal/auth/siwe.go:164 | every string of digits without leading zero is the decimal form of the number it says |
| Text.IntegerReads | internal/rental/executor.go:159 | the printed form of an integer says it, with a minus sign exactly for negative ones |

## Left out

- The HTTP API (`internal/api`): validation and status mapping. Its concurrent calls into the executor are covered by the rental system, but it starts rentals without pausing mining, so it is not part of the node system.
- The mTLS client, JSON framing, reconnecting with backoff, certificates, heartbeats, metrics, NVML, command-line flags and outbound-address lookup: I/O.
- Docker's own workings: image pulls, SSH set-up script, start retries with backoff, health-check definitions, the 10-second stop timeout. A call is one step that succeeds or fails.
- GPU visibility inside containers: GPU UUIDs become "all" (`internal/container/docker.go:134-137`). Exclusivity is stated on the ids the node passes.
- Image, CPU, memory and password fields of a start command with their defaults, and the same fields of a container.
- `ListActiveRentals`: the order of a Go map.
- Inspections during the health poll are observations handed to the executor, counted but not part of the engine's log.
- Keccak, ECDSA, hex decoding, login and registration calls: cryptography and network.
- The bound of `time.Duration` and of `int`: numbers are unbounded. The rental grace period of the rental system is not negative.
- Go's memory model: critical sections and Docker calls are atomic, and mutual exclusion is taken for granted. `RentalState` is read after the lock is released in `StopRental`; only its constant fields are.
- Goroutines of the class models: a spawned Start or cleanup is a returned flag or task there, and a step of its own in the systems.
- Inlining: `Launch`, `Build`, `Track`, `ReleasePort`, `Forget`, `TakeFromMining`, `CallExecutor`, `ResumeMining` and mining's `TakeDown` and `Launch` are methods here and part of the operations containing them in the source.
