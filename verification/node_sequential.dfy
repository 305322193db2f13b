/**
 * The steps of the concurrent node, taken by one command without
 * interruption, amount to what the command handlers do as a whole; so start
 * commands do lead to registered rentals.
 */
module NodeSequential {
  import opened Wrappers
  import D = Docker
  import E = RentalExecution
  import L = Leases
  import M = Mining
  import MR = MiningRuns
  import N = Node
  import NS = NodeService
  import R = RentalProtocol
  import RI = RentalInvariants
  import RS = RentalSequential

  /** What the handlers see of the node. */
  function ViewOf(n: N.NodeSys): NS.View {
    NS.View(RS.SnapshotOf(n.sys), Some(n.mine.d))
  }

  function SetupOf(k: N.Config, host: string, timeout: int): NS.Setup {
    NS.Setup(true, host, k.rental.ports, k.mining, timeout)
  }

  function Lift(steps: seq<R.Action>): (acts: seq<N.Action>)
    ensures |acts| == |steps| && forall i :: 0 <= i < |steps| ==> acts[i] == N.Rental(steps[i])
  {
    seq(|steps|, i requires 0 <= i < |steps| => N.Rental(steps[i]))
  }

  /** Steps of rental calls, and no tick of the clock. */
  predicate Plain(step: R.Action) {
    !step.Begin? && !step.Foreign? && !step.Tick?
  }

  lemma OneMore(k: N.Config, s: R.Sys, steps: seq<R.Action>)
    requires steps != [] && R.RunFrom(k.rental, s, steps).Some?
    ensures var l := |steps| - 1;
            var r := R.RunFrom(k.rental, s, steps[..l]);
            && r.Some? && R.Enabled(k.rental, r.value, steps[l])
            && R.RunFrom(k.rental, s, steps) == Some(R.Apply(k.rental, r.value, steps[l]))
  {
  }

  lemma OneStep(k: N.Config, acts: seq<N.Action>, step: R.Action)
    requires N.Run(k, acts).Some? && Plain(step) && R.Enabled(k.rental, N.Run(k, acts).value.sys, step)
    ensures var n, r := N.Run(k, acts).value, N.Run(k, acts + [N.Rental(step)]);
            && r.Some? && r.value.sys == R.Apply(k.rental, n.sys, step)
            && r.value.mine == n.mine.(w := r.value.sys.docker, now := r.value.sys.now) && r.value.calls == n.calls
  {
    N.NodeExtend(k, acts, N.Rental(step));
  }

  /** Rental steps do on the node what they do on their own, and mining sees the engine they leave. */
  lemma {:induction false} RentalSteps(k: N.Config, acts: seq<N.Action>, steps: seq<R.Action>)
    requires N.Run(k, acts).Some? && R.RunFrom(k.rental, N.Run(k, acts).value.sys, steps).Some?
    requires forall i :: 0 <= i < |steps| ==> Plain(steps[i])
    ensures var n, r := N.Run(k, acts).value, N.Run(k, acts + Lift(steps));
            && r.Some?
            && r.value.sys == R.RunFrom(k.rental, n.sys, steps).value
            && r.value.mine.d == n.mine.d && r.value.mine.starts == n.mine.starts && r.value.mine.gpuOf == n.mine.gpuOf
            && r.value.mine.w == (if steps == [] then n.mine.w else r.value.sys.docker)
            && r.value.calls == n.calls
    decreases |steps|
  {
    if steps == [] {
      assert acts + Lift(steps) == acts;
    } else {
      var l := |steps| - 1;
      RentalSteps(k, acts, steps[..l]);
      OneMore(k, N.Run(k, acts).value.sys, steps);
      OneStep(k, acts + Lift(steps[..l]), steps[l]);
      assert acts + Lift(steps[..l]) + [N.Rental(steps[l])] == acts + Lift(steps);
    }
  }

  // ----- Start commands -----

  /** The steps of a start command up to the executor's acceptance of the session, and after it. */
  function Opening(n: N.NodeSys, session: string, gpu: string, down: M.Takedown): seq<N.Action> {
    [N.HubStart(session, gpu, down.stopped, down.removed), N.HubBegin(n.nextCall)]
  }

  function Remaining(i: nat): seq<R.Action> {
    [R.Allocate(i), R.Create(i, true), R.StartContainer(i, true), R.Health(i, true), R.Register(i)]
  }

  lemma OpeningAlone(k: N.Config, acts: seq<N.Action>, session: string, gpu: string, down: M.Takedown)
    requires N.Run(k, acts).Some? && session !in N.Run(k, acts).value.sys.rentals
    ensures var n := N.Run(k, acts).value;
            var m, r := N.PauseFor(k, n, gpu, down.stopped, down.removed), N.Run(k, acts + Opening(n, session, gpu, down));
            && r.Some? && r.value.sys == R.DoBegin(m.sys, session, gpu) && r.value.mine.d == m.mine.d
            && r.value.mine.starts == m.mine.starts && m.sys == n.sys.(docker := m.sys.docker)
  {
    var n := N.Run(k, acts).value;
    var first := N.HubStart(session, gpu, down.stopped, down.removed);
    CalledAlone(k, acts, session, gpu, down);
    BegunAlone(k, acts + [first], n.nextCall, session, gpu);
    assert acts + [first] + [N.HubBegin(n.nextCall)] == acts + Opening(n, session, gpu, down);
  }

  lemma CalledAlone(k: N.Config, acts: seq<N.Action>, session: string, gpu: string, down: M.Takedown)
    requires N.Run(k, acts).Some?
    ensures var n := N.Run(k, acts).value;
            var m := N.PauseFor(k, n, gpu, down.stopped, down.removed);
            var r := N.Run(k, acts + [N.HubStart(session, gpu, down.stopped, down.removed)]);
            && r.Some? && r.value.sys == m.sys && r.value.mine == m.mine && m.sys == n.sys.(docker := m.sys.docker)
            && n.nextCall in r.value.calls && r.value.calls[n.nextCall] == N.Call(session, gpu)
  {
    N.NodeExtend(k, acts, N.HubStart(session, gpu, down.stopped, down.removed));
  }

  lemma BegunAlone(k: N.Config, acts: seq<N.Action>, c: nat, session: string, gpu: string)
    requires N.Run(k, acts).Some? && c in N.Run(k, acts).value.calls
    requires N.Run(k, acts).value.calls[c] == N.Call(session, gpu) && session !in N.Run(k, acts).value.sys.rentals
    ensures var n, r := N.Run(k, acts).value, N.Run(k, acts + [N.HubBegin(c)]);
            && r.Some? && r.value.sys == R.DoBegin(n.sys, session, gpu)
            && r.value.mine.d == n.mine.d && r.value.mine.starts == n.mine.starts
  {
    N.NodeExtend(k, acts, N.HubBegin(c));
  }

  /** Pausing for a command is what the handler does with mining before it calls the executor. */
  lemma PausedIsTaken(k: N.Config, n: N.NodeSys, gpu: string, host: string, timeout: int, calls: NS.Calls)
    requires N.NodeOk(k, n)
    ensures var m := N.PauseFor(k, n, gpu, calls.down.stopped, calls.down.removed);
            && ViewOf(m) == NS.Taken(SetupOf(k, host, timeout), ViewOf(n), gpu, n.sys.now, calls)
            && m.mine.starts
               == n.mine.starts + (if NS.TakingRestarts(SetupOf(k, host, timeout), ViewOf(n), gpu) then 1 else 0)
  {
  }

  lemma BeginFirst(k: R.Config, s: R.Sys, session: string, gpu: string)
    requires session !in s.rentals
    ensures R.RunFrom(k, s, RS.StartingSteps(s.nextInst, session, gpu))
            == R.RunFrom(k, R.DoBegin(s, session, gpu), Remaining(s.nextInst))
  {
    R.AppendAction(k, s, [], R.Begin(session, gpu));
    assert [] + [R.Begin(session, gpu)] == [R.Begin(session, gpu)];
    R.RunConcat(k, s, [R.Begin(session, gpu)], Remaining(s.nextInst));
    assert [R.Begin(session, gpu)] + Remaining(s.nextInst) == RS.StartingSteps(s.nextInst, session, gpu);
  }

  function StartCommand(session: string, gpu: string): NS.Command {
    NS.Command("", "start_rental", Some(session), Some(gpu))
  }

  function Started(k: N.Config, n: N.NodeSys, session: string, host: string, o: NS.Outside, port: int): NS.Ack {
    NS.Ack("", true, None, NS.Started(session, if host == "" || host == "localhost" then o.address else host,
                                      RS.Connection(host, port, n.sys.docker.nextId)))
  }

  /** The whole schedule of a start command that succeeds. */
  function StartCommandSteps(n: N.NodeSys, session: string, gpu: string, down: M.Takedown): seq<N.Action> {
    Opening(n, session, gpu, down) + Lift(Remaining(n.sys.nextInst))
  }

  /**
   * From every reachable state in which the session is new, its name is free
   * once mining has been paused and a port is free, the steps of a start
   * command lead to what the handler promises: the rental is on record,
   * registered and running, and mining keeps off its GPU.
   */
  lemma StartCommandAlone(k: N.Config, acts: seq<N.Action>, session: string, gpu: string, host: string, timeout: int,
                          o: NS.Outside, calls: NS.Calls)
    requires N.Run(k, acts).Some? && session != "" && session !in N.Run(k, acts).value.sys.rentals
    requires var n := N.Run(k, acts).value;
             && !D.NameTaken(N.PauseFor(k, n, gpu, calls.down.stopped, calls.down.removed).sys.docker, session)
             && L.Choose(k.rental.ports, n.sys.leases, n.sys.now).Some?
             && o.pauseAt == n.sys.now && o.start == E.StartTimes(n.sys.now, n.sys.now, n.sys.now, n.sys.now)
    requires E.FirstDecision(o.polls, o.start.health + timeout, calls.round) && E.Well(o.polls.seen(calls.round))
    ensures var n := N.Run(k, acts).value;
            var r := N.Run(k, acts + StartCommandSteps(n, session, gpu, calls.down));
            var port := L.Choose(k.rental.ports, n.sys.leases, n.sys.now).value;
            && r.Some?
            && NS.StartHandled(SetupOf(k, host, timeout), ViewOf(n), ViewOf(r.value), StartCommand(session, gpu), o,
                               Started(k, n, session, host, o, port), r.value.mine.starts > n.mine.starts, calls)
            && session in r.value.sys.rentals && r.value.sys.rentals[session].inst == n.sys.nextInst
            && R.At(r.value.sys, n.sys.nextInst, R.Registered) && r.value.sys.insts[n.sys.nextInst].gpu == gpu
            && (gpu != "" ==> gpu in r.value.mine.d.rented)
  {
    var n := N.Run(k, acts).value;
    var m := N.PauseFor(k, n, gpu, calls.down.stopped, calls.down.removed);
    N.NodeAlways(k, acts);
    PausedIsTaken(k, n, gpu, host, timeout, calls);
    PausedOk(k, acts, session, gpu, calls.down);
    PausedKeeps(k, n, gpu, calls.down);
    RS.StartAlone(k.rental, m.sys, session, gpu, host);
    BeginFirst(k.rental, m.sys, session, gpu);
    StartStepsAlone(k, acts, session, gpu, calls.down, Remaining(n.sys.nextInst),
                    R.RunFrom(k.rental, m.sys, RS.StartingSteps(n.sys.nextInst, session, gpu)).value);
    StartOutcome(k, n, m, N.Run(k, acts + StartCommandSteps(n, session, gpu, calls.down)).value, session, gpu, host, timeout, o, calls);
  }

  /** What becomes of the node when mining is paused (m) and then the steps of a start are taken (f). */
  lemma StartOutcome(k: N.Config, n: N.NodeSys, m: N.NodeSys, f: N.NodeSys, session: string, gpu: string, host: string,
                     timeout: int, o: NS.Outside, calls: NS.Calls)
    requires RI.Core(m.sys) && D.Valid(m.sys.docker) && session != "" && session !in n.sys.rentals
    requires m.sys == n.sys.(docker := m.sys.docker) && m.sys.docker.nextId == n.sys.docker.nextId
    requires ViewOf(m) == NS.Taken(SetupOf(k, host, timeout), ViewOf(n), gpu, n.sys.now, calls)
    requires !D.NameTaken(m.sys.docker, session) && L.Choose(k.rental.ports, n.sys.leases, n.sys.now).Some?
    requires o.pauseAt == n.sys.now && o.start == E.StartTimes(n.sys.now, n.sys.now, n.sys.now, n.sys.now)
    requires E.FirstDecision(o.polls, o.start.health + timeout, calls.round) && E.Well(o.polls.seen(calls.round))
    requires f.mine.d == m.mine.d
             && R.RunFrom(k.rental, m.sys, RS.StartingSteps(n.sys.nextInst, session, gpu)) == Some(f.sys)
    ensures NS.StartHandled(SetupOf(k, host, timeout), ViewOf(n), ViewOf(f), StartCommand(session, gpu), o,
                            Started(k, n, session, host, o, L.Choose(k.rental.ports, n.sys.leases, n.sys.now).value),
                            NS.TakingRestarts(SetupOf(k, host, timeout), ViewOf(n), gpu), calls)
    ensures session in f.sys.rentals && f.sys.rentals[session].inst == n.sys.nextInst
    ensures R.At(f.sys, n.sys.nextInst, R.Registered) && f.sys.insts[n.sys.nextInst].gpu == gpu
  {
    RS.StartAlone(k.rental, m.sys, session, gpu, host);
    RegisteredAtEnd(k.rental, m.sys, session, gpu);
    CompletedIsHandled(SetupOf(k, host, timeout), ViewOf(n), ViewOf(m), ViewOf(f), session, gpu, o,
                       Started(k, n, session, host, o, L.Choose(k.rental.ports, n.sys.leases, n.sys.now).value), calls);
  }

  lemma PausedKeeps(k: N.Config, n: N.NodeSys, gpu: string, down: M.Takedown)
    ensures var m := N.PauseFor(k, n, gpu, down.stopped, down.removed);
            && m.sys == n.sys.(docker := m.sys.docker) && (n.mine.w == n.sys.docker ==> m.sys.docker.nextId == n.sys.docker.nextId)
            && (gpu != "" ==> gpu in m.mine.d.rented)
  {
  }

  /** What an accepted start command does to rentals and mining when the rest of its steps follow. */
  lemma StartStepsAlone(k: N.Config, acts: seq<N.Action>, session: string, gpu: string, down: M.Takedown,
                        rest: seq<R.Action>, f: R.Sys)
    requires N.Run(k, acts).Some? && session !in N.Run(k, acts).value.sys.rentals
    requires var m := N.PauseFor(k, N.Run(k, acts).value, gpu, down.stopped, down.removed);
             R.RunFrom(k.rental, R.DoBegin(m.sys, session, gpu), rest) == Some(f)
    requires forall i :: 0 <= i < |rest| ==> Plain(rest[i])
    ensures var n := N.Run(k, acts).value;
            var m := N.PauseFor(k, n, gpu, down.stopped, down.removed);
            var r := N.Run(k, acts + (Opening(n, session, gpu, down) + Lift(rest)));
            && r.Some? && r.value.mine.d == m.mine.d && r.value.mine.starts == m.mine.starts && r.value.sys == f
  {
    OpeningAlone(k, acts, session, gpu, down);
    GoOn(k, acts, Opening(N.Run(k, acts).value, session, gpu, down), rest);
  }

  lemma GoOn(k: N.Config, acts: seq<N.Action>, opening: seq<N.Action>, rest: seq<R.Action>)
    requires N.Run(k, acts + opening).Some? && R.RunFrom(k.rental, N.Run(k, acts + opening).value.sys, rest).Some?
    requires forall i :: 0 <= i < |rest| ==> Plain(rest[i])
    ensures var n, r := N.Run(k, acts + opening).value, N.Run(k, acts + (opening + Lift(rest)));
            && r.Some? && r.value.sys == R.RunFrom(k.rental, n.sys, rest).value
            && r.value.mine.d == n.mine.d && r.value.mine.starts == n.mine.starts
  {
    RentalSteps(k, acts + opening, rest);
    assert acts + opening + Lift(rest) == acts + (opening + Lift(rest));
  }

  /** Taking the GPU and completing the start is what the handler promises. */
  lemma CompletedIsHandled(c: NS.Setup, b: NS.View, m: NS.View, a: NS.View, session: string, gpu: string, o: NS.Outside,
                           ack: NS.Ack, calls: NS.Calls)
    requires c.executor && session != "" && m == NS.Taken(c, b, gpu, o.pauseAt, calls) && a.mining == m.mining
    requires ack.payload.Started?
             && ack == NS.Ack("", true, None, NS.Started(session, NS.Host(c, o), ack.payload.info))
             && E.Completed(c.ports, E.StartRentalRequest(session, gpu, c.hostAddr), o.start, m.exec, a.exec, ack.payload.info)
    requires E.FirstDecision(o.polls, o.start.health + c.healthTimeout, calls.round) && E.Well(o.polls.seen(calls.round))
    ensures NS.StartHandled(c, b, a, StartCommand(session, gpu), o, ack, NS.TakingRestarts(c, b, gpu), calls)
  {
  }

  /** Pausing leaves rentals and engine in order. */
  lemma PausedOk(k: N.Config, acts: seq<N.Action>, session: string, gpu: string, down: M.Takedown)
    requires N.Run(k, acts).Some?
    ensures var m := N.PauseFor(k, N.Run(k, acts).value, gpu, down.stopped, down.removed); RI.Core(m.sys) && D.Valid(m.sys.docker)
  {
    var first := N.HubStart(session, gpu, down.stopped, down.removed);
    N.NodeExtend(k, acts, first);
    N.NodeAlways(k, acts + [first]);
  }

  /** The rental made by these steps is registered under its session. */
  lemma RegisteredAtEnd(k: R.Config, s: R.Sys, session: string, gpu: string)
    requires RI.Core(s) && D.Valid(s.docker) && session !in s.rentals && !D.NameTaken(s.docker, session)
    requires L.Choose(k.ports, s.leases, s.now).Some?
    ensures var r := R.RunFrom(k, s, RS.StartingSteps(s.nextInst, session, gpu));
            && r.Some? && R.At(r.value, s.nextInst, R.Registered) && r.value.insts[s.nextInst].gpu == gpu
            && session in r.value.rentals && r.value.rentals[session].inst == s.nextInst
  {
    var i := s.nextInst;
    var first := [R.Begin(session, gpu), R.Allocate(i)];
    var second := [R.Create(i, true), R.StartContainer(i, true), R.Health(i, true), R.Register(i)];
    RS.TakePort(k, s, session, gpu);
    RS.BuildAndRegister(k, R.RunFrom(k, s, first).value, i);
    R.RunConcat(k, s, first, second);
    assert first + second == RS.StartingSteps(i, session, gpu);
  }

  // ----- Stop commands -----

  function StopCommandSteps(n: N.NodeSys, session: string, start: M.StartCalls): seq<N.Action>
    requires session in n.sys.rentals
  {
    Lift(RS.StoppingSteps(n.sys, session, true, true)) + ResumeSteps(n.mine.d, start)
  }

  /** Resuming mining, and the Start that follows if it is not running. */
  function ResumeSteps(d: M.Daemon, start: M.StartCalls): seq<N.Action> {
    if M.ResumeRestarts(d) then [N.HubResume, N.Mining(MR.RunStart(start))] else [N.HubResume]
  }

  lemma ResumeAlone(k: N.Config, acts: seq<N.Action>, host: string, timeout: int, calls: NS.Calls)
    requires N.Run(k, acts).Some?
    ensures var n := N.Run(k, acts).value;
            var r := N.Run(k, acts + ResumeSteps(n.mine.d, calls.start));
            && r.Some? && r.value.sys == n.sys.(docker := r.value.sys.docker)
            && ViewOf(r.value) == NS.Resumed(SetupOf(k, host, timeout), ViewOf(n), n.sys.now, calls)
  {
    var n := N.Run(k, acts).value;
    N.NodeAlways(k, acts);
    assert n.mine.d.rented - {} == n.mine.d.rented;
    N.NodeExtend(k, acts, N.HubResume);
    if M.ResumeRestarts(n.mine.d) {
      N.NodeExtend(k, acts + [N.HubResume], N.Mining(MR.RunStart(calls.start)));
      assert acts + [N.HubResume] + [N.Mining(MR.RunStart(calls.start))] == acts + ResumeSteps(n.mine.d, calls.start);
    }
  }

  lemma MarkedAlone(k: N.Config, acts: seq<N.Action>, session: string)
    requires N.Run(k, acts).Some? && session in N.Run(k, acts).value.sys.rentals
    ensures var n := N.Run(k, acts).value;
            var r := N.Run(k, acts + Lift(RS.StoppingSteps(n.sys, session, true, true)));
            && r.Some? && r.value.mine.d == n.mine.d && r.value.sys.now == n.sys.now
            && ViewOf(r.value) == NS.Marked(ViewOf(n), session, n.sys.now, true)
            && n.sys.nextCleanup in r.value.sys.cleanups
  {
    var n := N.Run(k, acts).value;
    N.NodeAlways(k, acts);
    RS.StopAlone(k.rental, n.sys, session, true, true);
    RentalSteps(k, acts, RS.StoppingSteps(n.sys, session, true, true));
  }

  /**
   * From every reachable state with a rental on record, the steps of a stop
   * command that Docker grants lead to what the handler promises, and a
   * cleanup is on its way.
   */
  lemma StopCommandAlone(k: N.Config, acts: seq<N.Action>, session: string, host: string, timeout: int, o: NS.Outside, calls: NS.Calls)
    requires N.Run(k, acts).Some? && session != "" && session in N.Run(k, acts).value.sys.rentals && calls.halted
    requires o.stopAt == o.resumeAt == N.Run(k, acts).value.sys.now
    ensures var n := N.Run(k, acts).value;
            var r, e := N.Run(k, acts + StopCommandSteps(n, session, calls.start)), n.sys.rentals[session];
            && r.Some?
            && NS.StopHandled(SetupOf(k, host, timeout), ViewOf(n), ViewOf(r.value), NS.Command("", "stop_rental", Some(session), None), o,
                              NS.Ack("", true, None, NS.Stopped(session)), Some(E.CleanupTask(session, e.cid, e.port)), calls)
            && n.sys.nextCleanup in r.value.sys.cleanups
  {
    var n := N.Run(k, acts).value;
    var marked := acts + Lift(RS.StoppingSteps(n.sys, session, true, true));
    MarkedAlone(k, acts, session);
    ResumeAlone(k, marked, host, timeout, calls);
    assert marked + ResumeSteps(n.mine.d, calls.start) == acts + StopCommandSteps(n, session, calls.start);
  }
}
