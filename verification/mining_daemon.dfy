/** The mining daemon as an object: its fields are updated in place by its methods. */
module MiningService {
  import opened Wrappers
  import D = Docker
  import M = Mining

  datatype MiningStatus = MiningStatus(state: M.State, containerID: Option<nat>, gpuCount: nat,
                                       startedAt: Option<int>, pausedAt: Option<int>)

  class MiningDaemon {
    const docker: D.Engine
    const enabled: bool
    const gpuDeviceIDs: seq<string>
    var state: M.State
    var containerID: Option<nat>
    var startedAt: Option<int>
    var pausedAt: Option<int>
    var pausedGPUs: set<string>

    function Config(): M.Config {
      M.Config(enabled, gpuDeviceIDs)
    }

    function View(): M.Daemon
      reads this
    {
      M.Daemon(state, containerID, startedAt, pausedAt, pausedGPUs)
    }

    constructor (docker: D.Engine, enabled: bool, gpuDeviceIDs: seq<string>)
      ensures this.docker == docker && Config() == M.Config(enabled, gpuDeviceIDs) && View() == M.INITIAL
    {
      this.docker, this.enabled, this.gpuDeviceIDs := docker, enabled, gpuDeviceIDs;
      state, containerID, startedAt, pausedAt, pausedGPUs := M.Stopped, None, None, None, {};
    }

    /** The GPUs not rented out, in configured order. */
    method GetAvailableGPUs() returns (available: seq<string>)
      ensures available == M.Available(gpuDeviceIDs, pausedGPUs)
      ensures gpuDeviceIDs == [] ==> available == if pausedGPUs == {} then ["all"] else []
    {
      if |gpuDeviceIDs| == 0 {
        if pausedGPUs != {} {
          return [];
        }
        return ["all"];
      }
      available := [];
      for i := 0 to |gpuDeviceIDs|
        invariant available == M.Unrented(gpuDeviceIDs[..i], pausedGPUs)
      {
        assert gpuDeviceIDs[..i + 1][..i] == gpuDeviceIDs[..i];
        if gpuDeviceIDs[i] !in pausedGPUs {
          available := available + [gpuDeviceIDs[i]];
        }
      }
      assert gpuDeviceIDs[..|gpuDeviceIDs|] == gpuDeviceIDs;
    }

    /** Starts mining on the first available GPU; `calls` is how the Docker calls went. */
    method Start(now: int) returns (ok: bool, ghost calls: M.StartCalls)
      requires D.Valid(docker.View())
      modifies this, docker
      ensures D.Valid(docker.View())
      ensures M.Effect(View(), docker.View()) == M.DoStart(Config(), old(View()), old(docker.View()), now, calls)
      ensures docker.log == old(docker.log) + M.StartLog(Config(), old(View()), old(docker.nextId), calls)
      ensures pausedGPUs == old(pausedGPUs)
      // nothing to do
      ensures old(!enabled || state == M.Running) ==>
                ok && View() == old(View()) && docker.View() == old(docker.View()) && docker.log == old(docker.log)
      // nothing to mine on
      ensures old(enabled && state != M.Running) && M.Available(gpuDeviceIDs, pausedGPUs) == [] ==>
                && ok && state == M.Paused && pausedAt == Some(now)
                && containerID == old(containerID) && startedAt == old(startedAt)
                && docker.View() == old(docker.View()) && docker.log == old(docker.log)
      // a container on the first available GPU
      ensures old(enabled && state != M.Running) && M.Available(gpuDeviceIDs, pausedGPUs) != [] ==>
                var gpu, id := M.Available(gpuDeviceIDs, pausedGPUs)[0], old(docker.nextId);
                && (ok <==> calls.created && calls.started)
                && (!ok ==> View() == old(View()))
                && (!calls.created ==>
                      docker.log == old(docker.log) + [D.Created("worldland-mining", None, gpu, None)]
                      && docker.View() == old(docker.View()))
                && (calls.created && calls.started ==>
                      docker.log == old(docker.log) + [D.Created("worldland-mining", None, gpu, Some(id)), D.Started(id, true)]
                      && docker.containers == old(docker.containers)[id := D.Container("worldland-mining", None, gpu, true)]
                      && state == M.Running && containerID == Some(id) && startedAt == Some(now) && pausedAt == None)
                && (calls.created && !calls.started ==>
                      docker.log == old(docker.log) + [D.Created("worldland-mining", None, gpu, Some(id)), D.Started(id, false),
                                                       D.Removed(id, calls.removed)]
                      && docker.containers
                         == if calls.removed then old(docker.containers)
                            else old(docker.containers)[id := D.Container("worldland-mining", None, gpu, false)])
      ensures calls.created ==> !D.NameTaken(old(docker.View()), "worldland-mining")
    {
      calls := M.StartCalls(false, false, false);
      if !enabled {
        return true, calls;
      }
      if state == M.Running {
        return true, calls;
      }
      var available := GetAvailableGPUs();
      if |available| == 0 {
        state, pausedAt := M.Paused, Some(now);
        return true, calls;
      }
      var id;
      id, calls := Launch(available[0]);
      if id.None? {
        return false, calls;
      }
      containerID, state, startedAt, pausedAt := id, M.Running, Some(now), None;
      return true, calls;
    }

    /** Creates and starts the container, removing it again if it does not start. */
    method Launch(gpu: string) returns (id: Option<nat>, ghost calls: M.StartCalls)
      requires D.Valid(docker.View())
      modifies docker
      ensures D.Valid(docker.View())
      ensures calls.created ==> !D.NameTaken(old(docker.View()), M.NAME)
      ensures id == if calls.created && calls.started then Some(old(docker.nextId)) else None
      ensures var next := old(docker.nextId);
              && (!calls.created ==>
                    && docker.log == old(docker.log) + [D.Created(M.NAME, None, gpu, None)]
                    && docker.View() == old(docker.View()))
              && (calls.created && calls.started ==>
                    && docker.log == old(docker.log) + [D.Created(M.NAME, None, gpu, Some(next)), D.Started(next, true)]
                    && docker.View() == D.SetRunning(D.Create(old(docker.View()), M.NAME, None, gpu), next, true)
                    && docker.containers == old(docker.containers)[next := D.Container(M.NAME, None, gpu, true)])
              && (calls.created && !calls.started ==>
                    var made := D.Create(old(docker.View()), M.NAME, None, gpu);
                    && docker.log == old(docker.log) + [D.Created(M.NAME, None, gpu, Some(next)), D.Started(next, false),
                                                        D.Removed(next, calls.removed)]
                    && docker.View() == (if calls.removed then D.Remove(made, next) else made)
                    && docker.containers
                       == if calls.removed then old(docker.containers)
                          else old(docker.containers)[next := D.Container(M.NAME, None, gpu, false)])
    {
      calls := M.StartCalls(false, false, false);
      D.RemoveUndoesCreate(docker.View(), M.NAME, None, gpu);
      id := docker.CreateContainer(M.NAME, None, gpu);
      if id.None? {
        return;
      }
      var started := docker.StartContainer(id.value);
      if !started {
        var removed := docker.RemoveContainer(id.value);
        return None, M.StartCalls(true, false, removed);
      }
      calls := M.StartCalls(true, true, false);
    }

    /** Stops and removes the tracked container, if there is one, whatever Docker answers. */
    method TakeDown() returns (ghost down: M.Takedown)
      requires D.Valid(docker.View())
      modifies docker
      ensures D.Valid(docker.View()) && (down.answer ==> down.stopped)
      ensures docker.View() == M.Discard(old(docker.View()), containerID, down.stopped, down.removed)
      ensures docker.log == old(docker.log) + M.TakedownLog(containerID, down)
      ensures containerID.None? ==> docker.View() == old(docker.View()) && docker.log == old(docker.log)
      ensures containerID.Some? ==>
                var c := containerID.value;
                && docker.log == old(docker.log) + [D.Stopped(c, down.answer, down.stopped), D.Removed(c, down.removed)]
                && docker.nextId == old(docker.nextId)
                && (down.removed ==> docker.containers == old(docker.containers) - {c})
                && (!down.removed && down.stopped && c in old(docker.containers) ==>
                      docker.containers == old(docker.containers)[c := old(docker.containers)[c].(running := false)])
                && (!down.removed && (!down.stopped || c !in old(docker.containers)) ==>
                      docker.containers == old(docker.containers))
    {
      down := M.Takedown(false, false, false);
      if containerID.Some? {
        var answer, stopped := docker.StopContainer(containerID.value);
        var removed := docker.RemoveContainer(containerID.value);
        down := M.Takedown(answer, stopped, removed);
      }
    }

    method Stop() returns (ghost down: M.Takedown)
      requires D.Valid(docker.View())
      modifies this, docker
      ensures D.Valid(docker.View())
      ensures M.Effect(View(), docker.View()) == M.DoStop(old(View()), old(docker.View()), down.stopped, down.removed)
      ensures old(state) == M.Stopped ==>
                View() == old(View()) && docker.View() == old(docker.View()) && docker.log == old(docker.log)
      ensures old(state) != M.Stopped ==>
                && state == M.Stopped && containerID == None && startedAt == None && pausedAt == None
                && docker.View() == M.Discard(old(docker.View()), old(containerID), down.stopped, down.removed)
                && docker.log == old(docker.log) + M.TakedownLog(old(containerID), down)
      ensures pausedGPUs == old(pausedGPUs)
    {
      down := M.Takedown(false, false, false);
      if state == M.Stopped {
        return;
      }
      down := TakeDown();
      containerID, state, startedAt, pausedAt := None, M.Stopped, None, None;
    }

    /** Marks GPUs as rented and takes mining down; `restart` tells that a background Start was spawned. */
    method PauseForRental(gpus: seq<string>, now: int) returns (restart: bool, ghost down: M.Takedown)
      requires D.Valid(docker.View())
      modifies this, docker
      ensures D.Valid(docker.View())
      ensures M.Effect(View(), docker.View())
              == M.DoPause(Config(), old(View()), old(docker.View()), now, M.Elements(gpus), down.stopped, down.removed)
      ensures restart <==> M.PauseRestarts(Config(), old(View()), M.Elements(gpus))
      ensures docker.log == old(docker.log) + M.PauseLog(old(View()), down)
      ensures pausedGPUs == old(pausedGPUs) + (set g | g in gpus) && startedAt == old(startedAt)
      // not mining
      ensures old(state != M.Running || containerID.None?) ==>
                && !restart && state == old(state) && containerID == old(containerID) && pausedAt == old(pausedAt)
                && docker.View() == old(docker.View()) && docker.log == old(docker.log)
      // mining: its container is stopped and removed
      ensures old(state == M.Running && containerID.Some?) ==>
                var c := old(containerID).value;
                && containerID == None
                && docker.log == old(docker.log) + [D.Stopped(c, down.answer, down.stopped), D.Removed(c, down.removed)]
                && docker.View() == M.Discard(old(docker.View()), Some(c), down.stopped, down.removed)
                && (down.removed ==> docker.containers == old(docker.containers) - {c})
                && (restart <==> M.Available(gpuDeviceIDs, pausedGPUs) != [])
                && (restart ==> state == M.Running && pausedAt == old(pausedAt))
                && (!restart ==> state == M.Paused && pausedAt == Some(now))
    {
      down := M.Takedown(false, false, false);
      for i := 0 to |gpus|
        invariant pausedGPUs == old(pausedGPUs) + M.Elements(gpus[..i])
        invariant state == old(state) && containerID == old(containerID) && docker.log == old(docker.log)
        invariant startedAt == old(startedAt) && pausedAt == old(pausedAt) && docker.View() == old(docker.View())
      {
        pausedGPUs := pausedGPUs + {gpus[i]};
      }
      assert gpus[..|gpus|] == gpus;
      if state == M.Running && containerID.Some? {
        down := TakeDown();
        containerID := None;
        var available := GetAvailableGPUs();
        if |available| == 0 {
          state, pausedAt := M.Paused, Some(now);
          return false, down;
        }
        return true, down;
      }
      return false, down;
    }

    /** Unmarks GPUs and, unless mining counts as running, calls Start. */
    method ResumeAfterRental(gpus: seq<string>, now: int) returns (ok: bool, ghost calls: M.StartCalls)
      requires D.Valid(docker.View())
      modifies this, docker
      ensures D.Valid(docker.View())
      ensures var resumed := M.DoResume(old(View()), M.Elements(gpus));
              && M.Effect(View(), docker.View())
                 == (if M.ResumeRestarts(old(View())) then M.DoStart(Config(), resumed, old(docker.View()), now, calls)
                     else M.Effect(resumed, old(docker.View())))
              && docker.log == old(docker.log) + M.ResumeLog(Config(), old(View()), M.Elements(gpus), old(docker.nextId), calls)
      ensures pausedGPUs == old(pausedGPUs) - (set g | g in gpus)
      // mining, or counting as such
      ensures old(state) == M.Running ==>
                && ok && state == M.Running && containerID == old(containerID) && startedAt == old(startedAt)
                && pausedAt == old(pausedAt) && docker.View() == old(docker.View()) && docker.log == old(docker.log)
      // nothing to mine on
      ensures old(state) != M.Running && enabled && M.Available(gpuDeviceIDs, pausedGPUs) == [] ==>
                ok && state == M.Paused && pausedAt == Some(now) && docker.log == old(docker.log)
      // a container on the first available GPU is asked for, and tracked if Docker grants it
      ensures old(state) != M.Running && enabled && M.Available(gpuDeviceIDs, pausedGPUs) != [] ==>
                var gpu, id := M.Available(gpuDeviceIDs, pausedGPUs)[0], old(docker.nextId);
                && (ok <==> calls.created && calls.started)
                && |docker.log| > |old(docker.log)|
                && docker.log[|old(docker.log)|]
                   == D.Created("worldland-mining", None, gpu, if calls.created then Some(id) else None)
                && (ok ==> state == M.Running && containerID == Some(id) && startedAt == Some(now) && pausedAt == None
                           && docker.containers
                              == old(docker.containers)[id := D.Container("worldland-mining", None, gpu, true)])
                && (!ok ==> state == old(state) && containerID == old(containerID))
    {
      calls := M.StartCalls(false, false, false);
      for i := 0 to |gpus|
        invariant pausedGPUs == old(pausedGPUs) - M.Elements(gpus[..i])
        invariant state == old(state) && containerID == old(containerID) && docker.log == old(docker.log)
        invariant startedAt == old(startedAt) && pausedAt == old(pausedAt) && docker.View() == old(docker.View())
      {
        pausedGPUs := pausedGPUs - {gpus[i]};
      }
      assert gpus[..|gpus|] == gpus;
      assert View() == M.DoResume(old(View()), M.Elements(gpus));
      if state == M.Paused || state == M.Stopped {
        ok, calls := Start(now);
        return;
      }
      ok := true;
    }

    /** One tick of the monitor loop: a container that is not seen running is forgotten and mining started again. */
    method MonitorTick(now: int) returns (died: bool, ghost calls: M.StartCalls)
      requires D.Valid(docker.View())
      modifies this, docker
      ensures D.Valid(docker.View())
      ensures M.Effect(View(), docker.View())
              == if died then M.DoStart(Config(), M.DoCrash(old(View())), old(docker.View()), now, calls)
                 else M.Effect(old(View()), old(docker.View()))
      ensures old(state != M.Running || containerID.None?) ==> !died && docker.log == old(docker.log)
      // the container is inspected, and survives if it is seen running
      ensures old(state == M.Running && containerID.Some?) ==>
                var c := old(containerID).value;
                && docker.log == old(docker.log) + [D.Inspected(c, !died)]
                                 + (if died then M.StartLog(Config(), M.DoCrash(old(View())), old(docker.nextId), calls) else [])
                && (!died ==> c in docker.containers && docker.containers[c].running)
      // a Start that fails leaves the daemon stopped; one that works, on a new container
      ensures died && enabled && M.Available(gpuDeviceIDs, pausedGPUs) != [] ==>
                && (calls.created && calls.started ==> state == M.Running && containerID == Some(old(docker.nextId)))
                && (!calls.created || !calls.started ==>
                      state == M.Stopped && containerID == None && startedAt == old(startedAt) && pausedAt == old(pausedAt))
      ensures pausedGPUs == old(pausedGPUs)
    {
      calls := M.StartCalls(false, false, false);
      died := false;
      if state == M.Running && containerID.Some? {
        var running := docker.InspectRunning(containerID.value);
        if !running {
          died := true;
          containerID, state := None, M.Stopped;
          var _, c := Start(now);
          calls := c;
        }
      }
    }

    method Status() returns (s: MiningStatus)
      ensures s == MiningStatus(state, containerID, |M.Available(gpuDeviceIDs, pausedGPUs)|, startedAt, pausedAt)
    {
      var available := GetAvailableGPUs();
      return MiningStatus(state, containerID, |available|, startedAt, pausedAt);
    }
  }
}
