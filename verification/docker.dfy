/**
 * What the node may rely on about the Docker engine: ids are never reused,
 * names of existing containers are unique, and any call may fail. A failing
 * call changes nothing, except that one to stop a container may have stopped it.
 */
module Docker {
  import opened Wrappers

  datatype Container = Container(name: string, hostPort: Option<int>, gpu: string, running: bool)

  datatype World = World(containers: map<nat, Container>, nextId: nat)

  predicate Valid(d: World) {
    && (forall c :: c in d.containers ==> c < d.nextId)
    && (forall c, e :: c in d.containers && e in d.containers && d.containers[c].name == d.containers[e].name ==> c == e)
  }

  predicate NameTaken(d: World, name: string) {
    exists c :: c in d.containers && d.containers[c].name == name
  }

  /** A new container under a free name, not yet running. */
  function Create(d: World, name: string, hostPort: Option<int>, gpu: string): World {
    World(d.containers[d.nextId := Container(name, hostPort, gpu, false)], d.nextId + 1)
  }

  function SetRunning(d: World, c: nat, running: bool): World {
    if c in d.containers then d.(containers := d.containers[c := d.containers[c].(running := running)]) else d
  }

  function Remove(d: World, c: nat): World {
    d.(containers := d.containers - {c})
  }

  lemma CreateKeepsValid(d: World, name: string, hostPort: Option<int>, gpu: string)
    requires Valid(d) && !NameTaken(d, name)
    ensures Valid(Create(d, name, hostPort, gpu))
  {
  }

  lemma UpdatesKeepValid(d: World, c: nat, running: bool)
    requires Valid(d)
    ensures Valid(SetRunning(d, c, running)) && Valid(Remove(d, c))
  {
  }

  /** Removing a new container, started or not, leaves the containers there were. */
  lemma RemoveUndoesCreate(d: World, name: string, hostPort: Option<int>, gpu: string)
    requires Valid(d)
    ensures var made := Create(d, name, hostPort, gpu);
            && Remove(made, d.nextId).containers == d.containers
            && Remove(SetRunning(made, d.nextId, true), d.nextId).containers == d.containers
            && SetRunning(made, d.nextId, true).containers
               == d.containers[d.nextId := Container(name, hostPort, gpu, true)]
  {
  }

  /** Nothing about a container changes with SetRunning except whether it runs, and nothing about the others. */
  lemma OnlyRunningChanges(d: World, c: nat, running: bool)
    ensures var d' := SetRunning(d, c, running);
            && d'.nextId == d.nextId && d'.containers.Keys == d.containers.Keys
            && (c in d.containers ==> d'.containers[c].running == running)
            && (forall e :: e in d.containers ==> d'.containers[e] == d.containers[e].(running := d'.containers[e].running))
            && (forall e :: e in d.containers && e != c ==> d'.containers[e] == d.containers[e])
  {
  }

  /** A call to the engine, with its answer; for a stop also whether the container was halted. */
  datatype Call =
    | Created(name: string, hostPort: Option<int>, gpu: string, made: Option<nat>)
    | Started(id: nat, ok: bool)
    | Stopped(id: nat, ok: bool, halted: bool)
    | Removed(id: nat, ok: bool)
    | Inspected(id: nat, running: bool)

  /** The engine as the node's code calls it; the outcome of every call is the engine's choice, and `log` tells it. */
  class Engine {
    var containers: map<nat, Container>
    var nextId: nat
    ghost var log: seq<Call>

    function View(): World
      reads this
    {
      World(containers, nextId)
    }

    constructor ()
      ensures View() == World(map[], 0) && log == []
    {
      containers, nextId, log := map[], 0, [];
    }

    method CreateContainer(name: string, hostPort: Option<int>, gpu: string) returns (id: Option<nat>)
      requires Valid(View())
      modifies this
      ensures Valid(View()) && log == old(log) + [Created(name, hostPort, gpu, id)]
      ensures id.None? ==> View() == old(View())
      ensures id.Some? ==> id.value == old(nextId) && !NameTaken(old(View()), name)
                           && View() == Create(old(View()), name, hostPort, gpu)
    {
      var willing: bool := *;
      if !willing || exists c :: c in containers && containers[c].name == name {
        log := log + [Created(name, hostPort, gpu, None)];
        return None;
      }
      id := Some(nextId);
      containers := containers[nextId := Container(name, hostPort, gpu, false)];
      nextId := nextId + 1;
      log := log + [Created(name, hostPort, gpu, id)];
    }

    method StartContainer(id: nat) returns (ok: bool)
      requires Valid(View())
      modifies this
      ensures Valid(View()) && log == old(log) + [Started(id, ok)]
      ensures ok ==> id in old(containers)
      ensures View() == if ok then SetRunning(old(View()), id, true) else old(View())
    {
      ok := *;
      ok := ok && id in containers;
      if ok {
        containers := containers[id := containers[id].(running := true)];
      }
      log := log + [Started(id, ok)];
    }

    /** Stops and then waits, so a call may also fail with the container `halted`. */
    method StopContainer(id: nat) returns (ok: bool, ghost halted: bool)
      requires Valid(View())
      modifies this
      ensures Valid(View()) && log == old(log) + [Stopped(id, ok, halted)]
      ensures ok ==> halted
      ensures View() == if halted then SetRunning(old(View()), id, false) else old(View())
    {
      ok := *;
      var stops: bool := *;
      halted := ok || stops;
      if (ok || stops) && id in containers {
        containers := containers[id := containers[id].(running := false)];
      }
      log := log + [Stopped(id, ok, halted)];
    }

    method RemoveContainer(id: nat) returns (ok: bool)
      requires Valid(View())
      modifies this
      ensures Valid(View()) && log == old(log) + [Removed(id, ok)]
      ensures View() == if ok then Remove(old(View()), id) else old(View())
    {
      ok := *;
      if ok {
        containers := containers - {id};
      }
      log := log + [Removed(id, ok)];
    }

    /** Whether the container is reported running; an inspection may fail or be wrong about a running one. */
    method InspectRunning(id: nat) returns (running: bool)
      modifies this`log
      ensures running ==> id in containers && containers[id].running
      ensures log == old(log) + [Inspected(id, running)]
    {
      running := *;
      running := running && id in containers && containers[id].running;
      log := log + [Inspected(id, running)];
    }
  }
}
