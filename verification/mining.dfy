/**
 * The mining daemon as a state machine: what each of its lock-protected
 * regions does to the daemon's fields and to the Docker engine, given how the
 * Docker calls inside the region turn out.
 */
module Mining {
  import opened Wrappers
  import D = Docker

  datatype State = Stopped | Running | Paused

  datatype Config = Config(enabled: bool, gpus: seq<string>)

  /** The daemon's fields; a missing container id stands for the empty string. */
  datatype Daemon = Daemon(state: State, containerID: Option<nat>, startedAt: Option<int>, pausedAt: Option<int>,
                           rented: set<string>)

  datatype Effect = Effect(d: Daemon, w: D.World)

  const NAME := "worldland-mining"

  const INITIAL := Daemon(Stopped, None, None, None, {})

  function Unrented(gpus: seq<string>, rented: set<string>): seq<string> {
    if gpus == [] then []
    else
      var n := |gpus| - 1;
      Unrented(gpus[..n], rented) + if gpus[n] in rented then [] else [gpus[n]]
  }

  /** With no GPUs configured, the one device "all" stands for the machine, and any rental takes it. */
  function Available(gpus: seq<string>, rented: set<string>): seq<string> {
    if gpus == [] then (if rented == {} then ["all"] else []) else Unrented(gpus, rented)
  }

  function Elements(gpus: seq<string>): set<string> {
    set g | g in gpus
  }

  // ----- The regions -----

  datatype StartCalls = StartCalls(created: bool, started: bool, removed: bool)

  function DoStart(cfg: Config, d: Daemon, w: D.World, now: int, o: StartCalls): Effect {
    if !cfg.enabled || d.state == Running then Effect(d, w)
    else
      var avail := Available(cfg.gpus, d.rented);
      if avail == [] then Effect(d.(state := Paused, pausedAt := Some(now)), w)
      else if !o.created || D.NameTaken(w, NAME) then Effect(d, w)
      else
        var made := D.Create(w, NAME, None, avail[0]);
        if o.started then
          Effect(d.(containerID := Some(w.nextId), state := Running, startedAt := Some(now), pausedAt := None),
                 D.SetRunning(made, w.nextId, true))
        else Effect(d, if o.removed then D.Remove(made, w.nextId) else made)
  }

  /** Stopping and removing container c; the answers are ignored, so what counts is whether it was `stopped` and `removed`. */
  function Discard(w: D.World, c: Option<nat>, stopped: bool, removed: bool): D.World {
    match c
    case None => w
    case Some(id) =>
      var halted := if stopped then D.SetRunning(w, id, false) else w;
      if removed then D.Remove(halted, id) else halted
  }

  function DoStop(d: Daemon, w: D.World, stopped: bool, removed: bool): Effect {
    if d.state == Stopped then Effect(d, w)
    else Effect(d.(containerID := None, state := Stopped, startedAt := None, pausedAt := None),
                Discard(w, d.containerID, stopped, removed))
  }

  /** Whether PauseForRental finds a container to take down. */
  predicate Interrupts(d: Daemon) {
    d.state == Running && d.containerID.Some?
  }

  /** Renting out GPUs; a background Start follows when GPUs are left. */
  function DoPause(cfg: Config, d: Daemon, w: D.World, now: int, gpus: set<string>, stopped: bool, removed: bool): Effect {
    var marked := d.(rented := d.rented + gpus);
    if !Interrupts(d) then Effect(marked, w)
    else
      var cleared := marked.(containerID := None);
      var rest := Discard(w, d.containerID, stopped, removed);
      if Available(cfg.gpus, marked.rented) == [] then Effect(cleared.(state := Paused, pausedAt := Some(now)), rest)
      else Effect(cleared, rest)
  }

  predicate PauseRestarts(cfg: Config, d: Daemon, gpus: set<string>) {
    Interrupts(d) && Available(cfg.gpus, d.rented + gpus) != []
  }

  function DoResume(d: Daemon, gpus: set<string>): Daemon {
    d.(rented := d.rented - gpus)
  }

  predicate ResumeRestarts(d: Daemon) {
    d.state == Paused || d.state == Stopped
  }

  /** A monitor tick that found the container dead or could not inspect it. */
  function DoCrash(d: Daemon): Daemon {
    d.(containerID := None, state := Stopped)
  }

  // ----- What the regions ask of Docker -----

  /** The calls of a Start on daemon d, with the answers o, when nextId is the engine's next id. */
  function StartLog(cfg: Config, d: Daemon, nextId: nat, o: StartCalls): seq<D.Call> {
    if !cfg.enabled || d.state == Running || Available(cfg.gpus, d.rented) == [] then []
    else if !o.created then [D.Created(NAME, None, Available(cfg.gpus, d.rented)[0], None)]
    else
      [D.Created(NAME, None, Available(cfg.gpus, d.rented)[0], Some(nextId)), D.Started(nextId, o.started)]
      + if o.started then [] else [D.Removed(nextId, o.removed)]
  }

  /** Answers while a container is taken down: to the stop, whether that halted it, and to the removal. */
  datatype Takedown = Takedown(answer: bool, stopped: bool, removed: bool)

  function TakedownLog(c: Option<nat>, t: Takedown): seq<D.Call> {
    if c.None? then [] else [D.Stopped(c.value, t.answer, t.stopped), D.Removed(c.value, t.removed)]
  }

  function PauseLog(d: Daemon, t: Takedown): seq<D.Call> {
    if Interrupts(d) then TakedownLog(d.containerID, t) else []
  }

  function ResumeLog(cfg: Config, d: Daemon, gpus: set<string>, nextId: nat, o: StartCalls): seq<D.Call> {
    if ResumeRestarts(d) then StartLog(cfg, DoResume(d, gpus), nextId, o) else []
  }

  // ----- Laws of the available list -----

  lemma {:induction false} UnrentedMembers(gpus: seq<string>, rented: set<string>, g: string)
    ensures g in Unrented(gpus, rented) <==> g in gpus && g !in rented
  {
    if gpus != [] {
      UnrentedMembers(gpus[..|gpus| - 1], rented, g);
      assert gpus == gpus[..|gpus| - 1] + [gpus[|gpus| - 1]];
    }
  }

  /** Renting A and then B leaves what renting both at once leaves, in the same order. */
  lemma {:induction false} UnrentedTwice(gpus: seq<string>, a: set<string>, b: set<string>)
    ensures Unrented(Unrented(gpus, a), b) == Unrented(gpus, a + b)
  {
    if gpus != [] {
      var n := |gpus| - 1;
      UnrentedTwice(gpus[..n], a, b);
      var rest := Unrented(gpus[..n], a);
      if gpus[n] in a {
        assert Unrented(gpus, a) == rest;
      } else {
        assert Unrented(gpus, a) == rest + [gpus[n]];
        assert (rest + [gpus[n]])[..|rest|] == rest;
      }
    }
  }

  /** Keeping an element or not depends on that element alone, so lists can be filtered piecewise. */
  lemma {:induction false} UnrentedConcat(first: seq<string>, second: seq<string>, rented: set<string>)
    ensures Unrented(first + second, rented) == Unrented(first, rented) + Unrented(second, rented)
  {
    if second == [] {
      assert first + second == first;
    } else {
      var n := |second| - 1;
      UnrentedConcat(first, second[..n], rented);
      assert (first + second)[..|first + second| - 1] == first + second[..n];
    }
  }

  /** The device mining uses is the first configured one that is not rented. */
  lemma {:induction false} FirstUnrented(gpus: seq<string>, rented: set<string>, i: nat)
    requires i < |gpus| && gpus[i] !in rented && forall j :: 0 <= j < i ==> gpus[j] in rented
    ensures Unrented(gpus, rented) != [] && Unrented(gpus, rented)[0] == gpus[i]
  {
    var n := |gpus| - 1;
    if i < n {
      FirstUnrented(gpus[..n], rented, i);
    } else {
      NoneUnrented(gpus[..n], rented);
    }
  }

  lemma {:induction false} NoneUnrented(gpus: seq<string>, rented: set<string>)
    requires forall j :: 0 <= j < |gpus| ==> gpus[j] in rented
    ensures Unrented(gpus, rented) == []
  {
    if gpus != [] {
      NoneUnrented(gpus[..|gpus| - 1], rented);
    }
  }

  /** Returning rented ids never takes an available device away. */
  lemma ResumeKeepsAvailable(gpus: seq<string>, rented: set<string>, returned: set<string>, g: string)
    requires g in Available(gpus, rented)
    ensures g in Available(gpus, rented - returned)
  {
    if gpus == [] {
      assert rented - returned == {};
    } else {
      UnrentedMembers(gpus, rented, g);
      UnrentedMembers(gpus, rented - returned, g);
    }
  }

  /** Resume undoes Pause exactly when none of the ids was rented before. */
  lemma ResumeUndoesPause(cfg: Config, d: Daemon, w: D.World, now: int, gpus: set<string>, stopped: bool, removed: bool)
    ensures DoResume(DoPause(cfg, d, w, now, gpus, stopped, removed).d, gpus).rented == d.rented - gpus
    ensures DoResume(DoPause(cfg, d, w, now, gpus, stopped, removed).d, gpus).rented == d.rented <==> gpus !! d.rented
  {
    assert d.rented + gpus - gpus == d.rented - gpus;
    if d.rented - gpus == d.rented {
      assert forall g :: g in gpus ==> g !in d.rented - gpus;
    }
  }
}
