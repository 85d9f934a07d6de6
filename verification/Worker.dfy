/** One owner of the terminal at a time (cn_futures_bridge/worker.py:50-57, 125-184).

    The operating system's part is free: whether a process is spawned, what arrives on the pipe and when a process dies.
 */
module Worker {
  import opened Base
  import opened Reconnect
  import Bridge

  type Generation = nat
  type RequestId = nat

  /** A message names the generation that sent it and the command it answers. */
  datatype Message = Message(generation: Generation, requestId: RequestId, payload: nat)

  datatype Arrival = Silence | Garbage | Came(message: Message)

  datatype Problem = Unreclaimed | NotConnected | NoAnswer | WrongAnswer | StillAlive | SpawnFailed

  /** The dispatcher's view of its worker, and the processes that really run. */
  datatype Owner = Owner(generation: Generation, connected: bool, process: Option<Generation>, alive: set<Generation>,
                         spawned: seq<Generation>)

  const NOBODY := Owner(0, false, None, {}, [])

  function Accepted(o: Owner, id: RequestId, arrival: Arrival): Result<Message, Problem> {
    if !o.connected then Err(NoAnswer)
    else if !arrival.Came? then Err(NoAnswer)
    else if arrival.message.generation != o.generation || arrival.message.requestId != id then Err(WrongAnswer)
    else Ok(arrival.message)
  }

  function Started(o: Owner, name: Generation, spawns: bool): Owner {
    if o.process.Some? || o.connected then o
    else
      o.(generation := name, connected := true, process := Some(name),
         alive := if spawns then o.alive + {name} else o.alive,
         spawned := if spawns then o.spawned + [name] else o.spawned)
  }

  /** After a confirmed "stop", `exits` says whether the process ends within the join. */
  function Halted(o: Owner, id: RequestId, arrival: Arrival, exits: bool): Owner {
    if !o.connected || Accepted(o, id, arrival).Err? then o
    else
      var left := if exits && o.process.Some? then o.(alive := o.alive - {o.process.value}) else o;
      if left.process.Some? && left.process.value in left.alive then left
      else left.(process := None, connected := false)
  }

  /** An answer counts exactly when it arrived on a live pipe, from the current generation, for this command. */
  lemma AcceptanceIsExact(o: Owner, id: RequestId, arrival: Arrival)
    ensures Accepted(o, id, arrival).Ok? <==>
              o.connected && arrival.Came? && arrival.message.generation == o.generation
              && arrival.message.requestId == id
    ensures Accepted(o, id, arrival).Ok? ==> Accepted(o, id, arrival).value == arrival.message
  {
  }

  /** A start takes over exactly when nobody is left from before; a stop gives up exactly when it was answered and no
      process of the owner is left. */
  lemma TakingOverIsExact(o: Owner, name: Generation, spawns: bool, id: RequestId, arrival: Arrival, exits: bool)
    ensures var started := Started(o, name, spawns);
            && (o.process.Some? || o.connected ==> started == o)
            && (o.process.None? && !o.connected ==>
                  && started.process == Some(name) && started.generation == name && started.connected
                  && started.alive == (if spawns then o.alive + {name} else o.alive)
                  && started.spawned == (if spawns then o.spawned + [name] else o.spawned))
    ensures var halted := Halted(o, id, arrival, exits);
            var answered := o.connected && arrival.Came? && arrival.message.generation == o.generation
                            && arrival.message.requestId == id;
            var gone := o.process.None? || exits || o.process.value !in o.alive;
            && (answered && gone ==> halted.process.None? && !halted.connected)
            && (!(answered && gone) ==> halted.process == o.process && halted.connected == o.connected)
            && halted.alive == (if answered && exits && o.process.Some? then o.alive - {o.process.value} else o.alive)
            && halted.generation == o.generation && halted.spawned == o.spawned
  {
  }

  /** What can happen: calls of the dispatcher, and processes dying by themselves. */
  datatype Step = Start(name: Generation, spawns: bool) | Stop(id: RequestId, arrival: Arrival, exits: bool)
                | Dies(generation: Generation)

  function Apply(o: Owner, step: Step): Owner {
    match step
    case Start(name, spawns) => Started(o, name, spawns)
    case Stop(id, arrival, exits) => Halted(o, id, arrival, exits)
    case Dies(generation) => o.(alive := o.alive - {generation})
  }

  function After(o: Owner, steps: seq<Step>): Owner {
    if steps == [] then o else Apply(After(o, steps[..|steps| - 1]), steps[|steps| - 1])
  }

  ghost predicate Exclusive(o: Owner) {
    && (o.process.None? ==> o.alive == {} && !o.connected)
    && (o.process.Some? ==> o.alive <= {o.process.value} && o.generation == o.process.value && o.connected)
  }

  lemma StepKeepsExclusive(o: Owner, step: Step)
    requires Exclusive(o)
    ensures Exclusive(Apply(o, step))
    ensures Apply(o, step).spawned != o.spawned ==> o.alive == {} && o.process.None?
  {
  }

  /** Never two owners: at most one process is alive, it is the one whose answers are accepted, and a new one is spawned
      only when the old one is known to have exited. */
  lemma {:induction false} OneOwnerAtATime(steps: seq<Step>)
    ensures var o := After(NOBODY, steps);
            && Exclusive(o) && |o.alive| <= 1
            && (steps != [] ==> var before := After(NOBODY, steps[..|steps| - 1]);
                                o.spawned != before.spawned ==> before.alive == {} && !before.connected)
  {
    if steps != [] {
      var n := |steps| - 1;
      OneOwnerAtATime(steps[..n]);
      StepKeepsExclusive(After(NOBODY, steps[..n]), steps[n]);
    }
    var o := After(NOBODY, steps);
    if o.process.Some? {
      assert o.alive <= {o.process.value} && |{o.process.value}| == 1;
      Smaller(o.alive, {o.process.value});
    }
  }

  lemma {:induction false} Smaller(a: set<Generation>, b: set<Generation>)
    requires a <= b
    ensures |a| <= |b|
  {
    assert a + (b - a) == b && |a + (b - a)| == |a| + |b - a|;
  }

  /** Step i started this owner, and every start since then was refused. */
  ghost predicate StartedLast(steps: seq<Step>, i: int, g: Generation) {
    && 0 <= i < |steps| && steps[i].Start? && steps[i].name == g
    && forall j :: i < j < |steps| ==> After(NOBODY, steps[..j]).process == Some(g)
  }

  lemma {:induction false} LastStart(steps: seq<Step>, g: Generation)
    requires After(NOBODY, steps).process == Some(g)
    ensures exists i :: StartedLast(steps, i, g)
  {
    var n := |steps| - 1;
    var o := After(NOBODY, steps[..n]);
    if o.process == Some(g) {
      LastStart(steps[..n], g);
      var i :| StartedLast(steps[..n], i, g);
      forall j | i < j < |steps| ensures After(NOBODY, steps[..j]).process == Some(g) {
        if j < n { assert steps[..n][..j] == steps[..j]; }
      }
      assert StartedLast(steps, i, g);
    } else {
      assert StartedLast(steps, n, g);
    }
  }

  /** An accepted answer was sent by the owner started last, for the very command that is outstanding; no other
      process is alive. */
  lemma AcceptedAnswerIsCurrent(steps: seq<Step>, id: RequestId, arrival: Arrival)
    requires Accepted(After(NOBODY, steps), id, arrival).Ok?
    ensures var o := After(NOBODY, steps); var m := arrival.message;
            && m.requestId == id && o.process == Some(m.generation) && o.alive <= {m.generation}
            && exists i :: StartedLast(steps, i, m.generation)
  {
    OneOwnerAtATime(steps);
    LastStart(steps, arrival.message.generation);
  }

  // ----- The object -----

  class WorkerProcess {
    var generation: Generation
    var connection: bool
    var process: Option<Generation>
    var alive: set<Generation>
    ghost var spawned: seq<Generation>

    ghost function View(): Owner
      reads this
    {
      Owner(generation, connection, process, alive, spawned)
    }

    constructor ()
      ensures View() == NOBODY
    {
      generation, connection, process, alive, spawned := 0, false, None, {}, [];
    }

    method Receive(id: RequestId, arrival: Arrival) returns (answer: Result<Message, Problem>)
      ensures answer == Accepted(View(), id, arrival)
    {
      if !connection { return Err(NoAnswer); }
      match arrival
      case Silence => return Err(NoAnswer);
      case Garbage => return Err(NoAnswer);
      case Came(message) =>
        if message.generation != generation || message.requestId != id { return Err(WrongAnswer); }
        return Ok(message);
    }

    method Exchange(id: RequestId, arrival: Arrival) returns (answer: Result<Message, Problem>)
      ensures answer.Ok? <==> connection && arrival.Came? && arrival.message.generation == generation
                              && arrival.message.requestId == id
      ensures answer.Ok? ==> answer.value == arrival.message
    {
      if !connection { return Err(NotConnected); }
      answer := Receive(id, arrival);
    }

    /** The first message of a new owner answers the command "startup". */
    method Start(name: Generation, startup: RequestId, spawns: bool, arrival: Arrival)
      returns (answer: Result<Message, Problem>)
      modifies this
      ensures View() == Started(old(View()), name, spawns)
      ensures old(process).Some? || old(connection) ==> answer == Err(Unreclaimed)
      ensures answer.Ok? ==> process == Some(name) && name in alive && answer.value.generation == name
    {
      if process.Some? || connection { return Err(Unreclaimed); }
      generation := name;
      connection := true;
      process := Some(name);
      if !spawns { return Err(SpawnFailed); }
      alive := alive + {name};
      spawned := spawned + [name];
      answer := Receive(startup, arrival);
    }

    /** The owner is given up only when it has answered "stop" and is seen to have exited. */
    method Stop(id: RequestId, arrival: Arrival, exits: bool) returns (problem: Option<Problem>)
      requires process.Some? ==> connection
      modifies this
      ensures View() == Halted(old(View()), id, arrival, exits)
      ensures problem.None? ==> process.None? && !connection
                                && (old(process).Some? ==> old(process).value !in alive)
      ensures problem.Some? ==> process == old(process) && connection == old(connection)
    {
      var answer := Exchange(id, arrival);
      if answer.Err? { return Some(answer.error); }
      if process.Some? {
        if exits { alive := alive - {process.value}; }
        if process.value in alive { return Some(StillAlive); }
        process := None;
      }
      connection := false;
      return None;
    }
  }

  // ----- What the executor reports of itself (worker.py:50-57, terminal/executor.py:112-125) -----

  datatype Session = Session(connected: bool, identityMatch: bool, tradingDay: bool)

  class ExecutorHealth {
    var session: Option<Session>
    var disconnected: bool
    var blocked: bool
    var poisoned: bool
    var error: Option<ErrorDetail>

    /** An error is only ever shown by a blocked executor. */
    ghost predicate Valid()
      reads this
    {
      error.Some? ==> blocked
    }

    constructor ()
      ensures Valid()
    {
      session, disconnected, blocked, poisoned, error := None, false, false, false, None;
    }

    method Fail(problem: ErrorDetail)
      requires Valid()
      modifies this`error, this`blocked
      ensures Valid() && blocked && error == Some(problem)
    {
      error := Some(problem);
      blocked := true;
    }

    /** Only a validated session on a terminal that is not poisoned lifts the block. */
    method Resume(validated: Option<Session>, lost: bool, finished: bool) returns (ok: bool)
      requires Valid()
      modifies this
      ensures Valid() && poisoned == old(poisoned)
      ensures ok <==> !poisoned && validated.Some? && finished
      ensures ok ==> !blocked && error.None? && session == validated && !disconnected
      ensures !ok ==> blocked == old(blocked) && error == old(error)
    {
      if poisoned { return false; }
      if validated.None? {
        disconnected := disconnected || lost;
        return false;
      }
      session := validated;
      disconnected := false;
      if !finished { return false; }
      blocked := false;
      error := None;
      return true;
    }

    /** What is reported is honest, and readiness means a connected session of the right account. */
    method Snapshot() returns (state: Bridge.WorkerState)
      requires Valid()
      ensures Bridge.Honest(state)
      ensures state.blocked == blocked && state.error == error && state.ownershipClear == !poisoned
      ensures state.queryReady <==> !blocked && !poisoned && !disconnected
                                    && session.Some? && session.value.connected && session.value.identityMatch
      ensures state.tradingReady <==> state.queryReady && session.value.tradingDay
      ensures state.queryReady ==> state.ownershipClear && state.error.None?
    {
      var ready := session.Some? && session.value.connected && session.value.identityMatch
                   && !disconnected && !blocked && !poisoned;
      state := Bridge.WorkerState(blocked, ready, ready && session.value.tradingDay, !poisoned, error);
    }
  }
}
