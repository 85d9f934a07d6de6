/** What holds the terminal still, and for how long: pauses, failures, cold starts and reconnects, along whole runs. */
module BridgeHolds {
  import opened Base
  import opened Journal
  import opened Execution
  import opened Reconnect
  import opened Bridge
  import opened BridgeQueue
  import opened BridgeEffects
  import opened BridgeRecords
  import opened BridgeControl
  import opened BridgeTheorems

  // ----- Pause -----

  /** The moment `pause` returns without an error (dispatch.py:259-269); it holds the lock then. */
  predicate PauseReturns(s: State) {
    && !Locked(s.c.thread) && s.c.paused && s.jobs.active.None? && !s.c.ownerBusy && s.c.ready
    && !s.c.failed && s.c.state.ownershipClear
  }

  ghost predicate NobodyResumes(moves: seq<Move>) {
    forall i :: 0 <= i < |moves| ==> !Awakens(moves[i])
  }

  lemma {:induction false} StillUntilAwakened(states: seq<State>, moves: seq<Move>, n: nat)
    requires Run(states, moves) && Invariant(states[0]) && Still(states[0]) && n <= |moves| && NobodyResumes(moves)
    ensures Still(states[n]) && states[n].events == states[0].events
    ensures n < |moves| ==> !StartsWork(moves[n])
  {
    RunKeepsInvariant(states, moves, n);
    if n > 0 {
      var k := n - 1;
      StillUntilAwakened(states, moves, k);
      RunKeepsInvariant(states, moves, k);
      assert states[k + 1] == Next(states[k], moves[k]);
      StillStays(states[k], moves[k]);
    }
    if n < |moves| { StillStays(states[n], moves[n]); }
  }

  /** After a pause with no resume pending, nothing starts and the terminal is left alone until someone calls resume
      or the process is restarted. */
  lemma PauseHolds(states: seq<State>, moves: seq<Move>, n: nat)
    requires Run(states, moves) && Reachable(states[0]) && PauseReturns(states[0]) && !states[0].c.resumePending
    requires n < |moves| && NobodyResumes(moves)
    ensures !StartsWork(moves[n]) && states[n + 1].events == states[0].events && !states[n + 1].worker.Running?
  {
    ReachableIsSound(states[0]);
    StillUntilAwakened(states, moves, n);
    StillUntilAwakened(states, moves, n + 1);
  }

  ghost predicate NothingRestarts(moves: seq<Move>) {
    forall i :: 0 <= i < |moves| ==> !(moves[i].ByWorld? && moves[i].world.Restart?)
  }

  lemma {:induction false} CondemnedStays(states: seq<State>, moves: seq<Move>, n: nat)
    requires Run(states, moves) && Condemned(states[0].c) && n <= |moves| && NothingRestarts(moves)
    ensures Condemned(states[n].c)
  {
    hide Next, Can;
    if n > 0 {
      CondemnedStays(states, moves, n - 1);
      assert states[n - 1 + 1] == Next(states[n - 1], moves[n - 1]);
      StepKeepsFlags(states[n - 1], moves[n - 1]);
    }
  }

  lemma {:induction false} GivenUpForGood(states: seq<State>, moves: seq<Move>, k: nat, n: nat)
    requires Run(states, moves) && k <= n <= |moves| && GivenUp(states[k].c) && NothingRestarts(moves)
    ensures GivenUp(states[n].c) && (n < |moves| ==> !StartsWork(moves[n]))
  {
    hide Next, Can;
    if n > k {
      GivenUpForGood(states, moves, k, n - 1);
      assert states[n - 1 + 1] == Next(states[n - 1], moves[n - 1]);
      StepKeepsFlags(states[n - 1], moves[n - 1]);
    }
    if n < |moves| { StepKeepsFlags(states[n], moves[n]); }
  }

  /** Some continuation in which nobody resumes and nothing restarts still starts something. */
  ghost predicate StartsByItself(s: State) {
    exists states, moves, n: nat ::
      Run(states, moves) && states[0] == s && NobodyResumes(moves) && n < |moves| && StartsWork(moves[n])
  }

  ghost predicate OnlyLoops(moves: seq<Move>) {
    forall i :: 0 <= i < |moves| ==> moves[i].ByLoop?
  }

  /** The dispatch thread gets from one state to another on its own. */
  ghost predicate Leads(s: State, t: State) {
    exists states, moves ::
      Run(states, moves) && states[0] == s && states[|moves|] == t && OnlyLoops(moves)
  }

  lemma LeadsNowhere(s: State)
    ensures Leads(s, s)
  {
    var moves: seq<Move> := [];
    assert Run([s], moves) && [s][|moves|] == s;
  }

  lemma RunGrows(states: seq<State>, moves: seq<Move>, m: Move)
    requires Run(states, moves) && Can(states[|moves|], m)
    ensures Run(states + [Next(states[|moves|], m)], moves + [m])
  {
    var longer, more := states + [Next(states[|moves|], m)], moves + [m];
    forall i | 0 <= i < |more| ensures Can(longer[i], more[i]) && longer[i + 1] == Next(longer[i], more[i]) {
      if i < |moves| { assert states[i + 1] == Next(states[i], moves[i]); }
    }
  }

  lemma LeadsOn(s: State, t: State, m: LoopMove)
    requires Leads(s, t) && LoopCan(t, m)
    ensures Leads(s, Loop(t, m))
  {
    var states, moves :| Run(states, moves) && states[0] == s && states[|moves|] == t && OnlyLoops(moves);
    RunGrows(states, moves, ByLoop(m));
    var longer, more := states + [Loop(t, m)], moves + [ByLoop(m)];
    assert longer[0] == s && longer[|more|] == Loop(t, m);
    assert OnlyLoops(more);
  }

  /** What stays the same while the dispatch thread empties the queue. */
  predicate Emptying(s: State, t: State) {
    && t.c.thread == s.c.thread && t.c.state.blocked == s.c.state.blocked
        && t.c.state.queryReady == s.c.state.queryReady
    && t.c.desktop == s.c.desktop && t.c.resumePending == s.c.resumePending && t.c.failed == s.c.failed
  }

  lemma {:induction false} QueueEmpties(s: State, t: State) returns (u: State)
    requires Leads(s, t) && t.c.thread == Updating && (t.c.state.blocked || !t.c.state.queryReady)
    ensures Leads(s, u) && Emptying(t, u) && u.jobs.queue == []
    decreases |t.jobs.queue|
  {
    hide Leads;
    if t.jobs.queue == [] {
      u := t;
    } else {
      var drain := Drain(Good);
      LeadsOn(s, t, drain);
      u := QueueEmpties(s, Loop(t, drain));
    }
  }

  /** The dispatch thread comes from the top of its loop to its choice. */
  lemma LoopComesToChoice(s: State) returns (u: State)
    requires s.c.thread == Looping && !s.c.failed && !s.c.stopping
    ensures Leads(s, u) && u.c.thread == Choosing && u.c.resumePending == s.c.resumePending
  {
    hide Leads;
    LeadsNowhere(s);
    LeadsOn(s, s, Look);
    var t := Loop(s, Look);
    if t.c.desktop.Some? {
      LeadsOn(s, t, NoteDesktop);
      t := Loop(t, NoteDesktop);
    }
    u := UpdateComesToChoice(s, t);
  }

  lemma UpdateComesToChoice(s: State, t: State) returns (u: State)
    requires Leads(s, t) && t.c.thread == Updating && !t.c.failed && (t.c.desktop.Some? ==> t.c.state.blocked)
    ensures Leads(s, u) && u.c.thread == Choosing && u.c.resumePending == t.c.resumePending
  {
    hide Leads;
    var e := t;
    if MustDrain(t.c) { e := QueueEmpties(s, t); }
    LeadsOn(s, e, UpdateRecovery);
    u := Loop(e, UpdateRecovery);
  }

  lemma PendingResumeStarts(s: State)
    requires s.c.thread == Looping && !s.c.failed && !s.c.stopping && s.c.resumePending
    ensures StartsByItself(s)
  {
    var u := LoopComesToChoice(s);
    var states, moves :| Run(states, moves) && states[0] == s && states[|moves|] == u && OnlyLoops(moves);
    RunGrows(states, moves, ByLoop(StartRecheck));
    var longer, more := states + [Loop(u, StartRecheck)], moves + [ByLoop(StartRecheck)];
    assert longer[0] == s && NobodyResumes(more) && StartsWork(more[|moves|]);
  }

  lemma RunPrepends(s: State, m: Move, states: seq<State>, moves: seq<Move>)
    requires Can(s, m) && Run(states, moves) && states[0] == Next(s, m)
    ensures Run([s] + states, [m] + moves)
  {
    var longer, more := [s] + states, [m] + moves;
    forall i | 0 <= i < |more| ensures Can(longer[i], more[i]) && longer[i + 1] == Next(longer[i], more[i]) {
      if i > 0 { assert states[i - 1 + 1] == Next(states[i - 1], moves[i - 1]); }
    }
  }

  lemma StartsAfterEntering(s: State)
    requires LoopCan(s, EnterLoop) && StartsByItself(Loop(s, EnterLoop))
    ensures StartsByItself(s)
  {
    hide Loop, Caller, World, Work, Exchange, LoopCan, CallerCan, WorkCan, ExchangeCan;
    var states, moves, n: nat :| Run(states, moves) && states[0] == Loop(s, EnterLoop) && NobodyResumes(moves)
                                 && n < |moves| && StartsWork(moves[n]);
    RunPrepends(s, ByLoop(EnterLoop), states, moves);
    var longer, more := [s] + states, [ByLoop(EnterLoop)] + moves;
    assert longer[0] == s && NobodyResumes(more) && StartsWork(more[n + 1]);
  }

  /** A pause protects the terminal exactly when no resume is pending or the dispatch thread is leaving: `pause` does
      not wait for a pending resume, and its recheck then starts without anybody asking again. */
  lemma PauseHoldsExactly(s: State)
    requires Reachable(s) && PauseReturns(s)
    ensures StartsByItself(s) <==> s.c.resumePending && !s.c.stopping && s.c.thread in {Booted, Looping}
  {
    ReachableIsSound(s);
    if StartsByItself(s) {
      var states, moves, n: nat :| Run(states, moves) && states[0] == s && NobodyResumes(moves)
                                   && n < |moves| && StartsWork(moves[n]);
      if !s.c.resumePending { PauseHolds(states, moves, n); }
      if s.c.stopping || s.c.thread !in {Booted, Looping} {
        assert GivenUp(s.c);
        GivenUpForGood(states, moves, 0, n);
      }
    }
    if s.c.resumePending && !s.c.stopping {
      if s.c.thread == Looping { PendingResumeStarts(s); }
      if s.c.thread == Booted {
        PendingResumeStarts(Loop(s, EnterLoop));
        StartsAfterEntering(s);
      }
    }
  }

  // ----- Failure -----

  /** A service that failed or is told to stop while the dispatch thread is outside its section starts nothing more
      until the process is restarted. */
  lemma FailureIsFinal(states: seq<State>, moves: seq<Move>, n: nat)
    requires Run(states, moves) && GivenUp(states[0].c) && n < |moves| && NothingRestarts(moves)
    ensures !StartsWork(moves[n])
  {
    GivenUpForGood(states, moves, 0, n);
  }

  /** In any case, from the moment it failed or was told to stop, it starts at most one more thing on the whole run, and
      only if that moment lies inside the section. */
  lemma FailureAllowsOneStart(states: seq<State>, moves: seq<Move>, i: nat, n: nat)
    requires Run(states, moves) && Condemned(states[0].c) && NothingRestarts(moves)
    requires i <= n < |moves| && StartsWork(moves[i])
    ensures Locked(states[0].c.thread) && (i < n ==> !StartsWork(moves[n]))
  {
    hide Next, Can;
    if !Locked(states[0].c.thread) { GivenUpForGood(states, moves, 0, i); }
    CondemnedStays(states, moves, i + 1);
    assert states[i + 1] == Next(states[i], moves[i]);
    StepKeepsFlags(states[i], moves[i]);
    if i < n { GivenUpForGood(states, moves, i + 1, n); }
  }

  /** A failed service starts something exactly when it failed inside this very section, past the look at the flag,
      and a resume is pending or neither a pause nor a blocked executor holds it back. */
  lemma FailureHoldsExactly(s: State)
    requires Reachable(s) && s.c.failed
    ensures (exists m :: Can(s, m) && StartsWork(m))
            <==> s.c.thread == Choosing && (s.c.resumePending || (!s.c.paused && !s.c.state.blocked))
  {
    ReachableIsSound(s);
    if s.c.thread == Choosing {
      var next := if s.c.resumePending then StartRecheck else if s.jobs.queue == [] then StartProbe else StartExecute;
      if s.c.resumePending || (!s.c.paused && !s.c.state.blocked) {
        assert Can(s, ByLoop(next)) && StartsWork(ByLoop(next));
      }
    }
  }

  /** The service fails while the dispatch thread is inside the section, past its look at the flag. */
  predicate FailedInside(c: Control) {
    c.failed && Locked(c.thread)
  }

  /** The dispatch thread itself turns a write away there, and its record cannot be closed. */
  predicate LosesRecordInside(s: State, m: LoopMove) {
    && Locked(s.c.thread) && (m.Drain? || m.Expire?) && m.store != Good
    && var position := if m.Drain? then 0 else m.position;
       position < |s.jobs.queue| && s.jobs.queue[position].operation.Writes()
  }

  lemma LoopFailsInside(s: State, m: LoopMove)
    requires LoopCan(s, m) && !FailedInside(s.c)
    ensures FailedInside(Loop(s, m).c) <==> LosesRecordInside(s, m)
  {
    match m
    case EnterLoop =>
    case Look =>
    case NoteDesktop =>
    case Drain(_) =>
    case UpdateRecovery =>
    case Expire(_, _, _) =>
    case StartExecute =>
    case StartProbe =>
    case StartRecheck =>
    case StartRestore =>
    case Wait =>
    case Settle =>
    case BreakLoop =>
    case ThreadEnds =>
  }

  lemma WorldStaysOutside(s: State, m: WorldMove)
    requires WorldCan(m) && !FailedInside(s.c)
    ensures !FailedInside(World(s, m).c)
  {
  }

  /** A failure inside the section arises in no other way; in particular never from a caller's cancellation, which
      cannot run there. */
  lemma FailuresInsideAreLostRecords(s: State, m: Move)
    requires Can(s, m) && !FailedInside(s.c)
    ensures FailedInside(Next(s, m).c) <==> m.ByLoop? && LosesRecordInside(s, m.loop)
  {
    hide World, Caller, Work, Loop, Exchange;
    match m
    case ByWorld(w) => WorldStaysOutside(s, w);
    case ByCaller(c) => CallerKeepsThread(s, c);
    case ByWorker(w) => OutsidersKeepControl(s, m);
    case ByLoop(l) => LoopFailsInside(s, l);
    case ByExchange(e) => ExchangeKeepsFlags(s, e);
  }

  // ----- Cold start -----

  lemma TailIsRun(states: seq<State>, moves: seq<Move>)
    requires Run(states, moves) && moves != []
    ensures Run(states[1..], moves[1..])
  {
    forall i | 0 <= i < |moves[1..]|
      ensures Can(states[1..][i], moves[1..][i]) && states[1..][i + 1] == Next(states[1..][i], moves[1..][i])
    {
      assert states[i + 1 + 1] == Next(states[i + 1], moves[i + 1]);
    }
  }

  lemma RestartIsStill(s: State, m: WorldMove)
    requires WorldCan(m) && m.Restart? && UnknownIds(World(s, m).rows, World(s, m).namespace) != {}
    ensures Still(World(s, m)) && World(s, m).events == s.events
  {
  }

  /** A restart that finds an unknown record starts nothing until someone calls resume. */
  lemma ColdStartIsHeld(states: seq<State>, moves: seq<Move>, n: nat)
    requires Run(states, moves) && Reachable(states[0])
    requires moves != [] && moves[0].ByWorld? && moves[0].world.Restart?
    requires UnknownIds(states[1].rows, states[1].namespace) != {}
    requires 1 <= n < |moves| && NobodyResumes(moves[1..])
    ensures !StartsWork(moves[n]) && states[n].events == states[0].events
  {
    hide World, Caller, Work, Loop, Exchange, Sound, Invariant, Still, CallerCan, WorkCan, LoopCan, ExchangeCan;
    ReachableIsSound(states[0]);
    RunKeepsInvariant(states, moves, 1);
    assert states[0 + 1] == Next(states[0], moves[0]);
    RestartIsStill(states[0], moves[0].world);
    TailIsRun(states, moves);
    StillUntilAwakened(states[1..], moves[1..], n - 1);
  }

  // ----- Reconnect -----

  /** A reconnect begins only unpaused, with no failure, with the terminal's ownership clear, with a connection error as
      the latest observation, with no unknown record in the journal and with nothing queued. */
  lemma RestoreIsSafe(s: State)
    requires Reachable(s) && LoopCan(s, StartRestore)
    ensures !s.c.paused && !s.c.failed && s.c.state.ownershipClear && s.c.plan.enabled
    ensures IsConnectionError(s.c.state.error) && s.c.plan.observed == Some(Observation(s.c.state.error, true))
    ensures UnknownIds(s.rows, s.namespace) == {} && s.jobs.queue == [] && s.jobs.active.None?
  {
    ReachableIsSound(s);
  }

  /** While a reconnect is under way nothing is admitted and nothing runs. */
  lemma RestoreIsExclusive(s: State)
    requires Reachable(s) && s.c.thread == Busy(Restore)
    ensures s.c.plan.state == Reconnecting && !s.worker.Running? && s.jobs.active.None?
    ensures forall m :: Can(s, m) ==> !StartsWork(m)
  {
    ReachableIsSound(s);
  }

  /** The dispatch thread lets the timer observe. */
  predicate Observes(m: Move) {
    m == ByLoop(UpdateRecovery) || m == ByLoop(LoopMove.Settle)
  }

  /** Move j saw a connection error on a safe terminal and set the timer; nothing has touched the timer since. */
  ghost predicate TimerSetAt(states: seq<State>, moves: seq<Move>, j: nat, n: nat) {
    && j < n < |states| && j < |moves| && Observes(moves[j])
    && Safe(states[j].c) && IsConnectionError(LatestError(states[j].c))
    && states[n].c.plan.deadline == Some(states[j].now + states[n].c.plan.interval as real)
    && forall i :: j < i <= n ==> states[i].c.plan == states[n].c.plan
  }

  lemma OnlyObservationsSet(s: State, m: Move)
    requires PlanOk(s.c) && Can(s, m) && Next(s, m).c.plan.deadline.Some?
    ensures Next(s, m).c.plan == s.c.plan || (Observes(m) && Next(s, m).c.plan == ObservedPlan(s.c, s.now))
  {
    hide World, Caller, Work, Loop, Exchange, LoopCan, CallerCan, ExchangeCan, PlanOk;
    match m
    case ByWorld(w) => WorldKeepsTimer(s, w);
    case ByCaller(c) => CallerKeepsTimer(s, c);
    case ByWorker(w) => OutsidersKeepControl(s, m);
    case ByLoop(l) => LoopSets(s, l);
    case ByExchange(e) => ExchangeKeepsTimer(s, e);
  }

  lemma WorldKeepsTimer(s: State, m: WorldMove)
    requires WorldCan(m) && World(s, m).c.plan.deadline.Some?
    ensures World(s, m).c.plan == s.c.plan
  {
  }

  lemma CallerKeepsTimer(s: State, m: CallerMove)
    requires CallerCan(s, m)
    ensures Caller(s, m).c.plan == s.c.plan
  {
    hide FinishedRows, FinishedJobs, RefusalReply, UnknownIds, RemoveAt, Lookup, Admitted;
    match m
    case Submit(_, _, _, _, _) =>
    case Withdraw(_, _, _) =>
    case PauseCall =>
    case ResumeCall =>
    case StopCall =>
  }

  lemma AdoptionKeepsTimer(s: State, state: WorkerState)
    ensures Adopted(s, state).c.plan == s.c.plan
  {
  }

  lemma TaskKeepsTimer(s: State)
    ensures TaskFinished(s).c.plan == s.c.plan
  {
  }

  lemma InterruptKeepsTimer(s: State, store: Store)
    requires s.jobs.active.Some?
    ensures Interrupted(s, store).c.plan == s.c.plan
  {
    hide InterruptReply;
  }

  lemma ReceiptKeepsTimer(s: State, store: Store)
    requires s.jobs.active.Some? && s.worker.Answered?
    ensures Received(s, store).c.plan == s.c.plan
  {
    hide FinishedRows, FinishedJobs, UnknownIds;
  }

  lemma ConclusionKeepsTimer(s: State, store: Store)
    requires s.jobs.active.Some? && s.jobs.interrupted.Some?
    ensures Concluded(s, store).c.plan == s.c.plan
  {
    hide FinishedRows, FinishedJobs, UnknownIds;
  }

  lemma ExchangeKeepsTimer(s: State, m: ExchangeMove)
    requires ExchangeCan(s, m)
    ensures Exchange(s, m).c.plan == s.c.plan
  {
    hide Received, Concluded, Interrupted, Adopted, TaskFinished, Broken;
    match m
    case WorkerUp(_) =>
    case BootFails =>
    case Adopt(state) => AdoptionKeepsTimer(s, state);
    case Receive(store) => ReceiptKeepsTimer(s, store);
    case TaskDone => TaskKeepsTimer(s);
    case RestoreAborted =>
    case ExchangeFails(_) =>
    case Interrupt(store) => InterruptKeepsTimer(s, store);
    case Conclude(store) => if s.jobs.active.Some? { ConclusionKeepsTimer(s, store); }
  }

  lemma LoopSets(s: State, m: LoopMove)
    requires PlanOk(s.c) && LoopCan(s, m) && Loop(s, m).c.plan.deadline.Some?
    ensures Loop(s, m).c.plan == s.c.plan || (Observes(ByLoop(m)) && Loop(s, m).c.plan == ObservedPlan(s.c, s.now))
  {
    hide ObservedPlan, PlanOk;
    match m
    case EnterLoop =>
    case Look =>
    case NoteDesktop =>
    case Drain(_) =>
    case UpdateRecovery =>
    case Expire(_, _, _) =>
    case StartExecute =>
    case StartProbe =>
    case StartRecheck =>
    case StartRestore =>
    case Wait =>
    case Settle =>
    case BreakLoop =>
    case ThreadEnds =>
  }

  lemma StepOfRun(states: seq<State>, moves: seq<Move>, k: nat)
    requires Run(states, moves) && Begins(states[0]) && k < |moves|
    ensures |states| == |moves| + 1
    ensures Can(states[k], moves[k]) && states[k + 1] == Next(states[k], moves[k]) && PlanOk(states[k].c)
  {
    StartIsSound(states[0]);
    RunKeepsInvariant(states, moves, k);
  }

  /** A timer that an observation has just set was set for a connection error on a safe terminal. */
  lemma ObservationSets(c: Control, now: Time)
    requires PlanOk(c) && ObservedPlan(c, now).deadline.Some? && ObservedPlan(c, now) != c.plan
    ensures Safe(c) && IsConnectionError(LatestError(c))
    ensures ObservedPlan(c, now).deadline == Some(now + ObservedPlan(c, now).interval as real)
  {
  }

  lemma {:induction false} TimerHasOrigin(states: seq<State>, moves: seq<Move>, n: nat)
    requires Run(states, moves) && Begins(states[0]) && n <= |moves| && states[n].c.plan.deadline.Some?
    ensures exists j: nat :: TimerSetAt(states, moves, j, n)
  {
    hide Can, Next, PlanOk, ObservedPlan, Begins;
    NoTimerAtStart(states[0]);
    if n > 0 {
      var k := n - 1;
      StepOfRun(states, moves, k);
      OnlyObservationsSet(states[k], moves[k]);
      if states[n].c.plan == states[k].c.plan {
        TimerHasOrigin(states, moves, k);
        var j: nat :| TimerSetAt(states, moves, j, k);
        assert TimerSetAt(states, moves, j, n);
      } else {
        ObservationSets(states[k].c, states[k].now);
        assert TimerSetAt(states, moves, k, n);
      }
    }
  }

  lemma NoTimerAtStart(s: State)
    requires Begins(s)
    ensures s.c.plan.deadline.None?
  {
  }

  /** Along every run a reconnect begins at least one interval after the observation that scheduled it: a connection
      error on a terminal safe to act on, which no later observation has contradicted. */
  lemma RestoreWaitsItsInterval(states: seq<State>, moves: seq<Move>, k: nat)
    requires Run(states, moves) && Begins(states[0]) && k < |moves| && moves[k] == ByLoop(StartRestore)
    ensures exists j: nat :: TimerSetAt(states, moves, j, k)
                             && states[k].now >= states[j].now + states[k].c.plan.interval as real
  {
    assert Can(states[k], moves[k]);
    TimerHasOrigin(states, moves, k);
  }

  // ----- An answer that was heard -----

  predicate Hears(s: State, reply: Reply) {
    s.c.thread == Busy(Execute) && s.jobs.active.Some? && s.worker == Answered(reply, true)
  }

  lemma ExchangeKeepsAnswer(s: State, m: ExchangeMove, reply: Reply)
    requires Hears(s, reply) && ExchangeCan(s, m)
    ensures m.Receive? || m.ExchangeFails?
    ensures var t := Exchange(s, m); var job := s.jobs.active.value;
            m.Receive? && job.id !in s.jobs.futures ==>
              t.jobs.futures == s.jobs.futures[job.id := Delivered(job, reply, m.store)]
  {
  }

  lemma LoopWaitsForAnswer(s: State, m: LoopMove, reply: Reply)
    requires Hears(s, reply)
    ensures !LoopCan(s, m)
  {
  }

  lemma CallerKeepsAnswer(s: State, m: CallerMove, reply: Reply)
    requires Hears(s, reply) && CallerCan(s, m)
    ensures Hears(Caller(s, m), reply) && Caller(s, m).jobs.active == s.jobs.active
  {
  }

  /** Once the dispatcher has adopted the state that came with an answer, the answer cannot get lost: whatever
      happens next, it stays until it is received, and then it is what the caller gets; only a restart, or a failure
      of the exchange, can come in between. */
  lemma HeardAnswerIsDelivered(s: State, m: Move, reply: Reply)
    requires Reachable(s) && Hears(s, reply) && Can(s, m) && !(m.ByWorld? && m.world.Restart?)
    ensures var t := Next(s, m); var job := s.jobs.active.value;
            || (Hears(t, reply) && t.jobs.active == s.jobs.active)
            || (m.ByExchange? && m.exchange.Receive? && job.id in t.jobs.futures
                && t.jobs.futures[job.id] == Delivered(job, reply, m.exchange.store))
            || (m.ByExchange? && m.exchange.ExchangeFails?)
  {
    ReachableIsSound(s);
    match m
    case ByWorld(w) => assert Hears(World(s, w), reply) && World(s, w).jobs == s.jobs;
    case ByCaller(c) => CallerKeepsAnswer(s, c, reply);
    case ByWorker(w) => assert false;
    case ByLoop(l) => LoopWaitsForAnswer(s, l, reply);
    case ByExchange(e) => ExchangeKeepsAnswer(s, e, reply);
  }
}
