/** Where the guarantees end.  When an exchange times out while the executor is still running, the dispatcher reads the
    record, then closes it in a second transaction; a save of the executor in between, or its own final reply after it,
    is enough to lower an effect, to rewrite a finished record and to make a replay differ from the caller's answer.
 */
module BridgeLimits {
  import opened Base
  import opened Journal
  import opened Execution
  import opened Reconnect
  import opened Bridge
  import opened BridgeControl
  import opened BridgeTheorems
  import opened BridgeHolds
  import opened BridgeUnknown

  const ORDER := Operation(Gfd, 1)
  const READY := WorkerState(false, true, true, true, None)
  const JOB := Job(0, ORDER, Some(7), 0, 60.0)

  function OrderRow(phase: Phase, effect: Effect): Row {
    Row(0, ORDER, Some(7), phase, effect, NO_FACTS, None, 0.0)
  }

  /** An order is being executed; nothing else has ever happened. */
  ghost predicate Working(s: State, pc: Pc, phase: Phase, effect: Effect) {
    && Reachable(s) && s.now == 0.0 && s.namespace == 0 && s.rows == map[0 := OrderRow(phase, effect)]
    && s.jobs.active == Some(JOB) && s.jobs.interrupted.None? && s.jobs.futures == map[]
    && s.c.thread == Busy(Execute) && s.c.clean && !s.c.abandoned
    && s.worker == Running(Exec(0, Gfd, pc, effect, NO_FACTS))
  }

  lemma AProcessIsReady() returns (s: State)
    ensures Reachable(s) && s.now == 0.0 && s.namespace == 0 && s.rows == map[] && s.jobs == NO_JOBS && s.capacity == 4
    ensures s.c == FreshControl(0, Initial(true, 600)).(state := READY, ready := true, thread := Looping)
            && s.used == {}
  {
    var s0 := Start(100.0, 4, 0, true, 600);
    ReachStart(s0);
    ReachStep(s0, ByExchange(WorkerUp(READY)));
    var s1 := Exchange(s0, WorkerUp(READY));
    ReachStep(s1, ByLoop(EnterLoop));
    s := Loop(s1, EnterLoop);
  }

  /** The dispatch thread looks at a situation in which everything is in order. */
  lemma ComeToChoice(s: State) returns (t: State)
    requires Reachable(s) && s.c.thread == Looping && !s.c.stopping && !s.c.failed && s.c.desktop.None?
             && s.c.state == READY
    requires s.c.plan == Initial(true, 600) && s.c.unresolved == 0
    ensures Reachable(t) && t == s.(c := t.c)
    ensures t.c == s.c.(thread := Choosing, plan := t.c.plan) && t.c.plan.deadline.None?
  {
    ReachStep(s, ByLoop(Look));
    var looked := Loop(s, Look);
    ReachStep(looked, ByLoop(UpdateRecovery));
    t := Loop(looked, UpdateRecovery);
  }

  lemma AnOrderStarts() returns (s: State)
    ensures Working(s, Pc.Begin, Queued, Nothing)
  {
    var s2 := AProcessIsReady();
    var submit := Submit(0, ORDER, Some(7), 60.0, Good);
    assert forall id :: !Holds(s2.rows, id, 0, 7);
    ReachStep(s2, ByCaller(submit));
    var s3 := ComeToChoice(Caller(s2, submit));
    ReachStep(s3, ByLoop(StartExecute));
    s := Loop(s3, StartExecute);
  }

  /** The executor takes one edge and its save, if any, succeeds. */
  lemma Advance(s: State, pc: Pc, phase: Phase, effect: Effect, edge: Edge) returns (t: State)
    requires Working(s, pc, phase, effect) && edge in Edges(Gfd, pc)
    ensures Working(t, edge.target, if edge.work.Save? then edge.work.phase else phase, SavedEffect(edge.work, effect))
    ensures t.events == if edge.work.Act? then s.events + multiset{Event(0, edge.work.action)} else s.events
  {
    var move := Follow(edge, NO_FACTS, Good);
    ReachStep(s, ByWorker(move));
    t := Work(s, move);
  }

  lemma AnOrderIsImported() returns (s: State)
    ensures Working(s, Imported, Step("importing"), Unknown) && Event(0, Import) in s.events
  {
    s := AnOrderStarts();
    s := Advance(s, Pc.Begin, Queued, Nothing, Edge(Save(Started, Nothing), Prepared));
    s := Advance(s, Prepared, Started, Nothing, Edge(Save(Step("importing"), Unknown), Importing));
    s := Advance(s, Importing, Step("importing"), Unknown, Edge(Act(Import), Imported));
  }

  /** The order is sent: Alt+Q was pressed once and its reference captured. */
  lemma AnOrderIsSent() returns (s: State)
    ensures Working(s, Captured, Step("identity_captured"), Unknown)
    ensures Event(0, Import) in s.events && Event(0, SendKey) in s.events
  {
    s := AnOrderIsImported();
    s := Advance(s, Imported, Step("importing"), Unknown, Edge(Save(Step("parameters_verified"), Nothing), Verified));
    s := Advance(s, Verified, Step("parameters_verified"), Unknown,
                 Edge(Save(Step("submitting"), Unknown), Submitting));
    s := Advance(s, Submitting, Step("submitting"), Unknown, Edge(Act(SendKey), Pressed));
    s := Advance(s, Pressed, Step("submitting"), Unknown, Edge(Save(Step("identity_captured"), Nothing), Captured));
  }

  /** The exchange times out, the dispatcher reads the record, and only then the executor saves "submitted". */
  ghost predicate Raced(s: State) {
    && Reachable(s) && s.now == 0.0 && s.namespace == 0 && s.rows == map[0 := OrderRow(Step("submitted"), Submitted)]
    && s.jobs.active == Some(JOB) && s.jobs.futures == map[]
    && s.jobs.interrupted == Some(Reply(0, 502, Unknown, OperationStatusUnknown, NO_FACTS))
    && s.c.thread == Failing && s.c.clean && s.c.abandoned
    && s.worker == Running(Exec(0, Gfd, Returned, Submitted, NO_FACTS))
  }

  ghost predicate Interrupting(s: State) {
    && Reachable(s) && s.now == 0.0 && s.namespace == 0
    && s.rows == map[0 := OrderRow(Step("identity_captured"), Unknown)]
    && s.jobs.active == Some(JOB) && s.jobs.futures == map[]
    && s.jobs.interrupted == Some(Reply(0, 502, Unknown, OperationStatusUnknown, NO_FACTS))
    && s.c.thread == Failing && s.c.clean && s.c.abandoned
    && s.worker == Running(Exec(0, Gfd, Captured, Unknown, NO_FACTS))
  }

  lemma AnOrderIsInterrupted() returns (s: State)
    ensures Interrupting(s)
  {
    s := AnOrderIsSent();
    ReachStep(s, ByExchange(ExchangeFails(false)));
    s := Exchange(s, ExchangeFails(false));
    ReachStep(s, ByExchange(Interrupt(Good)));
    s := Exchange(s, Interrupt(Good));
  }

  lemma ARaceHappens() returns (s: State)
    ensures Raced(s)
  {
    s := AnOrderIsInterrupted();
    var move := Follow(Edge(Save(Step("submitted"), Submitted), Returned), NO_FACTS, Good);
    ReachStep(s, ByWorker(move));
    s := Work(s, move);
  }

  /** The effect on record falls from submitted back to unknown. */
  lemma AnEffectCanFall()
    ensures exists s, m, id :: Reachable(s) && s.c.clean && Can(s, m) && id in s.rows && id in Next(s, m).rows
                               && s.rows[id].effect == Submitted && Next(s, m).rows[id].effect == Unknown
  {
    var s := ARaceHappens();
    var m := ByExchange(Conclude(Good));
    assert Can(s, m) && Next(s, m).rows[0].effect == Unknown;
  }

  /** The dispatcher has closed the request as unknown, and the executor comes to the end of its work. */
  lemma AStrayIsAboutToFinish() returns (s: State)
    ensures Reachable(s) && s.c.clean && 0 in s.rows && 0 !in s.jobs.open
    ensures s.rows[0].phase == Finished && s.rows[0].effect == Unknown
    ensures s.worker == Running(Exec(0, Gfd, Succeeded, Submitted, NO_FACTS))
    ensures s.jobs.futures == map[0 := Reply(0, 502, Unknown, OperationStatusUnknown, NO_FACTS)]
  {
    s := ARaceHappens();
    ReachStep(s, ByExchange(Conclude(Good)));
    s := Exchange(s, Conclude(Good));
    var quiet := Follow(Edge(Quiet, Succeeded), NO_FACTS, Good);
    ReachStep(s, ByWorker(quiet));
    s := Work(s, quiet);
  }

  /** A finished unknown record is rewritten, and a repeated request is then told something the first caller was not. */
  lemma AFinishedRecordCanChange()
    ensures exists s, m, id :: Reachable(s) && s.c.clean && Can(s, m) && id in s.rows && id in Next(s, m).rows
                               && s.rows[id].phase == Finished && s.rows[id].effect == Unknown && id !in s.jobs.open
                               && Next(s, m).rows[id].effect == Submitted
                               && id in Next(s, m).jobs.futures
                               && Next(s, m).rows[id].reply != Some(Next(s, m).jobs.futures[id])
  {
    var s := AStrayIsAboutToFinish();
    var m := ByWorker(FinishWork(500, true, Good));
    assert Can(s, m) && Next(s, m).rows[0].reply == Some(Reply(0, 202, Submitted, Accepted, NO_FACTS));
  }

  lemma AnOrderIsSubmittedAndLost() returns (s: State)
    ensures Reachable(s) && s.now == 0.0 && s.namespace == 0
            && s.rows == map[0 := OrderRow(Step("submitted"), Submitted)]
    ensures s.jobs.active == Some(JOB) && s.jobs.interrupted.None? && s.c.thread == Failing && !s.c.abandoned
  {
    var sent := AnOrderIsSent();
    var done := Advance(sent, Captured, Step("identity_captured"), Unknown,
                        Edge(Save(Step("submitted"), Submitted), Returned));
    ReachStep(done, ByExchange(ExchangeFails(true)));
    s := Exchange(done, ExchangeFails(true));
  }

  /** The same fall without a running executor, when reading the record back fails: the storage error reports unknown
      and, with the journal writable again, replaces a submitted effect. */
  lemma AFailedReadCanLowerAnEffect()
    ensures exists s, m, id :: Reachable(s) && !s.c.abandoned && Can(s, m) && id in s.rows && id in Next(s, m).rows
                               && s.rows[id].effect == Submitted && Next(s, m).rows[id].effect == Unknown
  {
    var s := AnOrderIsSubmittedAndLost();
    ReachStep(s, ByExchange(Interrupt(RolledBack)));
    s := Exchange(s, Interrupt(RolledBack));
    var m := ByExchange(Conclude(Good));
    assert Can(s, m) && Next(s, m).rows[0].effect == Unknown;
  }

  lemma TwoOrdersWait() returns (s: State)
    ensures Reachable(s) && |s.jobs.queue| == 2 && (forall i :: 0 <= i < 2 ==> s.jobs.queue[i].operation == ORDER)
    ensures s.c == FreshControl(0, Initial(true, 600)).(state := READY, ready := true, thread := Looping)
  {
    var empty := AProcessIsReady();
    var first, second := Submit(0, ORDER, Some(7), 60.0, Good), Submit(1, ORDER, Some(8), 60.0, Good);
    assert forall id :: !Holds(empty.rows, id, 0, 7);
    ReachStep(empty, ByCaller(first));
    var one := Caller(empty, first);
    assert forall id :: !Holds(one.rows, id, 0, 8);
    ReachStep(one, ByCaller(second));
    s := Caller(one, second);
  }

  /** A cancelled request that the dispatch thread turns away before it chooses loses its record; the service has
      failed, and still the next request starts. */
  lemma AFailureLetsTheNextRequestStart()
    ensures exists s, m :: Reachable(s) && s.c.failed && Can(s, m) && m == ByLoop(StartExecute)
                           && s.jobs.queue[0].operation.Writes()
  {
    var waiting := TwoOrdersWait();
    var chosen := ComeToChoice(waiting);
    var drop := Expire(0, false, RolledBack);
    ReachStep(chosen, ByLoop(drop));
    var s := Loop(chosen, drop);
    assert s.c.failed && Can(s, ByLoop(StartExecute));
  }

  // ----- An answer that leaves the effect unknown -----

  lemma ASentOrderRaises() returns (s: State)
    ensures Working(s, Raised, Step("identity_captured"), Unknown)
  {
    var sent := AnOrderIsSent();
    ReachStep(sent, ByWorker(Raise));
    s := Work(sent, Raise);
  }

  /** The executor raises after the order was sent, and answers; with the answer it says that it is blocked. */
  lemma AnUnknownAnswerArrives()
    ensures exists s, state :: Reachable(s) && s.c.thread == Busy(Execute) && LeftUnknown(s.worker)
                               && Can(s, ByExchange(Adopt(state)))
  {
    var raised := ASentOrderRaises();
    var finish := FinishWork(502, true, Good);
    ReachStep(raised, ByWorker(finish));
    var s := Work(raised, finish);
    assert LeftUnknown(s.worker) && Can(s, ByExchange(Adopt(WorkerState(true, false, false, true, None))));
  }

  // ----- A pause that does not hold -----

  lemma APauseReturnsTooEarly() returns (s: State)
    ensures Reachable(s) && PauseReturns(s) && s.c.resumePending && s.c.thread == Looping
    ensures s.c == FreshControl(0, Initial(true, 600)).(state := READY, ready := true, thread := Looping,
                                                        paused := true, resumePending := true)
  {
    var ready := AProcessIsReady();
    ReachStep(ready, ByCaller(ResumeCall));
    var asked := Caller(ready, ResumeCall);
    ReachStep(asked, ByCaller(PauseCall));
    s := Caller(asked, PauseCall);
  }

  /** A run is continued by one move. */
  lemma GoOn(states: seq<State>, moves: seq<Move>, m: Move) returns (longer: seq<State>)
    requires Run(states, moves) && Can(states[|moves|], m)
    ensures |longer| == |moves| + 2 && Run(longer, moves + [m])
    ensures longer[0] == states[0] && longer[|moves| + 1] == Next(states[|moves|], m)
  {
    RunGrows(states, moves, m);
    longer := states + [Next(states[|moves|], m)];
  }

  const CHOICE: seq<Move> := [ByLoop(Look), ByLoop(UpdateRecovery)]
  const RECHECK: seq<Move> := CHOICE + [ByLoop(StartRecheck)]
  const UNDONE: seq<Move> := RECHECK + [ByExchange(Adopt(READY))] + [ByExchange(TaskDone)] + [ByLoop(LoopMove.Settle)]

  lemma APendingRecheckStarts() returns (states: seq<State>)
    ensures |states| == 4 && Run(states, RECHECK) && Reachable(states[0]) && PauseReturns(states[0])
    ensures states[3].c.thread == Busy(Recheck) && states[3].c.desktop.None? && !states[3].c.failed
  {
    var s := APauseReturnsTooEarly();
    states := [s];
    states := GoOn(states, [], ByLoop(Look));
    states := GoOn(states, [ByLoop(Look)], ByLoop(UpdateRecovery));
    assert [ByLoop(Look)] + [ByLoop(UpdateRecovery)] == CHOICE;
    states := GoOn(states, CHOICE, ByLoop(StartRecheck));
  }

  lemma APendingRecheckEnds() returns (states: seq<State>)
    ensures |states| == 6 && Run(states, RECHECK + [ByExchange(Adopt(READY))] + [ByExchange(TaskDone)])
    ensures Reachable(states[0]) && PauseReturns(states[0])
    ensures states[5].c.thread == Settling && Settled(states[5]) && !states[5].c.paused
  {
    var started := APendingRecheckStarts();
    hide Run, Reachable, PauseReturns;
    var adopted := GoOn(started, RECHECK, ByExchange(Adopt(READY)));
    states := GoOn(adopted, RECHECK + [ByExchange(Adopt(READY))], ByExchange(TaskDone));
  }

  /** A pause that returned with a resume pending: the recheck uses the terminal, and at its end the pause is gone,
      although nobody called resume after the pause. */
  lemma APauseCanBeUndone()
    ensures exists states: seq<State> :: Run(states, UNDONE) && Reachable(states[0]) && PauseReturns(states[0])
                                         && NobodyResumes(UNDONE) && StartsWork(UNDONE[2]) && !states[6].c.paused
  {
    var states := APendingRecheckEnds();
    hide Run, Reachable, PauseReturns;
    states := GoOn(states, RECHECK + [ByExchange(Adopt(READY))] + [ByExchange(TaskDone)], ByLoop(LoopMove.Settle));
    assert !states[6].c.paused;
    assert NobodyResumes(UNDONE) && StartsWork(UNDONE[2]);
  }

  // ----- An executor that was given up before it did anything -----

  lemma AnIdleStrayIsReadAsUnknown() returns (s: State)
    ensures Reachable(s) && s.namespace == 0 && s.rows == map[0 := OrderRow(Queued, Nothing)]
    ensures s.jobs.active == Some(JOB) && s.c.clean && s.c.thread == Failing
    ensures s.jobs.interrupted == Some(Reply(0, 502, Unknown, OperationStatusUnknown, NO_FACTS))
    ensures s.worker == Running(Exec(0, Gfd, Pc.Begin, Nothing, NO_FACTS))
  {
    var begun := AnOrderStarts();
    ReachStep(begun, ByExchange(ExchangeFails(false)));
    var lost := Exchange(begun, ExchangeFails(false));
    ReachStep(lost, ByExchange(Interrupt(Good)));
    s := Exchange(lost, Interrupt(Good));
  }

  lemma AnIdleStrayIsClosedAsUnknown() returns (s: State)
    ensures Reachable(s) && s.c.clean && 0 in s.rows && s.rows[0].effect == Unknown
    ensures s.worker == Running(Exec(0, Gfd, Raised, Nothing, NO_FACTS))
  {
    var read := AnIdleStrayIsReadAsUnknown();
    ReachStep(read, ByExchange(Conclude(Good)));
    var closed := Exchange(read, Conclude(Good));
    ReachStep(closed, ByWorker(Raise));
    s := Work(closed, Raise);
  }

  /** The other step that lowers an effect: the record says unknown, the executor then closes it as having done
      nothing. */
  lemma AStrayCanFinishClean()
    ensures exists s, m, id :: Reachable(s) && s.c.clean && Can(s, m) && StrayFinishesClean(s, m, id)
                               && s.rows[id].effect == Unknown && id in Next(s, m).rows
                                   && Next(s, m).rows[id].effect == Nothing
  {
    var s := AnIdleStrayIsClosedAsUnknown();
    var m := ByWorker(FinishWork(503, true, Good));
    assert Can(s, m) && StrayFinishesClean(s, m, 0) && Next(s, m).rows[0].effect == Nothing;
  }
}
