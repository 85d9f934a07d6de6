/** Pausing, cold starts and reconnects: what every step keeps about who may use the terminal. */
module BridgeControl {
  import opened Base
  import opened Journal
  import opened Execution
  import opened Reconnect
  import opened Bridge
  import opened BridgeQueue
  import opened BridgeEffects
  import opened BridgeRecords

  /** An error is never shown by a dispatcher that would still queue or execute requests. */
  predicate ErrorBlocks(c: Control) {
    c.state.error.Some? ==> c.state.blocked || c.failed
  }

  ghost predicate PlanOk(c: Control) {
    && Coherent(c.plan) && ErrorBlocks(c)
    && (c.thread == Busy(Restore) ==> c.plan.state == Reconnecting)
    && (c.plan.state == Reconnecting ==> c.thread in {Busy(Restore), Settling, Failing, Ending, Done})
  }

  /** What the dispatch thread has looked at when it stands before its choice: a timer that may go off was set for a
      connection error on a terminal in clear ownership, with nothing queued and nothing unknown on record. */
  ghost predicate ChoiceOk(c: Control, queue: seq<Job>) {
    c.thread == Choosing && c.plan.deadline.Some? ==>
      && !c.failed && queue == [] && c.state.ownershipClear && c.unresolved == 0 && IsConnectionError(c.state.error)
      && c.plan.observed == Some(Observation(c.state.error, true))
  }

  /** Nothing is executing and nothing will start of its own accord. */
  ghost predicate Still(s: State) {
    && s.jobs.active.None? && !s.worker.Running? && !s.c.resumePending
    && match s.c.thread
       case Booting => s.c.unresolved != 0
       case Booted => s.c.failed || s.c.paused || s.c.unresolved != 0
       case Looping => s.c.failed || s.c.paused
       case Updating => s.c.paused
       case Choosing => s.c.paused
       case Ending => true
       case Done => true
       case _ => false
  }

  predicate StartsWork(m: Move) {
    m.ByLoop? && (m.loop == StartExecute || m.loop == StartProbe || m.loop == StartRecheck || m.loop == StartRestore)
  }

  predicate Awakens(m: Move) {
    m == ByCaller(ResumeCall) || (m.ByWorld? && m.world.Restart?)
  }

  lemma ObservationSettlesPlan(c: Control, now: Time)
    requires Coherent(c.plan)
    ensures var p := ObservedPlan(c, now);
            && Coherent(p) && p.state != Reconnecting && p.observed == Some(Observation(LatestError(c), Safe(c)))
            && (Due(p, now) ==> Safe(c) && IsConnectionError(LatestError(c)) && Coherent(Begun(p, now)))
  {
  }

  lemma WorldKeepsPlan(s: State, m: WorldMove)
    requires PlanOk(s.c) && WorldCan(m)
    ensures PlanOk(World(s, m).c)
  {
  }

  lemma CallerKeepsPlan(s: State, m: CallerMove)
    requires PlanOk(s.c) && CallerCan(s, m)
    ensures PlanOk(Caller(s, m).c)
  {
    hide Coherent, FinishedRows, FinishedJobs, RefusalReply, UnknownIds, RemoveAt, Lookup, Admitted;
    match m
    case Submit(_, _, _, _, _) =>
    case Withdraw(_, _, _) =>
    case PauseCall =>
    case ResumeCall =>
    case StopCall =>
  }

  lemma LoopKeepsPlan(s: State, m: LoopMove)
    requires PlanOk(s.c) && LoopCan(s, m)
    ensures PlanOk(Loop(s, m).c)
  {
    hide ObservedPlan, FinishedRows, FinishedJobs, RefusalReply, UnknownIds, RemoveAt;
    ObservationSettlesPlan(s.c, s.now);
    match m
    case EnterLoop =>
    case Look =>
    case NoteDesktop =>
    case Drain(_) =>
    case UpdateRecovery =>
    case Expire(_, _, _) =>
    case StartExecute =>
    case StartProbe =>
    case StartRecheck =>
    case StartRestore =>
    case Wait =>
    case Settle =>
    case BreakLoop =>
    case ThreadEnds =>
  }

  lemma ReceiptKeepsPlan(s: State, store: Store)
    requires PlanOk(s.c) && s.c.thread == Busy(Execute) && s.jobs.active.Some? && s.worker.Answered?
    ensures PlanOk(Received(s, store).c)
  {
  }

  lemma ConclusionKeepsPlan(s: State, store: Store)
    requires PlanOk(s.c) && s.c.thread == Failing && s.jobs.active.Some? && s.jobs.interrupted.Some?
    ensures PlanOk(Concluded(s, store).c)
  {
  }

  lemma ExchangeKeepsPlan(s: State, m: ExchangeMove)
    requires PlanOk(s.c) && ExchangeCan(s, m)
    ensures PlanOk(Exchange(s, m).c)
  {
    match m
    case WorkerUp(_) =>
    case BootFails =>
    case Adopt(_) =>
    case Receive(store) => ReceiptKeepsPlan(s, store);
    case TaskDone =>
    case RestoreAborted =>
    case ExchangeFails(_) =>
    case Interrupt(_) =>
    case Conclude(store) => if s.jobs.active.Some? { ConclusionKeepsPlan(s, store); }
  }

  lemma PlanIsKept(s: State, m: Move)
    requires PlanOk(s.c) && Can(s, m)
    ensures PlanOk(Next(s, m).c)
  {
    match m
    case ByWorld(w) => WorldKeepsPlan(s, w);
    case ByCaller(c) => CallerKeepsPlan(s, c);
    case ByWorker(w) => assert Work(s, w).c == s.c;
    case ByLoop(l) => LoopKeepsPlan(s, l);
    case ByExchange(e) => ExchangeKeepsPlan(s, e);
  }

  lemma LoopKeepsChoice(s: State, m: LoopMove)
    requires PlanOk(s.c) && ChoiceOk(s.c, s.jobs.queue) && LoopCan(s, m)
    ensures ChoiceOk(Loop(s, m).c, Loop(s, m).jobs.queue)
  {
    match m
    case EnterLoop =>
    case Look =>
    case NoteDesktop =>
    case Drain(_) =>
    case UpdateRecovery => ObservationSettlesPlan(s.c, s.now);
    case Expire(_, _, _) =>
    case StartExecute =>
    case StartProbe =>
    case StartRecheck =>
    case StartRestore =>
    case Wait =>
    case Settle =>
    case BreakLoop =>
    case ThreadEnds =>
  }

  lemma ExchangeKeepsChoice(s: State, m: ExchangeMove)
    requires ExchangeCan(s, m)
    ensures ChoiceOk(Exchange(s, m).c, Exchange(s, m).jobs.queue)
  {
    match m
    case WorkerUp(_) =>
    case BootFails =>
    case Adopt(_) =>
    case Receive(_) =>
    case TaskDone =>
    case RestoreAborted =>
    case ExchangeFails(_) =>
    case Interrupt(_) =>
    case Conclude(_) =>
  }

  lemma OutsidersKeepChoice(s: State, m: Move)
    requires ChoiceOk(s.c, s.jobs.queue) && Can(s, m) && (m.ByWorld? || m.ByWorker?)
    ensures ChoiceOk(Next(s, m).c, Next(s, m).jobs.queue)
  {
  }

  lemma CallerKeepsThread(s: State, m: CallerMove)
    requires CallerCan(s, m)
    ensures Caller(s, m).c.thread == s.c.thread && !Locked(s.c.thread)
    ensures (s.c.failed ==> Caller(s, m).c.failed) && (s.c.stopping ==> Caller(s, m).c.stopping)
  {
    hide FinishedRows, FinishedJobs, RefusalReply, UnknownIds, RemoveAt, Lookup, Admitted;
    match m
    case Submit(_, _, _, _, _) =>
    case Withdraw(_, _, _) =>
    case PauseCall =>
    case ResumeCall =>
    case StopCall =>
  }

  lemma ChoiceIsKept(s: State, m: Move)
    requires PlanOk(s.c) && ChoiceOk(s.c, s.jobs.queue) && Can(s, m)
    ensures ChoiceOk(Next(s, m).c, Next(s, m).jobs.queue)
  {
    hide World, Caller, Work, Loop, Exchange;
    match m
    case ByWorld(w) => OutsidersKeepChoice(s, m);
    case ByCaller(c) => CallerKeepsThread(s, c);
    case ByWorker(w) => OutsidersKeepChoice(s, m);
    case ByLoop(l) => LoopKeepsChoice(s, l);
    case ByExchange(e) => ExchangeKeepsChoice(s, e);
  }

  lemma RecountStaysPositive(s: State, job: Job, reply: Reply, store: Store)
    requires !s.c.failed && s.c.unresolved != 0 && CountIsCurrent(s) && s.jobs.active.None?
    requires job.operation.Writes() ==> HasFreshRow(s.rows, s.namespace, job)
    requires reply.id == job.id
    ensures FinishedControl(s, s.c.state, job, reply, store).unresolved != 0
  {
    var known := UnknownIds(s.rows, s.namespace);
    assert known != {};
    var id :| id in known;
    assert id in UnknownIds(FinishedRows(s, job, reply, store), s.namespace);
  }

  lemma CallerKeepsStill(s: State, m: CallerMove)
    requires Sound(s) && Still(s) && CallerCan(s, m) && m != ResumeCall
    ensures Still(Caller(s, m)) && Caller(s, m).events == s.events
  {
    if m.Withdraw? && !s.c.failed && s.c.unresolved != 0 {
      var job := s.jobs.queue[m.position];
      RecountStaysPositive(s, job, RefusalReply(job.id, Refusal(m.timeout)), m.store);
    }
  }

  lemma LoopKeepsStill(s: State, m: LoopMove)
    requires Sound(s) && Still(s) && LoopCan(s, m)
    ensures Still(Loop(s, m)) && Loop(s, m).events == s.events && !StartsWork(ByLoop(m))
  {
    hide ObservedPlan, FinishedRows, RefusalReply, UnknownIds, RemoveAt;
    match m
    case EnterLoop =>
    case Look =>
    case NoteDesktop =>
    case Drain(_) =>
    case UpdateRecovery =>
    case Expire(_, _, _) =>
    case StartExecute =>
    case StartProbe =>
    case StartRecheck =>
    case StartRestore =>
    case Wait =>
    case Settle =>
    case BreakLoop =>
    case ThreadEnds =>
  }

  lemma ExchangeKeepsStill(s: State, m: ExchangeMove)
    requires Sound(s) && Still(s) && ExchangeCan(s, m)
    ensures Still(Exchange(s, m)) && Exchange(s, m).events == s.events
  {
  }

  lemma WorkKeepsStill(s: State, m: WorkMove)
    requires Still(s) && WorkCan(s.worker, m)
    ensures Still(Work(s, m)) && Work(s, m).events == s.events
  {
  }

  lemma WorldKeepsStill(s: State, m: WorldMove)
    requires Still(s) && WorldCan(m) && !m.Restart?
    ensures Still(World(s, m)) && World(s, m).events == s.events
  {
  }

  lemma StillStays(s: State, m: Move)
    requires Sound(s) && Still(s) && Can(s, m) && !Awakens(m)
    ensures Still(Next(s, m)) && Next(s, m).events == s.events && !StartsWork(m)
  {
    match m
    case ByWorld(w) => WorldKeepsStill(s, w);
    case ByCaller(c) => CallerKeepsStill(s, c);
    case ByWorker(w) => WorkKeepsStill(s, w);
    case ByLoop(l) => LoopKeepsStill(s, l);
    case ByExchange(e) => ExchangeKeepsStill(s, e);
  }

  /** Nothing should be started any more. */
  predicate Condemned(c: Control) {
    c.failed || c.stopping
  }

  /** And the dispatch thread is outside its section, so it will notice before it starts anything. */
  predicate GivenUp(c: Control) {
    Condemned(c) && !Locked(c.thread)
  }

  lemma LoopKeepsFlags(s: State, m: LoopMove)
    requires LoopCan(s, m)
    ensures (s.c.failed ==> Loop(s, m).c.failed) && (s.c.stopping ==> Loop(s, m).c.stopping)
    ensures Locked(Loop(s, m).c.thread) ==> Locked(s.c.thread) || (m == LoopMove.Look && !Condemned(s.c))
    ensures StartsWork(ByLoop(m)) ==> Locked(s.c.thread) && !Locked(Loop(s, m).c.thread)
  {
    hide ObservedPlan, FinishedRows, FinishedJobs, RefusalReply, UnknownIds, RemoveAt;
    match m
    case EnterLoop =>
    case Look =>
    case NoteDesktop =>
    case Drain(_) =>
    case UpdateRecovery =>
    case Expire(_, _, _) =>
    case StartExecute =>
    case StartProbe =>
    case StartRecheck =>
    case StartRestore =>
    case Wait =>
    case Settle =>
    case BreakLoop =>
    case ThreadEnds =>
  }

  lemma ReceiptKeepsFlags(s: State, store: Store)
    requires s.jobs.active.Some? && s.worker.Answered?
    ensures var c := Received(s, store).c;
            (s.c.failed ==> c.failed) && c.stopping == s.c.stopping && c.thread == Settling
  {
    hide FinishedRows, FinishedJobs, UnknownIds;
  }

  lemma ConclusionKeepsFlags(s: State, store: Store)
    requires s.jobs.active.Some? && s.jobs.interrupted.Some?
    ensures var c := Concluded(s, store).c;
            (s.c.failed ==> c.failed) && c.stopping == s.c.stopping && c.thread == Ending
  {
    hide FinishedRows, FinishedJobs, UnknownIds;
  }

  lemma ExchangeKeepsFlags(s: State, m: ExchangeMove)
    requires ExchangeCan(s, m)
    ensures (s.c.failed ==> Exchange(s, m).c.failed) && (s.c.stopping ==> Exchange(s, m).c.stopping)
    ensures !Locked(Exchange(s, m).c.thread)
  {
    hide Received, Concluded, InterruptReply, Broken;
    match m
    case WorkerUp(_) =>
    case BootFails =>
    case Adopt(_) =>
    case Receive(store) => ReceiptKeepsFlags(s, store);
    case TaskDone =>
    case RestoreAborted =>
    case ExchangeFails(_) =>
    case Interrupt(_) =>
    case Conclude(store) => if s.jobs.active.Some? { ConclusionKeepsFlags(s, store); }
  }

  lemma WorldKeepsControl(s: State, m: WorldMove)
    requires WorldCan(m) && !m.Restart?
    ensures World(s, m).c == s.c.(desktop := World(s, m).c.desktop)
  {
    hide Pruned, ExpiredRows, Recovered, UnknownIds, Initial;
    match m
    case Tick(_) =>
    case Maintain =>
    case DesktopChanges(_) =>
  }

  lemma OutsidersKeepControl(s: State, m: Move)
    requires Can(s, m) && (m.ByWorld? || m.ByWorker?) && !(m.ByWorld? && m.world.Restart?)
    ensures Next(s, m).c == s.c.(desktop := Next(s, m).c.desktop)
  {
    hide World, WorkerAfter, RowsAfter, Edges;
    if m.ByWorld? { WorldKeepsControl(s, m.world); }
  }

  /** Only a look at the flags leads into the section, and every start leads out of it. */
  lemma StepKeepsFlags(s: State, m: Move)
    requires Can(s, m) && !(m.ByWorld? && m.world.Restart?)
    ensures (s.c.failed ==> Next(s, m).c.failed) && (s.c.stopping ==> Next(s, m).c.stopping)
    ensures Locked(Next(s, m).c.thread) ==> Locked(s.c.thread) || !Condemned(s.c)
    ensures StartsWork(m) ==> Locked(s.c.thread) && !Locked(Next(s, m).c.thread)
  {
    hide World, Caller, Work, Loop, Exchange, LoopCan, CallerCan, ExchangeCan;
    match m
    case ByWorld(w) => OutsidersKeepControl(s, m);
    case ByCaller(c) => CallerKeepsThread(s, c);
    case ByWorker(w) => OutsidersKeepControl(s, m);
    case ByLoop(l) => LoopKeepsFlags(s, l);
    case ByExchange(e) => ExchangeKeepsFlags(s, e);
  }
}
