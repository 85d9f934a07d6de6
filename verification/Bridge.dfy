/** The order bridge as one transition system: HTTP threads, the dispatch thread, the executor process and the journal,
    interleaved step by step, with crashes and restarts (cn_futures_bridge/dispatch.py, worker.py, journal.py,
    terminal/executor.py).

    Each step is one critical section of the dispatcher, one journal transaction or one move of the executor.  What the
    terminal, the desktop, the clock and the disk do is free: a step carries it as a parameter.
 */
module Bridge {
  import opened Base
  import opened Journal
  import opened Execution
  import opened Reconnect

  /** A queued request.  Admission numbers record the order in which requests entered the queue. */
  datatype Job = Job(id: Id, operation: Operation, key: Option<Key>, number: nat, deadline: Time)

  /** A request under way in the executor process; `effect` is what the process remembers. */
  datatype Exec = Exec(id: Id, kind: Kind, pc: Pc, effect: Effect, facts: Facts)

  /** An answer is `heard` once the dispatcher has taken it from the pipe. */
  datatype Worker = Absent | Waits | Running(exec: Exec) | Answered(reply: Reply, heard: bool)

  /** What the executor reports about itself with every message (worker.py:50-57). */
  datatype WorkerState = WorkerState(blocked: bool, queryReady: bool, tradingReady: bool, ownershipClear: bool,
                                     error: Option<ErrorDetail>)

  /** An executor with an error is blocked, and a blocked one is not ready (executor.py:112-125, worker.py:50-57). */
  predicate Honest(w: WorkerState) {
    (w.error.Some? ==> w.blocked) && (w.blocked ==> !w.queryReady) && (w.tradingReady ==> w.queryReady)
  }

  datatype Task = Execute | Probe | Recheck | Restore

  /** Where the dispatch thread is.  `Updating` and `Choosing` are inside the one section in which it decides what to do
      next (dispatch.py:200-224), first looking at the situation, then choosing; it holds the lock there. */
  datatype Thread = Booting | Booted | Looping | Updating | Choosing | Busy(task: Task) | Settling | Failing | Ending
                  | Done

  predicate Locked(thread: Thread) {
    thread == Updating || thread == Choosing
  }

  /** The requests of this process: those waiting, the one being executed, and the futures handed to callers. */
  datatype Jobs = Jobs(queue: seq<Job>, active: Option<Job>, interrupted: Option<Reply>, open: set<Id>,
                       futures: map<Id, Reply>, nextNumber: nat, dropped: set<Id>, started: seq<Job>)

  /** The dispatcher's flags.  `clean` says that no journal transaction of the dispatcher has failed since the process
      started, `abandoned` that an exchange failed while the executor was still running the request. */
  datatype Control = Control(thread: Thread, paused: bool, stopping: bool, ready: bool, failed: bool, ownerBusy: bool,
                             resumePending: bool, state: WorkerState, desktop: Option<ErrorDetail>, unresolved: nat,
                             plan: Plan, clean: bool, abandoned: bool)

  datatype Event = Event(id: Id, action: Action)

  /** The history that matters for repeated keys. */
  datatype Mark = Executed(id: Id, namespace: Namespace, key: Option<Key>) | Expunged(rows: Rows, at: Time)

  datatype State = State(now: Time, ttl: Time, capacity: nat, namespace: Namespace, rows: Rows, jobs: Jobs, c: Control,
                         worker: Worker, used: set<Id>, events: multiset<Event>, marks: seq<Mark>)

  const NO_JOBS := Jobs([], None, None, {}, map[], 0, {}, [])

  function FreshControl(unresolved: nat, plan: Plan): Control {
    Control(Booting, false, false, false, false, false, false, WorkerState(false, false, false, false, None), None,
            unresolved, plan, true, false)
  }

  function Start(ttl: Time, capacity: nat, ns: Namespace, enabled: bool, interval: nat): State {
    State(0.0, ttl, capacity, ns, map[], NO_JOBS, FreshControl(0, Initial(enabled, interval)), Absent, {},
          multiset{}, [])
  }

  // ----- Replies and the end of a job -----

  function StorageReply(id: Id, effect: Effect): Reply {
    Reply(id, 503, effect, StorageUnavailable, NO_FACTS)
  }

  function RefusalReply(id: Id, code: Code): Reply {
    Reply(id, if code == QueueTimeout then 504 else if code == RequestCancelled then 499 else 503, Nothing, code,
          NO_FACTS)
  }

  function FinishedRows(s: State, job: Job, reply: Reply, store: Store): Rows {
    if job.operation.Writes() && store != RolledBack then Closed(s.rows, reply, s.now) else s.rows
  }

  predicate RecordLost(job: Job, store: Store) {
    job.operation.Writes() && store != Good
  }

  /** What the waiting caller gets: the reply itself, or a storage error that keeps its submission status. */
  function Delivered(job: Job, reply: Reply, store: Store): Reply {
    if RecordLost(job, store) then StorageReply(job.id, reply.submission) else reply
  }

  /** A future is set once; later replies to it are dropped (dispatch.py:113-114). */
  function FinishedJobs(j: Jobs, job: Job, reply: Reply, store: Store): Jobs {
    j.(open := j.open - {job.id},
       futures := if job.id in j.futures then j.futures else j.futures[job.id := Delivered(job, reply, store)])
  }

  function FinishedControl(s: State, state: WorkerState, job: Job, reply: Reply, store: Store): Control {
    var lost := RecordLost(job, store);
    s.c.(unresolved := if job.operation.Writes() && store == Good
                       then |UnknownIds(FinishedRows(s, job, reply, store), s.namespace)| else s.c.unresolved,
         failed := s.c.failed || lost,
         clean := s.c.clean && !lost,
         state := if lost then state.(error := Some(ErrorDetail(StorageLost, 0))) else state)
  }

  // ----- Steps of the world -----

  datatype WorldMove = Tick(passed: Time)
                     | Maintain
                     | DesktopChanges(desktop: Option<ErrorDetail>)
                     | Restart(namespace: Namespace, plan: Plan)

  predicate WorldCan(m: WorldMove) {
    match m
    case Tick(passed) => passed >= 0.0
    case Restart(_, plan) => plan == Initial(plan.enabled, plan.interval)
    case _ => true
  }

  function World(s: State, m: WorldMove): State {
    match m
    case Tick(passed) => s.(now := s.now + passed)
    case Maintain =>
      s.(rows := Pruned(s.rows, s.now, s.ttl), marks := s.marks + [Expunged(ExpiredRows(s.rows, s.now, s.ttl), s.now)])
    case DesktopChanges(desktop) => s.(c := s.c.(desktop := desktop))
    case Restart(ns, plan) =>
      s.(namespace := ns, rows := Recovered(s.rows, ns, s.now), worker := Absent, jobs := NO_JOBS,
         c := FreshControl(|UnknownIds(Recovered(s.rows, ns, s.now), ns)|, plan))
  }

  // ----- Steps of callers -----

  datatype CallerMove = Submit(id: Id, operation: Operation, key: Option<Key>, deadline: Time, store: Store)
                      | Withdraw(position: nat, timeout: bool, store: Store)
                      | PauseCall
                      | ResumeCall
                      | StopCall

  ghost predicate CallerCan(s: State, m: CallerMove) {
    !Locked(s.c.thread) &&
    match m
    case Submit(id, op, key, deadline, store) =>
      && id !in s.used && !s.c.stopping && !s.c.failed && s.c.ready && !s.c.paused && !s.c.state.blocked
      && s.c.state.queryReady && |s.jobs.queue| < s.capacity
      && (op.Writes() ==> s.c.state.tradingReady && Lookup(s.rows, s.namespace, op, key).None?)
      && (!op.Writes() ==> store == Good)
    case Withdraw(position, timeout, store) => CanWithdraw(s, position, timeout)
    case ResumeCall => s.c.ready && !s.c.failed && s.jobs.active.None? && !s.c.ownerBusy && !s.c.resumePending
    case _ => true
  }

  /** A waiting request may be cancelled at any time, and timed out once it is overdue. */
  predicate CanWithdraw(s: State, position: nat, timeout: bool) {
    position < |s.jobs.queue| && (timeout ==> s.now > s.jobs.queue[position].deadline)
  }

  function RemoveAt<T>(s: seq<T>, i: nat): seq<T>
    requires i < |s|
  {
    s[..i] + s[i + 1..]
  }

  function Refusal(timeout: bool): Code {
    if timeout then QueueTimeout else RequestCancelled
  }

  /** The record of a new request, or the loss of it. */
  function Entered(s: State, id: Id, op: Operation, key: Option<Key>, store: Store): State {
    s.(used := s.used + {id},
       rows := if op.Writes() && store != RolledBack then Admitted(s.rows, id, s.namespace, op, key, s.now) else s.rows,
       c := s.c.(clean := s.c.clean && store == Good))
  }

  function Joined(s: State, id: Id, op: Operation, key: Option<Key>, deadline: Time): State {
    s.(jobs := s.jobs.(queue := s.jobs.queue + [Job(id, op, key, s.jobs.nextNumber, deadline)],
                       open := s.jobs.open + {id}, nextNumber := s.jobs.nextNumber + 1))
  }

  function Enqueued(s: State, id: Id, op: Operation, key: Option<Key>, deadline: Time, store: Store): State {
    if store == Good then Joined(Entered(s, id, op, key, store), id, op, key, deadline)
       else Entered(s, id, op, key, store)
  }

  /** A waiting request is turned away: dropped by its caller, overdue, or refused because nothing can be executed. */
  function Dropped(s: State, position: nat, code: Code, store: Store): State
    requires position < |s.jobs.queue|
  {
    var job := s.jobs.queue[position];
    var reply := RefusalReply(job.id, code);
    s.(rows := FinishedRows(s, job, reply, store),
       jobs := FinishedJobs(s.jobs, job, reply, store).(queue := RemoveAt(s.jobs.queue, position),
                                                        dropped := s.jobs.dropped + {job.id}),
       c := FinishedControl(s, s.c.state, job, reply, store))
  }

  function Caller(s: State, m: CallerMove): State
    requires CallerCan(s, m)
  {
    match m
    case Submit(id, op, key, deadline, store) => Enqueued(s, id, op, key, deadline, store)
    case Withdraw(position, timeout, store) => Dropped(s, position, Refusal(timeout), store)
    case PauseCall => s.(c := s.c.(paused := true))
    case ResumeCall =>
      s.(c := if s.c.plan.deadline.Some? then s.c.(paused := false) else s.c.(paused := true, resumePending := true))
    case StopCall => s.(c := s.c.(stopping := true))
  }

  // ----- Steps of the executor process -----

  datatype WorkMove = Follow(edge: Edge, facts: Facts, store: Store)
                    | Raise
                    | Refuse(code: Code)
                    | FinishWork(status: nat, artifacts: bool, store: Store)
                    | Die

  predicate WorkCan(w: Worker, m: WorkMove) {
    match m
    case Follow(edge, facts, store) => w.Running? && edge in Edges(w.exec.kind, w.exec.pc)
    case Raise => w.Running?
    case Refuse(code) => w.Running? && w.exec.pc == Pc.Begin && (code == QueueTimeout || code == StorageUnavailable)
    case FinishWork(status, artifacts, store) =>
      w.Running? && (w.exec.pc == Succeeded || w.exec.pc == Raised) && status != 202
    case Die => w != Absent && !(w.Answered? && w.heard)
  }

  predicate Saves(rows: Rows, e: Exec, m: WorkMove) {
    m.Follow? && m.edge.work.Save? && e.id in rows && m.store != RolledBack
  }

  /** A save that raises leaves the new effect in memory and the error pending (steps.py:42-47). */
  function WorkerAfter(rows: Rows, e: Exec, m: WorkMove): Worker {
    match m
    case Follow(edge, facts, store) =>
      var done := !edge.work.Save? || (Saves(rows, e, m) && store == Good);
      Running(Exec(e.id, e.kind, if done then edge.target else Raised, SavedEffect(edge.work, e.effect),
                   Learn(facts, e.facts)))
    case Raise => Running(e.(pc := Raised))
    case Refuse(code) => Answered(RefusalReply(e.id, code), false)
    case FinishWork(status, artifacts, store) =>
      Answered(if artifacts && (store == Good || e.kind == Query) then WorkReply(e, status)
               else StorageReply(e.id, e.effect), false)
    case Die => Absent
  }

  function RowsAfter(rows: Rows, e: Exec, m: WorkMove, now: Time): Rows {
    if Saves(rows, e, m) then Phased(rows, e.id, m.edge.work.phase, m.edge.work.effect, Learn(m.facts, e.facts), now)
    else if m.FinishWork? && m.artifacts && e.kind != Query && m.store != RolledBack
    then Closed(rows, WorkReply(e, m.status), now)
    else rows
  }

  function WorkReply(e: Exec, status: nat): Reply {
    if e.pc == Succeeded
    then Reply(e.id, if e.kind == Query then 200 else 202, if e.kind == Query then Nothing else Submitted, Accepted,
               e.facts)
    else Reply(e.id, status, e.effect, OperationError, e.facts)
  }

  function Work(s: State, m: WorkMove): State
    requires WorkCan(s.worker, m)
  {
    if m.Die? then s.(worker := Absent)
    else
      var e := s.worker.exec;
      s.(worker := WorkerAfter(s.rows, e, m), rows := RowsAfter(s.rows, e, m, s.now),
         events := if m.Follow? && m.edge.work.Act? then s.events + multiset{Event(e.id, m.edge.work.action)}
                   else s.events)
  }

  // ----- Steps of the dispatch thread: deciding what to do next -----

  datatype LoopMove = EnterLoop
                    | Look
                    | NoteDesktop
                    | Drain(store: Store)
                    | UpdateRecovery
                    | Expire(position: nat, timeout: bool, store: Store)
                    | StartExecute
                    | StartProbe
                    | StartRecheck
                    | StartRestore
                    | Wait
                    | Settle
                    | BreakLoop
                    | ThreadEnds

  predicate MustDrain(c: Control) {
    c.state.blocked || c.failed || !c.state.queryReady
  }

  function LatestError(c: Control): Option<ErrorDetail> {
    if c.desktop.Some? then c.desktop else c.state.error
  }

  predicate Safe(c: Control) {
    c.state.ownershipClear && c.unresolved == 0 && !c.failed && c.desktop.None?
  }

  function ObservedPlan(c: Control, now: Time): Plan {
    Observed(c.plan, now, LatestError(c), Safe(c))
  }

  /** The last part of dispatch.py:132-143, reached with the queue already drained where it must be. */
  predicate Settled(s: State) {
    (MustDrain(s.c) ==> s.jobs.queue == []) && (s.c.desktop.Some? ==> s.c.state.blocked)
  }

  /** The choice itself no longer looks at `failed` or `stopping`. */
  predicate MayStart(c: Control) {
    c.thread == Choosing && !c.resumePending && !c.paused
  }

  predicate LoopCan(s: State, m: LoopMove) {
    var c := s.c;
    var due := Due(c.plan, s.now);
    match m
    case EnterLoop => c.thread == Booted
    case Look => c.thread == Looping && !c.stopping && !c.failed
    case NoteDesktop => (c.thread == Updating || c.thread == Settling || c.thread == Ending) && c.desktop.Some?
    case Drain(store) =>
      s.jobs.queue != [] && (((c.thread == Updating || c.thread == Settling) && MustDrain(c)) || c.thread == Ending)
    case UpdateRecovery => (c.thread == Updating || c.thread == Ending) && Settled(s)
    case Expire(position, timeout, store) => c.thread == Choosing && CanWithdraw(s, position, timeout)
    case StartExecute => MayStart(c) && !due && !c.state.blocked && s.jobs.queue != []
    case StartProbe => MayStart(c) && !due && !c.state.blocked && s.jobs.queue == []
    case StartRecheck => c.thread == Choosing && c.resumePending
    case StartRestore => MayStart(c) && due
    case Wait => c.thread == Choosing && !c.resumePending
        && (c.paused || (!due && (c.state.blocked || s.jobs.queue == [])))
    case Settle => c.thread == Settling && Settled(s)
    case BreakLoop => (c.thread == Looping && (c.stopping || c.failed)) || (c.thread == Booting && c.stopping)
    case ThreadEnds => c.thread == Ending && s.jobs.queue == []
  }

  function Observing(s: State): State {
    s.(c := s.c.(plan := ObservedPlan(s.c, s.now), thread := if s.c.thread == Updating then Choosing else s.c.thread))
  }

  function Released(s: State): State {
    s.(c := s.c.(ownerBusy := false, thread := Looping))
  }

  function Ended(s: State): State {
    s.(c := s.c.(thread := Done, resumePending := false))
  }

  function Loop(s: State, m: LoopMove): State
    requires LoopCan(s, m)
  {
    match m
    case EnterLoop => s.(c := s.c.(paused := s.c.paused || s.c.unresolved != 0, thread := Looping))
    case Look => s.(c := s.c.(thread := Updating))
    case NoteDesktop =>
      s.(c := s.c.(state := s.c.state.(blocked := true, queryReady := false, tradingReady := false)))
    case Drain(store) => Dropped(s, 0, NotReady, store)
    case UpdateRecovery => Observing(s)
    case Expire(position, timeout, store) => Dropped(s, position, Refusal(timeout), store)
    case StartExecute =>
      var job := s.jobs.queue[0];
      s.(jobs := s.jobs.(queue := RemoveAt(s.jobs.queue, 0), active := Some(job), started := s.jobs.started + [job]),
         c := s.c.(thread := Busy(Execute), ownerBusy := true),
         worker := Running(Exec(job.id, job.operation.kind, Pc.Begin, Nothing, NO_FACTS)),
         marks := if job.operation.Writes() then s.marks + [Executed(job.id, s.namespace, job.key)] else s.marks)
    case StartProbe => s.(c := s.c.(thread := Busy(Probe), ownerBusy := true))
    case StartRecheck => s.(c := s.c.(thread := Busy(Recheck), ownerBusy := true))
    case StartRestore =>
      s.(c := s.c.(thread := Busy(Restore), ownerBusy := true, plan := Begun(s.c.plan, s.now), ready := false))
    case Wait => s.(c := s.c.(thread := Looping))
    case Settle => Released(Observing(s))
    case BreakLoop => s.(c := s.c.(thread := Ending))
    case ThreadEnds => Ended(s)
  }

  // ----- Steps of the dispatch thread: what comes back from the executor -----

  datatype ExchangeMove = WorkerUp(state: WorkerState)
                        | BootFails
                        | Adopt(state: WorkerState)
                        | Receive(store: Store)
                        | TaskDone
                        | RestoreAborted
                        | ExchangeFails(gone: bool)
                        | Interrupt(store: Store)
                        | Conclude(store: Store)

  /** The state that comes with an answer; an executor that leaves an effect unknown is blocked
      (executor.py:275-329). */
  predicate Reports(w: Worker, state: WorkerState) {
    w.Answered? && !w.heard && (w.reply.submission == Unknown ==> state.blocked)
  }

  predicate ExchangeCan(s: State, m: ExchangeMove) {
    var thread := s.c.thread;
    match m
    case WorkerUp(state) => thread == Booting && Honest(state)
    case BootFails => thread == Booting
    case Adopt(state) => thread.Busy? && Honest(state) && (thread == Busy(Execute) ==> Reports(s.worker, state))
    case Receive(store) => thread == Busy(Execute) && s.worker.Answered? && s.worker.heard && s.jobs.active.Some?
    case TaskDone => thread.Busy? && thread != Busy(Execute)
    case RestoreAborted => thread == Busy(Restore) && s.c.stopping
    case ExchangeFails(gone) => thread.Busy?
    case Interrupt(store) => thread == Failing && s.jobs.active.Some? && s.jobs.interrupted.None?
    case Conclude(store) => thread == Failing && (s.jobs.active.Some? ==> s.jobs.interrupted.Some?)
  }

  function InterruptReply(s: State, job: Job, store: Store): Reply {
    if !job.operation.Writes() then Reply(job.id, 503, Nothing, OperationError, NO_FACTS)
    else if store == Good then InterruptedReply(s.rows, job.id)
    else StorageReply(job.id, Unknown)
  }

  function Broken(state: WorkerState): WorkerState {
    state.(blocked := true, error := Some(ErrorDetail(OtherError(0), 0)))
  }

  function TaskFinished(s: State): State {
    s.(c := s.c.(thread := Settling,
                 ready := s.c.ready || s.c.thread == Busy(Restore),
                 paused := s.c.paused && (s.c.thread == Busy(Recheck) ==> s.c.state.blocked),
                 resumePending := s.c.resumePending && s.c.thread != Busy(Recheck)))
  }

  function Interrupted(s: State, store: Store): State
    requires s.jobs.active.Some?
  {
    s.(jobs := s.jobs.(interrupted := Some(InterruptReply(s, s.jobs.active.value, store))),
       c := s.c.(clean := s.c.clean && store == Good))
  }

  /** The first thing done with any message is to adopt the state it reports. */
  function Adopted(s: State, state: WorkerState): State {
    s.(c := s.c.(state := state), worker := if s.worker.Answered? then s.worker.(heard := true) else s.worker)
  }

  function Received(s: State, store: Store): State
    requires s.jobs.active.Some? && s.worker.Answered?
  {
    var job := s.jobs.active.value;
    var reply := s.worker.reply;
    s.(rows := FinishedRows(s, job, reply, store), worker := Waits,
       jobs := FinishedJobs(s.jobs, job, reply, store).(active := None),
       c := FinishedControl(s, s.c.state, job, reply, store).(thread := Settling))
  }

  function Concluded(s: State, store: Store): State
    requires s.jobs.active.Some? && s.jobs.interrupted.Some?
  {
    var job := s.jobs.active.value;
    var reply := s.jobs.interrupted.value;
    s.(rows := FinishedRows(s, job, reply, store),
       jobs := FinishedJobs(s.jobs, job, reply, store).(interrupted := None),
       c := FinishedControl(s, s.c.state, job, reply, store).(thread := Ending))
  }

  function Exchange(s: State, m: ExchangeMove): State
    requires ExchangeCan(s, m)
  {
    match m
    case WorkerUp(state) => s.(worker := Waits, c := s.c.(state := state, ready := true, thread := Booted))
    case BootFails => s.(worker := Absent, c := s.c.(thread := Ending, failed := true, state := Broken(s.c.state)))
    case Adopt(state) => Adopted(s, state)
    case Receive(store) => Received(s, store)
    case TaskDone => TaskFinished(s)
    case RestoreAborted => s.(worker := Absent, c := s.c.(thread := Settling))
    case ExchangeFails(gone) =>
      s.(worker := if gone then Absent else s.worker,
         c := s.c.(thread := Failing, failed := true, abandoned := s.c.abandoned || (!gone && s.worker.Running?),
                   state := Broken(s.c.state)))
    case Interrupt(store) => Interrupted(s, store)
    case Conclude(store) =>
      if s.jobs.active.None? then s.(c := s.c.(thread := Ending)) else Concluded(s, store)
  }

  // ----- Runs -----

  datatype Move = ByWorld(world: WorldMove) | ByCaller(caller: CallerMove) | ByWorker(work: WorkMove)
                | ByLoop(loop: LoopMove) | ByExchange(exchange: ExchangeMove)

  ghost predicate Can(s: State, m: Move) {
    match m
    case ByWorld(w) => WorldCan(w)
    case ByCaller(c) => CallerCan(s, c)
    case ByWorker(w) => WorkCan(s.worker, w)
    case ByLoop(l) => LoopCan(s, l)
    case ByExchange(e) => ExchangeCan(s, e)
  }

  function Next(s: State, m: Move): State
    requires Can(s, m)
  {
    match m
    case ByWorld(w) => World(s, w)
    case ByCaller(c) => Caller(s, c)
    case ByWorker(w) => Work(s, w)
    case ByLoop(l) => Loop(s, l)
    case ByExchange(e) => Exchange(s, e)
  }

  ghost predicate Run(states: seq<State>, moves: seq<Move>) {
    && |states| == |moves| + 1
    && forall i :: 0 <= i < |moves| ==> Can(states[i], moves[i]) && states[i + 1] == Next(states[i], moves[i])
  }

  ghost predicate Begins(s: State) {
    exists ttl, capacity, ns, enabled, interval :: s == Start(ttl, capacity, ns, enabled, interval)
  }

  ghost predicate Reachable(s: State) {
    exists states, moves :: Run(states, moves) && Begins(states[0]) && states[|moves|] == s
  }

  lemma ReachStep(s: State, m: Move)
    requires Reachable(s) && Can(s, m)
    ensures Reachable(Next(s, m))
  {
    var states, moves :| Run(states, moves) && Begins(states[0]) && states[|moves|] == s;
    var states', moves' := states + [Next(s, m)], moves + [m];
    forall i | 0 <= i < |moves'| ensures Can(states'[i], moves'[i]) && states'[i + 1] == Next(states'[i], moves'[i]) {
      if i < |moves| { assert states[i + 1] == Next(states[i], moves[i]); }
    }
    assert Run(states', moves') && states'[|moves'|] == Next(s, m);
  }

  lemma ReachStart(s: State)
    requires Begins(s)
    ensures Reachable(s)
  {
    var moves: seq<Move> := [];
    assert Run([s], moves) && [s][|moves|] == s;
  }
}
