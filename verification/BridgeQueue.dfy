/** What every step keeps about the queue, the job being executed, the futures and the executor's assignment. */
module BridgeQueue {
  import opened Base
  import opened Journal
  import opened Execution
  import opened Reconnect
  import opened Bridge

  ghost predicate InQueue(q: seq<Job>, id: Id) {
    exists i :: 0 <= i < |q| && q[i].id == id
  }

  ghost predicate Ordered(q: seq<Job>) {
    forall i, j :: 0 <= i < j < |q| ==> q[i].number < q[j].number && q[i].id != q[j].id
  }

  ghost predicate QueueOk(j: Jobs, capacity: nat) {
    && |j.queue| <= capacity
    && Ordered(j.queue)
    && (forall i :: 0 <= i < |j.queue| ==> j.queue[i].id in j.open && j.queue[i].number < j.nextNumber
                                           && j.queue[i].id !in j.dropped)
  }

  ghost predicate HistoryOk(j: Jobs) {
    && Ordered(j.started)
    && (forall i :: 0 <= i < |j.started| ==> j.started[i].number < j.nextNumber && j.started[i].id !in j.dropped)
    && (forall i, k :: 0 <= i < |j.started| && 0 <= k < |j.queue| ==>
                         j.started[i].number < j.queue[k].number && j.started[i].id != j.queue[k].id)
  }

  /** The dispatch thread has taken a job and has not yet answered it. */
  predicate Holding(j: Jobs, thread: Thread) {
    j.active.Some? && (thread == Busy(Execute) || thread == Failing)
  }

  ghost predicate FuturesOk(j: Jobs, thread: Thread) {
    && j.open !! j.futures.Keys
    && (forall id :: id in j.open ==> InQueue(j.queue, id) || (Holding(j, thread) && j.active.value.id == id))
  }

  ghost predicate ActiveOk(j: Jobs, thread: Thread, worker: Worker) {
    && (j.active.Some? ==> !InQueue(j.queue, j.active.value.id) && thread in {Busy(Execute), Failing, Ending, Done})
    && (thread == Busy(Execute) ==> j.active.Some?)
    && (Holding(j, thread) ==> j.active.value.id in j.open)
    && (j.interrupted.Some? ==> thread == Failing && j.active.Some?)
    && (worker.Running? ==> j.active.Some? && worker.exec.id == j.active.value.id
                            && worker.exec.kind == j.active.value.operation.kind)
    && (worker.Answered? ==> j.active.Some? && worker.reply.id == j.active.value.id)
  }

  ghost predicate UsedOk(s: State) {
    var j := s.jobs;
    && s.rows.Keys <= s.used && j.futures.Keys <= s.used && j.open <= s.used && j.dropped <= s.used
    && (forall e :: e in s.events ==> e.id in s.used)
    && (forall i :: 0 <= i < |j.started| ==> j.started[i].id in s.used)
    && (j.active.Some? ==> j.active.value.id in s.used)
  }

  predicate ThreadOk(c: Control, queue: seq<Job>) {
    && (c.thread == Failing ==> c.failed)
    && (c.thread in {Ending, Done} ==> c.stopping || c.failed)
    && (c.thread == Done ==> queue == [])
    && (c.thread in {Booting, Booted, Looping, Updating, Choosing} ==> !c.ownerBusy)
    && (c.thread.Busy? || c.thread == Settling ==> c.ownerBusy)
    && (c.thread == Booting ==> !c.ready && queue == [] && !c.resumePending)
  }

  ghost predicate BookOk(s: State) {
    && QueueOk(s.jobs, s.capacity) && HistoryOk(s.jobs) && FuturesOk(s.jobs, s.c.thread)
    && ActiveOk(s.jobs, s.c.thread, s.worker) && UsedOk(s) && ThreadOk(s.c, s.jobs.queue)
  }

  /** Taking one job out of the queue keeps everything said about those that stay. */
  lemma RemovalKeeps(j: Jobs, i: nat, capacity: nat)
    requires i < |j.queue| && QueueOk(j, capacity) && HistoryOk(j)
    ensures var id := j.queue[i].id; var r := RemoveAt(j.queue, i);
            && |r| <= capacity && Ordered(r) && !InQueue(r, id)
            && (forall k :: 0 <= k < |r| ==> r[k].id in j.open - {id} && r[k].number < j.nextNumber
                                             && r[k].id !in j.dropped && r[k].id != id)
            && (forall h, k :: 0 <= h < |j.started| && 0 <= k < |r| ==>
                                 j.started[h].number < r[k].number && j.started[h].id != r[k].id)
            && (forall other :: InQueue(r, other) <==> InQueue(j.queue, other) && other != id)
  {
    var q, r, id := j.queue, RemoveAt(j.queue, i), j.queue[i].id;
    forall k | 0 <= k < |r| ensures r[k] == q[if k < i then k else k + 1] { }
    forall other | InQueue(q, other) && other != id ensures InQueue(r, other) {
      var k :| 0 <= k < |q| && q[k].id == other;
      assert r[if k < i then k else k - 1].id == other;
    }
  }

  lemma AppendKeeps(q: seq<Job>, job: Job)
    ensures forall id :: InQueue(q + [job], id) <==> InQueue(q, id) || id == job.id
  {
    forall id ensures InQueue(q + [job], id) <==> InQueue(q, id) || id == job.id {
      assert (q + [job])[|q|] == job;
      if InQueue(q, id) {
        var j :| 0 <= j < |q| && q[j].id == id;
        assert (q + [job])[j].id == id;
      }
    }
  }

  lemma WorldKeepsBook(s: State, m: WorldMove)
    requires BookOk(s) && WorldCan(m)
    ensures BookOk(World(s, m))
  {
  }

  lemma SubmitKeepsQueue(s: State, m: CallerMove)
    requires BookOk(s) && CallerCan(s, m) && m.Submit?
    ensures var t := Caller(s, m); QueueOk(t.jobs, t.capacity) && HistoryOk(t.jobs) && FuturesOk(t.jobs, t.c.thread)
  {
    hide Lookup, Admitted, ActiveOk, ThreadOk;
    AppendKeeps(s.jobs.queue, Job(m.id, m.operation, m.key, s.jobs.nextNumber, m.deadline));
  }

  lemma SubmitKeepsAssignment(s: State, m: CallerMove)
    requires BookOk(s) && CallerCan(s, m) && m.Submit?
    ensures var t := Caller(s, m); ActiveOk(t.jobs, t.c.thread, t.worker) && UsedOk(t) && ThreadOk(t.c, t.jobs.queue)
  {
    AppendKeeps(s.jobs.queue, Job(m.id, m.operation, m.key, s.jobs.nextNumber, m.deadline));
  }

  lemma SubmitKeepsBook(s: State, m: CallerMove)
    requires BookOk(s) && CallerCan(s, m) && m.Submit?
    ensures BookOk(Caller(s, m))
  {
    SubmitKeepsQueue(s, m);
    SubmitKeepsAssignment(s, m);
  }

  lemma DropKeepsBook(s: State, position: nat, code: Code, store: Store)
    requires BookOk(s) && position < |s.jobs.queue|
    ensures BookOk(Dropped(s, position, code, store))
  {
    RemovalKeeps(s.jobs, position, s.capacity);
  }

  /** A step that only decides: it touches neither requests nor records, and does not take or hand back a job. */
  predicate Decides(s: State, t: State) {
    && t == s.(c := t.c)
    && t.c.unresolved == s.c.unresolved && t.c.clean == s.c.clean && t.c.abandoned == s.c.abandoned
    && t.c.failed == s.c.failed
    && (t.c.thread == s.c.thread
        || (s.c.thread !in {Busy(Execute), Failing, Done} && t.c.thread !in {Busy(Execute), Failing}
            && (s.c.thread == Ending ==> t.c.thread in {Ending, Done})))
  }

  lemma DecidingKeepsBook(s: State, t: State)
    requires BookOk(s) && Decides(s, t) && ThreadOk(t.c, t.jobs.queue)
    ensures BookOk(t)
  {
  }

  predicate Deciding(m: LoopMove) {
    !m.Drain? && !m.Expire? && !m.StartExecute?
  }

  lemma LoopDecides(s: State, m: LoopMove)
    requires LoopCan(s, m) && Deciding(m)
    ensures Decides(s, Loop(s, m))
  {
    hide ObservedPlan, Dropped, Due, Settled;
    match m
    case EnterLoop =>
    case Look =>
    case NoteDesktop =>
    case UpdateRecovery =>
    case StartProbe =>
    case StartRecheck =>
    case StartRestore =>
    case Wait =>
    case Settle =>
    case BreakLoop =>
    case ThreadEnds =>
  }

  lemma DecidingKeepsThread(s: State, m: LoopMove)
    requires LoopCan(s, m) && Deciding(m) && ThreadOk(s.c, s.jobs.queue)
    ensures ThreadOk(Loop(s, m).c, s.jobs.queue)
  {
    hide ObservedPlan, Dropped, Due, Settled;
    match m
    case EnterLoop =>
    case Look =>
    case NoteDesktop =>
    case UpdateRecovery =>
    case StartProbe =>
    case StartRecheck =>
    case StartRestore =>
    case Wait =>
    case Settle =>
    case BreakLoop =>
    case ThreadEnds =>
  }

  lemma CallDecides(s: State, m: CallerMove)
    requires CallerCan(s, m) && (m.PauseCall? || m.ResumeCall? || m.StopCall?)
    ensures Decides(s, Caller(s, m))
    ensures ThreadOk(s.c, s.jobs.queue) ==> ThreadOk(Caller(s, m).c, s.jobs.queue)
  {
    hide Lookup, Dropped, Enqueued;
    match m
    case PauseCall =>
    case ResumeCall =>
    case StopCall =>
  }

  lemma CallerKeepsBook(s: State, m: CallerMove)
    requires BookOk(s) && CallerCan(s, m)
    ensures BookOk(Caller(s, m))
  {
    match m
    case Submit(_, _, _, _, _) => SubmitKeepsBook(s, m);
    case Withdraw(position, timeout, store) => DropKeepsBook(s, position, Refusal(timeout), store);
    case _ =>
      hide Caller, CallerCan;
      CallDecides(s, m);
      DecidingKeepsBook(s, Caller(s, m));
  }

  lemma WorkKeepsBook(s: State, m: WorkMove)
    requires BookOk(s) && WorkCan(s.worker, m)
    ensures BookOk(Work(s, m))
  {
  }

  lemma StartKeepsBook(s: State)
    requires BookOk(s) && LoopCan(s, StartExecute)
    ensures BookOk(Loop(s, StartExecute))
  {
    RemovalKeeps(s.jobs, 0, s.capacity);
  }

  lemma LoopKeepsBook(s: State, m: LoopMove)
    requires BookOk(s) && LoopCan(s, m)
    ensures BookOk(Loop(s, m))
  {
    match m
    case Drain(store) => DropKeepsBook(s, 0, NotReady, store);
    case Expire(position, timeout, store) => DropKeepsBook(s, position, Refusal(timeout), store);
    case StartExecute => StartKeepsBook(s);
    case _ =>
      hide Loop, LoopCan;
      LoopDecides(s, m);
      DecidingKeepsThread(s, m);
      DecidingKeepsBook(s, Loop(s, m));
  }

  lemma FinishingKeepsKeys(s: State, job: Job, reply: Reply, store: Store)
    ensures FinishedRows(s, job, reply, store).Keys == s.rows.Keys
  {
  }

  lemma ReceiptKeepsBook(s: State, m: ExchangeMove)
    requires BookOk(s) && ExchangeCan(s, m) && m.Receive?
    ensures BookOk(Exchange(s, m))
  {
    hide Delivered, UnknownIds, FinishedRows;
    FinishingKeepsKeys(s, s.jobs.active.value, s.worker.reply, m.store);
  }

  lemma ConclusionKeepsBook(s: State, m: ExchangeMove)
    requires BookOk(s) && ExchangeCan(s, m) && m.Conclude?
    ensures BookOk(Exchange(s, m))
  {
    hide Delivered, UnknownIds, FinishedRows;
    if s.jobs.active.Some? {
      FinishingKeepsKeys(s, s.jobs.active.value, s.jobs.interrupted.value, m.store);
    }
  }

  lemma ExchangeKeepsBook(s: State, m: ExchangeMove)
    requires BookOk(s) && ExchangeCan(s, m)
    ensures BookOk(Exchange(s, m))
  {
    match m
    case Receive(_) => ReceiptKeepsBook(s, m);
    case Conclude(_) => ConclusionKeepsBook(s, m);
    case _ =>
      hide Received, Concluded, InterruptReply;
  }
}
