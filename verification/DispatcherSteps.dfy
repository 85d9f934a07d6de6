/** What the dispatcher's methods do, as functions on states of the transition system, and that each of them is a run of
    moves the system allows (cn_futures_bridge/dispatch.py).
 */
module DispatcherSteps {
  import opened Base
  import opened Journal
  import opened Reconnect
  import opened Bridge
  import opened BridgeQueue
  import opened BridgeEffects
  import opened BridgeRecords
  import opened BridgeControl
  import opened BridgeTheorems
  import opened JournalTheorems

  datatype Admission = Admission(job: Job) | Replayed(reply: Reply) | Refused(code: Code, status: nat)

  datatype Choice = Pass | RunJob(job: Job) | RunProbe | RunResume | RunReconnect

  datatype Resumption = NotNow | ReconnectsSoon | Requested

  /** What the capability check says of a request (terminal/policy.py:21-37). */
  datatype Capability = Capable | WrongEnvironment | Unsupported

  // ----- Admission -----

  /** The prune that comes with a lookup; without a key there is no transaction. */
  function LookedUp(s: State, key: Option<Key>, store: Store): State {
    if key.None? || store == RolledBack then s else World(s, Maintain)
  }

  ghost function Found(s: State, op: Operation, key: Option<Key>, store: Store): Result<Option<Reply>, Code> {
    if key.Some? && store != Good then Err(StorageUnavailable) else Ok(Lookup(s.rows, s.namespace, op, key))
  }

  function Refuses(s: State, op: Operation): Option<Admission> {
    if s.c.stopping || s.c.failed || !s.c.ready || s.c.paused || s.c.state.blocked
       || !s.c.state.queryReady || (op.Writes() && !s.c.state.tradingReady)
    then Some(Refused(NotReady, 503))
    else if |s.jobs.queue| >= s.capacity then Some(Refused(Code.QueueFull, 429))
    else None
  }

  /** The journal after the admission transaction: pruned, and with a new record unless the key is known. */
  ghost function Written(s: State, id: Id, op: Operation, key: Option<Key>, store: Store): State {
    var p := LookedUp(s, Some(0), store);
    if Lookup(p.rows, p.namespace, op, key).Some? then p else Entered(p, id, op, key, store)
  }

  ghost function Recorded(s: State, id: Id, op: Operation, key: Option<Key>, deadline: Time, store: Store)
    : (State, Admission)
  {
    var p := LookedUp(s, Some(0), store);
    var found := Lookup(p.rows, p.namespace, op, key);
    if store != Good then (Written(s, id, op, key, store), Refused(StorageUnavailable, 503))
    else if found.Some? then (p, Replayed(found.value))
    else (Enqueued(p, id, op, key, deadline, Good), Admission(Job(id, op, key, s.jobs.nextNumber, deadline)))
  }

  ghost function Admitting(s: State, id: Id, op: Operation, key: Option<Key>, deadline: Time, store: Store)
    : (State, Admission)
  {
    if Refuses(s, op).Some? then (s, Refuses(s, op).value)
    else if op.Writes() then Recorded(s, id, op, key, deadline, store)
    else (Enqueued(s, id, op, key, deadline, Good), Admission(Job(id, op, key, s.jobs.nextNumber, deadline)))
  }

  /** The whole of `submit`; a request the capability check turns away changes nothing. */
  ghost function Submission(s: State, id: Id, op: Operation, key: Option<Key>, capability: Capability, cancelled: bool,
                            deadline: Time, looked: Store, admitted: Store): (State, Admission)
  {
    if capability == WrongEnvironment then (s, Refused(EnvironmentMismatch, 409))
    else if capability == Unsupported then (s, Refused(NotSupported, 501))
    else if cancelled then (s, Refused(RequestCancelled, 499))
    else if !op.Writes() then Admitting(s, id, op, key, deadline, admitted)
    else
      var p := LookedUp(s, key, looked);
      var found := Found(p, op, key, looked);
      if found.Err? then (p, Refused(StorageUnavailable, 503))
      else if found.value.Some? then (p, Replayed(found.value.value))
      else Admitting(p, id, op, key, deadline, admitted)
  }

  lemma PruneKeepsUnknown(rows: Rows, now: Time, ttl: Time, ns: Namespace)
    ensures UnknownIds(Pruned(rows, now, ttl), ns) == UnknownIds(rows, ns)
  {
  }

  lemma RecordsAreUsed(s: State)
    requires Reachable(s)
    ensures UniqueKeys(s.rows) && s.rows.Keys <= s.used
  {
    ReachableIsSound(s);
  }

  lemma MaintainIsAllowed(s: State)
    requires Reachable(s)
    ensures Reachable(World(s, Maintain)) && World(s, Maintain).c == s.c && World(s, Maintain).jobs == s.jobs
  {
    ReachStep(s, ByWorld(Maintain));
  }

  lemma RecordingIsAllowed(s: State, id: Id, op: Operation, key: Option<Key>, deadline: Time, store: Store)
    requires Reachable(s) && !Locked(s.c.thread) && id !in s.used && op.Writes() && Refuses(s, op).None?
    ensures var (t, answer) := Recorded(s, id, op, key, deadline, store); var p := LookedUp(s, Some(0), store);
            var submit := Bridge.Submit(id, op, key, deadline, Good);
            Reachable(t) && (answer.Admission? ==> CallerCan(p, submit) && t == Caller(p, submit))
  {
    hide Reachable;
    MaintainIsAllowed(s);
    var p := LookedUp(s, Some(0), store);
    if Lookup(p.rows, p.namespace, op, key).None? {
      ReachStep(p, ByCaller(Bridge.Submit(id, op, key, deadline, store)));
    }
  }

  /** The state an admission starts from: what is left after its own prune. */
  function Ready(s: State, op: Operation, store: Store): State {
    if op.Writes() then LookedUp(s, Some(0), store) else s
  }

  lemma AdmittingIsAllowed(s: State, id: Id, op: Operation, key: Option<Key>, deadline: Time, store: Store)
    requires Reachable(s) && !Locked(s.c.thread) && id !in s.used
    ensures var (t, answer) := Admitting(s, id, op, key, deadline, store); var p := Ready(s, op, store);
            var submit := Bridge.Submit(id, op, key, deadline, Good);
            Reachable(t) && (answer.Admission? ==> CallerCan(p, submit) && t == Caller(p, submit))
  {
    hide Reachable;
    if Refuses(s, op).None? {
      if op.Writes() {
        RecordingIsAllowed(s, id, op, key, deadline, store);
      } else {
        ReachStep(s, ByCaller(Bridge.Submit(id, op, key, deadline, Good)));
      }
    }
  }

  /** Submission is a run of allowed moves: at most two prunes, then an admission that the system allows. */
  lemma SubmissionIsAllowed(s: State, id: Id, op: Operation, key: Option<Key>, capability: Capability, cancelled: bool,
                            deadline: Time, looked: Store, admitted: Store)
    requires Reachable(s) && !Locked(s.c.thread) && id !in s.used
    ensures var (t, answer) := Submission(s, id, op, key, capability, cancelled, deadline, looked, admitted);
            var p := Ready(if op.Writes() then LookedUp(s, key, looked) else s, op, admitted);
            var submit := Bridge.Submit(id, op, key, deadline, Good);
            Reachable(t) && (answer.Admission? ==> CallerCan(p, submit) && t == Caller(p, submit))
  {
    hide Reachable, Admitting, Caller, CallerCan, Ready, Found;
    if !op.Writes() {
      AdmittingIsAllowed(s, id, op, key, deadline, admitted);
    } else {
      MaintainIsAllowed(s);
      AdmittingIsAllowed(LookedUp(s, key, looked), id, op, key, deadline, admitted);
    }
  }

  /** What the key answers after the prune that comes with a lookup. */
  lemma KeyAfterPrune(s: State, op: Operation, key: Key)
    requires Reachable(s)
    ensures var rows := Pruned(s.rows, s.now, s.ttl);
            && UniqueKeys(rows) && Pruned(rows, s.now, s.ttl) == rows
            && (Lookup(rows, s.namespace, op, Some(key)).Some? <==>
                  exists k :: k in s.rows && s.rows[k].namespace == s.namespace && s.rows[k].key == Some(key)
                    && !(s.rows[k].phase == Finished && s.rows[k].effect != Unknown
                         && s.rows[k].updated < s.now - s.ttl))
  {
    RecordsAreUsed(s);
    PruneKeepsUnique(s.rows, s.now, s.ttl);
    var rows := Pruned(s.rows, s.now, s.ttl);
    LookupIsExact(rows, s.namespace, op, key, 0);
    forall k ensures k in rows <==>
                       k in s.rows && !(s.rows[k].phase == Finished && s.rows[k].effect != Unknown
                                        && s.rows[k].updated < s.now - s.ttl) { }
  }

  /** A known key is answered from its record, before anything else is looked at: in every state of the flags and the
      queue, with the reply on record, with "in progress" while there is none, and with a conflict for another
      operation. Nothing changes but what a prune removes. */
  lemma ReplayComesFirst(s: State, id: Id, op: Operation, key: Key, deadline: Time, admitted: Store, holder: Id)
    requires Reachable(s) && op.kind != Query
    requires holder in s.rows && s.rows[holder].namespace == s.namespace && s.rows[holder].key == Some(key)
    requires s.rows[holder].phase != Finished || s.rows[holder].effect == Unknown
             || s.rows[holder].updated >= s.now - s.ttl
    ensures var (t, answer) := Submission(s, id, op, Some(key), Capable, false, deadline, Good, admitted);
            var row := s.rows[holder];
            && answer.Replayed? && t.c == s.c && t.jobs == s.jobs && t.used == s.used && t.worker == s.worker
            && (row.operation == op && row.reply.Some? ==> Some(answer.reply) == row.reply)
            && (row.operation == op && row.reply.None? ==>
                  answer.reply.id == holder && answer.reply.status == 409 && answer.reply.code == OperationInProgress)
            && (row.operation != op ==>
                  answer.reply.id == holder && answer.reply.status == 409 && answer.reply.code == IdempotencyConflict)
  {
    hide Reachable;
    KeyAfterPrune(s, op, key);
    LookupIsExact(Pruned(s.rows, s.now, s.ttl), s.namespace, op, key, holder);
  }

  lemma AdmittingIsExact(s: State, id: Id, op: Operation, key: Option<Key>, deadline: Time, store: Store)
    ensures var (t, answer) := Admitting(s, id, op, key, deadline, store);
            var write := op.kind != Query;
            var held := write && Lookup(Pruned(s.rows, s.now, s.ttl), s.namespace, op, key).Some?;
            var ready := s.c.ready && s.c.state.queryReady && (write ==> s.c.state.tradingReady) && !s.c.state.blocked
                         && !s.c.paused && !s.c.failed && !s.c.stopping;
            && (answer == Refused(NotReady, 503) <==> !ready)
            && (answer == Refused(Code.QueueFull, 429) <==> ready && |s.jobs.queue| >= s.capacity)
            && (answer == Refused(StorageUnavailable, 503) <==>
                  ready && |s.jobs.queue| < s.capacity && write && store != Good)
            && (answer.Replayed? <==> ready && |s.jobs.queue| < s.capacity && write && store == Good && held)
            && (answer.Admission? <==>
                  ready && |s.jobs.queue| < s.capacity && (write ==> store == Good && !held))
            && (answer.Refused? ==> answer.code in {NotReady, Code.QueueFull, StorageUnavailable})
            && (answer.Admission? ==>
                  && answer.job == Job(id, op, key, s.jobs.nextNumber, deadline)
                  && t.jobs.queue == s.jobs.queue + [answer.job] && (write ==> id in t.rows && t.rows[id].key == key))
            && (!answer.Admission? ==> t.jobs == s.jobs)
  {
  }

  /** When a request is admitted, when it is replayed, and what exactly each refusal means, in the order of the
      checks. */
  lemma SubmissionIsExact(s: State, id: Id, op: Operation, key: Option<Key>, capability: Capability, cancelled: bool,
                          deadline: Time, looked: Store, admitted: Store)
    requires Reachable(s)
    ensures var (t, answer) := Submission(s, id, op, key, capability, cancelled, deadline, looked, admitted);
            var write := op.kind != Query;
            var held := key.Some? && exists k ::
                          k in s.rows && s.rows[k].namespace == s.namespace && s.rows[k].key == key
                          && !(s.rows[k].phase == Finished && s.rows[k].effect != Unknown
                               && s.rows[k].updated < s.now - s.ttl);
            var lookup := write && key.Some?;
            var asked := capability == Capable && !cancelled;
            var clear := asked && (lookup ==> looked == Good && !held);
            var ready := s.c.ready && s.c.state.queryReady && (write ==> s.c.state.tradingReady) && !s.c.state.blocked
                         && !s.c.paused && !s.c.failed && !s.c.stopping;
            && (answer == Refused(EnvironmentMismatch, 409) <==> capability == WrongEnvironment)
            && (answer == Refused(NotSupported, 501) <==> capability == Unsupported)
            && (answer == Refused(RequestCancelled, 499) <==> capability == Capable && cancelled)
            && (answer.Replayed? <==> asked && lookup && looked == Good && held)
            && (answer == Refused(NotReady, 503) <==> clear && !ready)
            && (answer == Refused(Code.QueueFull, 429) <==> clear && ready && |s.jobs.queue| >= s.capacity)
            && (answer == Refused(StorageUnavailable, 503) <==>
                  || (asked && lookup && looked != Good)
                  || (clear && ready && |s.jobs.queue| < s.capacity && write && admitted != Good))
            && (answer.Admission? <==>
                  clear && ready && |s.jobs.queue| < s.capacity && (write ==> admitted == Good))
            && (answer.Admission? ==>
                  && answer.job == Job(id, op, key, s.jobs.nextNumber, deadline)
                  && t.jobs.queue == s.jobs.queue + [answer.job] && (write ==> id in t.rows && t.rows[id].key == key))
            && (!answer.Admission? ==> t.jobs == s.jobs)
  {
    hide Reachable, Admitting, Lookup, Pruned;
    NoKeyIsFree(s, op);
    if key.Some? { KeyAfterPrune(s, op, key.value); }
    AdmittingIsExact(s, id, op, key, deadline, admitted);
    AdmittingIsExact(LookedUp(s, key, looked), id, op, key, deadline, admitted);
  }

  lemma NoKeyIsFree(s: State, op: Operation)
    ensures forall rows :: Lookup(rows, s.namespace, op, None).None?
  {
  }

  // ----- The dispatch thread -----

  function Noted(s: State): State {
    if s.c.desktop.None? then s
    else s.(c := s.c.(state := s.c.state.(blocked := true, queryReady := false, tradingReady := false)))
  }

  function DroppedAll(s: State, stores: seq<Store>): State
    requires |stores| >= |s.jobs.queue|
    decreases |s.jobs.queue|
  {
    if s.jobs.queue == [] then s else DroppedAll(Dropped(s, 0, NotReady, stores[0]), stores[1..])
  }

  function Emptied(s: State, stores: seq<Store>): State
    requires |stores| >= |s.jobs.queue|
  {
    if MustDrain(s.c) then DroppedAll(s, stores) else s
  }

  /** Where the queue may be emptied. */
  predicate MayDrain(c: Control) {
    ((c.thread == Updating || c.thread == Settling) && MustDrain(c)) || c.thread == Ending
  }

  /** A waiting request that the dispatch thread turns away before it chooses. */
  predicate Doomed(job: Job, cancelled: set<Id>, now: Time) {
    job.id in cancelled || now > job.deadline
  }

  function Remaining(queue: seq<Job>, cancelled: set<Id>, now: Time): seq<Job> {
    if queue == [] then []
    else
      var n := |queue| - 1;
      Remaining(queue[..n], cancelled, now) + if Doomed(queue[n], cancelled, now) then [] else [queue[n]]
  }

  /** Where the next request stands while those before it have been looked at, and what the queue is afterwards. */
  lemma RemainingGoesOn(items: seq<Job>, i: nat, cancelled: set<Id>, now: Time, queue: seq<Job>)
    requires i < |items| && queue == Remaining(items[..i], cancelled, now) + items[i..]
    ensures var at := |Remaining(items[..i], cancelled, now)|;
            && at < |queue| && queue[at] == items[i]
            && (if Doomed(items[i], cancelled, now) then RemoveAt(queue, at) else queue)
               == Remaining(items[..i + 1], cancelled, now) + items[i + 1..]
  {
    var kept := Remaining(items[..i], cancelled, now);
    assert items[..i + 1][..i] == items[..i] && items[i..] == [items[i]] + items[i + 1..];
    assert RemoveAt(kept + items[i..], |kept|) == kept + items[i + 1..];
    assert kept + items[i..] == kept + [items[i]] + items[i + 1..];
  }

  /** What is done next: a pending resume, a due reconnect, a probe, or the oldest request. */
  function Chosen(s: State, probeTime: bool): Choice {
    if s.c.resumePending then RunResume
    else if s.c.paused then Pass
    else if Due(s.c.plan, s.now) then RunReconnect
    else if s.c.state.blocked || (s.jobs.queue == [] && !probeTime) then Pass
    else if s.jobs.queue == [] then RunProbe
    else RunJob(s.jobs.queue[0])
  }

  function MoveOf(choice: Choice): LoopMove {
    match choice
    case Pass => LoopMove.Wait
    case RunJob(_) => StartExecute
    case RunProbe => StartProbe
    case RunResume => StartRecheck
    case RunReconnect => StartRestore
  }

  lemma ChosenIsAllowed(s: State, probeTime: bool)
    requires s.c.thread == Choosing
    ensures LoopCan(s, MoveOf(Chosen(s, probeTime)))
  {
  }

  /** What is done next, and why not anything else. */
  lemma ChoiceIsExact(s: State, probeTime: bool)
    ensures var choice := Chosen(s, probeTime); var idle := !s.c.resumePending && !s.c.paused;
            var due := s.c.plan.deadline.Some? && s.now >= s.c.plan.deadline.value;
            && (choice == RunResume <==> s.c.resumePending)
            && (choice == RunReconnect <==> idle && due)
            && (choice == RunProbe <==> idle && !due && !s.c.state.blocked && s.jobs.queue == [] && probeTime)
            && (choice.RunJob? <==> idle && !due && !s.c.state.blocked && s.jobs.queue != [])
            && (choice.RunJob? ==> choice.job == s.jobs.queue[0])
            && (choice == Pass <==>
                  !s.c.resumePending
                  && (s.c.paused || (!due && (s.c.state.blocked || (s.jobs.queue == [] && !probeTime)))))
  {
  }

  // ----- What callers are told -----

  /** A request turned away is out of the queue, the others keep their order, and its caller is told why: that it was
      cancelled, that its time was over or that nothing can be executed, and in no case that it did anything; a write
      whose record cannot be closed gets the storage error and stops the service. */
  lemma TurnedAwayIsExact(s: State, position: nat, code: Code, store: Store)
    requires Reachable(s) && position < |s.jobs.queue| && code in {QueueTimeout, RequestCancelled, NotReady}
    ensures var job := s.jobs.queue[position]; var t := Dropped(s, position, code, store);
            var lost := job.operation.kind != Query && store != Good;
            && t.jobs.queue == s.jobs.queue[..position] + s.jobs.queue[position + 1..] && job.id in t.jobs.futures
            && var told := t.jobs.futures[job.id];
            && told.id == job.id && told.submission == Nothing && told.facts == NO_FACTS
            && (lost ==> told.status == 503 && told.code == StorageUnavailable && t.c.failed)
            && (!lost ==> told.code == code && t.c.failed == s.c.failed
                          && told.status == match code {
                               case QueueTimeout => 504
                               case RequestCancelled => 499
                               case _ => 503
                             })
            && (job.operation.kind != Query && store == Good ==>
                  job.id in t.rows && t.rows[job.id].reply == Some(told) && t.rows[job.id].phase == Finished)
            && (job.operation.kind == Query ==> t.rows == s.rows)
  {
    hide Reachable;
    ReachableIsSound(s);
  }

  /** What a caller gets for a finished request: the reply, or, when a write's record could not be closed, a storage
      error with the same submission status; and what he once got stays. */
  lemma AnswerIsExact(futures: map<Id, Reply>, job: Job, reply: Reply, store: Store)
    ensures var after := Settles(futures, job, reply, store);
            && job.id in after && (job.id in futures ==> after == futures)
            && (job.id !in futures && (job.operation.kind == Query || store == Good) ==>
                  after == futures[job.id := reply])
            && (job.id !in futures && job.operation.kind != Query && store != Good ==>
                  after == futures[job.id := Reply(job.id, 503, reply.submission, StorageUnavailable, NO_FACTS)])
  {
  }

  /** What is told of the request whose executor was lost. */
  lemma LossIsToldExactly(s: State, job: Job, store: Store)
    ensures var told := InterruptReply(s, job, store);
            && (job.operation.kind == Query ==> told == Reply(job.id, 503, Nothing, OperationError, NO_FACTS))
            && (job.operation.kind != Query && store != Good ==>
                  told == Reply(job.id, 503, Unknown, StorageUnavailable, NO_FACTS))
            && (job.operation.kind != Query && store == Good ==> told == InterruptedReply(s.rows, job.id))
  {
  }

  /** When the waiting requests are turned away: exactly when the executor is blocked or not ready, the service
      failed, or the desktop shows an error. */
  lemma QueueIsEmptiedExactly(s: State, stores: seq<Store>)
    requires |stores| >= |s.jobs.queue|
    ensures var t := Emptied(Noted(s), stores);
            var stopped := s.c.state.blocked || s.c.failed || !s.c.state.queryReady || s.c.desktop.Some?;
            && (stopped ==> t.jobs.queue == []) && (!stopped ==> t == s)
            && (s.c.desktop.Some? ==> t.c.state.blocked && !t.c.state.queryReady && !t.c.state.tradingReady)
  {
    EmptyingKeeps(Noted(s), stores);
  }

  /** What the timer is told: the desktop's error before the executor's, and safe only with clear ownership, nothing
      unknown on record, no failure and no error of the desktop. */
  lemma TimerIsToldExactly(c: Control, now: Time)
    ensures ObservedPlan(c, now)
            == Observed(c.plan, now, if c.desktop.Some? then c.desktop else c.state.error,
                        c.state.ownershipClear && c.unresolved == 0 && !c.failed && c.desktop.None?)
  {
  }

  // ----- One move at a time -----

  lemma LoopStep(s: State, m: LoopMove)
    requires Reachable(s) && LoopCan(s, m)
    ensures Reachable(Loop(s, m))
  {
    hide Reachable;
    ReachStep(s, ByLoop(m));
  }

  lemma ExchangeStep(s: State, m: ExchangeMove)
    requires Reachable(s) && ExchangeCan(s, m)
    ensures Reachable(Exchange(s, m))
  {
    hide Reachable;
    ReachStep(s, ByExchange(m));
  }

  lemma CallerStep(s: State, m: CallerMove)
    requires Reachable(s) && CallerCan(s, m)
    ensures Reachable(Caller(s, m))
  {
    hide Reachable;
    ReachStep(s, ByCaller(m));
  }

  // ----- What each step leaves in the fields -----

  function Settles(futures: map<Id, Reply>, job: Job, reply: Reply, store: Store): map<Id, Reply> {
    if job.id in futures then futures else futures[job.id := Delivered(job, reply, store)]
  }

  /** Only these flags can have changed when a job was finished. */
  predicate Kept(c: Control, t: Control) {
    && t.thread == c.thread && t.paused == c.paused && t.stopping == c.stopping && t.ready == c.ready
    && t.ownerBusy == c.ownerBusy && t.resumePending == c.resumePending && t.plan == c.plan
  }

  predicate SameFrame(s: State, t: State) {
    t.capacity == s.capacity && t.namespace == s.namespace && t.ttl == s.ttl && t.now == s.now
  }

  /** The record of a finished job, the count, the flags and the answer. */
  predicate FinishedFields(s: State, t: State, state: WorkerState, job: Job, reply: Reply, store: Store) {
    && t.rows == (if job.operation.Writes() && store != RolledBack then Closed(s.rows, reply, s.now) else s.rows)
    && t.jobs.futures == Settles(s.jobs.futures, job, reply, store) && t.jobs.nextNumber == s.jobs.nextNumber
    && t.c.failed == (s.c.failed || RecordLost(job, store))
    && t.c.unresolved == (if job.operation.Writes() && store == Good then |UnknownIds(t.rows, s.namespace)|
                          else s.c.unresolved)
    && t.c.state == if RecordLost(job, store) then state.(error := Some(ErrorDetail(StorageLost, 0))) else state
  }

  lemma DropFields(s: State, at: nat, code: Code, store: Store)
    requires at < |s.jobs.queue|
    ensures var t := Dropped(s, at, code, store);
            && FinishedFields(s, t, s.c.state, s.jobs.queue[at], RefusalReply(s.jobs.queue[at].id, code), store)
            && t.jobs.queue == RemoveAt(s.jobs.queue, at) && t.jobs.active == s.jobs.active
            && Kept(s.c, t.c) && SameFrame(s, t) && t.c.desktop == s.c.desktop
  {
  }

  lemma ReceivedFields(s: State, store: Store)
    requires s.jobs.active.Some? && s.worker.Answered?
    ensures var t := Received(s, store);
            && FinishedFields(s, t, s.c.state, s.jobs.active.value, s.worker.reply, store)
            && t.jobs.queue == s.jobs.queue && t.jobs.active == None
            && Kept(s.c, t.c.(thread := s.c.thread)) && SameFrame(s, t)
  {
  }

  lemma ConcludedFields(s: State, store: Store)
    requires s.jobs.active.Some? && s.jobs.interrupted.Some?
    ensures var t := Concluded(s, store);
            && FinishedFields(s, t, s.c.state, s.jobs.active.value, s.jobs.interrupted.value, store)
            && t.jobs.queue == s.jobs.queue && t.jobs.active == s.jobs.active
            && Kept(s.c, t.c.(thread := s.c.thread)) && SameFrame(s, t)
  {
  }

  function Entering(s: State): State {
    s.(c := s.c.(paused := s.c.paused || s.c.unresolved != 0, thread := Looping))
  }

  lemma EnteringStep(s: State)
    requires Reachable(s) && s.c.thread == Booted
    ensures LoopCan(s, EnterLoop) && Loop(s, EnterLoop) == Entering(s) && Reachable(Entering(s))
  {
    LoopStep(s, EnterLoop);
  }

  lemma InterruptedFields(s: State, store: Store)
    requires s.jobs.active.Some?
    ensures var t := Interrupted(s, store);
            && t.jobs == s.jobs.(interrupted := Some(InterruptReply(s, s.jobs.active.value, store)))
            && t.c == s.c.(clean := t.c.clean) && t.rows == s.rows && SameFrame(s, t)
  {
  }

  lemma FailedFields(s: State, gone: bool)
    requires s.c.thread.Busy?
    ensures ExchangeCan(s, ExchangeFails(gone))
    ensures var t := Exchange(s, ExchangeFails(gone));
            && t.rows == s.rows && t.jobs == s.jobs && SameFrame(s, t)
            && t.c.state == Broken(s.c.state) && t.c.state.blocked && t.c.failed && t.c.unresolved == s.c.unresolved
            && t.c.paused == s.c.paused && t.c.stopping == s.c.stopping && t.c.ready == s.c.ready
            && t.c.ownerBusy == s.c.ownerBusy && t.c.resumePending == s.c.resumePending && t.c.plan == s.c.plan
  {
  }

  lemma ResumeFields(s: State)
    requires s.c.thread == Busy(Recheck)
    ensures var t := TaskFinished(s);
            && t.rows == s.rows && t.jobs == s.jobs && SameFrame(s, t)
            && t.c.state == s.c.state && t.c.paused == (s.c.paused && s.c.state.blocked) && !t.c.resumePending
            && t.c.failed == s.c.failed && t.c.stopping == s.c.stopping && t.c.ready == s.c.ready
            && t.c.ownerBusy == s.c.ownerBusy && t.c.plan == s.c.plan && t.c.unresolved == s.c.unresolved
  {
  }

  lemma WrittenFields(s: State, id: Id, op: Operation, key: Option<Key>, store: Store)
    requires op.Writes()
    ensures var t := Written(s, id, op, key, store);
            var pruned := Pruned(s.rows, s.now, s.ttl);
            && t.rows == (if store == RolledBack then s.rows
                          else if Lookup(pruned, s.namespace, op, key).Some? then pruned
                          else Admitted(pruned, id, s.namespace, op, key, s.now))
            && t.jobs == s.jobs && Kept(s.c, t.c) && t.c.failed == s.c.failed && t.c.state == s.c.state
            && t.c.unresolved == s.c.unresolved && SameFrame(s, t)
  {
  }

  lemma {:induction false} EmptyingKeeps(s: State, stores: seq<Store>)
    requires |stores| >= |s.jobs.queue|
    ensures var t := DroppedAll(s, stores);
            t.jobs.queue == [] && SameFrame(s, t) && t.c.desktop == s.c.desktop && Kept(s.c, t.c)
            && t.c.state == s.c.state.(error := t.c.state.error) && (s.c.failed ==> t.c.failed)
    decreases |s.jobs.queue|
  {
    hide Dropped, FinishedFields;
    if s.jobs.queue != [] {
      DropFields(s, 0, NotReady, stores[0]);
      DropKeepsState(s, stores[0]);
      EmptyingKeeps(Dropped(s, 0, NotReady, stores[0]), stores[1..]);
    }
  }

  lemma DropKeepsState(s: State, store: Store)
    requires s.jobs.queue != []
    ensures var t := Dropped(s, 0, NotReady, store);
            && t.c.state.blocked == s.c.state.blocked && t.c.state.queryReady == s.c.state.queryReady
            && (s.c.failed ==> t.c.failed) && t.c.thread == s.c.thread && (MayDrain(s.c) ==> MayDrain(t.c))
  {
  }
}
