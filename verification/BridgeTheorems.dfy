/** The main results about the bridge: they hold in every state it can reach, or along every run. */
module BridgeTheorems {
  import opened Base
  import opened Journal
  import opened Execution
  import opened Reconnect
  import opened Bridge
  import opened BridgeQueue
  import opened BridgeEffects
  import opened BridgeHistory
  import opened BridgeRecords
  import opened BridgeControl

  ghost predicate Invariant(s: State) {
    Sound(s) && HistoryKept(s) && PlanOk(s.c) && ChoiceOk(s.c, s.jobs.queue)
  }

  lemma SoundIsKept(s: State, m: Move)
    requires Sound(s) && Can(s, m)
    ensures Sound(Next(s, m))
  {
    match m
    case ByWorld(w) => WorldKeepsBook(s, w); WorldKeepsEffects(s, w); WorldKeepsRecords(s, w);
    case ByCaller(c) => CallerKeepsBook(s, c); CallerKeepsEffects(s, c); CallerKeepsRecords(s, c);
    case ByWorker(w) => WorkKeepsBook(s, w); WorkKeepsEffects(s, w); WorkKeepsRecords(s, w);
    case ByLoop(l) => LoopKeepsBook(s, l); LoopKeepsEffects(s, l); LoopKeepsRecords(s, l);
    case ByExchange(e) => ExchangeKeepsBook(s, e); ExchangeKeepsEffects(s, e); ExchangeKeepsRecords(s, e);
  }

  lemma HistoryIsKept(s: State, m: Move)
    requires Sound(s) && HistoryKept(s) && Can(s, m)
    ensures HistoryKept(Next(s, m))
  {
    match m
    case ByWorld(w) => WorldKeepsHistory(s, w);
    case ByCaller(c) => CallerKeepsHistory(s, c);
    case ByWorker(w) => WorkKeepsHistory(s, w);
    case ByLoop(l) => LoopKeepsHistory(s, l);
    case ByExchange(e) => ExchangeKeepsHistory(s, e);
  }

  lemma StartIsSound(s: State)
    requires Begins(s)
    ensures Invariant(s)
  {
  }

  lemma InvariantIsKept(s: State, m: Move)
    requires Invariant(s) && Can(s, m)
    ensures Invariant(Next(s, m))
  {
    SoundIsKept(s, m);
    HistoryIsKept(s, m);
    PlanIsKept(s, m);
    ChoiceIsKept(s, m);
  }

  lemma {:induction false} RunKeepsInvariant(states: seq<State>, moves: seq<Move>, n: nat)
    requires Run(states, moves) && Invariant(states[0]) && n <= |moves|
    ensures Invariant(states[n])
  {
    if n > 0 {
      var k := n - 1;
      RunKeepsInvariant(states, moves, k);
      assert states[k + 1] == Next(states[k], moves[k]);
      InvariantIsKept(states[k], moves[k]);
    }
  }

  lemma ReachableIsSound(s: State)
    requires Reachable(s)
    ensures Invariant(s)
  {
    var states, moves :| Run(states, moves) && Begins(states[0]) && states[|moves|] == s;
    StartIsSound(states[0]);
    RunKeepsInvariant(states, moves, |moves|);
  }

  // ----- Write-ahead crash safety -----

  /** Every place a verdict on a request can be read from: the journal, the caller's future, the executor's answer, the
      dispatcher's reply after losing the executor, and what a restart at this very moment would record. */
  ghost predicate Verdict(s: State, id: Id, v: Reply) {
    || (id in s.rows && s.rows[id].reply == Some(v))
    || (id in s.jobs.futures && s.jobs.futures[id] == v)
    || (s.worker.Answered? && s.worker.reply == v && v.id == id)
    || (s.jobs.interrupted == Some(v) && v.id == id)
    || (id in s.rows && s.rows[id].reply.None? && v == RecoveryReply(id, s.rows[id]))
    || (Executing(s.worker, id) && v == InterruptedReply(s.rows, id))
  }

  /** If the request did anything in the terminal, no verdict ever says "not executed", at whatever point the process
      died or the executor was lost. */
  lemma CrashSafety(s: State, id: Id, v: Reply)
    requires Reachable(s) && Acted(s.events, id) && Verdict(s, id, v)
    ensures v.submission != Nothing
  {
    ReachableIsSound(s);
  }

  /** "Not executed" is final: a request with that verdict has done nothing and never will, in any continuation. */
  lemma NotExecutedIsFinal(states: seq<State>, moves: seq<Move>, i: nat, k: nat, id: Id, v: Reply)
    requires Run(states, moves) && Begins(states[0]) && i <= k <= |moves|
    requires id in states[i].rows && states[i].rows[id].reply == Some(v) && v.submission == Nothing
    ensures !Acted(states[k].events, id)
  {
    StartIsSound(states[0]);
    DeadStayDead(states, moves, i, k, id);
  }

  /** A recorded "nothing happened" leaves the request inert for good. */
  lemma {:induction false} DeadStayDead(states: seq<State>, moves: seq<Move>, i: nat, k: nat, id: Id)
    requires Run(states, moves) && Invariant(states[0]) && i <= k <= |moves|
    requires id in states[i].rows && states[i].rows[id].reply.Some?
             && states[i].rows[id].reply.value.submission == Nothing
    ensures Inert(states[k], id) && !InQueue(states[k].jobs.queue, id) && id in states[k].used
  {
    if k == i {
      RunKeepsInvariant(states, moves, i);
    } else {
      var p := k - 1;
      DeadStayDead(states, moves, i, p, id);
      RunKeepsInvariant(states, moves, p);
      assert states[p + 1] == Next(states[p], moves[p]);
      InertStays(states[p], moves[p], id);
    }
  }

  lemma CallerKeepsInert(s: State, m: CallerMove, id: Id)
    requires Sound(s) && CallerCan(s, m) && Inert(s, id) && !InQueue(s.jobs.queue, id) && id in s.used
    ensures var t := Caller(s, m); Inert(t, id) && !InQueue(t.jobs.queue, id) && id in t.used
  {
    match m
    case Submit(i, op, key, deadline, _) => AppendKeeps(s.jobs.queue, Job(i, op, key, s.jobs.nextNumber, deadline));
    case Withdraw(position, _, _) => RemovalKeeps(s.jobs, position, s.capacity);
    case _ =>
  }

  lemma WorkKeepsInert(s: State, m: WorkMove, id: Id)
    requires Sound(s) && WorkCan(s.worker, m) && Inert(s, id)
    ensures Inert(Work(s, m), id)
  {
    if m.Follow? { ActionsAreWrittenAhead(s.worker.exec.kind, s.worker.exec.pc, m.edge); }
  }

  lemma LoopKeepsInert(s: State, m: LoopMove, id: Id)
    requires Sound(s) && LoopCan(s, m) && Inert(s, id) && !InQueue(s.jobs.queue, id) && id in s.used
    ensures var t := Loop(s, m); Inert(t, id) && !InQueue(t.jobs.queue, id) && id in t.used
  {
    if m.Drain? || m.StartExecute? { RemovalKeeps(s.jobs, 0, s.capacity); }
    if m.Expire? { RemovalKeeps(s.jobs, m.position, s.capacity); }
  }

  lemma ExchangeKeepsInert(s: State, m: ExchangeMove, id: Id)
    requires Sound(s) && ExchangeCan(s, m) && Inert(s, id) && !InQueue(s.jobs.queue, id) && id in s.used
    ensures var t := Exchange(s, m); Inert(t, id) && !InQueue(t.jobs.queue, id) && id in t.used
  {
  }

  lemma InertStays(s: State, m: Move, id: Id)
    requires Sound(s) && Can(s, m) && Inert(s, id) && !InQueue(s.jobs.queue, id) && id in s.used
    ensures var t := Next(s, m); Inert(t, id) && !InQueue(t.jobs.queue, id) && id in t.used
  {
    match m
    case ByWorld(w) => assert Inert(World(s, w), id);
    case ByCaller(c) => CallerKeepsInert(s, c, id);
    case ByWorker(w) => WorkKeepsInert(s, w, id); assert Work(s, w).jobs == s.jobs;
    case ByLoop(l) => LoopKeepsInert(s, l, id);
    case ByExchange(e) => ExchangeKeepsInert(s, e, id);
  }

  // ----- At most one send -----

  /** No request sends or cancels twice, and none repeats any other action either, over all restarts. */
  lemma AtMostOneSend(s: State, id: Id)
    requires Reachable(s)
    ensures Sends(s.events, id) <= 1
    ensures forall action :: s.events[Event(id, action)] <= 1
  {
    ReachableIsSound(s);
  }

  /** Two executions under one idempotency key belong to different requests, and between them the record of the earlier
      one was removed: finished, not unknown, and untouched for longer than the protection time. */
  lemma RepeatedKeysAreSeparated(s: State, i: nat, k: nat)
    requires Reachable(s) && i < k < |s.marks| && SameKey(s.marks[i], s.marks[k])
    ensures s.marks[i].id != s.marks[k].id
    ensures exists m :: i < m < k && s.marks[m].Expunged? && s.marks[i].id in s.marks[m].rows
                        && Expired(s.marks[m].rows[s.marks[i].id], s.marks[m].at, s.ttl)
  {
    ReachableIsSound(s);
    var m :| i < m < k <= |s.marks| && s.marks[m].Expunged? && s.marks[i].id in s.marks[m].rows;
  }

  // ----- Journal, queue and futures -----

  /** Queued writes are exactly the untouched open records; barring storage failure, every other open record belongs to
      the request being executed. */
  lemma JournalAndQueueAgree(s: State, id: Id)
    requires Reachable(s)
    ensures forall i :: 0 <= i < |s.jobs.queue| && s.jobs.queue[i].operation.Writes() ==>
                          HasFreshRow(s.rows, s.namespace, s.jobs.queue[i])
    ensures s.c.clean && id in s.rows && Pending(s.rows[id], s.namespace) ==>
              InQueue(s.jobs.queue, id) || (Holding(s.jobs, s.c.thread) && s.jobs.active.value.id == id)
  {
    ReachableIsSound(s);
  }

  /** When the dispatch thread is gone nobody is left waiting, and nobody can be left waiting again. */
  lemma NoFutureLeftOpen(s: State)
    requires Reachable(s) && s.c.thread == Done
    ensures s.jobs.open == {}
    ensures forall m :: CallerCan(s, m) ==> !m.Submit?
  {
    ReachableIsSound(s);
  }

  /** An answer given stays, and a waiting request keeps waiting until it has one. */
  ghost predicate AnsweredOnce(j: Jobs, k: Jobs, id: Id) {
    && (id in j.futures ==> id in k.futures && k.futures[id] == j.futures[id])
    && (id in j.open ==> (id in k.open) != (id in k.futures))
  }

  lemma CallerAnswersOnce(s: State, m: CallerMove, id: Id)
    requires BookOk(s) && CallerCan(s, m)
    ensures AnsweredOnce(s.jobs, Caller(s, m).jobs, id)
  {
  }

  lemma LoopAnswersOnce(s: State, m: LoopMove, id: Id)
    requires BookOk(s) && LoopCan(s, m)
    ensures AnsweredOnce(s.jobs, Loop(s, m).jobs, id)
  {
  }

  lemma ExchangeAnswersOnce(s: State, m: ExchangeMove, id: Id)
    requires BookOk(s) && ExchangeCan(s, m)
    ensures AnsweredOnce(s.jobs, Exchange(s, m).jobs, id)
  {
  }

  /** A future is answered once: an answer given stays the same until the process ends, and a waiting request is never
      lost, only answered. */
  lemma FuturesAreAnsweredOnce(s: State, m: Move, id: Id)
    requires Reachable(s) && Can(s, m) && !(m.ByWorld? && m.world.Restart?)
    ensures AnsweredOnce(s.jobs, Next(s, m).jobs, id)
  {
    ReachableIsSound(s);
    match m
    case ByWorld(w) => assert World(s, w).jobs == s.jobs;
    case ByCaller(c) => CallerAnswersOnce(s, c, id);
    case ByWorker(w) => assert Work(s, w).jobs == s.jobs;
    case ByLoop(l) => LoopAnswersOnce(s, l, id);
    case ByExchange(e) => ExchangeAnswersOnce(s, e, id);
  }

  /** The answer a caller got is the answer a repeated request with the same key gets, as long as the record lives. */
  lemma ReplayRepeatsTheAnswer(s: State, id: Id)
    requires Reachable(s) && s.c.clean && !s.c.abandoned
    requires id in s.jobs.futures && id in s.rows && s.rows[id].key.Some?
    ensures Lookup(s.rows, s.rows[id].namespace, s.rows[id].operation, s.rows[id].key) == Some(s.jobs.futures[id])
  {
    ReachableIsSound(s);
    assert Holds(s.rows, id, s.rows[id].namespace, s.rows[id].key.value);
    UniqueLookup(s.rows, s.rows[id].namespace, s.rows[id].operation, s.rows[id].key.value, id);
  }

  // ----- What a record says -----

  /** A 202 means the effect on record is submitted, wherever the reply is read. */
  lemma AcceptedIsSubmitted(s: State, id: Id, v: Reply)
    requires Reachable(s) && id in s.rows && v.status == 202
    requires s.rows[id].reply == Some(v) || (id in s.jobs.futures && s.jobs.futures[id] == v)
    ensures s.rows[id].effect == Submitted
  {
    ReachableIsSound(s);
  }

  /** The dispatcher closes a request as unknown although its record, saved after it was read or unreadable then, holds
      a verdict. */
  predicate ConcludesOverVerdict(s: State, m: Move, id: Id) {
    && m.ByExchange? && m.exchange.Conclude? && m.exchange.store != RolledBack
    && s.jobs.active.Some? && s.jobs.active.value.id == id && s.jobs.active.value.operation.Writes()
    && s.jobs.interrupted.Some? && s.jobs.interrupted.value.submission == Unknown
    && id in s.rows && IsVerdict(s.rows[id].effect)
  }

  /** An executor that was given up, and had done nothing, closes the record after the dispatcher closed it as
      unknown. */
  predicate StrayFinishesClean(s: State, m: Move, id: Id) {
    && m.ByWorker? && m.work.FinishWork? && m.work.artifacts && m.work.store != RolledBack
    && Executing(s.worker, id) && s.worker.exec.effect == Nothing
    && id in s.rows && s.rows[id].effect == Unknown
  }

  /** Nobody else lowers an effect. */
  lemma WorldLowersNothing(s: State, m: WorldMove, id: Id)
    requires Sound(s) && WorldCan(m) && id in s.rows && id in World(s, m).rows
    ensures Climbs(s.rows[id].effect, World(s, m).rows[id].effect)
  {
  }

  lemma DropLowersNothing(s: State, position: nat, code: Code, store: Store, id: Id)
    requires Sound(s) && position < |s.jobs.queue| && id in s.rows
    ensures Climbs(s.rows[id].effect, Dropped(s, position, code, store).rows[id].effect)
  {
    hide UnknownIds;
  }

  lemma CallerLowersNothing(s: State, m: CallerMove, id: Id)
    requires Sound(s) && CallerCan(s, m) && id in s.rows
    ensures Climbs(s.rows[id].effect, Caller(s, m).rows[id].effect)
  {
    hide Dropped;
    if m.Withdraw? { DropLowersNothing(s, m.position, Refusal(m.timeout), m.store, id); }
  }

  lemma LoopLowersNothing(s: State, m: LoopMove, id: Id)
    requires Sound(s) && LoopCan(s, m) && id in s.rows
    ensures Climbs(s.rows[id].effect, Loop(s, m).rows[id].effect)
  {
    hide Dropped;
    match m
    case Drain(store) => DropLowersNothing(s, 0, NotReady, store, id);
    case Expire(position, timeout, store) => DropLowersNothing(s, position, Refusal(timeout), store, id);
    case StartExecute =>
    case _ => LoopDecides(s, m);
  }

  lemma WorkFallsExactly(s: State, m: WorkMove, id: Id)
    requires Sound(s) && WorkCan(s.worker, m) && id in s.rows
    ensures !Climbs(s.rows[id].effect, Work(s, m).rows[id].effect) <==> StrayFinishesClean(s, ByWorker(m), id)
    ensures StrayFinishesClean(s, ByWorker(m), id) ==> s.c.abandoned
  {
    if m.Follow? { EdgesTrackEffect(s.worker.exec.kind, s.worker.exec.pc, m.edge); }
  }

  lemma ExchangeFallsExactly(s: State, m: ExchangeMove, id: Id)
    requires Sound(s) && ExchangeCan(s, m) && id in s.rows
    ensures !Climbs(s.rows[id].effect, Exchange(s, m).rows[id].effect) <==> ConcludesOverVerdict(s, ByExchange(m), id)
    ensures ConcludesOverVerdict(s, ByExchange(m), id) ==> s.c.abandoned || !s.c.clean
  {
  }

  /** The effect on record climbs, from nothing to unknown to one verdict for good, at every step of every run except in
      exactly two situations, both after the dispatcher lost the executor; neither arises while storage works unless the
      executor was given up while still running. */
  lemma EffectsClimbExactly(s: State, m: Move, id: Id)
    requires Reachable(s) && Can(s, m) && id in s.rows && id in Next(s, m).rows
    ensures Climbs(s.rows[id].effect, Next(s, m).rows[id].effect)
            <==> !ConcludesOverVerdict(s, m, id) && !StrayFinishesClean(s, m, id)
    ensures s.c.clean && !s.c.abandoned ==> Climbs(s.rows[id].effect, Next(s, m).rows[id].effect)
  {
    hide World, Caller, Work, Loop, Exchange, Sound, Invariant, WorkCan, LoopCan, ExchangeCan, CallerCan;
    ReachableIsSound(s);
    match m
    case ByWorld(w) => WorldLowersNothing(s, w, id);
    case ByCaller(c) => CallerLowersNothing(s, c, id);
    case ByWorker(w) => WorkFallsExactly(s, w, id);
    case ByLoop(l) => LoopLowersNothing(s, l, id);
    case ByExchange(e) => ExchangeFallsExactly(s, e, id);
  }

  /** What a step may do to a finished record of a request that is over: remove it unless it is unknown, or, by an
      executor that was given up while running it, change it. */
  ghost predicate RecordStands(s: State, rows: Rows, id: Id, stray: bool)
    requires id in s.rows
  {
    && (id in rows && rows[id] != s.rows[id] ==> stray && Executing(s.worker, id) && s.c.abandoned)
    && (s.rows[id].effect == Unknown ==> id in rows)
  }

  lemma WorldLeavesRecord(s: State, m: WorldMove, id: Id)
    requires WorldCan(m) && id in s.rows && s.rows[id].reply.Some?
    ensures RecordStands(s, World(s, m).rows, id, false)
  {
  }

  lemma WorkLeavesRecord(s: State, m: WorkMove, id: Id)
    requires Sound(s) && WorkCan(s.worker, m) && id in s.rows && id !in s.jobs.open
    ensures RecordStands(s, Work(s, m).rows, id, true)
  {
  }

  lemma CallerLeavesRecord(s: State, m: CallerMove, id: Id)
    requires Sound(s) && CallerCan(s, m) && id in s.rows && id !in s.jobs.open
    ensures RecordStands(s, Caller(s, m).rows, id, false)
  {
  }

  lemma LoopLeavesRecord(s: State, m: LoopMove, id: Id)
    requires Sound(s) && LoopCan(s, m) && id in s.rows && id !in s.jobs.open
    ensures RecordStands(s, Loop(s, m).rows, id, false)
  {
  }

  lemma ExchangeLeavesRecord(s: State, m: ExchangeMove, id: Id)
    requires Sound(s) && ExchangeCan(s, m) && id in s.rows && id !in s.jobs.open
    ensures RecordStands(s, Exchange(s, m).rows, id, false)
  {
  }

  /** A finished record whose request is over is never rewritten, except by an executor abandoned while running it; it
      can be removed, but not while it is unknown. */
  lemma FinishedRecordsStand(s: State, m: Move, id: Id)
    requires Reachable(s) && Can(s, m)
    requires id in s.rows && s.rows[id].reply.Some? && id !in s.jobs.open
    ensures RecordStands(s, Next(s, m).rows, id, m.ByWorker?)
  {
    hide World, Caller, Work, Loop, Exchange, Sound, Invariant, WorkCan, LoopCan, ExchangeCan, CallerCan;
    ReachableIsSound(s);
    match m
    case ByWorld(w) => WorldLeavesRecord(s, w, id);
    case ByCaller(c) => CallerLeavesRecord(s, c, id);
    case ByWorker(w) => WorkLeavesRecord(s, w, id);
    case ByLoop(l) => LoopLeavesRecord(s, l, id);
    case ByExchange(e) => ExchangeLeavesRecord(s, e, id);
  }

  /** An executor that was given up writes its own final reply over the one the caller got. */
  predicate StrayRewrites(s: State, m: Move, id: Id) {
    && m.ByWorker? && m.work.FinishWork? && m.work.artifacts && m.work.store != RolledBack
    && Executing(s.worker, id) && id in s.jobs.futures && WorkReply(s.worker.exec, m.work.status) != s.jobs.futures[id]
  }

  lemma WorkRewritesExactly(s: State, m: WorkMove, id: Id)
    requires Sound(s) && WorkCan(s.worker, m) && id in s.rows && id in s.jobs.futures
    requires s.rows[id].reply == Some(s.jobs.futures[id])
    ensures var t := Work(s, m);
            t.jobs == s.jobs && id in t.rows
            && (t.rows[id].reply != Some(s.jobs.futures[id]) <==> StrayRewrites(s, ByWorker(m), id))
    ensures StrayRewrites(s, ByWorker(m), id) ==> s.c.abandoned
  {
  }

  /** Once the caller's answer is on record, a replay keeps repeating it until the record expires, except in exactly one
      case, which needs an executor given up while running the request. */
  lemma ReplayChangesExactly(s: State, m: Move, id: Id)
    requires Reachable(s) && Can(s, m) && !(m.ByWorld? && m.world.Restart?)
    requires id in s.jobs.futures && id in s.rows && s.rows[id].reply == Some(s.jobs.futures[id])
    ensures var t := Next(s, m);
            id in t.jobs.futures
            && (id in t.rows ==> (t.rows[id].reply != Some(t.jobs.futures[id]) <==> StrayRewrites(s, m, id)))
    ensures StrayRewrites(s, m, id) ==> s.c.abandoned
  {
    ReachableIsSound(s);
    FuturesAreAnsweredOnce(s, m, id);
    if m.ByWorker? {
      WorkRewritesExactly(s, m.work, id);
    } else {
      FinishedRecordsStand(s, m, id);
    }
  }

  /** The transaction that closes a request together with answering its caller. */
  function ClosingStore(s: State, m: Move): Store {
    match m
    case ByCaller(c) => if c.Withdraw? then c.store else Good
    case ByLoop(l) => if l.Drain? || l.Expire? then l.store else Good
    case ByExchange(e) => if e.Receive? then e.store else if e.Conclude? then e.store else Good
    case _ => Good
  }

  ghost predicate AnswerFits(s: State, t: State, id: Id, store: Store) {
    id !in s.jobs.futures && id in t.jobs.futures && id in t.rows ==>
      if store == Good then t.rows[id].reply == Some(t.jobs.futures[id])
      else t.jobs.futures[id] == StorageReply(id, t.jobs.futures[id].submission)
           && (store == Late ==> t.rows[id].reply.Some?
                                 && t.rows[id].reply.value.submission == t.jobs.futures[id].submission)
  }

  lemma CallerAnswerFits(s: State, m: CallerMove, id: Id)
    requires Sound(s) && CallerCan(s, m)
    ensures AnswerFits(s, Caller(s, m), id, ClosingStore(s, ByCaller(m)))
  {
  }

  lemma DropAnswers(s: State, position: nat, code: Code, store: Store, id: Id)
    requires Sound(s) && position < |s.jobs.queue|
    ensures AnswerFits(s, Dropped(s, position, code, store), id, store)
  {
    hide UnknownIds, FinishedControl;
  }

  lemma LoopAnswerFits(s: State, m: LoopMove, id: Id)
    requires Sound(s) && LoopCan(s, m)
    ensures AnswerFits(s, Loop(s, m), id, ClosingStore(s, ByLoop(m)))
  {
    hide Dropped;
    match m
    case Drain(store) => DropAnswers(s, 0, NotReady, store, id);
    case Expire(position, timeout, store) => DropAnswers(s, position, Refusal(timeout), store, id);
    case StartExecute =>
    case _ => LoopDecides(s, m);
  }

  lemma ExchangeAnswerFits(s: State, m: ExchangeMove, id: Id)
    requires Sound(s) && ExchangeCan(s, m)
    ensures AnswerFits(s, Exchange(s, m), id, ClosingStore(s, ByExchange(m)))
  {
  }

  /** The answer a caller gets first is the one on record, unless the record could not be closed reliably; then it is
      the storage error, with the same submission status as any reply that did reach the record. */
  lemma FirstAnswerIsOnRecord(s: State, m: Move, id: Id)
    requires Reachable(s) && Can(s, m)
    ensures AnswerFits(s, Next(s, m), id, ClosingStore(s, m))
  {
    ReachableIsSound(s);
    match m
    case ByWorld(w) => assert World(s, w).jobs == s.jobs || World(s, w).jobs.futures == map[];
    case ByCaller(c) => CallerAnswerFits(s, c, id);
    case ByWorker(w) => assert Work(s, w).jobs == s.jobs;
    case ByLoop(l) => LoopAnswerFits(s, l, id);
    case ByExchange(e) => ExchangeAnswerFits(s, e, id);
  }

  // ----- The queue -----

  /** Requests start in the order of their admission, one that was turned away never starts, and the queue is
      bounded. */
  lemma QueueIsFair(s: State)
    requires Reachable(s)
    ensures |s.jobs.queue| <= s.capacity
    ensures forall i, k :: 0 <= i < k < |s.jobs.started| ==> s.jobs.started[i].number < s.jobs.started[k].number
    ensures forall i, k :: 0 <= i < |s.jobs.started| && 0 <= k < |s.jobs.queue| ==>
                             s.jobs.started[i].number < s.jobs.queue[k].number
    ensures forall i :: 0 <= i < |s.jobs.started| ==> s.jobs.started[i].id !in s.jobs.dropped
  {
    ReachableIsSound(s);
  }
}
