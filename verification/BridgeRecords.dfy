/** The journal against the dispatcher: which records are open, what a finished record says and that it stays. */
module BridgeRecords {
  import opened Base
  import opened Journal
  import opened Execution
  import opened Reconnect
  import opened Bridge
  import opened BridgeQueue
  import opened BridgeEffects

  /** Read-only requests leave no record. */
  ghost predicate QueriesUnrecorded(s: State) {
    && (forall i :: 0 <= i < |s.jobs.queue| && !s.jobs.queue[i].operation.Writes() ==> s.jobs.queue[i].id !in s.rows)
    && (s.jobs.active.Some? && !s.jobs.active.value.operation.Writes() ==> s.jobs.active.value.id !in s.rows)
  }

  /** Barring storage failure, an open record of this account belongs to a request that is queued or being executed. */
  ghost predicate OpenRecordsAreJobs(s: State) {
    s.c.clean ==> forall id :: id in s.rows && Pending(s.rows[id], s.namespace) ==> id in s.jobs.open
  }

  /** An executor still running after the dispatch thread gave up on it has been abandoned. */
  predicate StraysAreAbandoned(s: State) {
    && (s.worker.Running? && s.c.thread in {Failing, Ending, Done} ==> s.c.abandoned)
    && (s.c.abandoned ==> s.c.thread in {Failing, Ending, Done})
  }

  ghost predicate FuturesMatchRecords(s: State) {
    s.c.clean && !s.c.abandoned ==>
      forall id :: id in s.jobs.futures && id in s.rows ==> s.rows[id].reply == Some(s.jobs.futures[id])
  }

  predicate Truthful(r: Reply) {
    r.status == 202 ==> r.submission == Submitted
  }

  /** While a request runs, nobody has been told it succeeded. */
  ghost predicate NotYetAccepted(s: State) {
    s.worker.Running? ==>
      var id := s.worker.exec.id;
      && (id in s.rows && s.rows[id].reply.Some? ==> s.rows[id].reply.value.status != 202)
      && (id in s.jobs.futures ==> s.jobs.futures[id].status != 202)
      && (s.jobs.interrupted.Some? ==> s.jobs.interrupted.value.status != 202)
  }

  ghost predicate AcceptedMeansSubmitted(s: State) {
    && NotYetAccepted(s)
    && (s.worker.Answered? ==> Truthful(s.worker.reply))
    && (s.jobs.interrupted.Some? ==> Truthful(s.jobs.interrupted.value))
    && (forall id :: id in s.rows && s.rows[id].reply.Some? && s.rows[id].reply.value.status == 202 ==>
          s.rows[id].effect == Submitted && Truthful(s.rows[id].reply.value))
    && (forall id :: id in s.jobs.futures && id in s.rows && s.jobs.futures[id].status == 202 ==>
          s.rows[id].effect == Submitted)
  }

  predicate IsVerdict(e: Effect) {
    e == Submitted || e == Rejected
  }

  /** How the effect on record relates to what the executor remembers and to what is about to be written over it. */
  ghost predicate EffectsAgree(s: State) {
    && (s.worker.Running? && s.worker.exec.id in s.rows ==>
          var row := s.rows[s.worker.exec.id];
          && (IsVerdict(row.effect) ==> s.worker.exec.effect == row.effect)
          && (s.c.thread == Busy(Execute) ==> row.reply.None? && Climbs(row.effect, s.worker.exec.effect)))
    && (s.worker.Answered? && s.c.thread == Busy(Execute) && s.worker.reply.id in s.rows ==>
          Climbs(s.rows[s.worker.reply.id].effect, s.worker.reply.submission))
    && (Holding(s.jobs, s.c.thread) && s.jobs.active.value.id in s.rows ==>
          var row := s.rows[s.jobs.active.value.id];
          && (row.reply.Some? ==> row.effect == row.reply.value.submission && !s.worker.Running?)
          && (s.jobs.interrupted.Some? ==>
                var read := s.jobs.interrupted.value.submission;
                && (read == Nothing ==> row.effect == Nothing)
                && (IsVerdict(read) ==> row.effect == read)
                && (s.c.clean && !s.c.abandoned ==> Climbs(row.effect, read))))
  }

  /** The dispatcher's count is the journal's whenever no write is under way. */
  ghost predicate CountIsCurrent(s: State) {
    !s.c.failed && (s.jobs.active.None? || !s.jobs.active.value.operation.Writes()) ==>
      s.c.unresolved == |UnknownIds(s.rows, s.namespace)|
  }

  ghost predicate RecordsOk(s: State) {
    && QueriesUnrecorded(s) && OpenRecordsAreJobs(s) && StraysAreAbandoned(s) && FuturesMatchRecords(s)
    && AcceptedMeansSubmitted(s) && EffectsAgree(s) && CountIsCurrent(s)
  }

  ghost predicate Sound(s: State) {
    BookOk(s) && EffectsOk(s) && RecordsOk(s)
  }

  lemma DecidingKeepsRecords(s: State, t: State)
    requires Sound(s) && Decides(s, t)
    ensures RecordsOk(t)
  {
  }

  lemma WorldKeepsRecords(s: State, m: WorldMove)
    requires Sound(s) && WorldCan(m)
    ensures RecordsOk(World(s, m))
  {
    if m.Maintain? {
      assert UnknownIds(World(s, m).rows, s.namespace) == UnknownIds(s.rows, s.namespace);
    }
  }

  lemma SubmitKeepsRecords(s: State, m: CallerMove)
    requires Sound(s) && CallerCan(s, m) && m.Submit?
    ensures RecordsOk(Caller(s, m))
  {
    assert UnknownIds(Caller(s, m).rows, s.namespace) == UnknownIds(s.rows, s.namespace);
  }

  lemma StayingIsUnrecorded(s: State, i: nat)
    requires BookOk(s) && QueriesUnrecorded(s) && i < |s.jobs.queue|
    ensures var r := RemoveAt(s.jobs.queue, i);
            forall k :: 0 <= k < |r| && !r[k].operation.Writes() ==> r[k].id !in s.rows
  {
    var q, r := s.jobs.queue, RemoveAt(s.jobs.queue, i);
    forall k | 0 <= k < |r| ensures r[k] == q[if k < i then k else k + 1] { }
  }

  lemma DropKeepsAccount(s: State, position: nat, code: Code, store: Store)
    requires Sound(s) && position < |s.jobs.queue|
    ensures var t := Dropped(s, position, code, store);
            QueriesUnrecorded(t) && OpenRecordsAreJobs(t) && StraysAreAbandoned(t) && FuturesMatchRecords(t)
                && CountIsCurrent(t)
  {
    StayingIsUnrecorded(s, position);
  }

  lemma DropKeepsAgreement(s: State, position: nat, code: Code, store: Store)
    requires Sound(s) && position < |s.jobs.queue|
    ensures var t := Dropped(s, position, code, store); AcceptedMeansSubmitted(t) && EffectsAgree(t)
  {
  }

  lemma DropKeepsRecords(s: State, position: nat, code: Code, store: Store)
    requires Sound(s) && position < |s.jobs.queue|
    ensures RecordsOk(Dropped(s, position, code, store))
  {
    DropKeepsAccount(s, position, code, store);
    DropKeepsAgreement(s, position, code, store);
  }

  lemma CallerKeepsRecords(s: State, m: CallerMove)
    requires Sound(s) && CallerCan(s, m)
    ensures RecordsOk(Caller(s, m))
  {
    match m
    case Submit(_, _, _, _, _) => SubmitKeepsRecords(s, m);
    case Withdraw(position, timeout, store) => DropKeepsRecords(s, position, Refusal(timeout), store);
    case _ =>
      hide Caller, CallerCan;
      CallDecides(s, m);
      DecidingKeepsRecords(s, Caller(s, m));
  }

  lemma FollowNeeds(s: State)
    requires BookOk(s) && s.worker.Running?
    ensures s.jobs.active.Some? && s.worker.exec.id == s.jobs.active.value.id
            && s.worker.exec.kind == s.jobs.active.value.operation.kind
    ensures s.c.thread in {Busy(Execute), Failing, Ending, Done}
    ensures s.jobs.interrupted.Some? ==> s.c.thread == Failing
    ensures forall k :: 0 <= k < |s.jobs.queue| ==> s.jobs.queue[k].id != s.worker.exec.id
  {
    hide UsedOk, ThreadOk, HistoryOk;
    forall k | 0 <= k < |s.jobs.queue| ensures s.jobs.queue[k].id != s.worker.exec.id {
      assert InQueue(s.jobs.queue, s.jobs.queue[k].id);
    }
  }

  lemma FollowKeepsRecords(s: State, m: WorkMove)
    requires Sound(s) && WorkCan(s.worker, m) && m.Follow?
    ensures RecordsOk(Work(s, m))
  {
    hide BookOk, Edges;
    FollowNeeds(s);
    EdgesTrackEffect(s.worker.exec.kind, s.worker.exec.pc, m.edge);
  }

  lemma FinishKeepsRecords(s: State, m: WorkMove)
    requires Sound(s) && WorkCan(s.worker, m) && m.FinishWork?
    ensures RecordsOk(Work(s, m))
  {
  }

  lemma WorkKeepsRecords(s: State, m: WorkMove)
    requires Sound(s) && WorkCan(s.worker, m)
    ensures RecordsOk(Work(s, m))
  {
    match m
    case Follow(_, _, _) => FollowKeepsRecords(s, m);
    case FinishWork(_, _, _) => FinishKeepsRecords(s, m);
    case _ =>
  }

  lemma StartKeepsRecords(s: State)
    requires Sound(s) && LoopCan(s, StartExecute)
    ensures RecordsOk(Loop(s, StartExecute))
  {
    StayingIsUnrecorded(s, 0);
  }

  lemma LoopKeepsRecords(s: State, m: LoopMove)
    requires Sound(s) && LoopCan(s, m)
    ensures RecordsOk(Loop(s, m))
  {
    match m
    case Drain(store) => DropKeepsRecords(s, 0, NotReady, store);
    case Expire(position, timeout, store) => DropKeepsRecords(s, position, Refusal(timeout), store);
    case StartExecute => StartKeepsRecords(s);
    case _ =>
      hide Loop, LoopCan;
      LoopDecides(s, m);
      DecidingKeepsRecords(s, Loop(s, m));
  }

  lemma ReceiveKeepsRecords(s: State, m: ExchangeMove)
    requires Sound(s) && ExchangeCan(s, m) && m.Receive?
    ensures RecordsOk(Exchange(s, m))
  {
  }

  lemma ConcludeKeepsRecords(s: State, m: ExchangeMove)
    requires Sound(s) && ExchangeCan(s, m) && m.Conclude?
    ensures RecordsOk(Exchange(s, m))
  {
  }

  lemma ExchangeKeepsRecords(s: State, m: ExchangeMove)
    requires Sound(s) && ExchangeCan(s, m)
    ensures RecordsOk(Exchange(s, m))
  {
    match m
    case Receive(_) => ReceiveKeepsRecords(s, m);
    case Conclude(_) => ConcludeKeepsRecords(s, m);
    case _ =>
  }
}
