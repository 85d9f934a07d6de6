/** Write-ahead crash safety of the whole bridge: what every step keeps about effects on record, effects in the
    terminal, and the verdicts that reach a caller or the journal.
 */
module BridgeEffects {
  import opened Base
  import opened Journal
  import opened Execution
  import opened Reconnect
  import opened Bridge
  import opened BridgeQueue

  /** The request did something in the terminal that the outside world can see. */
  ghost predicate Acted(events: multiset<Event>, id: Id) {
    exists action: Action :: Event(id, action) in events
  }

  predicate Executing(worker: Worker, id: Id) {
    worker.Running? && worker.exec.id == id && worker.exec.kind != Query
  }

  /** The request has done nothing and is no longer in a position to. */
  ghost predicate Inert(s: State, id: Id) {
    !Acted(s.events, id) && !Executing(s.worker, id)
  }

  /** A queued write owns a journal row that nothing has touched since its admission. */
  predicate HasFreshRow(rows: Rows, ns: Namespace, job: Job) {
    && job.id in rows && rows[job.id].phase == Queued && rows[job.id].effect == Nothing && rows[job.id].reply.None?
    && rows[job.id].namespace == ns && rows[job.id].key == job.key && rows[job.id].operation == job.operation
  }

  ghost predicate QueueIsFresh(s: State) {
    forall i :: 0 <= i < |s.jobs.queue| ==>
      !Acted(s.events, s.jobs.queue[i].id)
      && (s.jobs.queue[i].operation.Writes() ==> HasFreshRow(s.rows, s.namespace, s.jobs.queue[i]))
  }

  ghost predicate ExecOk(rows: Rows, events: multiset<Event>, e: Exec) {
    && (e.pc != Raised && e.pc != Succeeded ==> e.effect == EffectAt(e.pc))
    && (e.pc == Succeeded ==> e.effect == if e.kind == Query then Nothing else Submitted)
    && (e.kind == Query ==> e.effect == Nothing)
    && (Acted(events, e.id) ==> e.effect != Nothing)
    && (e.pc != Raised && e.effect != Nothing && e.id in rows ==> rows[e.id].effect != Nothing)
  }

  ghost predicate RowsOk(s: State) {
    && (forall id :: id in s.rows && Acted(s.events, id) ==> s.rows[id].effect != Nothing)
    && (forall id :: id in s.rows && s.rows[id].reply.Some? ==> s.rows[id].reply.value.id == id)
  }

  ghost predicate VerdictsOk(s: State) {
    && (forall id :: id in s.rows && s.rows[id].reply.Some? && s.rows[id].reply.value.submission == Nothing ==>
          Inert(s, id))
    && (forall id :: id in s.jobs.futures && s.jobs.futures[id].submission == Nothing ==> Inert(s, id))
    && (s.jobs.interrupted.Some? && s.jobs.active.Some? ==>
          s.jobs.interrupted.value.id == s.jobs.active.value.id
          && (s.jobs.interrupted.value.submission == Nothing ==> Inert(s, s.jobs.active.value.id)))
    && (s.worker.Answered? && s.worker.reply.submission == Nothing ==> Inert(s, s.worker.reply.id))
  }

  ghost predicate EffectsOk(s: State) {
    && QueueIsFresh(s)
    && (s.worker.Running? ==> ExecOk(s.rows, s.events, s.worker.exec))
    && (s.jobs.active.Some? && !s.jobs.active.value.operation.Writes() ==> !Acted(s.events, s.jobs.active.value.id))
    && RowsOk(s) && VerdictsOk(s)
  }

  lemma WorldKeepsEffects(s: State, m: WorldMove)
    requires BookOk(s) && EffectsOk(s) && WorldCan(m)
    ensures EffectsOk(World(s, m))
  {
  }

  lemma StayingIsFresh(s: State, i: nat)
    requires BookOk(s) && EffectsOk(s) && i < |s.jobs.queue|
    ensures var r := RemoveAt(s.jobs.queue, i);
            forall k :: 0 <= k < |r| ==> !Acted(s.events, r[k].id) && r[k].id != s.jobs.queue[i].id
                                         && (r[k].operation.Writes() ==> HasFreshRow(s.rows, s.namespace, r[k]))
  {
    var q, r := s.jobs.queue, RemoveAt(s.jobs.queue, i);
    forall k | 0 <= k < |r| ensures r[k] == q[if k < i then k else k + 1] { }
  }

  lemma SubmitKeepsEffects(s: State, m: CallerMove)
    requires BookOk(s) && EffectsOk(s) && CallerCan(s, m) && m.Submit?
    ensures EffectsOk(Caller(s, m))
  {
  }

  lemma DropKeepsWorking(s: State, position: nat, code: Code, store: Store)
    requires BookOk(s) && EffectsOk(s) && position < |s.jobs.queue|
    ensures var t := Dropped(s, position, code, store);
            QueueIsFresh(t) && RowsOk(t) && (t.worker.Running? ==> ExecOk(t.rows, t.events, t.worker.exec))
  {
    StayingIsFresh(s, position);
  }

  lemma DropKeepsVerdicts(s: State, position: nat, code: Code, store: Store)
    requires BookOk(s) && EffectsOk(s) && position < |s.jobs.queue|
    ensures VerdictsOk(Dropped(s, position, code, store))
  {
  }

  lemma DropKeepsEffects(s: State, position: nat, code: Code, store: Store)
    requires BookOk(s) && EffectsOk(s) && position < |s.jobs.queue|
    ensures EffectsOk(Dropped(s, position, code, store))
  {
    DropKeepsWorking(s, position, code, store);
    DropKeepsVerdicts(s, position, code, store);
  }

  lemma CallerKeepsEffects(s: State, m: CallerMove)
    requires BookOk(s) && EffectsOk(s) && CallerCan(s, m)
    ensures EffectsOk(Caller(s, m))
  {
    match m
    case Submit(_, _, _, _, _) => SubmitKeepsEffects(s, m);
    case Withdraw(position, timeout, store) => DropKeepsEffects(s, position, Refusal(timeout), store);
    case PauseCall =>
    case ResumeCall =>
    case StopCall =>
  }

  lemma SaveKeepsExec(s: State, m: WorkMove)
    requires BookOk(s) && EffectsOk(s) && WorkCan(s.worker, m) && m.Follow? && m.edge.work.Save?
    ensures var t := Work(s, m); t.worker.Running? && ExecOk(t.rows, t.events, t.worker.exec) && RowsOk(t)
  {
    EdgesTrackEffect(s.worker.exec.kind, s.worker.exec.pc, m.edge);
  }

  lemma SaveKeepsVerdicts(s: State, m: WorkMove)
    requires BookOk(s) && EffectsOk(s) && WorkCan(s.worker, m) && m.Follow? && m.edge.work.Save?
    ensures QueueIsFresh(Work(s, m)) && VerdictsOk(Work(s, m))
  {
    assert Work(s, m).events == s.events && Work(s, m).jobs == s.jobs;
  }

  lemma SaveKeepsEffects(s: State, m: WorkMove)
    requires BookOk(s) && EffectsOk(s) && WorkCan(s.worker, m) && m.Follow? && m.edge.work.Save?
    ensures EffectsOk(Work(s, m))
  {
    SaveKeepsExec(s, m);
    SaveKeepsVerdicts(s, m);
    assert Work(s, m).events == s.events && Work(s, m).jobs == s.jobs;
  }

  lemma ActKeepsEffects(s: State, m: WorkMove)
    requires BookOk(s) && EffectsOk(s) && WorkCan(s.worker, m) && m.Follow? && !m.edge.work.Save?
    ensures EffectsOk(Work(s, m))
  {
    EdgesTrackEffect(s.worker.exec.kind, s.worker.exec.pc, m.edge);
    ActionsAreWrittenAhead(s.worker.exec.kind, s.worker.exec.pc, m.edge);
  }

  lemma FinishKeepsEffects(s: State, m: WorkMove)
    requires BookOk(s) && EffectsOk(s) && WorkCan(s.worker, m) && m.FinishWork?
    ensures EffectsOk(Work(s, m))
  {
  }

  lemma WorkKeepsEffects(s: State, m: WorkMove)
    requires BookOk(s) && EffectsOk(s) && WorkCan(s.worker, m)
    ensures EffectsOk(Work(s, m))
  {
    match m
    case Follow(edge, _, _) => if edge.work.Save? { SaveKeepsEffects(s, m); } else { ActKeepsEffects(s, m); }
    case FinishWork(_, _, _) => FinishKeepsEffects(s, m);
    case Raise =>
    case Refuse(_) =>
    case Die =>
  }

  lemma StartKeepsEffects(s: State)
    requires BookOk(s) && EffectsOk(s) && LoopCan(s, StartExecute)
    ensures EffectsOk(Loop(s, StartExecute))
  {
    StayingIsFresh(s, 0);
  }

  lemma DecidingKeepsEffects(s: State, t: State)
    requires EffectsOk(s) && Decides(s, t)
    ensures EffectsOk(t)
  {
  }

  lemma LoopKeepsEffects(s: State, m: LoopMove)
    requires BookOk(s) && EffectsOk(s) && LoopCan(s, m)
    ensures EffectsOk(Loop(s, m))
  {
    match m
    case Drain(store) => DropKeepsEffects(s, 0, NotReady, store);
    case Expire(position, timeout, store) => DropKeepsEffects(s, position, Refusal(timeout), store);
    case StartExecute => StartKeepsEffects(s);
    case _ =>
      hide Loop, LoopCan;
      LoopDecides(s, m);
      DecidingKeepsEffects(s, Loop(s, m));
  }

  lemma ReceiveKeepsEffects(s: State, m: ExchangeMove)
    requires BookOk(s) && EffectsOk(s) && ExchangeCan(s, m) && m.Receive?
    ensures EffectsOk(Exchange(s, m))
  {
  }

  lemma ConcludeKeepsEffects(s: State, m: ExchangeMove)
    requires BookOk(s) && EffectsOk(s) && ExchangeCan(s, m) && m.Conclude?
    ensures EffectsOk(Exchange(s, m))
  {
  }

  lemma ExchangeKeepsEffects(s: State, m: ExchangeMove)
    requires BookOk(s) && EffectsOk(s) && ExchangeCan(s, m)
    ensures EffectsOk(Exchange(s, m))
  {
    match m
    case Receive(_) => ReceiveKeepsEffects(s, m);
    case Conclude(_) => ConcludeKeepsEffects(s, m);
    case _ =>
  }
}
