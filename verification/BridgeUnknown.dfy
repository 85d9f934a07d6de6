/** After an unknown reply: the executor is blocked, and nothing starts until somebody calls resume. */
module BridgeUnknown {
  import opened Base
  import opened Journal
  import opened Execution
  import opened Reconnect
  import opened Bridge
  import opened BridgeQueue
  import opened BridgeEffects
  import opened BridgeRecords
  import opened BridgeControl
  import opened BridgeTheorems
  import opened BridgeHolds

  // ----- The record of the request being executed -----

  /** A record that no prune removes and no recount misses once it is closed as unknown. */
  predicate Protected(s: State, id: Id) {
    id in s.rows && s.rows[id].namespace == s.namespace
    && (s.rows[id].phase != Finished || s.rows[id].effect == Unknown)
  }

  predicate LeftUnknown(w: Worker) {
    w.Answered? && w.reply.submission == Unknown
  }

  /** While a request is executed no resume is pending; a write being executed, or answered as unknown, has its record;
      and once an unknown answer has been heard the executor is known to be blocked. */
  predicate OnRecord(s: State) {
    s.c.thread == Busy(Execute) && s.jobs.active.Some? ==>
      var job := s.jobs.active.value;
      && !s.c.resumePending
      && (s.worker.Running? && job.operation.Writes() ==> Protected(s, job.id) && s.rows[job.id].phase != Finished)
      && (LeftUnknown(s.worker) ==> job.operation.Writes() && Protected(s, job.id))
      && (LeftUnknown(s.worker) && s.worker.heard ==> s.c.state.blocked)
  }

  lemma WorldKeepsOnRecord(s: State, m: WorldMove)
    requires Sound(s) && OnRecord(s) && WorldCan(m)
    ensures OnRecord(World(s, m))
  {
    hide Sound, UnknownIds, Recovered;
  }

  lemma CallerKeepsOnRecord(s: State, m: CallerMove)
    requires Sound(s) && OnRecord(s) && CallerCan(s, m)
    ensures OnRecord(Caller(s, m))
  {
    hide UnknownIds, Lookup, EffectsOk, RecordsOk;
  }

  lemma FollowKeepsOnRecord(s: State, m: WorkMove)
    requires Sound(s) && OnRecord(s) && WorkCan(s.worker, m) && m.Follow?
    ensures OnRecord(Work(s, m))
  {
    hide EffectsOk, RecordsOk;
  }

  lemma FinishKeepsOnRecord(s: State, m: WorkMove)
    requires Sound(s) && OnRecord(s) && WorkCan(s.worker, m) && m.FinishWork?
    ensures OnRecord(Work(s, m))
  {
    hide RecordsOk, Edges;
  }

  lemma WorkKeepsOnRecord(s: State, m: WorkMove)
    requires Sound(s) && OnRecord(s) && WorkCan(s.worker, m)
    ensures OnRecord(Work(s, m))
  {
    match m
    case Follow(_, _, _) => FollowKeepsOnRecord(s, m);
    case FinishWork(_, _, _) => FinishKeepsOnRecord(s, m);
    case _ =>
  }

  lemma LoopKeepsOnRecord(s: State, m: LoopMove)
    requires Sound(s) && OnRecord(s) && LoopCan(s, m)
    ensures OnRecord(Loop(s, m))
  {
    hide UnknownIds, ObservedPlan, RecordsOk;
  }

  lemma ExchangeKeepsOnRecord(s: State, m: ExchangeMove)
    requires OnRecord(s) && ExchangeCan(s, m)
    ensures OnRecord(Exchange(s, m))
  {
    hide UnknownIds, FinishedRows, InterruptReply;
  }

  lemma OnRecordIsKept(s: State, m: Move)
    requires Sound(s) && OnRecord(s) && Can(s, m)
    ensures OnRecord(Next(s, m))
  {
    hide Sound, OnRecord, World, Caller, Work, Loop, Exchange, CallerCan, LoopCan, ExchangeCan;
    match m
    case ByWorld(w) => WorldKeepsOnRecord(s, w);
    case ByCaller(c) => CallerKeepsOnRecord(s, c);
    case ByWorker(w) => WorkKeepsOnRecord(s, w);
    case ByLoop(l) => LoopKeepsOnRecord(s, l);
    case ByExchange(e) => ExchangeKeepsOnRecord(s, e);
  }

  lemma {:induction false} RunKeepsOnRecord(states: seq<State>, moves: seq<Move>, n: nat)
    requires Run(states, moves) && Invariant(states[0]) && OnRecord(states[0]) && n <= |moves|
    ensures OnRecord(states[n])
  {
    hide Next, Can, OnRecord, Sound;
    if n > 0 {
      var k := n - 1;
      RunKeepsOnRecord(states, moves, k);
      RunKeepsInvariant(states, moves, k);
      assert states[k + 1] == Next(states[k], moves[k]);
      OnRecordIsKept(states[k], moves[k]);
    }
  }

  /** In every reachable state: an unknown answer to a write that is being taken back stands for an open or an unknown
      record of this account, and the executor that gave it is blocked once it was heard. */
  lemma ReachableIsOnRecord(s: State)
    requires Reachable(s)
    ensures OnRecord(s)
  {
    var states, moves :| Run(states, moves) && Begins(states[0]) && states[|moves|] == s;
    StartIsSound(states[0]);
    RunKeepsOnRecord(states, moves, |moves|);
  }

  // ----- Nothing starts -----

  /** Something is on record as unknown, or the service has failed. */
  predicate Warned(c: Control) {
    c.failed || c.unresolved != 0
  }

  /** Held back until somebody resumes: by the blocked executor, and the timer by the unknown record. */
  predicate Held(s: State) {
    GivenUp(s.c)
    || (s.c.state.blocked && !s.c.resumePending
        && match s.c.thread
           case Busy(task) => task == Execute && LeftUnknown(s.worker) && s.worker.heard
           case Settling => Warned(s.c)
           case Looping => Warned(s.c)
           case Updating => Warned(s.c)
           case Choosing => Warned(s.c) && s.c.plan.deadline.None?
           case _ => false)
  }

  lemma ReceiptIsWarned(s: State, store: Store)
    requires Sound(s) && OnRecord(s) && ExchangeCan(s, Receive(store)) && LeftUnknown(s.worker)
    ensures Warned(Received(s, store).c)
  {
    var job := s.jobs.active.value;
    if store == Good {
      assert job.id in UnknownIds(FinishedRows(s, job, s.worker.reply, store), s.namespace);
    }
  }

  lemma DropStaysWarned(s: State, position: nat, code: Code, store: Store)
    requires Sound(s) && Warned(s.c) && s.jobs.active.None? && position < |s.jobs.queue|
    ensures Warned(Dropped(s, position, code, store).c)
  {
    var job := s.jobs.queue[position];
    if !s.c.failed { RecountStaysPositive(s, job, RefusalReply(job.id, code), store); }
  }

  /** An observation of a terminal that is not safe leaves no timer behind. */
  lemma UnsafeStopsTimer(c: Control, now: Time)
    requires PlanOk(c) && Warned(c)
    ensures ObservedPlan(c, now).deadline.None?
  {
    ObservationSettlesPlan(c, now);
  }

  lemma GivenUpIsHeld(s: State, m: Move)
    requires GivenUp(s.c) && Can(s, m) && !(m.ByWorld? && m.world.Restart?)
    ensures Held(Next(s, m)) && !StartsWork(m) && !(m.ByCaller? && m.caller.Submit?)
  {
    hide Next;
    StepKeepsFlags(s, m);
  }

  lemma OutsidersKeepHeld(s: State, m: Move)
    requires Held(s) && !GivenUp(s.c) && Can(s, m)
    requires (m.ByWorld? && !m.world.Restart?) || m.ByWorker?
    ensures Held(Next(s, m))
  {
    hide Pruned, ExpiredRows, WorkerAfter, RowsAfter, Edges;
    OutsidersKeepControl(s, m);
  }

  lemma CallerKeepsHeld(s: State, m: CallerMove)
    requires Sound(s) && Held(s) && !GivenUp(s.c) && CallerCan(s, m) && m != ResumeCall
    ensures Held(Caller(s, m)) && !m.Submit?
  {
    hide UnknownIds, FinishedRows, FinishedJobs, Lookup, EffectsOk, RecordsOk;
    match m
    case Submit(_, _, _, _, _) => assert false;
    case Withdraw(position, timeout, store) =>
      if s.c.thread != Busy(Execute) { DropStaysWarned(s, position, Refusal(timeout), store); }
    case _ => CallDecides(s, m);
  }

  lemma LoopKeepsHeld(s: State, m: LoopMove)
    requires Sound(s) && PlanOk(s.c) && Held(s) && !GivenUp(s.c) && LoopCan(s, m)
    ensures Held(Loop(s, m)) && !StartsWork(ByLoop(m))
  {
    hide Dropped, ObservedPlan, EffectsOk, RecordsOk, PlanOk, Settled;
    match m
    case EnterLoop =>
    case Look =>
    case NoteDesktop =>
    case Drain(store) => DropIsHeld(s, 0, NotReady, store);
    case UpdateRecovery => UnsafeStopsTimer(s.c, s.now);
    case Expire(position, timeout, store) => DropIsHeld(s, position, Refusal(timeout), store);
    case StartExecute =>
    case StartProbe =>
    case StartRecheck =>
    case StartRestore =>
    case Wait =>
    case Settle =>
    case BreakLoop =>
    case ThreadEnds =>
  }

  lemma DropIsHeld(s: State, position: nat, code: Code, store: Store)
    requires Sound(s) && Held(s) && !GivenUp(s.c) && s.c.thread in {Settling, Updating, Choosing}
    requires position < |s.jobs.queue|
    ensures Held(Dropped(s, position, code, store))
  {
    hide UnknownIds, FinishedRows, FinishedJobs, EffectsOk, RecordsOk, Warned;
    DropStaysWarned(s, position, code, store);
  }

  lemma ExchangeKeepsHeld(s: State, m: ExchangeMove)
    requires Sound(s) && OnRecord(s) && Held(s) && !GivenUp(s.c) && ExchangeCan(s, m)
    ensures Held(Exchange(s, m))
  {
    hide UnknownIds, FinishedRows, FinishedJobs, InterruptReply, EffectsOk, RecordsOk, Warned;
    if m.Receive? { ReceiptIsWarned(s, m.store); }
  }

  lemma HeldStays(s: State, m: Move)
    requires Invariant(s) && OnRecord(s) && Held(s) && Can(s, m) && !Awakens(m)
    ensures Held(Next(s, m)) && !StartsWork(m) && !(m.ByCaller? && m.caller.Submit?)
  {
    hide Sound, OnRecord, Held, PlanOk, World, Caller, Work, Loop, Exchange, CallerCan, LoopCan, ExchangeCan;
    if GivenUp(s.c) {
      GivenUpIsHeld(s, m);
    } else {
      match m
      case ByWorld(w) => OutsidersKeepHeld(s, m);
      case ByCaller(c) => CallerKeepsHeld(s, c);
      case ByWorker(w) => OutsidersKeepHeld(s, m);
      case ByLoop(l) => LoopKeepsHeld(s, l);
      case ByExchange(e) => ExchangeKeepsHeld(s, e);
    }
  }

  lemma {:induction false} HeldUntilAwakened(states: seq<State>, moves: seq<Move>, k: nat, n: nat)
    requires Run(states, moves) && Invariant(states[0]) && OnRecord(states[0]) && NobodyResumes(moves)
    requires k <= n <= |moves| && Held(states[k])
    ensures Held(states[n])
  {
    hide Next, Can, OnRecord, Held, Invariant, Awakens;
    if n > k {
      var i := n - 1;
      HeldUntilAwakened(states, moves, k, i);
      RunKeepsInvariant(states, moves, i);
      RunKeepsOnRecord(states, moves, i);
      assert states[i + 1] == Next(states[i], moves[i]);
      HeldStays(states[i], moves[i]);
    }
  }

  lemma AdoptionHolds(s: State, state: WorkerState)
    requires Sound(s) && OnRecord(s) && ExchangeCan(s, Adopt(state)) && s.c.thread == Busy(Execute)
    requires LeftUnknown(s.worker)
    ensures Held(Exchange(s, Adopt(state)))
  {
    hide EffectsOk, RecordsOk;
  }

  /** Once an executor has answered a request as unknown, nothing is started and nothing admitted, not even by the
      reconnect timer, until somebody calls resume or the process is restarted. */
  lemma UnknownHolds(states: seq<State>, moves: seq<Move>, n: nat)
    requires Run(states, moves) && Reachable(states[0]) && NobodyResumes(moves) && 1 <= n < |moves|
    requires states[0].c.thread == Busy(Execute) && LeftUnknown(states[0].worker)
    requires moves[0].ByExchange? && moves[0].exchange.Adopt?
    ensures !StartsWork(moves[n]) && !(moves[n].ByCaller? && moves[n].caller.Submit?)
  {
    hide Exchange, World, Caller, Work, Loop, ExchangeCan, OnRecord, Held, Sound;
    ReachableIsSound(states[0]);
    ReachableIsOnRecord(states[0]);
    assert states[0 + 1] == Next(states[0], moves[0]);
    AdoptionHolds(states[0], moves[0].exchange.state);
    HeldUntilAwakened(states, moves, 1, n);
    RunKeepsInvariant(states, moves, n);
    RunKeepsOnRecord(states, moves, n);
    assert states[n + 1] == Next(states[n], moves[n]);
    HeldStays(states[n], moves[n]);
  }
}
