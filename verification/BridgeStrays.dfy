/** What an executor that was given up can still do to a finished record, over whole runs. */
module BridgeStrays {
  import opened Base
  import opened Journal
  import opened Execution
  import opened Reconnect
  import opened Bridge
  import opened BridgeQueue
  import opened BridgeEffects
  import opened BridgeRecords
  import opened BridgeTheorems
  import opened BridgeHolds

  /** The request is over, its record finished, and no executor is running it. */
  ghost predicate AtRest(s: State, id: Id) {
    id in s.rows && s.rows[id].reply.Some? && id !in s.jobs.open && !Executing(s.worker, id)
  }

  ghost predicate Rests(s: State, t: State, id: Id) {
    AtRest(t, id) && id in s.rows && t.rows[id] == s.rows[id]
  }

  lemma CallerLetsRest(s: State, m: CallerMove, id: Id)
    requires Sound(s) && CallerCan(s, m) && AtRest(s, id)
    ensures Rests(s, Caller(s, m), id)
  {
    hide UnknownIds, FinishedControl;
  }

  lemma WorkLetsRest(s: State, m: WorkMove, id: Id)
    requires Sound(s) && WorkCan(s.worker, m) && AtRest(s, id)
    ensures Rests(s, Work(s, m), id)
  {
  }

  lemma LoopLetsRest(s: State, m: LoopMove, id: Id)
    requires Sound(s) && LoopCan(s, m) && AtRest(s, id)
    ensures Rests(s, Loop(s, m), id)
  {
    hide UnknownIds, FinishedControl;
    if Deciding(m) { LoopDecides(s, m); }
  }

  lemma ExchangeLetsRest(s: State, m: ExchangeMove, id: Id)
    requires Sound(s) && ExchangeCan(s, m) && AtRest(s, id)
    ensures Rests(s, Exchange(s, m), id)
  {
    hide UnknownIds, FinishedControl, InterruptReply;
  }

  /** Neither a restart nor a prune, the two steps by which others rewrite or remove records. */
  predicate LeavesTable(m: Move) {
    m.ByWorld? ==> m.world.Tick? || m.world.DesktopChanges?
  }

  ghost predicate NobodyCleans(moves: seq<Move>) {
    forall i :: 0 <= i < |moves| ==> LeavesTable(moves[i])
  }

  lemma StepLetsRest(s: State, m: Move, id: Id)
    requires Sound(s) && Can(s, m) && LeavesTable(m) && AtRest(s, id)
    ensures Rests(s, Next(s, m), id)
  {
    hide Sound, Caller, Work, Loop, Exchange, CallerCan, LoopCan, ExchangeCan;
    match m
    case ByWorld(w) =>
    case ByCaller(c) => CallerLetsRest(s, c, id);
    case ByWorker(w) => WorkLetsRest(s, w, id);
    case ByLoop(l) => LoopLetsRest(s, l, id);
    case ByExchange(e) => ExchangeLetsRest(s, e, id);
  }

  lemma {:induction false} RunLetsRest(states: seq<State>, moves: seq<Move>, n: nat, id: Id)
    requires Run(states, moves) && Invariant(states[0]) && n <= |moves| && NobodyCleans(moves) && AtRest(states[0], id)
    ensures Rests(states[0], states[n], id)
  {
    hide Sound, Next, Can;
    if n > 0 {
      var k := n - 1;
      RunLetsRest(states, moves, k, id);
      RunKeepsInvariant(states, moves, k);
      assert states[k + 1] == Next(states[k], moves[k]);
      StepLetsRest(states[k], moves[k], id);
    }
  }

  /** On some run without restart or prune the record comes to carry another reply. */
  ghost predicate ReplyCanChange(s: State, id: Id) {
    exists states: seq<State>, moves, n: nat ::
      Run(states, moves) && states[0] == s && NobodyCleans(moves) && n <= |moves|
      && id in s.rows && id in states[n].rows && states[n].rows[id].reply != s.rows[id].reply
  }

  lemma StrayRaises(s: State, id: Id)
    requires Executing(s.worker, id)
    ensures Work(s, Raise).rows == s.rows && Executing(Work(s, Raise).worker, id)
    ensures Work(s, Raise).worker.exec.pc == Raised
  {
  }

  lemma StrayWrites(s: State, id: Id, status: nat)
    requires Executing(s.worker, id) && s.worker.exec.pc == Raised && id in s.rows && status != 202
    ensures var done := Work(s, FinishWork(status, true, Good));
            id in done.rows && done.rows[id].reply.Some? && done.rows[id].reply.value.status == status
  {
  }

  lemma CanFinish(s: State, id: Id, status: nat)
    requires Executing(s.worker, id) && status != 202
    ensures Can(s, ByWorker(Raise)) && Can(Work(s, Raise), ByWorker(FinishWork(status, true, Good)))
  {
  }

  lemma StrayChangesReply(s: State, id: Id)
    requires Executing(s.worker, id) && id in s.rows && s.rows[id].reply.Some?
    ensures ReplyCanChange(s, id)
  {
    hide Work, Executing;
    var status := if s.rows[id].reply.value.status == 503 then 502 else 503;
    var raise, finish := ByWorker(Raise), ByWorker(FinishWork(status, true, Good));
    CanFinish(s, id, status);
    StrayRaises(s, id);
    StrayWrites(Work(s, Raise), id, status);
    RunGrows([s], [], raise);
    RunGrows([s] + [Work(s, Raise)], [] + [raise], finish);
    var states := [s] + [Work(s, Raise)] + [Next(Work(s, Raise), finish)];
    assert states[0] == s && NobodyCleans([] + [raise] + [finish]) && states[2].rows[id].reply != s.rows[id].reply;
  }

  /** A finished record of a request that is over can change, as long as nothing restarts or prunes, exactly when an
      executor that was given up is still running the request. */
  lemma FinishedRecordChangesExactly(s: State, id: Id)
    requires Reachable(s) && id in s.rows && s.rows[id].reply.Some? && id !in s.jobs.open
    ensures ReplyCanChange(s, id) <==> Executing(s.worker, id)
    ensures Executing(s.worker, id) ==> s.c.abandoned
  {
    ReachableIsSound(s);
    if Executing(s.worker, id) {
      StrayChangesReply(s, id);
    } else if ReplyCanChange(s, id) {
      var states: seq<State>, moves, n: nat :| Run(states, moves) && states[0] == s && NobodyCleans(moves)
                                                && n <= |moves| && id in states[n].rows
                                                && states[n].rows[id].reply != s.rows[id].reply;
      RunLetsRest(states, moves, n, id);
    }
  }
}
