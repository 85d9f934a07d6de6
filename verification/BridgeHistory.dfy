/** At most one send: what every step keeps about actions in the terminal and about requests sharing a key. */
module BridgeHistory {
  import opened Base
  import opened Journal
  import opened Execution
  import opened Reconnect
  import opened Bridge
  import opened BridgeQueue
  import opened BridgeEffects

  /** How often the request pressed a key that sends or cancels an order. */
  function Sends(events: multiset<Event>, id: Id): nat {
    events[Event(id, SendKey)] + events[Event(id, DeleteKey)]
  }

  ghost predicate SendsOk(events: multiset<Event>, worker: Worker) {
    && (forall e :: events[e] <= 1)
    && (forall id :: Sends(events, id) <= 1)
    && (worker.Running? ==>
          && (forall a :: Progress(worker.exec.pc) <= ActedAt(a) ==> Event(worker.exec.id, a) !in events)
          && (Progress(worker.exec.pc) <= 5 ==> Sends(events, worker.exec.id) == 0))
  }

  /** The row of `id` was removed after mark i. */
  ghost predicate ExpungedAfter(marks: seq<Mark>, i: nat, id: Id) {
    exists m :: i < m < |marks| && marks[m].Expunged? && id in marks[m].rows
  }

  ghost predicate ExpungedBetween(marks: seq<Mark>, i: nat, k: nat, id: Id) {
    exists m :: i < m < k <= |marks| && marks[m].Expunged? && id in marks[m].rows
  }

  ghost predicate SameKey(a: Mark, b: Mark) {
    a.Executed? && b.Executed? && a.namespace == b.namespace && a.key.Some? && a.key == b.key
  }

  ghost predicate Separated(marks: seq<Mark>) {
    && (forall i, k :: 0 <= i < k < |marks| && marks[i].Executed? && marks[k].Executed? ==> marks[i].id != marks[k].id)
    && (forall i, k :: 0 <= i < k < |marks| && SameKey(marks[i], marks[k]) ==>
          ExpungedBetween(marks, i, k, marks[i].id))
  }

  ghost predicate MarksOk(s: State) {
    && (forall i :: 0 <= i < |s.marks| && s.marks[i].Executed? ==>
          s.marks[i].id in s.used && s.marks[i].id !in s.jobs.open - OpenActive(s.jobs)
          && (s.marks[i].key.Some? ==>
                Holds(s.rows, s.marks[i].id, s.marks[i].namespace, s.marks[i].key.value)
                || ExpungedAfter(s.marks, i, s.marks[i].id)))
    && (forall i :: 0 <= i < |s.marks| && s.marks[i].Expunged? ==>
          forall id :: id in s.marks[i].rows ==> Expired(s.marks[i].rows[id], s.marks[i].at, s.ttl))
  }

  function OpenActive(j: Jobs): set<Id> {
    if j.active.Some? then {j.active.value.id} else {}
  }

  ghost predicate HistoryKept(s: State) {
    SendsOk(s.events, s.worker) && UniqueKeys(s.rows) && MarksOk(s) && Separated(s.marks)
  }

  lemma NewEvent(events: multiset<Event>, id: Id, action: Action)
    ensures var after := events + multiset{Event(id, action)};
            && (forall e :: after[e] == events[e] + if e == Event(id, action) then 1 else 0)
            && (forall other :: Sends(after, other) ==
                  Sends(events, other) + if other == id && (action == SendKey || action == DeleteKey) then 1 else 0)
  {
  }

  /** Taking an edge: an action happens at its own point of the graph, which is then behind. */
  lemma FollowKeepsSends(events: multiset<Event>, e: Exec, edge: Edge, target: Exec)
    requires SendsOk(events, Running(e)) && edge in Edges(e.kind, e.pc)
    requires target.id == e.id && (target.pc == edge.target || (target.pc == Raised && !edge.work.Act?))
    ensures SendsOk(if edge.work.Act? then events + multiset{Event(e.id, edge.work.action)} else events,
                    Running(target))
  {
    ActionsAreWrittenAhead(e.kind, e.pc, edge);
    if edge.work.Act? {
      NewEvent(events, e.id, edge.work.action);
    }
  }

  lemma ExpungedLater(marks: seq<Mark>, more: Mark, i: nat, id: Id)
    requires ExpungedAfter(marks, i, id)
    ensures ExpungedAfter(marks + [more], i, id) && ExpungedBetween(marks + [more], i, |marks|, id)
  {
    var m :| i < m < |marks| && marks[m].Expunged? && id in marks[m].rows;
    assert (marks + [more])[m] == marks[m];
  }

  lemma BetweenStays(marks: seq<Mark>, more: Mark, i: nat, k: nat, id: Id)
    requires ExpungedBetween(marks, i, k, id)
    ensures ExpungedBetween(marks + [more], i, k, id)
  {
    var m :| i < m < k <= |marks| && marks[m].Expunged? && id in marks[m].rows;
    assert (marks + [more])[m] == marks[m];
  }

  /** Removing expired rows is itself a mark, so every removed row leaves a trace. */
  lemma MaintainKeepsHistory(s: State)
    requires BookOk(s) && EffectsOk(s) && HistoryKept(s)
    ensures HistoryKept(World(s, Maintain))
  {
    var t := World(s, Maintain);
    var more := t.marks[|s.marks|];
    PruneKeepsUnique(s.rows, s.now, s.ttl);
    forall i | 0 <= i < |t.marks| && t.marks[i].Executed? && t.marks[i].key.Some?
      ensures Holds(t.rows, t.marks[i].id, t.marks[i].namespace, t.marks[i].key.value)
              || ExpungedAfter(t.marks, i, t.marks[i].id)
    {
      var id := t.marks[i].id;
      assert t.marks[i] == s.marks[i];
      if ExpungedAfter(s.marks, i, id) {
        ExpungedLater(s.marks, more, i, id);
      } else if id !in t.rows {
        assert t.marks[|s.marks|].Expunged? && id in t.marks[|s.marks|].rows;
      }
    }
    SeparationGrows(s.marks, more);
  }

  lemma SeparationGrows(marks: seq<Mark>, more: Mark)
    requires Separated(marks)
    requires more.Executed? ==> forall i :: 0 <= i < |marks| && marks[i].Executed? ==>
                                  marks[i].id != more.id
                                  && (SameKey(marks[i], more) ==> ExpungedAfter(marks, i, marks[i].id))
    ensures Separated(marks + [more])
  {
    var after := marks + [more];
    forall i, k | 0 <= i < k < |after| && SameKey(after[i], after[k])
      ensures ExpungedBetween(after, i, k, after[i].id)
    {
      if k < |marks| { BetweenStays(marks, more, i, k, after[i].id); }
      else { ExpungedLater(marks, more, i, after[i].id); }
    }
  }

  lemma StartKeepsHistory(s: State)
    requires BookOk(s) && EffectsOk(s) && HistoryKept(s) && LoopCan(s, StartExecute)
    ensures HistoryKept(Loop(s, StartExecute))
  {
    var t := Loop(s, StartExecute);
    var job := s.jobs.queue[0];
    if job.operation.Writes() {
      var more := Executed(job.id, s.namespace, job.key);
      forall i | 0 <= i < |s.marks| && SameKey(s.marks[i], more)
        ensures ExpungedAfter(s.marks, i, s.marks[i].id)
      {
        assert Holds(s.rows, job.id, s.namespace, job.key.value);
      }
      SeparationGrows(s.marks, more);
      forall i | 0 <= i < |s.marks| && s.marks[i].Executed? && ExpungedAfter(s.marks, i, s.marks[i].id)
        ensures ExpungedAfter(t.marks, i, s.marks[i].id)
      {
        ExpungedLater(s.marks, more, i, s.marks[i].id);
      }
    }
  }

  /** Every transaction but a prune keeps the identity of every row. */
  ghost predicate KeepsIdentity(before: Rows, after: Rows) {
    before.Keys == after.Keys
    && forall id :: id in before ==> after[id].namespace == before[id].namespace && after[id].key == before[id].key
  }

  lemma IdentityKeepsHistory(s: State, t: State)
    requires UniqueKeys(s.rows) && MarksOk(s) && KeepsIdentity(s.rows, t.rows)
    requires t.marks == s.marks && t.ttl == s.ttl && s.used <= t.used
    requires t.jobs.open - OpenActive(t.jobs) <= s.jobs.open - OpenActive(s.jobs)
    ensures UniqueKeys(t.rows) && MarksOk(t)
  {
    forall id, ns, key ensures Holds(t.rows, id, ns, key) <==> Holds(s.rows, id, ns, key) { }
  }

  lemma WorldKeepsHistory(s: State, m: WorldMove)
    requires BookOk(s) && EffectsOk(s) && HistoryKept(s) && WorldCan(m)
    ensures HistoryKept(World(s, m))
  {
    if m.Maintain? { MaintainKeepsHistory(s); } else { IdentityKeepsHistory(s, World(s, m)); }
  }

  lemma SubmitKeepsHistory(s: State, m: CallerMove)
    requires BookOk(s) && EffectsOk(s) && HistoryKept(s) && CallerCan(s, m) && m.Submit?
    ensures HistoryKept(Caller(s, m))
  {
    var t := Caller(s, m);
    if m.operation.Writes() && m.store != RolledBack {
      AdmitKeepsUnique(s.rows, m.id, s.namespace, m.operation, m.key, s.now);
    }
    forall id, ns, key | Holds(s.rows, id, ns, key) ensures Holds(t.rows, id, ns, key) { }
  }

  lemma CallerKeepsHistory(s: State, m: CallerMove)
    requires BookOk(s) && EffectsOk(s) && HistoryKept(s) && CallerCan(s, m)
    ensures HistoryKept(Caller(s, m))
  {
    if m.Submit? { SubmitKeepsHistory(s, m); } else { IdentityKeepsHistory(s, Caller(s, m)); }
  }

  lemma WorkKeepsSends(s: State, m: WorkMove)
    requires SendsOk(s.events, s.worker) && WorkCan(s.worker, m)
    ensures SendsOk(Work(s, m).events, Work(s, m).worker)
  {
    if m.Follow? { FollowKeepsSends(s.events, s.worker.exec, m.edge, Work(s, m).worker.exec); }
  }

  lemma WorkKeepsHistory(s: State, m: WorkMove)
    requires BookOk(s) && HistoryKept(s) && WorkCan(s.worker, m)
    ensures HistoryKept(Work(s, m))
  {
    IdentityKeepsHistory(s, Work(s, m));
    WorkKeepsSends(s, m);
  }

  lemma DropKeepsHistory(s: State, position: nat, code: Code, store: Store)
    requires BookOk(s) && EffectsOk(s) && HistoryKept(s) && position < |s.jobs.queue|
    ensures HistoryKept(Dropped(s, position, code, store))
  {
    hide Delivered, UnknownIds, FinishedControl;
    IdentityKeepsHistory(s, Dropped(s, position, code, store));
  }

  lemma LoopKeepsHistory(s: State, m: LoopMove)
    requires BookOk(s) && EffectsOk(s) && HistoryKept(s) && LoopCan(s, m)
    ensures HistoryKept(Loop(s, m))
  {
    match m
    case StartExecute => StartKeepsHistory(s);
    case Drain(store) => DropKeepsHistory(s, 0, NotReady, store);
    case Expire(position, timeout, store) => DropKeepsHistory(s, position, Refusal(timeout), store);
    case _ =>
      hide Loop, LoopCan;
      LoopDecides(s, m);
      IdentityKeepsHistory(s, Loop(s, m));
  }

  lemma ExchangeKeepsHistory(s: State, m: ExchangeMove)
    requires BookOk(s) && EffectsOk(s) && HistoryKept(s) && ExchangeCan(s, m)
    ensures HistoryKept(Exchange(s, m))
  {
    hide Delivered, UnknownIds, FinishedControl, InterruptReply;
    IdentityKeepsHistory(s, Exchange(s, m));
  }
}
