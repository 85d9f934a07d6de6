/** The dispatcher as the object it is (cn_futures_bridge/dispatch.py): a queue, a handful of flags, the journal, the
    reconnect timer and the process owner, changed in place inside one lock.

    The ghost field `model` is a state of the transition system.  `Agrees` says that the fields are those of the state,
    `Valid` also that the state is reachable: every method below makes moves the system allows, so whatever holds of
    reachable states holds of the object between any two calls.
 */
module Dispatcher {
  import opened Base
  import opened Journal
  import opened Reconnect
  import opened Bridge
  import opened BridgeQueue
  import opened BridgeEffects
  import opened BridgeControl
  import opened BridgeTheorems
  import opened BridgeHolds
  import opened DispatcherSteps
  import Worker

  datatype Restart = Restarted | Abandoned | Lost

  class GuiDispatcher {
    const capacity: nat
    const patience: Time
    const journal: Journal
    const reconnect: ReconnectPlan
    const worker: Worker.WorkerProcess
    var queue: seq<Job>
    var active: Option<Job>
    var futures: map<Id, Reply>
    var nextNumber: nat
    var paused: bool
    var stopping: bool
    var ready: bool
    var failed: bool
    var ownerBusy: bool
    var resumePending: bool
    var state: WorkerState
    var unresolved: nat
    ghost var model: State

    ghost predicate Agrees()
      reads this, journal, reconnect
    {
      && capacity == model.capacity && journal.namespace == model.namespace && journal.ttl == model.ttl
      && journal.rows == model.rows && reconnect.View() == model.c.plan
      && queue == model.jobs.queue && active == model.jobs.active && futures == model.jobs.futures
      && nextNumber == model.jobs.nextNumber
      && paused == model.c.paused && stopping == model.c.stopping && ready == model.c.ready && failed == model.c.failed
      && ownerBusy == model.c.ownerBusy && resumePending == model.c.resumePending && state == model.c.state
      && unresolved == model.c.unresolved
    }

    ghost predicate Valid()
      reads this, journal, reconnect
    {
      Agrees() && Reachable(model)
    }

    /** A fresh process: recover the journal, then start with empty hands. */
    constructor (capacity: nat, patience: Time, journal: Journal, reconnect: ReconnectPlan,
                 worker: Worker.WorkerProcess, now: Time, ghost before: State)
      requires Reachable(before)
      requires before.rows == journal.rows && before.ttl == journal.ttl && before.capacity == capacity
      requires before.now == now && reconnect.View() == Initial(reconnect.enabled, reconnect.interval)
      modifies journal
      ensures Valid() && this.journal == journal && this.reconnect == reconnect && this.capacity == capacity
      ensures model == World(World(before, WorldMove.Restart(journal.namespace, reconnect.View())), Maintain)
    {
      hide Reachable;
      this.capacity, this.patience, this.journal, this.reconnect := capacity, patience, journal, reconnect;
      this.worker := worker;
      queue, active, futures, nextNumber := [], None, map[], 0;
      paused, stopping, ready, failed, ownerBusy, resumePending := false, false, false, false, false, false;
      state := WorkerState(false, false, false, false, None);
      ghost var restart := WorldMove.Restart(journal.namespace, reconnect.View());
      ghost var middle := World(before, restart);
      ReachStep(before, ByWorld(restart));
      ReachStep(middle, ByWorld(Maintain));
      PruneKeepsUnknown(middle.rows, now, journal.ttl, journal.namespace);
      model := World(middle, Maintain);
      new;
      this.unresolved := journal.Recover(now);
    }

    /** What others do between two calls: the clock, the desktop, the executor and its journal transactions. */
    method Elsewhere(ghost m: Move, rows: Rows)
      requires Valid() && (m.ByWorker? || (m.ByWorld? && !m.world.Restart?)) && Can(model, m)
      requires rows == Next(model, m).rows
      modifies this`model, journal
      ensures Valid() && model == Next(old(model), m)
    {
      hide Reachable;
      ReachStep(model, m);
      ElsewhereFields(model, m);
      journal.rows := rows;
      model := Next(model, m);
    }

    /** `_finish`: close the record of a write, recount, and answer the caller; a record that cannot be saved stops the
        service and is reported, with the submission status kept. */
    method FinishJob(job: Job, reply: Reply, store: Store, now: Time)
      modifies this`futures, this`failed, this`unresolved, this`state, journal
      ensures journal.rows == if job.operation.Writes() && store != RolledBack
              then Closed(old(journal.rows), reply, now)
                              else old(journal.rows)
      ensures unchanged(this`queue, this`active, this`nextNumber, this`paused, this`stopping, this`ready,
                        this`ownerBusy, this`resumePending, this`model, reconnect)
      ensures futures == Settles(old(futures), job, reply, store)
      ensures failed == (old(failed) || RecordLost(job, store))
      ensures unresolved == if job.operation.Writes() && store == Good
              then |UnknownIds(journal.rows, journal.namespace)|
                            else old(unresolved)
      ensures state == if RecordLost(job, store) then old(state).(error := Some(ErrorDetail(StorageLost, 0)))
              else old(state)
    {
      var answer := reply;
      if job.operation.Writes() {
        var saved := journal.Finish(reply, now, store);
        if saved {
          unresolved := |UnknownIds(journal.rows, journal.namespace)|;
        } else {
          failed := true;
          state := state.(error := Some(ErrorDetail(StorageLost, 0)));
          answer := StorageReply(job.id, reply.submission);
        }
      }
      if job.id !in futures {
        futures := futures[job.id := answer];
      }
    }

    /** Takes one request out of the queue and answers it. */
    method Drop(at: nat, code: Code, store: Store, now: Time)
      requires Agrees() && now == model.now && at < |queue|
      modifies this`queue, this`futures, this`failed, this`unresolved, this`state, this`model, journal
      ensures Agrees() && model == Dropped(old(model), at, code, store)
      ensures queue == RemoveAt(old(queue), at)
    {
      hide Dropped, Settles, Closed, UnknownIds, RefusalReply;
      var job := queue[at];
      ghost var t := Dropped(model, at, code, store);
      DropFields(model, at, code, store);
      queue := RemoveAt(queue, at);
      FinishJob(job, RefusalReply(job.id, code), store, now);
      model := t;
    }

    method Position(job: Job) returns (at: nat)
      ensures at <= |queue| && (at == |queue| <==> job !in queue) && (at < |queue| ==> queue[at] == job)
    {
      at := 0;
      while at < |queue| && queue[at] != job
        invariant at <= |queue| && forall k :: 0 <= k < at ==> queue[k] != job
      {
        at := at + 1;
      }
    }

    /** `cancel`, called by an HTTP thread: a request that has not been taken is removed and answered; any other is left
        alone. */
    method Cancel(job: Job, timeout: bool, store: Store, now: Time) returns (cancelled: bool)
      requires Valid() && now == model.now && !Locked(model.c.thread) && (timeout ==> now > job.deadline)
      modifies this, journal
      ensures Valid() && (cancelled <==> job in old(queue))
      ensures !cancelled ==> model == old(model)
      ensures cancelled ==>
                exists at: nat :: at < |old(queue)| && old(queue)[at] == job && queue == RemoveAt(old(queue), at)
                                  && model == Dropped(old(model), at, Bridge.Refusal(timeout), store)
    {
      hide Reachable, Dropped;
      var at := Position(job);
      if at == |queue| { return false; }
      CallerStep(model, Withdraw(at, timeout, store));
      Drop(at, Bridge.Refusal(timeout), store, now);
      return true;
    }

    // ----- Admission -----

    /** `submit`: capability, replay, every reason to refuse, then the record, then the queue. */
    method Submit(id: Id, op: Operation, key: Option<Key>, capability: Capability, cancelled: bool, looked: Store,
                  admitted: Store, now: Time) returns (answer: Admission)
      requires Valid() && now == model.now && !Locked(model.c.thread) && id !in model.used
      modifies this`queue, this`nextNumber, this`model, journal
      ensures Valid()
      ensures (model, answer) == Submission(old(model), id, op, key, capability, cancelled, now + patience, looked,
                                            admitted)
    {
      hide Reachable, Agrees, Admitting;
      SubmissionIsAllowed(model, id, op, key, capability, cancelled, now + patience, looked, admitted);
      RecordsAreUsed(model);
      KnowsRows();
      if capability == WrongEnvironment { return Refused(EnvironmentMismatch, 409); }
      if capability == Unsupported { return Refused(NotSupported, 501); }
      if cancelled { return Refused(RequestCancelled, 499); }
      if !op.Writes() {
        answer := Admit(id, op, key, admitted, now);
        return;
      }
      var found := LookUp(op, key, looked, now);
      if found.Ok? && found.value.None? {
        answer := Admit(id, op, key, admitted, now);
        return;
      }
      answer := if found.Err? then Refused(StorageUnavailable, 503) else Replayed(found.value.value);
    }

    lemma KnowsRows()
      requires Agrees()
      ensures journal.rows == model.rows
    {
    }

    method Admit(id: Id, op: Operation, key: Option<Key>, store: Store, now: Time) returns (answer: Admission)
      requires Agrees() && now == model.now && UniqueKeys(journal.rows) && id !in journal.rows
      modifies this`queue, this`nextNumber, this`model, journal
      ensures Agrees() && (model, answer) == Admitting(old(model), id, op, key, now + patience, store)
    {
      hide Agrees;
      var refusal := Refusal(op);
      if refusal.Some? { return refusal.value; }
      if op.Writes() {
        answer := Record(id, op, key, store, now);
      } else {
        Enter(id, op, key);
        answer := Join(id, op, key, now);
      }
    }

    ghost method Enter(id: Id, op: Operation, key: Option<Key>)
      requires Agrees() && !op.Writes()
      modifies this`model
      ensures Agrees() && model == Entered(old(model), id, op, key, Good)
    {
      model := Entered(model, id, op, key, Good);
    }

    method LookUp(op: Operation, key: Option<Key>, store: Store, now: Time) returns (found: Result<Option<Reply>, Code>)
      requires Agrees() && now == model.now && UniqueKeys(journal.rows)
      modifies this`model, journal
      ensures Agrees() && model == LookedUp(old(model), key, store) && model.now == now
      ensures UniqueKeys(journal.rows) && journal.rows.Keys <= old(journal.rows).Keys
      ensures found == Found(model, op, key, store)
    {
      found := journal.Replay(op, key, now, store);
      model := LookedUp(model, key, store);
    }

    method Refusal(op: Operation) returns (refusal: Option<Admission>)
      requires Agrees()
      ensures refusal == Refuses(model, op)
    {
      if stopping || failed || !ready || paused || state.blocked { return Some(Refused(NotReady, 503)); }
      if !state.queryReady || (op.Writes() && !state.tradingReady) { return Some(Refused(NotReady, 503)); }
      if |queue| >= capacity { return Some(Refused(Code.QueueFull, 429)); }
      return None;
    }

    method Join(id: Id, op: Operation, key: Option<Key>, now: Time) returns (answer: Admission)
      requires Agrees()
      modifies this`queue, this`nextNumber, this`model
      ensures Agrees() && model == Joined(old(model), id, op, key, now + patience)
      ensures answer == Admission(Job(id, op, key, old(model).jobs.nextNumber, now + patience))
    {
      var job := Job(id, op, key, nextNumber, now + patience);
      queue := queue + [job];
      nextNumber := nextNumber + 1;
      model := Joined(model, id, op, key, now + patience);
      return Admission(job);
    }

    method Write(id: Id, op: Operation, key: Option<Key>, store: Store, now: Time)
      returns (existing: Result<Option<Reply>, Code>)
      requires Agrees() && now == model.now && UniqueKeys(journal.rows) && id !in journal.rows && op.Writes()
      modifies this`model, journal
      ensures Agrees() && model == Written(old(model), id, op, key, store)
      ensures var p := LookedUp(old(model), Some(0), store);
              existing == if store == Good then Ok(Lookup(p.rows, p.namespace, op, key)) else Err(StorageUnavailable)
    {
      ghost var t := Written(model, id, op, key, store);
      WrittenFields(model, id, op, key, store);
      existing := journal.Admit(id, op, key, now, store);
      model := t;
    }

    method Record(id: Id, op: Operation, key: Option<Key>, store: Store, now: Time) returns (answer: Admission)
      requires Agrees() && now == model.now && UniqueKeys(journal.rows) && id !in journal.rows && op.Writes()
      modifies this`queue, this`nextNumber, this`model, journal
      ensures Agrees() && (model, answer) == Recorded(old(model), id, op, key, now + patience, store)
    {
      hide Agrees;
      var existing := Write(id, op, key, store, now);
      if existing.Err? {
        answer := Refused(StorageUnavailable, 503);
      } else if existing.value.Some? {
        answer := Replayed(existing.value.value);
      } else {
        answer := Join(id, op, key, now);
      }
    }

    // ----- The dispatch thread: starting up -----

    method StartWorker(reported: WorkerState)
      requires Valid() && model.c.thread == Booting && Honest(reported)
      modifies this`state, this`ready, this`model
      ensures Valid() && ready && state == reported && model == Exchange(old(model), WorkerUp(reported))
    {
      hide Reachable;
      ExchangeStep(model, WorkerUp(reported));
      state := reported;
      ready := true;
      model := Exchange(model, WorkerUp(reported));
    }

    method BecomePaused(value: bool, ghost t: State)
      requires Valid() && Reachable(t) && t == model.(c := model.c.(paused := value, thread := t.c.thread))
      modifies this`paused, this`model
      ensures Valid() && model == t && paused == value
    {
      hide Reachable;
      paused := value;
      model := t;
    }

    /** A service that counts unknown records begins paused. */
    method EnterLoop()
      requires Valid() && model.c.thread == Booted
      modifies this`paused, this`model
      ensures Valid() && model == Loop(old(model), LoopMove.EnterLoop)
      ensures paused == (old(paused) || unresolved != 0)
    {
      hide Reachable, Loop, LoopCan;
      EnteringStep(model);
      ghost var t := Entering(model);
      BecomePaused(paused || unresolved != 0, t);
    }

    // ----- The dispatch thread: deciding what to do next -----

    method NoteDesktop(desktop: Option<ErrorDetail>)
      requires Valid() && desktop == model.c.desktop && model.c.thread in {Updating, Settling, Ending}
      modifies this`state, this`model
      ensures Valid() && model == Noted(old(model))
    {
      hide Reachable;
      if desktop.Some? {
        LoopStep(model, LoopMove.NoteDesktop);
        state := state.(blocked := true, queryReady := false, tradingReady := false);
        model := Noted(model);
      }
    }

    /** Answers everybody who is waiting, in order. */
    method DrainQueue(stores: seq<Store>, now: Time)
      requires Valid() && now == model.now && |stores| >= |queue| && MayDrain(model.c)
      modifies this`queue, this`futures, this`failed, this`unresolved, this`state, this`model, journal
      ensures Valid() && queue == [] && model == DroppedAll(old(model), stores)
    {
      hide Reachable, Dropped, FinishedFields;
      var i := 0;
      while queue != []
        invariant Valid() && now == model.now && i <= |stores| && |stores| - i >= |queue| && MayDrain(model.c)
        invariant DroppedAll(model, stores[i..]) == DroppedAll(old(model), stores)
        decreases |queue|
      {
        DropKeepsState(model, stores[i]);
        DropFields(model, 0, NotReady, stores[i]);
        LoopStep(model, Drain(stores[i]));
        Drop(0, NotReady, stores[i], now);
        assert stores[i..][1..] == stores[i + 1..];
        i := i + 1;
      }
    }

    method Observe(desktop: Option<ErrorDetail>, now: Time)
      requires Agrees() && now == model.now && desktop == model.c.desktop
      modifies this`model, reconnect
      ensures Agrees() && model == Observing(old(model))
    {
      hide Observed;
      var error := if desktop.Some? then desktop else state.error;
      var safe := state.ownershipClear && unresolved == 0 && !failed && desktop.None?;
      reconnect.Observe(now, error, safe);
      model := Observing(model);
    }

    /** The first part of `_update_recovery`: note a desktop error, then turn away what cannot be executed. */
    method Empty(desktop: Option<ErrorDetail>, stores: seq<Store>, now: Time)
      requires Valid() && now == model.now && desktop == model.c.desktop && |stores| >= |queue|
      requires model.c.thread == Updating || model.c.thread == Settling
      modifies this`queue, this`futures, this`failed, this`unresolved, this`state, this`model, journal
      ensures Valid() && model == Emptied(Noted(old(model)), stores) && Settled(model)
      ensures queue == old(queue) || queue == []
      ensures model.c.thread == old(model).c.thread && model.now == now && desktop == model.c.desktop
    {
      hide Reachable;
      NoteDesktop(desktop);
      EmptyingKeeps(model, stores);
      if state.blocked || failed || !state.queryReady {
        DrainQueue(stores, now);
      }
    }

    /** `_update_recovery` inside the section: note, turn away, then let the timer observe error and safety. */
    method UpdateRecovery(desktop: Option<ErrorDetail>, stores: seq<Store>, now: Time)
      requires Valid() && now == model.now && desktop == model.c.desktop && |stores| >= |queue|
      requires model.c.thread == Updating
      modifies this`queue, this`futures, this`failed, this`unresolved, this`state, this`model, journal, reconnect
      ensures Valid() && model == Observing(Emptied(Noted(old(model)), stores)) && model.c.thread == Choosing
      ensures model.now == now && (queue == old(queue) || queue == [])
    {
      hide Reachable, Emptied;
      Empty(desktop, stores, now);
      LoopStep(model, LoopMove.UpdateRecovery);
      Observe(desktop, now);
    }

    method ExpireAt(at: nat, timeout: bool, store: Store, now: Time)
      requires Valid() && now == model.now && model.c.thread == Choosing && at < |queue|
      requires timeout ==> now > queue[at].deadline
      modifies this`queue, this`futures, this`failed, this`unresolved, this`state, this`model, journal
      ensures Valid() && now == model.now && model.c.thread == Choosing && queue == RemoveAt(old(queue), at)
      ensures old(queue)[at].id in futures
      ensures forall id :: id in old(futures) ==> id in futures && futures[id] == old(futures)[id]
    {
      hide Reachable, Dropped;
      DropFields(model, at, Bridge.Refusal(timeout), store);
      LoopStep(model, Expire(at, timeout, store));
      Drop(at, Bridge.Refusal(timeout), store, now);
    }

    method ExpireIfDoomed(at: nat, cancelled: set<Id>, store: Store, now: Time)
      requires Valid() && now == model.now && model.c.thread == Choosing && at < |queue|
      modifies this`queue, this`futures, this`failed, this`unresolved, this`state, this`model, journal
      ensures Valid() && now == model.now && model.c.thread == Choosing
      ensures queue == if Doomed(old(queue)[at], cancelled, now) then RemoveAt(old(queue), at) else old(queue)
      ensures Doomed(old(queue)[at], cancelled, now) ==> old(queue)[at].id in futures
      ensures forall id :: id in old(futures) ==> id in futures && futures[id] == old(futures)[id]
    {
      hide Reachable, Agrees;
      if Doomed(queue[at], cancelled, now) {
        ExpireAt(at, queue[at].id !in cancelled, store, now);
      }
    }

    /** Turns away every request whose caller is gone or whose time is over; the others keep their order. */
    method ExpireRequests(cancelled: set<Id>, stores: Id -> Store, now: Time)
      requires Valid() && now == model.now && model.c.thread == Choosing
      modifies this`queue, this`futures, this`failed, this`unresolved, this`state, this`model, journal
      ensures Valid() && now == model.now && model.c.thread == Choosing
      ensures queue == Remaining(old(queue), cancelled, now)
      ensures forall job :: job in queue <==> job in old(queue) && job.id !in cancelled && now <= job.deadline
      ensures forall job :: job in old(queue) && job !in queue ==> job.id in futures
      ensures forall id :: id in old(futures) ==> id in futures && futures[id] == old(futures)[id]
    {
      hide Reachable, Agrees, Remaining, Doomed;
      var items := queue;
      var i := 0;
      NothingRemains(cancelled, now);
      assert items[..0] == [] && [] + items[0..] == items;
      while i < |items|
        invariant 0 <= i <= |items| && Valid() && now == model.now && model.c.thread == Choosing
        invariant queue == Remaining(items[..i], cancelled, now) + items[i..]
        invariant forall k :: 0 <= k < i && Doomed(items[k], cancelled, now) ==> items[k].id in futures
        invariant forall id :: id in old(futures) ==> id in futures && futures[id] == old(futures)[id]
      {
        RemainingGoesOn(items, i, cancelled, now, queue);
        ExpireIfDoomed(|Remaining(items[..i], cancelled, now)|, cancelled, stores(items[i].id), now);
        i := i + 1;
      }
      assert items[..i] == items && items[i..] == [];
      RemainingAreWaiting(items, cancelled, now);
      DoomedAreAnswered(items, cancelled, now, futures);
    }

    /** A pending resume first; then a due reconnect; then a probe or the oldest request; or back to waiting. */
    method Choose(probeTime: bool, now: Time) returns (choice: Choice)
      requires Valid() && now == model.now && model.c.thread == Choosing
      modifies this`queue, this`active, this`ready, this`ownerBusy, this`model, reconnect
      ensures Valid() && choice == Chosen(old(model), probeTime)
      ensures LoopCan(old(model), MoveOf(choice)) && model == Loop(old(model), MoveOf(choice))
      ensures choice.RunJob? ==> old(queue) != [] && choice.job == old(queue)[0] && active == Some(choice.job)
                                 && model.c.thread == Busy(Execute)
      ensures choice.RunReconnect? ==> model.c.thread == Busy(Restore) && !ready
    {
      hide Reachable, Loop;
      ChosenIsAllowed(model, probeTime);
      ghost var m := MoveOf(Chosen(model, probeTime));
      LoopStep(model, m);
      var due := reconnect.deadline.Some? && now >= reconnect.deadline.value;
      if !resumePending && !paused && due {
        choice := RunReconnect;
        BeginReconnect(now);
      } else if !resumePending && (paused || state.blocked || queue == []) {
        if !probeTime || paused || state.blocked {
          choice := Pass;
          Rest();
        } else {
          choice := RunProbe;
          Begin(m);
        }
      } else if resumePending {
        choice := RunResume;
        Begin(m);
      } else {
        choice := RunJob(queue[0]);
        Take();
      }
    }

    method BeginReconnect(now: Time)
      requires Agrees() && now == model.now && LoopCan(model, StartRestore)
      modifies this`ready, this`ownerBusy, this`model, reconnect
      ensures Agrees() && model == Loop(old(model), StartRestore) && model.c.thread == Busy(Restore) && !ready
    {
      reconnect.Begin(now);
      ready := false;
      ownerBusy := true;
      model := Loop(model, StartRestore);
    }

    ghost method Rest()
      requires Agrees() && LoopCan(model, LoopMove.Wait)
      modifies this`model
      ensures Agrees() && model == Loop(old(model), LoopMove.Wait)
    {
      model := Loop(model, LoopMove.Wait);
    }

    method Begin(ghost m: LoopMove)
      requires Agrees() && LoopCan(model, m)
      requires m == StartRecheck || m == StartProbe
      modifies this`ownerBusy, this`model
      ensures Agrees() && model == Loop(old(model), m)
    {
      ownerBusy := true;
      model := Loop(model, m);
    }

    method Take()
      requires Agrees() && LoopCan(model, StartExecute)
      modifies this`queue, this`active, this`ownerBusy, this`model
      ensures Agrees() && model == Loop(old(model), StartExecute) && model.c.thread == Busy(Execute)
      ensures old(queue) != [] && active == Some(old(queue)[0])
    {
      active := Some(queue[0]);
      queue := RemoveAt(queue, 0);
      ownerBusy := true;
      model := Loop(model, StartExecute);
    }

    /** Whether the loop goes on: the one look at `stopping` and `failed`. */
    method Look() returns (inside: bool)
      requires Valid() && model.c.thread == Looping
      modifies this`model
      ensures Valid() && (inside <==> !stopping && !failed)
      ensures model == Loop(old(model), if inside then LoopMove.Look else BreakLoop)
      ensures model.c.thread == (if inside then Updating else Ending)
      ensures model.now == old(model).now && model.c.desktop == old(model).c.desktop
    {
      hide Reachable;
      inside := !stopping && !failed;
      ghost var m := if inside then LoopMove.Look else BreakLoop;
      LoopStep(model, m);
      model := Loop(model, m);
    }

    /** One pass through the section of `_loop`, from the look at the flags to the choice. */
    method RunSection(desktop: Option<ErrorDetail>, cancelled: set<Id>, drains: seq<Store>, expiries: Id -> Store,
                      probeTime: bool, now: Time) returns (choice: Option<Choice>)
      requires Valid() && now == model.now && desktop == model.c.desktop && |drains| >= |queue|
      requires model.c.thread == Looping
      modifies this`queue, this`active, this`futures, this`failed, this`unresolved, this`state, this`ready,
          this`ownerBusy, this`model, journal, reconnect
      ensures Valid() && (choice.None? <==> old(stopping) || old(failed))
      ensures choice.None? ==> model.c.thread == Ending && queue == old(queue)
      ensures choice.Some? && choice.value.RunJob? ==>
                var job := choice.value.job;
                && job in old(queue) && job.id !in cancelled && now <= job.deadline && active == Some(job)
                && model.c.thread == Busy(Execute)
      ensures choice.Some? && choice.value.RunReconnect? ==> model.c.thread == Busy(Restore) && !ready
    {
      hide Reachable, Agrees, Loop, LoopCan, MoveOf, Chosen, Remaining, Doomed, Emptied, Observing;
      var inside := Look();
      if !inside { return None; }
      UpdateRecovery(desktop, drains, now);
      ExpireRequests(cancelled, expiries, now);
      var chosen := Choose(probeTime, now);
      return Some(chosen);
    }

    // ----- What comes back -----

    /** `_exchange`: the first thing done with any message is to adopt the state it reports. */
    method Adopt(reported: WorkerState)
      requires Valid() && ExchangeCan(model, ExchangeMove.Adopt(reported))
      modifies this`state, this`model
      ensures Valid() && state == reported && model == Exchange(old(model), ExchangeMove.Adopt(reported))
      ensures (model.worker.Answered? ==> model.worker.heard) && model.c.thread == old(model).c.thread
    {
      hide Reachable;
      ExchangeStep(model, ExchangeMove.Adopt(reported));
      state := reported;
      model := Adopted(model, reported);
    }

    /** The reply that was heard ends the request, on record and for its caller. */
    method Receive(reply: Reply, store: Store, now: Time)
      requires Valid() && now == model.now && ExchangeCan(model, ExchangeMove.Receive(store))
               && model.worker.reply == reply
      modifies this`active, this`futures, this`failed, this`unresolved, this`state, this`model, journal
      ensures Valid() && model == Exchange(old(model), ExchangeMove.Receive(store)) && active.None?
      ensures futures == Settles(old(futures), old(active).value, reply, store)
    {
      hide Reachable, Received, Settles, Closed, UnknownIds;
      ExchangeStep(model, ExchangeMove.Receive(store));
      ghost var t := Received(model, store);
      ReceivedFields(model, store);
      FinishJob(active.value, reply, store, now);
      active := None;
      model := t;
    }

    method FinishProbe()
      requires Valid() && model.c.thread == Busy(Probe)
      modifies this`model
      ensures Valid() && model == Exchange(old(model), TaskDone)
    {
      hide Reachable;
      ExchangeStep(model, TaskDone);
      model := TaskFinished(model);
    }

    /** A recheck that leaves the executor unblocked ends the pause; its caller is answered either way. */
    method FinishResume()
      requires Valid() && model.c.thread == Busy(Recheck)
      modifies this`paused, this`resumePending, this`model
      ensures Valid() && model == Exchange(old(model), TaskDone)
      ensures !resumePending && paused == (old(paused) && state.blocked)
    {
      hide Reachable, TaskFinished;
      ExchangeStep(model, TaskDone);
      ghost var t := TaskFinished(model);
      ResumeFields(model);
      paused := paused && state.blocked;
      resumePending := false;
      model := t;
    }

    method FinishReconnect()
      requires Valid() && model.c.thread == Busy(Restore)
      modifies this`ready, this`model
      ensures Valid() && ready && model == Exchange(old(model), TaskDone)
    {
      hide Reachable;
      ExchangeStep(model, TaskDone);
      ready := true;
      model := TaskFinished(model);
    }

    method GiveUpReconnect()
      requires Valid() && model.c.thread == Busy(Restore) && stopping
      modifies this`model
      ensures Valid() && model == Exchange(old(model), RestoreAborted)
    {
      hide Reachable;
      ExchangeStep(model, RestoreAborted);
      model := Exchange(model, RestoreAborted);
    }

    /** `_reconnect`: the old owner must have answered "stop" and exited before the terminal is restarted and a new
        owner started; anything else isolates the service. `gone` says whether the lost owner is known to have ended. */
    method Reconnect(stop: Worker.RequestId, stopped: Worker.Arrival, exits: bool, terminal: bool,
                     name: Worker.Generation, startup: Worker.RequestId, spawns: bool, first: Worker.Arrival,
                     reported: WorkerState, gone: bool)
      returns (outcome: Restart)
      requires Valid() && model.c.thread == Busy(Restore) && Honest(reported)
      requires Worker.Exclusive(worker.View())
      modifies this`state, this`ready, this`failed, this`model, worker
      ensures Valid() && Worker.Exclusive(worker.View())
      ensures worker.spawned != old(worker.spawned) ==>
                && worker.spawned == old(worker.spawned) + [name]
                && (old(worker.process).Some? ==>
                      stopped.Came? && (exits || old(worker.process).value !in old(worker.alive)))
      ensures outcome == Restarted ==>
                ready && state == reported && worker.process == Some(name) && worker.alive == {name}
      ensures outcome == Abandoned ==> stopping && worker.process.None? && worker.alive == {}
      ensures outcome == Lost ==> failed && state.blocked && ready == old(ready)
    {
      hide Reachable, Agrees, Exchange, ExchangeCan, Loop, LoopCan, Honest, Broken;
      var problem := worker.Stop(stop, stopped, exits);
      if problem.Some? {
        Fail(gone);
        return Lost;
      }
      if stopping {
        GiveUpReconnect();
        return Abandoned;
      }
      if !terminal {
        Fail(gone);
        return Lost;
      }
      var answer := worker.Start(name, startup, spawns, first);
      if answer.Err? {
        Fail(gone);
        return Lost;
      }
      Restarts(reported);
      return Restarted;
    }

    method Restarts(reported: WorkerState)
      requires Valid() && model.c.thread == Busy(Restore) && Honest(reported)
      modifies this`state, this`ready, this`model
      ensures Valid() && ready && state == reported
    {
      hide Reachable, Agrees, Exchange;
      Adopt(reported);
      FinishReconnect();
    }

    /** After every task: give the terminal back and look at the situation again. */
    method Settle(desktop: Option<ErrorDetail>, stores: seq<Store>, now: Time)
      requires Valid() && now == model.now && desktop == model.c.desktop && |stores| >= |queue|
      requires model.c.thread == Settling
      modifies this`queue, this`futures, this`failed, this`unresolved, this`state, this`ownerBusy, this`model,
          journal, reconnect
      ensures Valid() && model == Released(Observing(Emptied(Noted(old(model)), stores)))
    {
      hide Reachable, Emptied, Noted;
      Empty(desktop, stores, now);
      LoopStep(model, LoopMove.Settle);
      Observe(desktop, now);
      Release();
    }

    method Release()
      requires Agrees()
      modifies this`ownerBusy, this`model
      ensures Agrees() && model == Released(old(model))
    {
      ownerBusy := false;
      model := Released(model);
    }

    /** The executor is lost: isolate it. */
    method Fail(gone: bool)
      requires Valid() && model.c.thread.Busy?
      modifies this`failed, this`state, this`model
      ensures Valid() && model == Exchange(old(model), ExchangeFails(gone)) && failed
      ensures state == Broken(old(state)) && state.blocked
    {
      hide Reachable, Exchange, ExchangeCan, Broken;
      FailedFields(model, gone);
      ExchangeStep(model, ExchangeFails(gone));
      ghost var t := Exchange(model, ExchangeFails(gone));
      failed := true;
      state := Broken(state);
      model := t;
    }

    /** Keep what the executor put on record; without a record assume nothing. */
    method ReadBack(store: Store) returns (reply: Reply)
      requires Valid() && model.c.thread == Failing && active.Some? && model.jobs.interrupted.None?
      modifies this`model
      ensures Valid() && model == Exchange(old(model), Interrupt(store)) && model.jobs.interrupted == Some(reply)
    {
      hide Reachable, InterruptReply, Interrupted;
      ExchangeStep(model, Interrupt(store));
      ghost var t := Interrupted(model, store);
      InterruptedFields(model, store);
      reply := Verdict(active.value, store);
      model := t;
    }

    method Verdict(job: Job, store: Store) returns (reply: Reply)
      requires journal.rows == model.rows
      ensures reply == InterruptReply(model, job, store)
    {
      if !job.operation.Writes() { return Reply(job.id, 503, Nothing, OperationError, NO_FACTS); }
      var kept := journal.Interrupted(job.id, store);
      return if kept.Ok? then kept.value else StorageReply(job.id, Unknown);
    }

    method Conclude(reply: Reply, store: Store, now: Time)
      requires Valid() && now == model.now && active.Some? && model.jobs.interrupted == Some(reply)
      requires ExchangeCan(model, ExchangeMove.Conclude(store))
      modifies this`futures, this`failed, this`unresolved, this`state, this`model, journal
      ensures Valid() && model == Exchange(old(model), ExchangeMove.Conclude(store))
      ensures futures == Settles(old(futures), active.value, reply, store)
    {
      hide Reachable, Concluded, Settles, Closed, UnknownIds;
      ExchangeStep(model, ExchangeMove.Conclude(store));
      ghost var t := Concluded(model, store);
      ConcludedFields(model, store);
      FinishJob(active.value, reply, store, now);
      model := t;
    }

    /** The thread ends: nobody is left waiting, not even for a resume. */
    method End(stores: seq<Store>, now: Time)
      requires Valid() && now == model.now && model.c.thread == Ending && |stores| >= |queue|
      modifies this`queue, this`futures, this`failed, this`unresolved, this`state, this`resumePending, this`model,
          journal
      ensures Valid() && queue == [] && !resumePending && model == Ended(DroppedAll(old(model), stores))
    {
      hide Reachable, DroppedAll;
      EmptyingKeeps(model, stores);
      DrainQueue(stores, now);
      LoopStep(model, ThreadEnds);
      DismissResume();
    }

    method DismissResume()
      requires Agrees() && LoopCan(model, ThreadEnds)
      modifies this`resumePending, this`model
      ensures Agrees() && !resumePending && model == Loop(old(model), ThreadEnds)
    {
      resumePending := false;
      model := Ended(model);
    }

    // ----- Pause and resume -----

    method RequestPause()
      requires Valid() && !Locked(model.c.thread)
      modifies this`paused, this`model
      ensures Valid() && model == Caller(old(model), PauseCall)
    {
      hide Reachable;
      CallerStep(model, PauseCall);
      paused := true;
      model := Caller(model, PauseCall);
    }

    method RequestStop()
      requires Valid() && !Locked(model.c.thread)
      modifies this`stopping, this`model
      ensures Valid() && model == Caller(old(model), StopCall)
    {
      hide Reachable;
      CallerStep(model, StopCall);
      stopping := true;
      model := Caller(model, StopCall);
    }

    /** Whether `pause` may return now: Some(true) without an error, Some(false) with one, None to keep waiting. */
    method PauseOutcome() returns (outcome: Option<bool>)
      requires Valid() && paused && !Locked(model.c.thread)
      ensures outcome == Some(true) <==> PauseReturns(model)
      ensures outcome == Some(true) <==> active.None? && !ownerBusy && ready && !failed && state.ownershipClear
      ensures outcome == None <==> !failed && (active.Some? || ownerBusy || !ready)
    {
      hide Reachable;
      if active.Some? || ownerBusy || (!ready && !failed) {
        return if failed then Some(false) else None;
      }
      return Some(!failed && state.ownershipClear);
    }

    method Resume() returns (answer: Resumption)
      requires Valid() && !Locked(model.c.thread)
      modifies this`paused, this`resumePending, this`model
      ensures Valid()
      ensures answer == NotNow <==> !CallerCan(old(model), ResumeCall)
      ensures answer == NotNow <==>
                !old(ready) || old(failed) || old(active).Some? || old(ownerBusy) || old(resumePending)
      ensures answer == ReconnectsSoon <==> answer != NotNow && reconnect.deadline.Some?
      ensures model == if answer == NotNow then old(model) else Caller(old(model), ResumeCall)
      ensures answer == Requested ==> paused && resumePending
      ensures answer == ReconnectsSoon ==> !paused && reconnect.deadline.Some?
    {
      hide Reachable;
      if !ready || failed || active.Some? || ownerBusy || resumePending { return NotNow; }
      CallerStep(model, ResumeCall);
      ghost var t := Caller(model, ResumeCall);
      if reconnect.deadline.Some? {
        paused := false;
        answer := ReconnectsSoon;
      } else {
        paused := true;
        resumePending := true;
        answer := Requested;
      }
      model := t;
    }
  }

  /** Between any two calls, whatever a request has done in the terminal, nobody can read "not executed" of it: not
      in the journal, not in the answer its caller got, and not in what a recovery of this journal would record. */
  lemma ObjectIsCrashSafe(d: GuiDispatcher, id: Id)
    requires d.Valid() && Acted(d.model.events, id)
    ensures id in d.futures ==> d.futures[id].submission != Nothing
    ensures id in d.journal.rows ==>
              var row := d.journal.rows[id];
              (if row.reply.Some? then row.reply.value else RecoveryReply(id, row)).submission != Nothing
  {
    ReachableIsSound(d.model);
  }

  /** Between any two calls, while no record was lost and no write is under way: the count is the journal's. */
  lemma ObjectCountsUnknown(d: GuiDispatcher)
    requires d.Valid() && !d.failed && (d.active.None? || !d.active.value.operation.Writes())
    ensures d.unresolved == |UnknownIds(d.journal.rows, d.journal.namespace)|
  {
    ReachableIsSound(d.model);
  }

  /** Between any two calls: the queue is bounded and in order of admission, and nobody who waits has been answered. */
  lemma ObjectQueueIsFair(d: GuiDispatcher, i: nat, k: nat)
    requires d.Valid() && i < k < |d.queue|
    ensures |d.queue| <= d.capacity && d.queue[i].number < d.queue[k].number < d.nextNumber
    ensures d.queue[i].id != d.queue[k].id && d.queue[i].id !in d.futures
    ensures d.queue[i].operation.Writes() ==> d.queue[i].id in d.journal.rows
                                              && d.journal.rows[d.queue[i].id].key == d.queue[i].key
  {
    ReachableIsSound(d.model);
  }

  lemma {:induction false} RemainingAreWaiting(queue: seq<Job>, cancelled: set<Id>, now: Time)
    ensures forall job :: job in Remaining(queue, cancelled, now) <==>
                            job in queue && job.id !in cancelled && now <= job.deadline
  {
    if queue != [] {
      var n := |queue| - 1;
      RemainingAreWaiting(queue[..n], cancelled, now);
      assert queue == queue[..n] + [queue[n]];
    }
  }

  lemma DoomedAreAnswered(items: seq<Job>, cancelled: set<Id>, now: Time, futures: map<Id, Reply>)
    requires forall k :: 0 <= k < |items| && Doomed(items[k], cancelled, now) ==> items[k].id in futures
    ensures forall job :: job in items && (job.id in cancelled || now > job.deadline) ==> job.id in futures
  {
    forall job | job in items && (job.id in cancelled || now > job.deadline) ensures job.id in futures {
      var k :| 0 <= k < |items| && items[k] == job;
      assert Doomed(items[k], cancelled, now);
    }
  }

  lemma NothingRemains(cancelled: set<Id>, now: Time)
    ensures Remaining([], cancelled, now) == []
  {
  }

  lemma ElsewhereFields(s: State, m: Move)
    requires Can(s, m) && (m.ByWorker? || (m.ByWorld? && !m.world.Restart?))
    ensures var t := Next(s, m);
            t.jobs == s.jobs && t.c == s.c.(desktop := t.c.desktop) && t.capacity == s.capacity
            && t.namespace == s.namespace && t.ttl == s.ttl
  {
    hide WorkerAfter, RowsAfter, Pruned, ExpiredRows, Recovered, UnknownIds;
    OutsidersKeepControl(s, m);
    if m.ByWorld? {
      match m.world
      case Tick(_) =>
      case Maintain =>
      case DesktopChanges(_) =>
    }
  }
}
