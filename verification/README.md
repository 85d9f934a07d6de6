# Verification of the futures order bridge

The bridge turns HTTP requests into keystrokes in a trading terminal. An order must never be sent twice, a request that did
anything must never be reported as "not executed", and the price, the row and the trades reported must be the request's own.
These files model the parts that make this so and prove it. `dafny verify dfyconfig.toml` checks everything.

## How it is built

**Crash-safe submission.** `Journal` is the durable record of every write: functions on the table, and a class whose methods
perform the same transactions in place. `Execution` is the control graph of one request in the executor, edge by edge: nothing
durable, a save, or an action in the terminal. `Bridge` puts HTTP threads, dispatch thread, executor process, journal, clock,
desktop, crashes and restarts into one transition system whose steps are transactions, edges and the parts of the critical
sections. Inside the section of `_loop` and `_update_recovery` the dispatch thread holds the lock: no HTTP thread moves there
(`Bridge.Locked`). `BridgeQueue`, `BridgeEffects`, `BridgeHistory`, `BridgeRecords` and `BridgeControl` prove what every step
keeps; `BridgeTheorems` draws the results on records, answers and actions over all reachable states and runs, `BridgeHolds`
those on pauses, failures, cold starts and reconnects, `BridgeUnknown` that nothing starts after an unknown answer,
`BridgeStrays` what an executor that was given up can still do; `BridgeLimits` gives concrete runs where a guarantee ends.

`Dispatcher` is the object with the fields the code has. Its `Valid` says that the fields are those of a reachable state; every
public method requires the move it makes to be allowed, makes it in place and keeps `Valid`, so whatever holds of reachable
states holds of the object, as `ObjectIsCrashSafe`, `ObjectCountsUnknown` and `ObjectQueueIsFair` spell out. `DispatcherSteps`
holds the functions these methods are proved against. `Reconnect` and `Worker` are the timer and the process owner.

**One request from price to trade.** `Requests` states, for everything the terminal may show during one request, when it is
submitted, verified and cleaned up, and proves what an accepted order is. `Executor` is the object that performs it step by
step: its methods follow the control graph, and a 202 is given exactly under those conditions.

**Prices.** `Decimals`, `Pricing` and `PricingTheorems`: exact rational arithmetic, the step by step code and its algebra.

**Identity.** `Binding` (which preorder row is ours), `Receipt` (the re-entrant hook that captures the reference actually
sent), `Verification`, `Observation` and `Stability` (what proves an execution, and when a reading is stable).

**Bounded machines.** `Notices`, `NoticeScan` and `Artifacts`.

Methods are proved against functions, and results over runs speak of those functions. What such a function means is spelled out
once more in plain fields, constants and numbers, in lemmas named `...IsExact` or `...Exactly`.

## What is assumed

- A journal transaction is atomic under its lock and ends in one of three ways: committed, rolled back with an error, or
  committed with an error raised afterwards by the capacity check (`journal.py:57-61`).
- Hashes and canonical JSON are injective: keys, fingerprints and signatures are compared as the values they encode.
- One clock serves as wall clock and monotonic clock, and never goes back. Request ids and generations are never reused.
- An IPC reply fits its cap (`worker.py:64-66` would replace it). Restarting the service ends the executor with it.
- Every prune is a step of its own, so runs with the code's prunes inside transactions are among the runs considered. The
  clock, the desktop and the executor process move at any time, also while the dispatch thread holds its lock.
- Observations of the terminal, the desktop, windows, files and processes are free.
- Prices are real numbers; whether a decimal survives the terminal's float transport is an arbitrary predicate. Reading a
  number, stripping a cell and recognising a market price in the exported table are arbitrary functions.

## Where a promise does not hold

Each of these is proved by a concrete run or input, together with the condition under which the code does what it promises.

- **The effect on record can fall, and a finished unknown record can change.** After an IPC timeout the executor may still be
  running. `_run` reads the record (`dispatch.py:179`), then closes it in a second transaction (`dispatch.py:184`); a save in
  between is overwritten by unknown (`BridgeLimits.AnEffectCanFall`), and the executor's own final write afterwards rewrites the
  finished record, so that a replay differs from the caller's answer (`BridgeLimits.AFinishedRecordCanChange`). The same fall
  happens without a running executor when the record cannot be read (`BridgeLimits.AFailedReadCanLowerAnEffect`), and an executor
  given up before it did anything closes its unknown record as clean (`BridgeLimits.AStrayCanFinishClean`). The two steps
  that lower an effect are characterised by `BridgeTheorems.EffectsClimbExactly`, the records that can change by
  `BridgeStrays.FinishedRecordChangesExactly`; crash safety and at-most-one-send hold regardless.
- **`pause` does not wait for a pending resume** (`dispatch.py:263-269` checks the active job and the busy flag only). A recheck
  may start after `pause` returned and leave the service unpaused, without any further call (`BridgeLimits.APauseCanBeUndone`).
  Exactly when a resume is pending and the dispatch thread is not on its way out: `BridgeHolds.PauseHoldsExactly`.
- **A storage failure can go unnoticed for one choice.** `_loop` looks at `failed` before it turns away queued requests
  (`dispatch.py:201-208`); if closing such a record fails, the next request is started all the same
  (`BridgeLimits.AFailureLetsTheNextRequestStart`). Exactly then: `BridgeHolds.FailureHoldsExactly` and
  `BridgeHolds.FailuresInsideAreLostRecords`; on the whole run it is at most one start (`BridgeHolds.FailureAllowsOneStart`).
- **An accepted receipt does not exclude a second send.** A send from another thread, or after a stop cleared `expected`,
  finished or not, goes out without marking the capture broken (`receipt.c:61-88`): `Receipt.AnAcceptedOrderCanBeSentTwice`.
  The order was sent once exactly when neither happened: `Receipt.SentOnceExactly`.
- **Before Delete the second table is compared at one place only** (`orders.py:148-151`); it may show another row with the same
  id and instrument (`Requests.SecondTableMayShowAnother`), exactly when a row that appeared or changed since the first reading
  is another match: `Requests.SecondTableIsUniqueExactly`. What is known of the row: `Requests.TargetIsTheRequests`.
- **The check for an equal row before importing is not what makes binding unique.** A successful binding already implies it
  (`Binding.BoundIdentityIsNewAndUnique`); the check saves an import whose row could not be bound.

## Model

| member | source | states |
|---|---|---|
| BridgeTheorems.CrashSafety | cn_futures_bridge/journal.py:130-159 | In every reachable state, hence at every point a process can die: if the request imported, confirmed, sent, deleted or confirmed a cancel, then the record, the future, the executor's answer, the interrupted reply and what recovery would write all say submitted, rejected or unknown, never "not executed". |
| BridgeTheorems.NotExecutedIsFinal | cn_futures_bridge/journal.py:147-156 | A record closed as "not executed" is right for good: in every continuation, over restarts, the request has done and will do nothing in the terminal. |
| BridgeTheorems.AtMostOneSend | cn_futures_bridge/terminal/orders.py:91-111 | Over all runs and restarts a request presses Alt+Q or Delete at most once in all, and repeats no other action either. |
| BridgeTheorems.RepeatedKeysAreSeparated | cn_futures_bridge/journal.py:74-108 | Two executions under one (namespace, key) are different requests, and between them the first one's record was pruned: finished, not unknown, older than the protection time. |
| BridgeTheorems.JournalAndQueueAgree | cn_futures_bridge/dispatch.py:74-86 | Every queued write has an untouched open record; while no journal transaction has failed, every open record of the account is queued or being executed. |
| BridgeTheorems.NoFutureLeftOpen | cn_futures_bridge/dispatch.py:187-194 | When the dispatch thread is gone no caller is left waiting and nothing can be admitted any more. |
| BridgeTheorems.FuturesAreAnsweredOnce | cn_futures_bridge/dispatch.py:113-114 | Until the process ends an answer given is never replaced, and a waiting request is never lost, only answered. |
| BridgeTheorems.ReplayRepeatsTheAnswer | cn_futures_bridge/journal.py:82-87 | While storage works and no running executor was given up, the reply a caller got is what a repeated request with the same key gets. |
| BridgeTheorems.FirstAnswerIsOnRecord | cn_futures_bridge/dispatch.py:101-114 | The answer a caller gets first is the reply on record; if the record could not be closed it is the storage error, with the submission status of any reply that still reached the record. |
| BridgeTheorems.ReplayChangesExactly | cn_futures_bridge/journal.py:125-134 | Once the answer is on record, a step makes a replay differ from it if and only if an executor given up while running the request writes a different final reply. |
| BridgeTheorems.AcceptedIsSubmitted | cn_futures_bridge/terminal/executor.py:313-323 | Wherever a 202 is read, the effect on record is submitted. |
| BridgeTheorems.EffectsClimbExactly | cn_futures_bridge/journal.py:110-159 | The effect on record climbs (nothing, unknown, one verdict for good) at a step if and only if the step is not one of two: closing as unknown a record that holds a verdict, or an abandoned executor closing as clean a record already unknown; with working storage and no abandoned executor it always climbs. |
| BridgeTheorems.FinishedRecordsStand | cn_futures_bridge/journal.py:125-140 | A finished record whose request is over changes only by the hand of an executor abandoned while running it, and is never removed while unknown. |
| BridgeStrays.FinishedRecordChangesExactly | cn_futures_bridge/journal.py:125-134 | Over runs without restart or prune, the reply on a finished record whose request is over can change if and only if an executor that was given up is still running that request. |
| BridgeTheorems.QueueIsFair | cn_futures_bridge/dispatch.py:74-99 | The queue never exceeds its capacity, requests start in the order they were admitted, and a withdrawn request is never among the started ones. |
| BridgeHolds.PauseHolds | cn_futures_bridge/dispatch.py:259-269 | After `pause` returned with no resume pending, along every run without a resume or restart nothing starts and the terminal is left alone. |
| BridgeHolds.PauseHoldsExactly | cn_futures_bridge/dispatch.py:209-269 | When `pause` has returned, something starts on some run without a further resume or restart if and only if a resume was pending and the dispatch thread is neither leaving nor asked to stop: `pause` does not wait for a pending resume. |
| BridgeHolds.FailureIsFinal | cn_futures_bridge/dispatch.py:200-202 | A service that failed or was told to stop while the dispatch thread is outside its section starts nothing on any run until the process is restarted. |
| BridgeHolds.FailureAllowsOneStart | cn_futures_bridge/dispatch.py:200-224 | Along any run without a restart, from the moment the service failed or was told to stop at most one more thing is started in all, and only if that moment lies inside the section. |
| BridgeHolds.FailureHoldsExactly | cn_futures_bridge/dispatch.py:200-224 | A failed service can start something if and only if the dispatch thread stands at its choice, inside the section and past the look at the flag, and a resume is pending or neither a pause nor a blocked executor holds it back. |
| BridgeHolds.FailuresInsideAreLostRecords | cn_futures_bridge/dispatch.py:138-141 | A step makes the service fail inside the section if and only if the dispatch thread itself turns a write away there and its record cannot be closed; a caller's cancellation cannot run there. |
| BridgeHolds.ColdStartIsHeld | cn_futures_bridge/dispatch.py:162-167 | A restart that finds an unknown record starts nothing until somebody calls resume. |
| BridgeHolds.RestoreIsSafe | cn_futures_bridge/dispatch.py:200-214 | A reconnect begins only unpaused, not failed, with clear ownership, a connection error as the latest observation, no unknown record in the journal and nothing queued. |
| BridgeHolds.RestoreIsExclusive | cn_futures_bridge/dispatch.py:145-151 | While a reconnect is under way nothing runs and nothing else can start. |
| BridgeHolds.RestoreWaitsItsInterval | cn_futures_bridge/dispatch.py:143 | Along every run a reconnect begins at least one interval after one observation of a connection error on a safe terminal, and nothing has touched the timer since that observation. |
| BridgeHolds.HeardAnswerIsDelivered | cn_futures_bridge/dispatch.py:119-123 | Once the state that came with an answer is adopted the answer cannot get lost: at every step, restarts aside, it stays until it is received and is then what its caller gets, unless the exchange itself is given up. |
| BridgeUnknown.UnknownHolds | cn_futures_bridge/terminal/executor.py:286-298 | Once an executor has answered a request as unknown, nothing starts and nothing is admitted on any run until somebody resumes or the process restarts, not even by the reconnect timer and not when records are lost on the way. |
| BridgeUnknown.ReachableIsOnRecord | cn_futures_bridge/journal.py:110-128 | In every reachable state a write being executed has its open record, an unknown answer to it stands for a record that no prune removes and the recount finds, and no resume is pending meanwhile. |
| BridgeTheorems.ReachableIsSound | cn_futures_bridge/dispatch.py:132-257 | The whole invariant (queue, assignment, effects, records, history, timer) holds in every reachable state. |
| BridgeTheorems.InvariantIsKept | cn_futures_bridge/dispatch.py:132-257 | Every single step of callers, dispatch thread, executor, clock, disk and restart keeps the invariant. |
| BridgeLimits.AnOrderIsSent | cn_futures_bridge/terminal/orders.py:94-104 | The model is not vacuous: a reachable run imports an order and sends it. |
| BridgeLimits.AnEffectCanFall | cn_futures_bridge/dispatch.py:178-184 | Concrete run: exchange times out, the record is read, the executor saves submitted, the dispatcher closes the record as unknown. |
| BridgeLimits.AFinishedRecordCanChange | cn_futures_bridge/journal.py:125-134 | Concrete run: a finished unknown record is rewritten by an abandoned executor and a replay then differs from the answer the caller got. |
| BridgeLimits.AFailedReadCanLowerAnEffect | cn_futures_bridge/dispatch.py:181-184 | Concrete run without a running executor: reading the record fails, and the storage error then replaces a submitted effect by unknown. |
| BridgeLimits.AFailureLetsTheNextRequestStart | cn_futures_bridge/dispatch.py:204-221 | Concrete run: inside the section a cancelled request loses its record, the service has failed, and the next write still starts. |
| BridgeLimits.AnUnknownAnswerArrives | cn_futures_bridge/terminal/executor.py:286-298 | Concrete run: an executor raises after sending and answers unknown; `UnknownHolds` speaks of such runs. |
| BridgeLimits.APauseCanBeUndone | cn_futures_bridge/dispatch.py:226-235 | Concrete run: `pause` returns with a resume pending; without any further call the recheck uses the terminal and leaves the service unpaused. |
| BridgeLimits.AStrayCanFinishClean | cn_futures_bridge/journal.py:125-128 | Concrete run: an executor given up before it did anything closes its record as not executed after the dispatcher had closed it as unknown. |
| Execution.EdgesTrackEffect | cn_futures_bridge/terminal/steps.py:42-47 | On every edge of the flows of the three writes the remembered effect follows the saves and never goes down, and only an operation with effect submitted succeeds. |
| Execution.ActionsAreWrittenAhead | cn_futures_bridge/terminal/orders.py:54-59 | Every action in the terminal stands behind a saved unknown effect, at a point of the flow that is passed once. |
| Journal.Journal.Admit | cn_futures_bridge/journal.py:96-108 | Prunes, replays a known key, and otherwise adds exactly one queued record; on a rolled back transaction the table is unchanged, on a late failure the record may stay although an error is raised. |
| Journal.Journal.Replay | cn_futures_bridge/journal.py:89-94 | The lookup before admission: no transaction without a key, else prune and answer from the record. |
| Journal.Journal.Find | cn_futures_bridge/journal.py:74-87 | Finds the one record of the key: conflict, stored reply or in progress. |
| Journal.Journal.Save | cn_futures_bridge/journal.py:110-123 | The write-ahead update: succeeds only when the record exists and the transaction commits; effect and facts are merged with COALESCE. |
| Journal.Journal.Finish | cn_futures_bridge/journal.py:125-128 | Closes the record with the reply and its submission status; unknown ids change nothing. |
| Journal.Journal.Interrupted | cn_futures_bridge/journal.py:130-140 | Reports the stored reply, else a verdict on record, else unknown; writes nothing. |
| Journal.Journal.Recover | cn_futures_bridge/journal.py:142-159 | The loop over open records leaves the table as `Recovered` says, pruned, and counts the unknown ones; what that means field by field is `JournalTheorems.RecoveryTellsExactly`. |
| Journal.Journal.Prune | cn_futures_bridge/journal.py:166-168 | Removes exactly the finished records that are not unknown and older than the protection time. |
| JournalTheorems.RecoveryIsExact | cn_futures_bridge/journal.py:142-159 | Recovery closes exactly the open records of its account, says "nothing happened" if and only if neither an effect nor a step beyond started was saved, keeps verdicts and facts, and repeating it changes nothing. |
| JournalTheorems.RecoveryTellsExactly | cn_futures_bridge/journal.py:142-156 | What the reply of a recovered request says: status 503, its own id and facts, REQUEST_INTERRUPTED if and only if it was queued or started with no effect, otherwise OPERATION_STATUS_UNKNOWN with the verdict on record or unknown. |
| JournalTheorems.InterruptionTellsExactly | cn_futures_bridge/journal.py:130-140 | What is reported of a request whose executor was lost: the reply on record, else a 502 with the facts on record, submitted or rejected if and only if the record says so and unknown otherwise, a missing record included. |
| JournalTheorems.SaveMergesExactly | cn_futures_bridge/journal.py:110-123 | A save takes each value it names and keeps each it does not; identity of the record, its reply and all other records stay. |
| JournalTheorems.ClosingIsExact | cn_futures_bridge/journal.py:125-128 | Closing stores the reply and its status in that record and nothing else anywhere. |
| JournalTheorems.AdmissionIsExact | cn_futures_bridge/journal.py:102-107 | A new record is open, without effect, facts or reply; all others stay. |
| JournalTheorems.LookupIsExact | cn_futures_bridge/journal.py:74-87 | A key nobody holds in this account answers nothing; a held one a 409 conflict for another operation, the reply on record for the same, a 409 in progress while there is none. |
| JournalTheorems.UnresolvedIsExact | cn_futures_bridge/journal.py:161-164 | Counted as unresolved are exactly the records of this account whose effect is unknown. |
| JournalTheorems.ProtectionNeverExpires | cn_futures_bridge/journal.py:166-168 | A record is pruned if and only if it is finished, not unknown and too old; pruning twice is pruning once. |
| JournalTheorems.KeyLifecycle | cn_futures_bridge/journal.py:74-108 | A key is in progress after admission, then answers with the stored reply, conflicts for any other operation, and is free again if and only if the reply was not unknown and the protection time is over. |
| JournalTheorems.NamespacesAreSeparate | cn_futures_bridge/journal.py:77-79 | Admitting a key changes the answer for no other account and no other key. |
| JournalTheorems.RecoveryKeepsUnique | cn_futures_bridge/journal.py:142-156 | Recovery keeps UNIQUE(namespace, key). |
| Journal.AdmitKeepsUnique | cn_futures_bridge/journal.py:96-107 | Admission after an empty lookup keeps UNIQUE(namespace, key). |
| Dispatcher.GuiDispatcher.constructor | cn_futures_bridge/dispatch.py:36-53 | A fresh dispatcher is the transition system after a restart: journal recovered and pruned, nothing queued, unknown records counted. |
| Dispatcher.GuiDispatcher.Submit | cn_futures_bridge/dispatch.py:58-86 | The method does what `Submission` says, and the object's state stays one the system can reach; when it admits, replays or refuses is `DispatcherSteps.SubmissionIsExact`, that a replay comes first `ReplayComesFirst`. |
| DispatcherSteps.SubmissionIsAllowed | cn_futures_bridge/dispatch.py:58-86 | From a reachable state `Submission` is a run of allowed moves, and it admits only where the transition system allows it. |
| DispatcherSteps.ReplayComesFirst | cn_futures_bridge/dispatch.py:66-69 | A key held by a record that is not expired is answered from it, whatever the flags and the queue are: stored reply, in progress or conflict; nothing changes but the prune. |
| DispatcherSteps.SubmissionIsExact | cn_futures_bridge/dispatch.py:58-86 | Admitted if and only if capable, not cancelled, the transactions good, no unexpired record holding the key, every flag in favour and room in the queue; replayed if and only if such a record exists; and the exact condition of each refusal. |
| DispatcherSteps.ChoiceIsExact | cn_futures_bridge/dispatch.py:209-224 | Which of resume, reconnect, probe, oldest request and waiting is chosen, each if and only if its condition on flags, timer and queue holds. |
| DispatcherSteps.TurnedAwayIsExact | cn_futures_bridge/dispatch.py:88-99 | What a request turned away leaves: the queue without it, its caller told 499, 504 or 503 and in no case that anything was done, its record closed; or the storage error and a failed service. |
| DispatcherSteps.AnswerIsExact | cn_futures_bridge/dispatch.py:101-114 | A caller gets the reply, or for a write whose record could not be closed a 503 with the same submission status; an answer given stays. |
| DispatcherSteps.LossIsToldExactly | cn_futures_bridge/dispatch.py:175-183 | What is told of the request whose executor was lost: 503 for a query, the storage error with unknown for an unreadable write, else what the record says. |
| DispatcherSteps.QueueIsEmptiedExactly | cn_futures_bridge/dispatch.py:132-141 | The waiting requests are turned away if and only if the executor is blocked or not ready, the service failed or the desktop shows an error. |
| DispatcherSteps.TimerIsToldExactly | cn_futures_bridge/dispatch.py:142-143 | The timer is told the desktop's error before the executor's, and safe only with clear ownership, nothing unknown, no failure and no desktop error. |
| Dispatcher.GuiDispatcher.Record | cn_futures_bridge/journal.py:96-108 | A write is queued only when its record was committed; a lost record refuses it. |
| Dispatcher.GuiDispatcher.Cancel | cn_futures_bridge/dispatch.py:88-99 | Called while the dispatch thread is outside its section, it cancels exactly the requests still queued: removes, closes and answers that one, a timeout only when overdue; any other call leaves everything as it was. |
| Dispatcher.GuiDispatcher.FinishJob | cn_futures_bridge/dispatch.py:101-117 | Closes the record of a write, recounts, answers a caller not yet answered; a lost record fails the service and is reported with the submission status kept. |
| Dispatcher.GuiDispatcher.DrainQueue | cn_futures_bridge/dispatch.py:138-141 | Turns away everybody who waits, in order, and leaves the queue empty. |
| Dispatcher.GuiDispatcher.UpdateRecovery | cn_futures_bridge/dispatch.py:132-143 | Notes a desktop error, empties the queue when nothing can be executed, then lets the timer observe error and safety; the dispatch thread then stands at its choice in a reachable state. |
| Dispatcher.GuiDispatcher.Look | cn_futures_bridge/dispatch.py:200-202 | The one look at `stopping` and `failed`: the loop goes on if and only if neither is set. |
| Dispatcher.GuiDispatcher.ExpireRequests | cn_futures_bridge/dispatch.py:204-208 | The loop over the queue removes exactly the requests whose caller is gone or whose time is over, keeps the order of the others, answers each of them and replaces no answer given before, even when records are lost on the way. |
| Dispatcher.GuiDispatcher.RunSection | cn_futures_bridge/dispatch.py:200-224 | One whole pass through the section: it ends in a choice unless stopping or failed, and a request it starts was waiting at its beginning, is neither cancelled nor overdue, and is the active one. |
| Dispatcher.GuiDispatcher.Choose | cn_futures_bridge/dispatch.py:209-224 | Takes a pending resume first, else stays paused, else a due reconnect, else waits, probes or takes the oldest request; each is a move the transition system allows. |
| Dispatcher.GuiDispatcher.Take | cn_futures_bridge/dispatch.py:221-224 | Takes the head of the queue and becomes busy. |
| Dispatcher.GuiDispatcher.BeginReconnect | cn_futures_bridge/dispatch.py:211-214 | Begins an attempt and is no longer ready. |
| Dispatcher.GuiDispatcher.Receive | cn_futures_bridge/dispatch.py:244-247 | Finishes the request with its reply and gives up the active job. |
| Dispatcher.GuiDispatcher.FinishResume | cn_futures_bridge/dispatch.py:228-235 | Ends the pause only when the executor is unblocked; the pending resume is answered either way. |
| Dispatcher.GuiDispatcher.FinishReconnect | cn_futures_bridge/dispatch.py:125-130 | A restarted executor makes the service ready again. |
| Dispatcher.GuiDispatcher.Reconnect | cn_futures_bridge/dispatch.py:145-151 | Never two owners: a new one is spawned only after the old one answered the stop and exited; success means ready with exactly the new owner alive, a stop request leaves nobody alive, anything else fails the service. |
| Dispatcher.GuiDispatcher.Settle | cn_futures_bridge/dispatch.py:250-253 | Gives the terminal back and looks at the situation again. |
| Dispatcher.GuiDispatcher.Fail | cn_futures_bridge/dispatch.py:168-174 | Isolates a lost executor: failed, blocked, error shown. |
| Dispatcher.GuiDispatcher.ReadBack | cn_futures_bridge/dispatch.py:175-183 | The reply for the active request after the loss: from the record, or unknown for a write whose record cannot be read. |
| Dispatcher.GuiDispatcher.Conclude | cn_futures_bridge/dispatch.py:184-186 | Closes the active request with that reply. |
| Dispatcher.GuiDispatcher.End | cn_futures_bridge/dispatch.py:187-194 | Empties the queue and dismisses a pending resume. |
| Dispatcher.GuiDispatcher.PauseOutcome | cn_futures_bridge/dispatch.py:263-269 | `pause` returns without an error exactly when paused, idle, ready, not failed and in clear ownership. |
| Dispatcher.GuiDispatcher.Resume | cn_futures_bridge/dispatch.py:271-282 | Is refused exactly when not ready, failed, active, busy or already pending; a running timer is resumed at once, anything else asks for a recheck and stays paused. |
| Dispatcher.GuiDispatcher.Elsewhere | cn_futures_bridge/dispatch.py:119-123 | Whatever others do between two calls, as the clock, the desktop, or the executor in the journal, the object still agrees with a reachable state. |
| Dispatcher.ObjectIsCrashSafe | cn_futures_bridge/journal.py:130-159 | On the object itself: of a request that did anything in the terminal no record in `journal.rows`, no answer in `futures` and no recovery of this journal says nothing happened. |
| Dispatcher.ObjectCountsUnknown | cn_futures_bridge/dispatch.py:106 | On the object itself: while not failed and without a write under way, `unresolved` is the number of unknown records in the journal. |
| Dispatcher.ObjectQueueIsFair | cn_futures_bridge/dispatch.py:74-99 | On the object itself: the queue is within capacity, in the order of admission, free of duplicates, and each request in it still waits for its answer. |
| Executor.Request.Execute | cn_futures_bridge/terminal/executor.py:199-329 | Over every behaviour of the terminal: the reply carries the remembered effect, a request that did anything is never answered as not executed and its record says so; a 202 is given if and only if the executor was not blocked and the request was submitted, verified and cleaned up and every record was saved, and then the reply names the captured reference and the observed order id, and price, row, send and execution are the request's (`Requests.OrderIsTheRequests`); an executor that answers with an unknown effect is blocked afterwards. |
| Executor.Request.Cleanup | cn_futures_bridge/terminal/executor.py:273-298 | An unknown effect of a raised request always blocks the executor: either the cleanup was not confirmed or no owned row is left; ownership ends exactly with a confirmed cleanup. |
| Executor.Request.Save | cn_futures_bridge/terminal/steps.py:42-47 | Remembers the effect first, then writes it; a failed write raises with the effect remembered; table and executor are exactly those of the transition system's move along this edge. |
| Executor.Request.Act | cn_futures_bridge/terminal/orders.py:58-59 | At every action in the terminal the record exists and its effect is unknown. |
| Executor.Request.Limit | cn_futures_bridge/terminal/orders.py:44-68 | Goes through if and only if the price passes, no equal row existed, the import returned and was not refused, the one new row was bound, selected unchanged, sent, captured and shown as sent; nothing is done before price and table were checked, and the send key is pressed only for the bound row. |
| Executor.Request.LimitIoc | cn_futures_bridge/terminal/market.py:47-68 | The same, if and only if, through the order form and with its own allowed statuses; never ends as rejected. |
| Executor.Request.Bind | cn_futures_bridge/terminal/orders.py:70-79 | Owns the bound row and records that its parameters were read back, if and only if binding succeeds. |
| Executor.Request.Capture | cn_futures_bridge/terminal/orders.py:98-110 | After the key: submitted if and only if the receipt of the hook identifies the order and `owned` finds the row, shown as sent, in the last table. |
| Executor.Request.SendLocal | cn_futures_bridge/terminal/orders.py:91-111 | Submitted if and only if the owned row is unique and unchanged in a fresh table, the hook was armed, its receipt identifies the parked order, and `owned` finds the row as sent; the key is pressed only after the selection and the arming. |
| Executor.Request.CancelOrder | cn_futures_bridge/terminal/orders.py:140-178 | Delete is pressed only if exactly one row of the first table has the requested id and instrument and the second table has that row unchanged at its place; only a single dialog that names both is confirmed; goes through if and only if there was no dialog, or that one closed. |
| Executor.Request.Verify | cn_futures_bridge/terminal/executor.py:254-265 | Succeeds if and only if the rounds of observation end without an error, a silent cancel was observed, and the session still holds; saves the order id they showed and adds nothing to what was done. |
| Executor.Request.Answer | cn_futures_bridge/terminal/executor.py:304-329 | The final reply and record are those of the executor's last move in the transition system, storage failures included. |
| Executor.ActionsComeInOrder | cn_futures_bridge/terminal/orders.py:44-111 | On every path of the control graph the actions come in their own order and none twice. |
| Executor.SavesAddUp | cn_futures_bridge/terminal/steps.py:42-47 | The saves along a path add up to the effect of the point it reaches; with any action on it that effect is not nothing. |
| Requests.AcceptedOrderIsTheRequests | cn_futures_bridge/terminal/executor.py:199-323 | The joined result for an accepted order: its price is legal, on the grid and no worse than asked; its row was new and unique with its parameters; the one send the hook saw is the parked order with exactly that price and the reported reference; and if its execution was observed, it is the settled order of that reference at that price, with its trades and no others. |
| Requests.OrderIsFinishedExactly | cn_futures_bridge/terminal/verification.py:137-139 | From the request itself: an immediate or unpriced order is finished only filled, cancelled or rejected, any other also while it rests. |
| Requests.FlowIsExact | cn_futures_bridge/terminal/executor.py:245-256 | Only a limit order that may rest goes through the import, other orders through the form, cancels their own way. |
| Requests.PricingIsExact | cn_futures_bridge/terminal/executor.py:225-252 | Priced if and only if the instrument is known and the limit order has a normal form, or the market order an emulation. |
| Requests.ImportIsExact | cn_futures_bridge/terminal/orders.py:44-48 | The terminal may be touched if and only if the order is priced and no row matches it already. |
| Requests.SendingIsExact | cn_futures_bridge/terminal/orders.py:63-96 | The send key may be pressed if and only if the bound row is unique and unchanged after selecting, the one parked order is this one field by field, and the hook is armed. |
| Requests.ShownIsExact | cn_futures_bridge/terminal/orders.py:107-109 | The row counts as sent if and only if it is the only one of its identity and its status says so. |
| Requests.SubmissionIsExact | cn_futures_bridge/terminal/orders.py:44-178 | All conditions under which a request counts as submitted, if and only if, for both order flows and for cancels. |
| Requests.SearchIsExact | cn_futures_bridge/terminal/executor.py:254-260 | What is looked for afterwards: the order of the captured reference, as asked, at the placed price and good for day or not; for a cancel the id at its place. |
| Requests.EndIsExact | cn_futures_bridge/terminal/executor.py:254-290 | When it counts as verified, and when as cleaned up. |
| Requests.EffectiveIsLegal | cn_futures_bridge/terminal/executor.py:222-233 | The price placed, normalised or emulated, lies within the limits of the day, on the grid, and beyond the requested price by no more than the noise. |
| Requests.ReferencedSendIsTheRequests | cn_futures_bridge/terminal/orders.py:94-104 | The captured reference belongs to one send of the one parked order, with the request's parameters and the placed price. |
| Requests.ObservedExecutionIsTheRequests | cn_futures_bridge/terminal/executor.py:254-260 | An observed execution is proven from the tables of the round it names: order of the captured reference, price placed, trades in bijection with its links. |
| Requests.TargetIsTheRequests | cn_futures_bridge/terminal/orders.py:140-152 | The row under Delete: chosen at this place if and only if it is the only row of the first table with the requested id and instrument and stands unchanged at the same place of the second. |
| Requests.DialogIsExact | cn_futures_bridge/terminal/orders.py:164-173 | A cancel dialog is confirmed if and only if its title begins with the word for confirming, its text speaks of withdrawing and names the instrument, and the id stands in it with no letter or digit next to it. |
| Requests.OrdinaryDialogFits | cn_futures_bridge/terminal/orders.py:164-173 | An ordinary dialog that asks to withdraw this order of this instrument is confirmed. |
| Requests.SecondTableIsUniqueExactly | cn_futures_bridge/terminal/orders.py:148-151 | For a chosen row: it is the only match of the second table if and only if no row that appeared or changed there since the first reading, at another place, is a match. |
| Requests.SecondTableMayShowAnother | cn_futures_bridge/terminal/orders.py:148-151 | Concrete tables where one did appear: the code deletes at its place all the same. |
| Reconnect.ReconnectPlan.Observe | cn_futures_bridge/reconnect.py:25-53 | A repeated observation changes nothing; any other one ends an attempt, clears the deadline and schedules one only for a safe connection error. |
| Reconnect.ReconnectPlan.Begin | cn_futures_bridge/reconnect.py:58-63 | Begins an attempt: no deadline, one more attempt, reconnecting. |
| Reconnect.RunsAreCoherent | cn_futures_bridge/reconnect.py:25-65 | Over every run of calls: waiting exactly with a deadline, reconnecting exactly with an open attempt, and both only for a safe connection error. |
| Reconnect.DeadlineHasOrigin | cn_futures_bridge/reconnect.py:25-50 | A pending deadline was set by one observation, exactly one interval before it, and repetitions since then did not move it. |
| Reconnect.AttemptsWaitTheirInterval | cn_futures_bridge/reconnect.py:44-63 | Every attempt begins at least one interval after the observation that scheduled it, with that observation still the latest word. |
| Reconnect.RetryAfterIsExact | cn_futures_bridge/reconnect.py:67-72 | Retry-After exists exactly while unpaused and waiting or reconnecting, lies within the interval, and rounds the remaining wait up. |
| Reconnect.ConnectionErrorsAreTwo | cn_futures_bridge/reconnect.py:25-50 | The two errors a restart can cure. |
| Reconnect.ObservationIsExact | cn_futures_bridge/reconnect.py:25-53 | What an observation changes, field by field, and when it sets the timer. |
| Reconnect.AttemptIsExact | cn_futures_bridge/reconnect.py:55-72 | When an attempt is due, what beginning it changes, and what callers are told to wait. |
| Reconnect.ReconnectingMeansOpenAttempt | cn_futures_bridge/reconnect.py:58-65 | Reconnecting is shown exactly from a begin to the next observation. |
| Worker.OneOwnerAtATime | cn_futures_bridge/worker.py:134-176 | Over every sequence of starts, stops and deaths at most one process is alive, and a new one is spawned only when the old one is known to have exited. |
| Worker.AcceptedAnswerIsCurrent | cn_futures_bridge/worker.py:156-163 | An accepted answer comes from the owner started last and answers the outstanding command. |
| Worker.AcceptanceIsExact | cn_futures_bridge/worker.py:150-163 | An answer counts if and only if it came over a live pipe from the current generation for this command. |
| Worker.TakingOverIsExact | cn_futures_bridge/worker.py:134-175 | A start takes over if and only if nobody is left; a stop gives up if and only if it was answered and no process is left. |
| Worker.WorkerProcess.Exchange | cn_futures_bridge/worker.py:150-163 | An answer is accepted if and only if it carries the live generation and the outstanding request id. |
| Worker.WorkerProcess.Start | cn_futures_bridge/worker.py:134-145 | Refuses while an old owner is not reclaimed; otherwise a new generation takes over. |
| Worker.WorkerProcess.Stop | cn_futures_bridge/worker.py:165-175 | Gives the owner up only when it answered and exited; on any problem it is kept. |
| Worker.ExecutorHealth.Snapshot | cn_futures_bridge/worker.py:50-57 | What is reported is honest: an error means blocked, blocked means not ready, ready means a connected session of the right account. |
| Worker.ExecutorHealth.Resume | cn_futures_bridge/terminal/executor.py:112-119 | Only a validated session on a terminal that is not poisoned lifts the block and clears the error. |
| Pricing.AlignPrice | cn_futures_bridge/terminal/pricing.py:72-113 | The step by step snapping, cutting and rounding equals `Aligned`, reasons in order and errors included. |
| Pricing.NormalizeLimit | cn_futures_bridge/terminal/pricing.py:67-119 | The whole normalisation, strict re-check included, equals `Normalized`. |
| Decimals.BuildTickMultiple | cn_futures_bridge/terminal/pricing.py:56-64 | The digit loop builds a decimal whose value is exactly units times tick. |
| Decimals.ProductIsExact | cn_futures_bridge/terminal/pricing.py:60-64 | Folding the digits and splitting the product again loses nothing, for any number of digits and any exponent. |
| PricingTheorems.AlignedMeans | cn_futures_bridge/terminal/pricing.py:76-113 | A buy is the largest multiple not above the snapped and cut price, a sell the smallest not below; it is legal, never worse than requested by more than the noise, and the request lay within the tolerated band plus twice the noise. |
| PricingTheorems.AcceptedExactly | cn_futures_bridge/terminal/pricing.py:83-113 | A price is accepted if and only if its snapped value is on the right side of the near limit, not beyond the tolerated band, and some legal multiple lies in between. |
| PricingTheorems.NormalizedExactly | cn_futures_bridge/terminal/pricing.py:67-119 | Given usable rules and volume, an order is accepted if and only if its price is acceptable and the placed price survives transport. |
| PricingTheorems.AcceptanceIsExact | cn_futures_bridge/terminal/pricing.py:67-119 | Over tick, limits and ratio as numbers: accepted and placed at this multiple if and only if the volume is within its limits, the price to go by is on the right side of the near limit and beyond the far one by at most the configured share plus a billionth of a tick, the multiple is the best legal one, and it survives transport. |
| PricingTheorems.AcceptedOrderIsWithinTheShare | cn_futures_bridge/terminal/pricing.py:76-119 | An accepted buy asked at most upper * (1 + ratio) plus two billionths of a tick, is placed within the limits, on the grid, at most a billionth of a tick above what was asked, and at the best such multiple; a sell likewise. |
| PricingTheorems.RefusalIsExact | cn_futures_bridge/terminal/pricing.py:83-102 | Which price is refused as too low, too high or on the wrong side, each if and only if, and always with 422. |
| PricingTheorems.UnusableIsRefused | cn_futures_bridge/terminal/pricing.py:25-41 | Unsound data or volume limits are a 503, a volume out of range a 422. |
| PricingTheorems.ReasonsAreExact | cn_futures_bridge/terminal/pricing.py:76-111 | Each reported reason if and only if its change was made. |
| PricingTheorems.StrictCheckIsExact | cn_futures_bridge/terminal/pricing.py:44-53 | The check at the entrance passes if and only if data, volume, limits, grid and transport are all in order as they stand. |
| Decimals.ValueIsPositional | cn_futures_bridge/terminal/pricing.py:56-64 | Digits read as usual and the exponent is a power of ten. |
| PricingTheorems.NormalizedOrderIsValid | cn_futures_bridge/terminal/pricing.py:114-119 | A normalised order passes the strict check, differs in its price only, and normalises to itself with no reasons. |
| PricingTheorems.NormalisationIsAFixedPoint | cn_futures_bridge/terminal/pricing.py:67-119 | The price placed is its own normal form. |
| PricingTheorems.NormalisationIsMonotone | cn_futures_bridge/terminal/pricing.py:83-109 | A higher request is never placed lower. |
| PricingTheorems.AcceptanceIsAnInterval | cn_futures_bridge/terminal/pricing.py:83-113 | Between two accepted prices every price is accepted. |
| PricingTheorems.ReasonsExplainEveryChange | cn_futures_bridge/terminal/pricing.py:75-111 | The list of reasons is empty if and only if the price is unchanged. |
| PricingTheorems.RulesExactly | cn_futures_bridge/terminal/pricing.py:25-34 | The rules are usable if and only if the data is complete, positive, ordered, and some multiple of the tick lies between the limits. |
| PricingTheorems.SnapsTo | cn_futures_bridge/terminal/pricing.py:76-81 | A price within the noise of a multiple snaps to that multiple and no other. |
| PricingTheorems.MarketIsMostAggressive | cn_futures_bridge/terminal/market.py:19-28 | An emulated market order is its own normal form and at least as aggressive as any accepted limit order of its side. |
| PricingTheorems.MarketIsExact | cn_futures_bridge/terminal/market.py:19-28 | A market order is accepted if and only if the instrument trades continuously (status 3), data and volume are in order, and the limit of its side is on the grid and transportable; it is placed there; otherwise 409 or 503. |
| Binding.BoundIdentityIsNewAndUnique | cn_futures_bridge/terminal/orders.py:70-79 | A successful binding means: the identity was absent before, occurs exactly once after, the other identities are the same multiset, `owned` finds the row, and the pre-check cannot have found a match. |
| Binding.BindingIsExact | cn_futures_bridge/terminal/orders.py:70-79 | Binding succeeds if and only if the later table is the earlier one plus one readable matching row in an allowed status. |
| Binding.MatchIsExact | cn_futures_bridge/terminal/orders.py:24-32 | A row matches if and only if kind, instrument, side, offset, volume, hedge and price columns are the request's, the price in words for an order without one; an unreadable deciding number is an error. |
| Binding.WrittenRowMatchesExactly | cn_futures_bridge/terminal/orders.py:51-53 | Written by the importer and read back, the row matches its own request, and another limit request if and only if instrument, side, open or close, volume and price are equal. |
| Binding.WrittenRowIsBound | cn_futures_bridge/terminal/orders.py:54-73 | An ordinary import binds: the earlier rows plus, anywhere, the written one, none of the earlier matching, and exactly the written row is bound. |
| Binding.IdentityIsExact | cn_futures_bridge/terminal/orders.py:35-36 | Two rows have the same identity if and only if they differ at most in status and its detail. |
| Binding.PreCheckIsExact | cn_futures_bridge/terminal/orders.py:46-48 | The check before an import passes if and only if no earlier row matches and all can be read. |
| Binding.SelectionIsExact | cn_futures_bridge/terminal/orders.py:121-128 | A row can be selected if and only if it is the only one of its identity in both exports, at the same place and unchanged. |
| Binding.SameDependsOnIdentity | cn_futures_bridge/terminal/orders.py:24-36 | Rows of equal identity compare equally with any request. |
| Binding.OwnedIsTheOnlyOne | cn_futures_bridge/terminal/orders.py:113-119 | `owned` answers with a position if and only if that row is the only one of its identity. |
| Binding.OwnershipSurvivesReordering | cn_futures_bridge/terminal/orders.py:113-128 | Reordered rows and changed statuses do not change which row is owned. |
| Binding.OrderSteps.Bind | cn_futures_bridge/terminal/orders.py:70-79 | Binds exactly when the tables allow it, and otherwise keeps what was owned. |
| Binding.OrderSteps.SelectLocal | cn_futures_bridge/terminal/orders.py:121-128 | Selects if and only if the owned row is unique at the same place, unchanged, in both tables. |
| Binding.OrderSteps.Cleanup | cn_futures_bridge/terminal/orders.py:130-138 | Ownership ends if and only if the row could be selected and the table no longer shows its identity. |
| Verification.ExactOrderIsSettled | cn_futures_bridge/terminal/verification.py:39-57 | Complete if and only if one native order of the full reference agrees with the only row of its id, or was rejected before it had one; never more than one order. |
| Verification.SettledIsExact | cn_futures_bridge/terminal/verification.py:39-57 | Settled if and only if the one native order carries the whole identity and is usable, and was refused before it had an id or is the only exported row of its id there and agrees in volume, side, price and known offset. |
| Verification.NativeOrderIsExact | cn_futures_bridge/terminal/tracking.py:82-119 | When the terminal's memory of an order can be used, and what each field of it means. |
| Verification.NativeStatusIsExact | cn_futures_bridge/terminal/tracking.py:99-121 | Refusal before withdrawal before full before part before submitted, each if and only if. |
| Observation.ObservedIsSound | cn_futures_bridge/terminal/verification.py:112-140 | Observed implies: that order fits the request and is final, the reported trades are in bijection with the native links, carry its id and side, and add up to its filled volume. |
| Observation.ObservedIsExact | cn_futures_bridge/terminal/verification.py:129-139 | For a settled, fitting and final order, observed if and only if its linked rows are exactly its trades and add up. |
| Observation.ObservedOrderIsTheRequests | cn_futures_bridge/terminal/verification.py:125-139 | An observed order has the volume, price and side asked for, its offset or an unknown one, and is filled, cancelled or rejected, or open or partly filled and good for day; its trades carry its id, side and offset. |
| Observation.FinalIsExact | cn_futures_bridge/terminal/verification.py:137-139 | For a settled order as asked whose trades add up: observed if and only if filled, cancelled, rejected, or good for day and open or partly filled; pending otherwise. |
| Observation.MisfitIsAnError | cn_futures_bridge/terminal/verification.py:125-128 | A settled order with another volume, price, side or offset is an error and never observed. |
| Observation.LinkedRowsAreReported | cn_futures_bridge/terminal/verification.py:129-132 | Every exported trade with a linked id is reported with that order id. |
| Observation.RelevantIsExact | cn_futures_bridge/terminal/verification.py:100-110 | Only rows of the request's exchange and instrument are looked at. |
| Observation.CancelIsObservedExactly | cn_futures_bridge/terminal/verification.py:114-120 | A cancel is observed if and only if exactly one row of its place has the id and that row is cancelled or filled. |
| Observation.OrderObserver.Observe | cn_futures_bridge/terminal/verification.py:142-174 | The loop over rounds, of orders and of cancels, equals `Observing`: the first conclusive round decides, conflicts end it with the last finding kept, other errors are raised. |
| Observation.OrderObserver.LearnId | cn_futures_bridge/terminal/verification.py:155-161 | The first id is kept and must be saved; another one is an ambiguity. |
| Observation.OrderIdIsStable | cn_futures_bridge/terminal/verification.py:146-173 | Across all rounds an order id once known never changes, and an observed order with an id has exactly that one. |
| Observation.FindingsAreOfTheirRound | cn_futures_bridge/terminal/verification.py:163-173 | An observed result is the comparison of the round whose number it carries. |
| Observation.PendingMeansInconclusive | cn_futures_bridge/terminal/verification.py:146-174 | Pending means that every round was inconclusive, and reports the last. |
| Observation.ProblemsEndObservation | cn_futures_bridge/terminal/verification.py:165-169 | How a failing round ends: ambiguous or unavailable with the last finding kept, or the error itself. |
| Observation.LearningIsExact | cn_futures_bridge/terminal/verification.py:155-161 | The first id seen is kept and must be saved, the same or none changes nothing, another one is an ambiguity. |
| Stability.Query | cn_futures_bridge/terminal/verification.py:67-81 | Stable if and only if two consecutive readings within the bound agree as multisets of business rows, answering with the later of the first such pair; changing if and only if none does. |
| Stability.AgreementIsExact | cn_futures_bridge/terminal/verification.py:34-36 | Agreement ignores the order of rows and the floating figures of positions, and nothing else. |
| Stability.BusinessIsExact | cn_futures_bridge/terminal/verification.py:34-36 | Two rows count as the same if and only if they are equal, or are positions equal in place, direction, hedge flag and the four volumes. |
| Stability.OneChangeDisagrees | cn_futures_bridge/terminal/verification.py:34-36 | Changing one row breaks the agreement if and only if it counts differently. |
| Stability.SightIsExact | cn_futures_bridge/terminal/verification.py:93-96 | What one look shows, and when it is settled. |
| Stability.ConfirmationIsExact | cn_futures_bridge/terminal/verification.py:96-97 | Two looks confirm each other if and only if they show the same and the later is settled. |
| Stability.QueryReference | cn_futures_bridge/terminal/verification.py:83-98 | Ends at the first look that is confirmed or fails, and answers changing with the latest look if none is. |
| Stability.OneLookDecides | cn_futures_bridge/terminal/verification.py:87-98 | Every sequence of looks has at most one deciding look, and none exactly when all are inconclusive. |
| Stability.StableReferenceIsSettled | cn_futures_bridge/terminal/verification.py:83-98 | A stable answer names the settled order of exactly this reference, seen twice in a row; an empty one means there was none or the filter turned it away. |
| Receipt.HooksAreRestored | native/receipt.c:25-88 | For every call tree: a hook not installed is in neither slot; between sends the observer is not in its slot unless broken; without foreign writes "not installed" means both original values. |
| Receipt.SuccessfulStopRestores | native/receipt.c:78-88 | A stop that reports success leaves both slots as before arming; during a send it changes nothing and fails. |
| Receipt.AcceptedReceiptIsTheSend | cn_futures_bridge/terminal/tracking.py:67-79 | An accepted receipt means that since arming the hook observed one send of the armed order and one callback, inside it, with this request's parameters; both slots are free of the hook. |
| Receipt.SentOnceExactly | native/receipt.c:61-88 | How often the accepted order was really sent, counted over every send of the call tree since it was last armed, however long after the hook was gone: at least once, and exactly once if and only if every one was made by the arming thread and before a stop cleared `expected`. |
| Receipt.AnAcceptedOrderCanBeSentTwice | native/receipt.c:61-88 | Both conditions are needed: concrete call trees whose receipt is accepted although the order went out twice, through another thread, after a stop that could not finish, and after one that did. |
| Receipt.ParkedOrderIsSent | cn_futures_bridge/terminal/tracking.py:36-46 | An accepted preorder and an accepted receipt agree in everything both say: the order parked is the order the hook observed, under the reference reported. |
| Receipt.IdentityIsExact | cn_futures_bridge/terminal/tracking.py:67-79 | When a receipt is accepted, field by field against the request, and what identity it gives. |
| Receipt.ParkedOrderIsExact | cn_futures_bridge/terminal/tracking.py:36-46 | Which parked order is armed: the only one since the cursor, equal to the request in every field. |
| Receipt.CallbackIsExact | native/receipt.c:42-59 | Copied is only the first callback inside the armed send on its thread; every other breaks the capture. |
| Receipt.SendIsExact | native/receipt.c:61-76 | A send is counted if and only if it is the armed one, through our slot and on the arming thread, and breaks the capture only when its observer cannot be installed or removed. |
| Receipt.StopIsExact | native/receipt.c:78-88 | When a stop succeeds, and that it stops expecting the order unless a send is in progress. |
| Receipt.ArmIsExact | native/receipt.c:90-108 | What arming leaves, and that it does nothing unless both slots are clean. |
| Receipt.CallTreesKeepConsistent | native/receipt.c:42-108 | Every nesting of sends, callbacks, stops, arms and foreign writes keeps the hook's invariant. |
| Receipt.ReceiptHook.ObserveSend | native/receipt.c:61-76 | The re-entrant send equals its specification on trees: scope, counters and slot restored around whatever happens inside. |
| Receipt.ReceiptHook.ObserveCallback | native/receipt.c:42-59 | Counts and copies only the first callback of the armed send, anything else marks the capture broken. |
| Receipt.ReceiptHook.ReceiptStop | native/receipt.c:78-88 | The order of checks and replacements when stopping. |
| Receipt.ReceiptHook.ArmHook | native/receipt.c:90-108 | Arms only on clean slots; a failed installation is undone. |
| Notices.NoticeTitle | native/startup.c:29-36 | Accepts exactly the name or "(i/n) name" with 1 <= i <= n <= INT_MAX; every read is within the terminated text. |
| Notices.NoticeNumber | native/startup.c:19-27 | Reads the maximal run of digits without overflow; zero exactly when there is none, it spells zero, or it passes INT_MAX. |
| Notices.TitleHasOneName | native/startup.c:198-204 | No title is accepted for two names that do not begin with a parenthesis. |
| Notices.TitlesAreExact | native/startup.c:29-36 | The titles meant, spelled out: decimal digits, 1 <= i <= n <= 2147483647. |
| Notices.NumberIsPositional | native/startup.c:19-27 | What a run of digits spells. |
| Notices.ParenthesisedNamesAreAmbiguous | native/startup.c:29-36 | The condition is needed: a concrete title with two names. |
| NoticeScan.CountersAreStaged | native/startup.c:38-80 | Over any scans: closed <= confirmed <= checked <= noticed, and clicks <= noticed. |
| NoticeScan.PostsFollowTheirReading | native/startup.c:55-80 | Over any scans: a click directly follows an unchecked read-back of its window and a confirmation a checked one. |
| NoticeScan.NoticesAreStaged | native/startup.c:38-80 | Over any scans: between two clicks or two confirmations of one window it was seen hidden. |
| NoticeScan.DocumentsAreBounded | native/startup.c:14-17 | At most eight documents per session, each counter exact, and nothing handled twice in a row without having been seen hidden. |
| NoticeScan.ScanIsExact | native/startup.c:55-80 | What one scan posts and counts: the click only before anything else while unchecked, the confirmation only while checked. |
| NoticeScan.ResetIsExact | native/startup.c:164-168 | Forgotten when hidden, counted closed if and only if confirmed. |
| NoticeScan.DocumentIsExact | native/startup.c:238-251 | When a document is handled, and for which kind it is counted. |
| NoticeScan.ForgettingIsExact | native/startup.c:170-173 | Which kinds may be handled again once hidden. |
| NoticeScan.Scanner.TradeNotice | native/startup.c:55-80 | The staged handling of one scan equals its specification. |
| NoticeScan.Scanner.ResetNotice | native/startup.c:164-168 | A hidden window is forgotten, and counted closed only after a confirmation. |
| NoticeScan.DocumentDesk.ConfirmDocument | native/startup.c:238-251 | Deduplication, budget and counters of one document. |
| NoticeScan.DocumentDesk.ResetDocuments | native/startup.c:170-173 | Which kinds may be handled again once hidden. |
| Artifacts.ArtifactStore.Ensure | cn_futures_bridge/artifacts.py:53-65 | The eviction loop removes the ended artifacts of the shortest prefix that meets both budgets, gains exactly their size, and fails exactly when the end does not meet them. |
| Artifacts.EvictionIsMinimal | cn_futures_bridge/artifacts.py:57-65 | No shorter prefix would do, and failure means that removing every ended artifact would still not meet the budgets. |
| Artifacts.BudgetsAreExact | cn_futures_bridge/artifacts.py:57-65 | What stays plus the reservation fits the total, and what is then free is at least the minimum. |
| Artifacts.EvictedAreExactlyEnded | cn_futures_bridge/artifacts.py:57-63 | Of the prefix exactly the ended artifacts go, neither active nor protected ones. |
| Artifacts.EndingIsExact | cn_futures_bridge/artifacts.py:84-93 | Protected if asked, kept as ended if only that was asked, removed otherwise; nothing else changes. |
| Artifacts.OnlyTheOldestEndedGo | cn_futures_bridge/artifacts.py:51-63 | Only ended artifacts go, and an ended one that stays is no older than any that went. |
| Artifacts.SpaceIsConserved | cn_futures_bridge/artifacts.py:55-63 | Used plus free space stays the same, and the running total is the size of what is left. |
| Artifacts.ArtifactStore.Create | cn_futures_bridge/artifacts.py:71-77 | A new artifact appears, active, exactly when its reservation fits. |
| Artifacts.ArtifactStore.Finish | cn_futures_bridge/artifacts.py:84-96 | Ends, protects or removes the one artifact, then makes room. |

## Left out

- HTTP, configuration, control socket, container scripts, logging and text fields with wall-clock times: input and output only.
- Window scanning, COM, import table patching, keystrokes and screenshots: only the state they update is modelled, their observations are free.
- SQLite, WAL and file locks; CSV decoding, funds text and JSON validation: rows and requests arrive parsed.
- `LogStore` eviction (`logging_store.py`), nearly the same loop as the one in `Artifacts`.
- `validate_session` and the login sequence (`terminal/executor.py:52-110`): the executor gets their outcome.
- Login text and the query actions: a query is one step without effect. Of `validate_capability` only the outcome is modelled.
- The artifact and session columns of the journal, and the positions inside a verification: carried along by the code, never decided on.
- Counters in `native/startup.c` are 32 bit; here they do not wrap.
- Executor.Request.Execute: the steps that only wait for windows are outcomes of the `Case` (`prepared`, `baseline`, `formReady`, `entered`, `armed`, `dialogCloses`, `sessionHolds`, `tidy` for every cleanup stage but the preorder row, `severe` for the error codes that always isolate the executor); the native call that is still running (`poisoned`) appears only as a failed cleanup, a failed journal write inside a round of observation as the save that follows them.
- Requests.AcceptedOrderIsTheRequests: asks for a tolerated deviation in [0, 1), as `config.py:91` does.
- Dispatcher.GuiDispatcher.Reconnect: restarting the terminal is one outcome; the stop of the executor after the loop (`dispatch.py:255-257`) is not modelled, when it fails the thread ends all the same.
- BridgeHolds.HeardAnswerIsDelivered: an answer without a reply body (`dispatch.py:242-243`) counts as a failed exchange.
- Notices.NoticeTitle: the titles of documents that are compared directly (`startup.c:194-197`) are not modelled.
- NoticeScan.Scanner.TradeNotice: whether the controls and the body are those of a trade notice (`startup.c:39-54`) is decided before the scan.
- NoticeScan.DocumentDesk.ConfirmDocument: the time limits and structural checks before the deduplication (`startup.c:180-237`) are decided before the call.
- Worker.WorkerProcess.Stop: the join with its timeout is one observation of whether the process exited.
- Liveness: nothing is claimed about requests being answered in time.
