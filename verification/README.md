# Task services: protocols, ledgers and queues

This project models the parts of the repository in which credits or work items move while several
processes interleave, and proves what those parts are for. Nothing here was executed; every statement is
checked by the Dafny verifier (`dafny verify dfyconfig.toml`).

## Solution 4: hold, compare-and-set, durable workflow

One task is driven by a submit handler, any number of cancel handlers, any number of workflow invocations
(duplicates included) and the ledger's timeout. They share no lock. They meet only in the guarded status
update of the task table and in the one-way settlement of a pending transfer.

- `Ledger` is the double-entry ledger: accounts with four running totals, transfers that are pending, posted,
  voided or expired, and the calls of `Billing`. Over every sequence of calls debits equal credits, nobody is
  overdrawn, and escrow owns exactly what was charged. For reservation, settlement and top-up it is proved exactly
  when they succeed and whose credits then move.
- `Protocol` gives every handler a program counter and cuts it into atomic operations; `ProtocolInvariant` and
  `ProtocolSteps` carry the ownership invariant through every step; `Agreement` draws the conclusions.
- `ProtocolDeeds` and `ProtocolCauses` say why. A handler's deeds in a history are the states that its operations
  found and left, with what the environment decided. `EveryHandlerIsTold`: what a handler answers is what it has
  done, moved, charged, given back, computed or read. `PaidIsComputed`: nobody pays for a failed computation.
- `BillingRefinement` shows that, seen from the users' money, every interleaved run is a run of a machine
  that holds once and then charges or refunds once.
- `CrashReplay` adds crashes at any time, also between the last journaled step and the recording of the output:
  an invocation loses its state and is driven again from its journal, and the one unjournaled ledger call is
  made again whenever the replay passes it. Every such run has the outcome of a run without crashes.
- `Handlers` is the same code as classes whose methods change the ledger and the table in place, with other
  handlers interfering between any two operations. Each method is proved against the step system.

One finding differs from what a reader may expect: a start can answer `REJECTED` without the task having
ended. A cancel whose release fails puts the task back to `PENDING` after the start has lost its update and
before it reads the status. `Agreement.RejectedMeansRolledBack` says that this is the only way, and
`CrashReplay.RejectionFromTheStart` is a run that ends that way. The `REJECTED` answer after a capture is unreachable.

## Solution 1: admission gate, stream, worker, cancel, reaper

Redis takes credits and a concurrency slot in one script, Postgres records the row and the ledger entry, the
stream delivers the task at least once, and four different paths may refund.

- `Gate` is the step system, with both Lua scripts as functions on the Redis keys. Postgres transactions and
  single Redis commands are atomic. A submit may die before or after writing its marker, or its transaction
  may abort and be compensated in full; a worker, a cancel or a stuck pass may die at any time before it wins a
  terminal update, and a cancel also with only the marker left to remove. Time
  passes only up to the orphan timeout of a submit that still runs: one that is not done by then counts as dead.
  One reaper works on the markers at a time.
- `GateLedger` has its own small invariant of rows and ledger. It needs no setting, no clock and no Redis: it holds
  also when time passes over a handler that hangs, a reaper dies or two of them are at work, and Redis restarts with
  any balances, counters, keys and markers.
- `GateDeeds` and `GateCauses` tell, for the same rough runs, what a process has done by the time it ends, in terms of
  rows, ledger and Redis keys, and who wrote each status and each ledger entry, after what.
- `GateInvariant`, `GateSteps` and `GateRuns` carry the invariant that ties Redis to Postgres; `GateAccounting` draws
  the conclusions about balances and slots, `GateOutcomes` those about terminal updates, keys and acknowledgements.
- `GateHandlers` is the imperative form, again with interference; `GateHistory` says what every longer history
  still shows of what a handler has done, and when the gate admits.

Three properties one might expect do not hold without a condition, and the models say which:

- **Dropped stream entries.** A worker that reads no row, then no marker, then an old entry acknowledges the
  entry. The handler may have committed the row in between; the only stream entry of a `PENDING` task is gone.
  `GateLostWork.DropIsSafeExactlyWhen`: every continuation is safe if and only if the handler could no longer
  insert the row when the row was read. What a worker could check instead is the age of the entry at that read:
  `AgeSufficesExactlyWhen` says that the orphan timeout is enough and nothing less is.
- **Leaked admissions.** A handler that dies after the admission script and before its marker leaves nothing
  the reaper could find; so does one whose marker write fails, which answers 503 without compensating
  (`AdDead(false)` covers both). `GateBoundary.LeakIsReachable` is such a run for every user who can pay;
  `GateAccounting.QuietBalanceMatchesLedger`: at rest the balance agrees with the ledger if and only if none of the
  user's admissions leaked; `LeaksAreNeverRepaired`: no continuation gives anything back.
- **Zero orphan timeout.** The settings do not reject it, but with it the reaper refunds handlers that are still
  at work, and workers drop the entries of tasks about to be inserted. `GateBoundary.ConcurrencyBoundExactlyWhen`,
  `AccountsExactlyWhen` and `LateDropsAreFinalExactlyWhen`: the concurrency bound, the accounts and the finality of
  late drops hold in every run if and only if the timeout is positive or every opening balance is zero. Rows and
  ledger keep agreeing all the same.

## Webhooks, replay and backoff (Solution 1)

`Webhooks` interleaves any number of dispatchers, producers and replay scripts one Redis command at a time and
proves that every payload is in exactly one place; `WebhookBounds` bounds the HTTP requests per event and the
work of a run. `WebhookAttempts` counts failures in the history: a payload's attempt count is exactly that number, and
it is a dead letter exactly once a failed request has used up the attempts. `WebhookTools` holds the code that changes the lists in place, including the replay script, whose
dry run counts its newest letter again and again (`DryRunCountsExactlyWhen`). `WebhookDispatcher` is the promotion
loop with every other process moving between its commands. `Backoff` relates the stepwise
delays of `retry_async` to the closed form used for webhooks.

## Revocation cache and snapshots (Solution 1)

`Revocation` relates the per-day Redis buckets to the durable table over revocations, checks, clock ticks,
flushes, rehydrations and failed writes. `TheTableIsFound` and `CacheAgreesWithTable` say when they agree on a token,
whatever happens to other tokens. `Restored`: Redis was never flushed, or has been rehydrated since, after any time
and any other events. `NothingMissed`: since the last rehydration that found no revocation of the token under way,
each of its revocations reached Redis first and no flush fell between two of their writes. Then every revocation that
began with at most a day to live is found, also one of a token revoked before. For the converse every insert of the
token's revocations succeeds (`Durable`). Without one of these a token can be lost or found wrongly: `FlushLosesToken`,
`FailedWriteLosesToken`, `FlushBetweenWritesLosesToken`, `FailedInsertIsStillFound` and, for the day,
`EarlyRevocationIsForgotten`. Where a bucket lives shorter than a day, its time to live stands for the day.

`Snapshots` proves the flush and drift-audit loops against the stores they compute, and runs them in sequence:
`ReconcileSnapshots` leaves every snapshot equal to its Redis balance and no present balance changed, and
`ReconcileTwice` finds nothing left to do.

## Model

| member | source | states |
|---|---|---|
| Ledger.EveryRunConservesCredits | solutions/4_solution/src/solution4/billing.py:27-158 | over any sequence of top-up, reserve, capture, release and timeout: debits equal credits, pending and posted; a user can spend deposits minus charges minus holds, never less than zero; escrow's posted credits are the posted holds |
| Ledger.SettledForGood | solutions/4_solution/src/solution4/billing.py:89-127 | a posted, voided or expired hold is never settled again by any later call |
| Ledger.TopUpPaysOnce | solutions/4_solution/src/solution4/billing.py:129-150 | repeating a top-up's transfer id moves nothing and succeeds only for the same user and amount |
| Ledger.ReserveSucceedsExactlyWhen | solutions/4_solution/src/solution4/billing.py:68-87 | after any ledger calls a reservation succeeds if and only if its id is new, the user known, and deposits minus charges minus holds cover it; it then holds the amount and moves nobody else's credits |
| Ledger.SettleSucceedsExactlyWhen | solutions/4_solution/src/solution4/billing.py:89-127 | after any ledger calls a hold can be ended if and only if it is pending; it is then held no longer and charged if and only if it was posted |
| Ledger.DepositSucceedsExactlyWhen | solutions/4_solution/src/solution4/billing.py:129-150 | after any ledger calls a top-up succeeds if and only if it repeats itself, or its id is new and the user known; only then do the deposits grow |
| ProtocolSteps.WorkflowMoves | solutions/4_solution/src/solution4/workflows.py:176-387 | each step of a workflow keeps what its program counter relies on and changes status and hold only as others tolerate |
| ProtocolSteps.EveryRunKeepsInv | solutions/4_solution/src/solution4/workflows.py:109-387 | the ownership invariant holds in every reachable state of submits, cancels, invocations, top-ups and timeouts |
| Agreement.ChargeAgreesWithStatus | solutions/4_solution/src/solution4/workflows.py:176-387 | COMPLETED implies posted; posted implies COMPLETED or one invocation between capture and its completing update; FAILED and CANCELLED are never charged |
| Agreement.EveryChargeHasItsRow | solutions/4_solution/src/solution4/app.py:375-471 | every posted hold is the hold of exactly one row |
| Agreement.SingleExecutor | solutions/4_solution/src/solution4/workflows.py:176-197 | at most one invocation of a task ever gets past the start; while it is active the status is RUNNING or CANCEL_REQUESTED |
| Agreement.ExecutorAnswersTruly | solutions/4_solution/src/solution4/workflows.py:199-387 | what the executing invocation answers is and stays true; after a capture the final REJECTED cannot be reached |
| Agreement.OnlyRollbacksWritePending | solutions/4_solution/src/solution4/app.py:110-158 | only the two rollbacks put PENDING over another status |
| Agreement.RollbackIsOwned | solutions/4_solution/src/solution4/app.py:110-158 | a rollback is made by the handler whose transition it undoes, over a settled and unposted hold |
| Agreement.NeverChargedAfterwards | solutions/4_solution/src/solution4/app.py:515-544 | a task whose hold is settled without a charge is never charged and never completes in any continuation |
| Agreement.RejectedMeansRolledBack | solutions/4_solution/src/solution4/workflows.py:176-197 | an invocation answers REJECTED only after losing the start and reading PENDING; its hold is then settled and uncharged |
| Agreement.QuietStatesAreSettled | solutions/4_solution/src/solution4/workflows.py:176-387 | when all handlers have returned: charged is COMPLETED, nothing is RUNNING, and every open or posted hold belongs to exactly one row, an open one to a PENDING or CANCEL_REQUESTED row |
| Agreement.SubmitIsIdempotent | solutions/4_solution/src/solution4/app.py:385-418 | submits with one user and key share one row; a replayed submit's own hold is voided or expired |
| Agreement.EveryRunKeepsReplayOk | solutions/4_solution/src/solution4/repository.py:55-95 | a replayed submit answers with an existing row of the same user and key |
| ProtocolCauses.EveryHandlerIsTold | solutions/4_solution/src/solution4/workflows.py:109-387 | in every run what a handler has done, in terms of the states its operations found and left, is what its answer says |
| ProtocolCauses.PaidIsComputed | solutions/4_solution/src/solution4/workflows.py:199-286 | a COMPLETED row, and any charged hold, has an invocation of its task that charged the hold after a computation that succeeded, and none of whose computations failed |
| ProtocolCauses.StatusHasCause | solutions/4_solution/src/solution4/workflows.py:199-387 | every status but PENDING was written by a handler of the task with cause: FAILED after a failed computation, a hold gone when it was to be charged, or a failed handoff; CANCELLED by a cancel, or after a request was read and the hold given back |
| BillingRefinement.EveryRunRefinesShop | solutions/4_solution/src/solution4/billing.py:68-127 | projected on balances and purchases, every run is a run of the machine Hold, then Charge or Refund |
| BillingRefinement.EndsOnce | solutions/4_solution/src/solution4/billing.py:89-127 | in that machine a purchase ends at most once, and its phase tells whether and how |
| BillingRefinement.TaskIsChargedOrRefundedOnce | solutions/4_solution/src/solution4/workflows.py:281-387 | in a finished system a COMPLETED task was charged once, a FAILED or CANCELLED one refunded once |
| BillingRefinement.EscrowOwnsTheCharges | solutions/4_solution/src/solution4/billing.py:89-107 | escrow's posted credits are the summed charges of rows; at rest, the summed cost of COMPLETED tasks |
| CrashReplay.UnjournaledReleaseIsHarmless | solutions/4_solution/src/solution4/workflows.py:281-316 | wherever the unjournaled release may be made, for the first time or again by a replay up to the finished handler, it answers false and changes nothing |
| CrashReplay.CrashesChangeNoOutcome | solutions/4_solution/src/solution4/workflows.py:109-387 | every run with crashes at any time, also after the last journaled step, and replays that pass the unjournaled release again, ends in the state of some run without them |
| CrashReplay.ReplayAndRelease | solutions/4_solution/src/solution4/workflows.py:297-316 | a replay that does not pass the unjournaled release ignores its answer; one that does ends FAILED on a false answer |
| CrashReplay.ChargesAgreeDespiteCrashes | solutions/4_solution/src/solution4/workflows.py:281-387 | under any number of crashes and replays COMPLETED is posted, posted is COMPLETED or being completed, FAILED and CANCELLED are never charged |
| CrashReplay.RejectionIsReachable | solutions/4_solution/src/solution4/app.py:515-544 | from any pending task whose hold is gone, a failing cancel and a start interleave to a REJECTED answer |
| CrashReplay.RejectionFromTheStart | solutions/4_solution/src/solution4/app.py:515-544 | a run from the opening state, with a hold that times out, that ends with a REJECTED start of a task still PENDING |
| Handlers.Billing.ReserveCredits | solutions/4_solution/src/solution4/billing.py:68-87 | the in-place reservation equals the ledger's reservation, result included |
| Handlers.Billing.EndHold | solutions/4_solution/src/solution4/billing.py:89-127 | posting and voiding in place equal the ledger's settlement |
| Handlers.Billing.TopUpCredits | solutions/4_solution/src/solution4/billing.py:129-150 | the in-place top-up equals the ledger's, replays included |
| Handlers.Billing.GetBalance | solutions/4_solution/src/solution4/billing.py:152-158 | the balance is what the user can spend; an unknown account has none |
| Handlers.TaskTable.CreateTask | solutions/4_solution/src/solution4/repository.py:55-95 | the insert with its unique key: inserted, existing row, or raised |
| Handlers.TaskTable.UpdateStatusIfMatch | solutions/4_solution/src/solution4/repository.py:131-169 | the status changes exactly if it matches, and the answer says so |
| Handlers.Service.ExecuteTask | solutions/4_solution/src/solution4/workflows.py:109-387 | with any interference between its steps, the executor answers COMPLETED only after a computation of its own that succeeded, a capture of its own and its own completing update; FAILED only after a failed computation, never having asked for the charge, or after its capture found the hold gone; CANCELLED only after reading the request and giving the hold back itself; one that lost the start has changed nothing and reports what it read; any COMPLETED row and any charge has an invocation that computed successfully and charged |
| Handlers.Service.MaybeCompleteCancellation | solutions/4_solution/src/solution4/workflows.py:128-174 | true ends the workflow with the answer CANCELLED, past its own release and update; false resumes it where it was |
| Handlers.Service.CancelTask | solutions/4_solution/src/solution4/app.py:493-557 | with any interference: a reported refund is of the row's cost, by this handler, which had moved the row from PENDING to CANCELLED, for good; REQUESTED means that this handler moved the row from RUNNING; a failed release, that it cancelled, found the hold gone and put the row back; each other answer changed nothing and has its status, or its lost update, among what the handler read |
| Handlers.Service.SubmitTask | solutions/4_solution/src/solution4/app.py:375-471 | each answer has its cause in what the submit did: refused credits left the table alone and had no credits, user or fresh id to reserve with; an accepted one reserved, inserted and handed off, and owns its row; a replayed one met a row of its user and key in the status it reports and has no hold; a failed one had its insert refused or its commit's answer lost, and no hold |
| Handlers.Service.HandleHandOffFailure | solutions/4_solution/src/solution4/app.py:110-158 | a reported release means that this submit failed its own row after the handoff failed and gave the hold back, which its row still names; an unreleased one, that the hold was gone and the row put back or moved on; a fallback, that the update came too late and the status was read after it |
| GateSteps.WorkerMoves | solutions/1_solution/src/solution1/workers/stream_worker.py:440-724 | each step of a worker pays exactly what its task's phase says it owes and leaves others undisturbed |
| GateSteps.ReapMoves | solutions/1_solution/src/solution1/workers/reaper.py:71-153 | each step of the reaper on a marker keeps the task's invariant, given that it acts past the orphan timeout |
| GateSteps.AdmittedStepKeepsInv | solutions/1_solution/src/solution1/api/task_write_routes.py:431-519 | any process's step on an admitted task keeps the invariant of all tasks and processes |
| GateRuns.EveryRunKeepsInv | solutions/1_solution/src/solution1/workers/reaper.py:71-228 | the invariant holds in every reachable state, deaths and clock ticks included, if the orphan timeout is positive or nobody can pay for anything |
| GateAccounting.EveryRunKeepsAccounts | solutions/1_solution/src/solution1/utils/lua_scripts.py:22-60 | credits[u] equals the opening balance plus u's ledger entries, minus costs admitted but not persisted, minus refunds committed but not applied, and is never negative; active[u] counts exactly the slots not given back |
| GateAccounting.ConcurrencyBound | solutions/1_solution/src/solution1/constants.py:127-130 | PENDING and RUNNING rows plus admitted-but-unpersisted requests are at most active[u], which is at most the tier's limit |
| GateBoundary.ConcurrencyBoundExactlyWhen | solutions/1_solution/src/solution1/workers/reaper.py:71-153 | the concurrency bound holds in every run if and only if the orphan timeout is positive or every opening balance is zero |
| GateBoundary.AccountsExactlyWhen | solutions/1_solution/src/solution1/workers/reaper.py:71-153 | the same condition decides whether balances and counters account for the ledger in every run |
| GateBoundary.ReaperRefundsTheLiving | solutions/1_solution/src/solution1/workers/reaper.py:84-153 | with an orphan timeout of zero a run refunds a live handler, whose row is then PENDING without a slot and without a deduction from the balance |
| GateAccounting.ClampNeverFires | solutions/1_solution/src/solution1/utils/lua_scripts.py:64-72 | no decrement ever finds the counter at zero |
| GateAccounting.QuietBalanceMatchesLedger | solutions/1_solution/src/solution1/workers/reaper.py:71-153 | at rest the balance equals opening plus ledger if and only if none of the user's handlers died between admission and its marker |
| GateAccounting.QuietCounterMatchesRows | solutions/1_solution/src/solution1/utils/lua_scripts.py:64-72 | at rest active[u] is the number of u's PENDING and RUNNING rows plus u's leaked admissions |
| GateBoundary.LeakIsReachable | solutions/1_solution/src/solution1/api/task_write_routes.py:431-460 | whoever can pay can be admitted and lose credits and slot to a handler that dies, or fails to write its marker, right then |
| GateAccounting.LeaksAreNeverRepaired | solutions/1_solution/src/solution1/api/task_write_routes.py:431-460 | an admission whose handler died before the marker keeps credits and slot in every continuation |
| GateLedger.EveryRunKeepsLedger | solutions/1_solution/src/solution1/db/repository.py:187-305 | for every setting, rows, stream, workers and refunds carry the terms of their submit, and each task's entries tell its status, also with hung handlers, dying or competing reapers and a Redis that restarts with anything in it |
| GateLedger.LedgerTellsTheOutcome | solutions/1_solution/src/solution1/db/repository.py:187-305 | in each of those runs a task's entries sum to minus its cost while PENDING, RUNNING or COMPLETED and to zero once FAILED or CANCELLED, with at most one refund, all for the row's user |
| GateLedger.OneRowPerKey | solutions/1_solution/src/solution1/db/migrations/0005_idempotency_scope_and_reaper_index.sql:3-5 | in each of them two rows with one user and key are the same row, with the terms of the submit that named it |
| GateLedger.AcksFollowStarts | solutions/1_solution/src/solution1/workers/stream_worker.py:527-625 | in each of them a worker that acknowledges other than by a drop has a row that has left PENDING |
| GateCauses.EveryProcessIsTold | solutions/1_solution/src/solution1/workers/stream_worker.py:440-724 | in each of them what a process has done, in terms of the states its operations found and left, is what its outcome says |
| GateCauses.EntriesHaveCauses | solutions/1_solution/src/solution1/db/repository.py:187-305 | in each of them every ledger entry was written by a process of its task: a deduction with the row by its submit, a failure refund with the FAILED status by a worker whose model raised, a cancel refund by a cancel, a stuck refund by a stuck pass |
| GateCauses.StatusesHaveCauses | solutions/1_solution/src/solution1/workers/stream_worker.py:540-701 | in each of them a COMPLETED row has a worker whose model returned and that moved it from RUNNING, a FAILED one a worker whose model raised or a stuck pass, a CANCELLED one a cancel |
| GateOutcomes.TerminalForGood | solutions/1_solution/src/solution1/db/repository.py:248-305 | rows keep their terms, are never deleted, and never leave a terminal status |
| GateOutcomes.OneWinner | solutions/1_solution/src/solution1/workers/reaper.py:156-196 | among complete, fail, cancel and stuck at most one update of a task ever succeeds |
| GateOutcomes.ReplaysNameTheSameRequest | solutions/1_solution/src/solution1/api/task_write_routes.py:347-395 | an idempotent answer names an admitted request of the same user and key |
| GateOutcomes.AcksLoseNoWork | solutions/1_solution/src/solution1/workers/stream_worker.py:440-510 | for every setting an acknowledged entry's row has left PENDING, or the entry is dropped; if submits can be in time, a drop whose row was read missing past the timeout is final |
| GateBoundary.LateDropsAreFinalExactlyWhen | solutions/1_solution/src/solution1/workers/stream_worker.py:468-499 | drops past the timeout are final in every run if and only if the orphan timeout is positive or every opening balance is zero |
| GateLostWork.WorkCanBeLost | solutions/1_solution/src/solution1/workers/stream_worker.py:446-499 | while the handler may still insert, some run commits the row and then drops its entry |
| GateLostWork.DropIsSafeExactlyWhen | solutions/1_solution/src/solution1/workers/stream_worker.py:446-499 | every continuation drops safely if and only if the handler could no longer insert when the row was read |
| GateLostWork.OldEntriesAreDroppedSafely | solutions/1_solution/src/solution1/workers/stream_worker.py:468-480 | an entry past the orphan timeout when its row is read missing is always dropped safely |
| GateLostWork.AgeSufficesExactlyWhen | solutions/1_solution/src/solution1/workers/stream_worker.py:468-480 | wherever anybody can pay, dropping after a row was read missing at some age of its entry is safe in every run and continuation if and only if that age is at least the orphan timeout |
| GateLostWork.YoungEntryIsLost | solutions/1_solution/src/solution1/workers/stream_worker.py:446-499 | for every user who can pay and every smaller age some run reads the row missing at that age and loses a PENDING task |
| GateLostWork.LostWorkIsReachable | solutions/1_solution/src/solution1/workers/stream_worker.py:446-499 | a concrete run in which a PENDING task's entry is about to be acknowledged |
| GateHandlers.RedisStore.AdmissionScript | solutions/1_solution/src/solution1/utils/lua_scripts.py:22-60 | the script's checks in order and its writes, or no write at all; what the gate must admit and why it refuses is GateHistory.AdmittedExactlyWhen and RefusalHasCause |
| GateHandlers.RedisStore.DecrementScript | solutions/1_solution/src/solution1/utils/lua_scripts.py:64-72 | the clamped decrement |
| Gate.UpgradesMultiplySlots | solutions/1_solution/src/solution1/constants.py:127-130 | every user has at least one slot; with a positive base PRO has twice and ENTERPRISE four times the slots of FREE |
| GateHandlers.Repository.FinishTask | solutions/1_solution/src/solution1/api/task_write_routes.py:95-114 | guarded terminal update and refund entry together or not at all |
| GateHandlers.Repository.CreateTask | solutions/1_solution/src/solution1/db/repository.py:187-230 | row and deduction in one transaction |
| GateHandlers.Service.SubmitTask | solutions/1_solution/src/solution1/api/task_write_routes.py:223-539 | accepted: the gate let it in and it wrote row and deduction of the request; compensated: its insert failed, and there is neither row nor marker nor ledger entry, credits and slot given back; refused: no trace at all, with the reason found at the gate: the key's task, every slot of the tier's limit held, no balance, or one below the cost |
| GateHandlers.Service.ProcessMessage | solutions/1_solution/src/solution1/workers/stream_worker.py:440-724 | under interference: what the worker ended itself is COMPLETED only after its own model returned, FAILED and refunded only after it raised, with credits and slot given back; a settled delivery lost its start or its end to another; all of these are acknowledged and their row has left PENDING; a dropped one is acknowledged too, and its task is lost for good if no handler could insert the row when it was read missing, as none can past the orphan timeout |
| GateHandlers.Service.CancelTask | solutions/1_solution/src/solution1/api/task_write_routes.py:541-601 | a cancel that reports success moved the row to CANCELLED itself, with its one refund in the ledger, and credits and slot given back; any other answer changed nothing, because there was no row or it had ended |
| GateHandlers.Service.FailStuckTask | solutions/1_solution/src/solution1/workers/reaper.py:156-228 | a recovered stuck task was failed by this pass, with one refund in the ledger, and credits and slot given back; otherwise the task had ended when the update came, and nothing was changed |
| GateHandlers.Service.ProcessMarker | solutions/1_solution/src/solution1/workers/reaper.py:84-153 | a recovered marker was past the orphan timeout and belonged to a dead handler's task, which has no row, no marker and no ledger entry; credits and slot are given back; a leftover one had a row and is removed; one left alone was missing or younger |
| GateHistory.StartedForGood | solutions/1_solution/src/solution1/db/repository.py:248-305 | a row that has left PENDING never returns to it |
| GateHistory.DeadForGood | solutions/1_solution/src/solution1/workers/reaper.py:148-153 | after the marker of a dead handler is removed, its task never has a row or a marker again |
| GateHistory.PaidBackForGood | solutions/1_solution/src/solution1/utils/lua_scripts.py:64-72 | once credits and slot of an admission are given back, that stays so, and the ledger tells the outcome, in every longer history |
| GateHistory.AdmittedExactlyWhen | solutions/1_solution/src/solution1/utils/lua_scripts.py:22-60 | in every run the gate admits a request if and only if its key is unused, the user holds fewer slots than the tier allows, and has a balance of at least the cost |
| GateHistory.RefusalHasCause | solutions/1_solution/src/solution1/utils/lua_scripts.py:22-60 | a refusal names what the gate found: a used key and its task, every slot of the limit held, no balance, or one below the cost |
| GateHistory.DropsForGood | solutions/1_solution/src/solution1/workers/stream_worker.py:446-499 | a task whose row was read missing when no handler could insert it never gets one; past the orphan timeout no handler can |
| Webhooks.EveryRunConserves | solutions/1_solution/src/solution1/workers/webhook_dispatcher.py:84-263 | every payload ever enqueued is in exactly one of queue, scheduled set, a process's hands, dead-letter list, delivered or dropped |
| Webhooks.RunBalances | solutions/1_solution/src/solution1/workers/webhook_dispatcher.py:93-109 | each command moves a payload from one place to one other |
| WebhookBounds.SendsAreBounded | solutions/1_solution/src/solution1/workers/webhook_dispatcher.py:213-263 | no event is sent more than max_attempts times between replays, even with failing lookups |
| WebhookBounds.WorkShrinks | solutions/1_solution/src/solution1/workers/webhook_dispatcher.py:150-263 | a dispatcher's command lowers the measure exactly if it moves a payload and is no failed lookup of an event whose attempts are used up |
| WebhookBounds.WorkIsFinite | solutions/1_solution/src/solution1/workers/webhook_dispatcher.py:317-335 | without such lookups, dispatchers left alone move payloads at most a fixed number of times |
| WebhookAttempts.AttemptsAreFailures | solutions/1_solution/src/solution1/workers/webhook_dispatcher.py:150-263 | in every run a payload's attempt count and error are the number and the last of its failed lookups and requests since it was enqueued or replayed; it is a dead letter if and only if the last failure was a request that used up the attempts |
| WebhookTools.Lists.EnqueueTerminalEvent | solutions/1_solution/src/solution1/services/webhooks.py:140-152 | appends and keeps the newest payloads up to the bound |
| WebhookTools.EnqueueMatchesSteps | solutions/1_solution/src/solution1/services/webhooks.py:140-152 | an enqueue and its trim in the step system leave the same queue |
| WebhookTools.DueMembers | solutions/1_solution/src/solution1/workers/webhook_dispatcher.py:95-101 | distinct members that are due, ordered by due time; a due one is left out only when the batch is full of earlier ones |
| WebhookDispatcher.Deployment.PromoteScheduledEvents | solutions/1_solution/src/solution1/workers/webhook_dispatcher.py:93-109 | with any interference between its commands, of the members due at the read it pushes, in order of their due times, exactly those that nobody else has taken meanwhile, and counts those |
| WebhookTools.Lists.PromoteAlone | solutions/1_solution/src/solution1/workers/webhook_dispatcher.py:93-109 | left alone, the earliest due members, up to the batch size and in order of their due times, leave the schedule and stand before the queue in reverse order |
| WebhookTools.Lists.PromoteMembers | solutions/1_solution/src/solution1/workers/webhook_dispatcher.py:102-109 | members still scheduled are taken once each; one that somebody else has removed since the read is skipped |
| WebhookTools.PromotionMatchesSteps | solutions/1_solution/src/solution1/workers/webhook_dispatcher.py:93-109 | the loop does what one dispatcher of the step system does while nobody else moves |
| WebhookTools.AllTaken | solutions/1_solution/src/solution1/workers/webhook_dispatcher.py:93-109 | distinct members that are all still scheduled are all taken, in order |
| WebhookTools.Lists.ProcessRawEvent | solutions/1_solution/src/solution1/workers/webhook_dispatcher.py:213-263 | which outcome each payload, lookup and response leads to, and what it does to the scheduled set and the dead-letter list |
| WebhookTools.ProcessMatchesSteps | solutions/1_solution/src/solution1/workers/webhook_dispatcher.py:213-263 | one delivery of the step system does what the method does |
| WebhookTools.Lists.ReplayDeadLetters | solutions/1_solution/scripts/replay_webhook_dlq.py:29-87 | a real run takes the newest letters and puts before the queue, with attempt zero and no error, events whose ids are in order those of the letters that parse; the summary counts both kinds; a dry run changes neither list |
| WebhookTools.RevivedKeepsOrder | solutions/1_solution/scripts/replay_webhook_dlq.py:49-51 | replayed letters keep the order of the dead-letter list |
| WebhookTools.RevivedIsFresh | solutions/1_solution/scripts/replay_webhook_dlq.py:49-51 | what is put back are the letters that parse, in order, never attempted and without an error |
| WebhookTools.ReplayMatchesSteps | solutions/1_solution/scripts/replay_webhook_dlq.py:29-59 | the script run alone does what the step system's replay process does |
| WebhookTools.DryRunCountsExactlyWhen | solutions/1_solution/scripts/replay_webhook_dlq.py:36-47 | a dry run's candidate count is what a real run would replay if and only if its one sample speaks for all rounds |
| WebhookTools.DryRunMiscounts | solutions/1_solution/scripts/replay_webhook_dlq.py:73-87 | a list of two letters on which the dry run is wrong |
| Backoff.DelayIsClosedForm | solutions/1_solution/src/solution1/utils/retry.py:28-40 | clamping at every step equals clamping base times multiplier to the k once |
| Backoff.WebhookDelayIsShifted | solutions/1_solution/src/solution1/services/webhooks.py:127-137 | the webhook delay of attempt k + 1 is the retry delay after k failures |
| Backoff.FirstWebhookDelay | solutions/1_solution/src/solution1/services/webhooks.py:127-137 | up to the first attempt the webhook delay is the initial one, at most the bound |
| Backoff.DelaysGrow | solutions/1_solution/src/solution1/utils/retry.py:28-40 | delays grow with every failure after the first, and from the start exactly if the base is within the bound |
| Backoff.RetryAsync | solutions/1_solution/src/solution1/utils/retry.py:10-40 | rejects exactly the invalid arguments; runs at most `attempts` times, succeeds exactly if one of them does, returns the first success, and sleeps the delay times its jitter, at most the bound |
| Revocation.EveryRunKeepsInv | solutions/1_solution/src/solution1/services/auth.py:117-155 | every token added since the last flush, at a moment with at most a day to live, lies in a bucket that outlives it and is within the two days looked up |
| Revocation.TheTableIsFound | solutions/1_solution/src/solution1/app.py:698-727 | once Redis is restored, if nothing was missed of the token, every unexpired row whose own revocation began with at most a day to live is found |
| Revocation.CacheAgreesWithTable | solutions/1_solution/src/solution1/app.py:445-489 | if the token's inserts succeed, it is found only if it is in the table or between its two writes; once Redis is restored with nothing missed of the token, it is found until it expires if one of those revocations began with at most a day to live |
| Revocation.NothingUnrevokedIsFound | solutions/1_solution/src/solution1/app.py:445-466 | whatever is found had its revocation asked for by its user |
| Revocation.RehydrationRestoresTheTable | solutions/1_solution/src/solution1/app.py:698-727 | after a rehydration every unexpired row that was written with at most a day to live is found |
| Revocation.FlushLosesToken | solutions/1_solution/src/solution1/app.py:698-727 | a row is not seen after a flush before Redis is rehydrated |
| Revocation.FlushBetweenWritesLosesToken | solutions/1_solution/src/solution1/services/auth.py:147-155 | a flush and rehydration between the two writes of a revocation leave its row unseen |
| Revocation.FailedWriteLosesToken | solutions/1_solution/src/solution1/services/auth.py:149-155 | so does a failed Redis write |
| Revocation.FailedInsertIsStillFound | solutions/1_solution/src/solution1/services/auth.py:138-155 | a revocation whose insert fails is found although the table does not know it |
| Revocation.EarlyRevocationIsForgotten | solutions/1_solution/src/solution1/services/auth.py:121-128 | a token revoked with more than two days to live is no longer found two days later, although its row is there; revoked again then it is found |
| Revocation.LifeThatIsCovered | solutions/1_solution/src/solution1/services/auth.py:121-128 | one addition covers a remaining life, whenever it happens, if and only if the life exceeds neither the bucket's time to live nor a day and one tick |
| Revocation.RevocationStore.RevokeJti | solutions/1_solution/src/solution1/services/auth.py:138-155 | the two writes of a revocation, the second one also when the first fails |
| Revocation.RevocationStore.IsTokenRevoked | solutions/1_solution/src/solution1/app.py:445-489 | Redis answers if it is up; else the table does, and a positive answer is written through |
| Revocation.RevokedExactlyWhen | solutions/1_solution/src/solution1/app.py:468-489 | in every run the table answers that a token is revoked if and only if an insert for it committed and it is unexpired |
| Revocation.RevocationStore.RehydrateRevocationCache | solutions/1_solution/src/solution1/app.py:698-727 | the loop adds exactly the active rows of the last day, each to its day |
| Revocation.RehydrationAdds | solutions/1_solution/src/solution1/app.py:698-727 | a rehydration adds to each user's bucket of a day exactly the unexpired tokens revoked on that day and within the last one |
| Revocation.RevokeMatchesSteps | solutions/1_solution/src/solution1/services/auth.py:138-155 | the two steps of a revocation leave the buckets and rows that the method leaves |
| Revocation.LookupsMatchSteps | solutions/1_solution/src/solution1/app.py:445-489 | so do the steps of a lookup and of a rehydration |
| Snapshots.Reconciler.FlushCreditSnapshots | solutions/1_solution/src/solution1/workers/reaper.py:231-258 | writes every dirty balance to its snapshot and clears the dirty set; raises exactly if some dirty balance is no number |
| Snapshots.Reconciler.RunCreditDriftAudit | solutions/1_solution/src/solution1/workers/reaper.py:261-312 | both stores after the audit, one audit row per snapshot in order, and the number of drifted snapshots |
| Snapshots.Reconciler.ReconcileSnapshots | solutions/1_solution/src/solution1/workers/reaper.py:231-312 | flush then audit: every snapshot equals its Redis balance, no balance that was present has changed, and the rows appended tell each snapshot once with its drift and what was done about it; a non-number stops the pass before the audit |
| Snapshots.Reconciler.ReconcileTwice | solutions/1_solution/src/solution1/workers/reaper.py:231-312 | a second pass changes nothing and reconciles nothing |
| Snapshots.AuditLogRows | solutions/1_solution/src/solution1/workers/reaper.py:287-310 | whatever order the table lists its snapshots in, the appended rows are one per snapshot, each with the Redis balance, the old snapshot their difference, and whether Redis had no balance, no number, or another one |

## Left out

- Solutions 0, 2 and 3: Solution 0 has the shape of Solution 1 with a weaker refund; of the other two the interesting parts are small finite tables.
- HTTP, authentication, metrics, tracing, logging, health checks, settings validation, load and scenario scripts: no invariant of their own.
- Solution 4, identifiers: a task is named by its submit's process; the fresh ids of post and void transfers are not stored; zero ids, collisions of hashed ids and 128-bit overflow are not modelled.
- Solution 4, amounts: posting and voiding use the hold's original amount, as the code's comments say.
- Solution 4, `admin_credits`: creating the account and the deposit are one event; the mirror in `users.credits`, the task cache and the startup seeding are left out.
- Solution 4, liveness: a late cancel racing a failed compute can leave CANCEL_REQUESTED until the ledger timeout; only safety is proved.
- Solution 4, journaling: an effect and its journal entry are one step, except for the unjournaled release.
- Solution 1, time to live of markers, keys and hashes, stream trimming, ledger retention and the EXPIRED status: the ledger is an append-only history.
- Solution 1, admin credit set and cache hydration: they overwrite the Redis balance and break conservation by design.
- Solution 1, failing Redis or Postgres calls in the gate protocol: `refund_and_decrement_active` is not idempotent, so its retries after a partial failure are outside the accounting; so is a worker, cancel, stuck pass or reaper that dies between a won terminal update, or its refund of an orphan, and the return of credits and slot. Rows and ledger are covered all the same.
- Solution 1, task-state and result hashes, the dirty set, script reloading and checkpoints: no part in the properties proved. Payload parsing is not modelled; the stream's user and cost fields are.
- Solution 1, reaper loops over markers and stuck tasks: each marker and each task is one process of the step system; the order of the scan and the per-cycle limit are left to the environment.
- Solution 1, several reapers: the marker scan is assumed to be the work of one reaper at a time, and a reaper finishes a marker it starts.
- Webhooks, crashes of a dispatcher and failing Redis commands: a popped payload would be lost. Trimming after an enqueue may happen at any time; due times are the environment's choice.
- Webhooks, scheduled members due at the same time come in any order.
- Revocation, SADD and EXPIRE are one step, as is a rehydration; each revocation's durable row carries the token's own expiry, no two tokens share an identifier, and the clash of two rows of one token in the same tick is not modelled.
- Solution 1, submits without an idempotency header: the code gives them a key of their own, their row's key stays NULL; here the row carries that key.
- Snapshots: foreign keys in the dirty set whose user part is no identifier raise in the code and are not modelled; no other writer runs during a pass; old audit rows are not purged.
- Floating point: delays and jitter are real numbers.
