# A verified model of typemach

typemach runs checkpointed state machines. A run is leased by a worker, appends numbered events to
a transactional store, and is watched by live subscribers; an agent that calls a language model and
tools runs on top. This project models that machinery in Dafny and proves what its parts promise
each other. `dafny verify dfyconfig.toml` checks all of it.

Where the original updates objects in place, the model is a class whose methods do the same steps,
and each method is proved equal to a function on values; the theorems are about those functions, and
say without naming them what is stored, answered, published and recorded (StoreResults,
LifecycleResults, TxDelivery, AgentResults).
Where several tasks run at once, the model is a state machine over their atomic steps, and the
theorems hold for every sequence of steps (LifecycleTasks, LockMap, Subscription, TxBridge,
Cancellation). The methods of module Lifecycle show what one task does by itself, while other workers
use the store; LifecycleTasks proves the numbering for any number of tasks.

| part | modules |
|---|---|
| shared identifiers and records | Types |
| the run store: specification, what each operation stores and answers, invariants, whole histories | StoreSpec, StoreResults, StoreInv, StoreHistory |
| the in-memory store, proved against the specification | MemoryStore |
| the SQL store: tables, agreement with the specification, transactions, two-phase reaping, whole histories | SqlTables, SqlAgreement, SqliteStore, SqlReap, SqlHistory |
| sequence numbers and publishing: the methods, what their callers get, any number of tasks, and that both agree | Registry, Lifecycle, LifecycleResults, LifecycleTasks, LifecycleAgreement |
| garbage-collected per-run locks | LockMap |
| replay and tail of a subscription, and its channel in the registry | Subscription, SubscriptionRegistry |
| the bridge that commits checkpoints together with events | TxBridge, TxDelivery, TxRuntime, TxStore |
| cancelling a run that registers or unregisters | Cancellation |
| the runner: restore, invoke, stream | Runner |
| the agent: transcript, prompt window, loop | Transcript, AgentContext, AgentSpec, AgentResults, Agent |

The main results:

- **Refinement.** The SQL store writes rows while it is still checking and relies on rollback; the
  in-memory store checks first. From related states both accept the same commits, end in related
  states, and leave everything unchanged otherwise (`SqliteStore.SqliteStore.CommitRun`,
  `MemoryStore.MemoryRunStore.CommitRun`). They differ on updates of done effects that no library
  constructor builds, and `SqlTables.OverwriteAgrees` says exactly when. Over whole histories they hold
  the same but for the errors stored with done effects (`SqlHistory.HistoriesAgree`).
- **Fencing.** The thread-lease table is the projection of the leased running runs; writers of a
  checkpoint form contiguous blocks by run; a leased run commits only with its unexpired lease;
  terminal runs are frozen; effects start at most once between failures; entry numbers are dense.
- **Interleavings.** Two-phase reaping is safe and cannot fail, per-run locks exclude each other
  although they are collected by reference count, the numbers of committed events have no gaps in any
  interleaving of tasks, subscribers see every event exactly once, and checkpoints and step events
  stay paired.
- **Exact limits.** Appending and finishing lose a number when the store refuses them, and
  `LifecycleTasks.LostExactly` says when that is. A cancel reaches a registered run exactly when every
  other task of the run id had gone as it began, or it found the run's control
  (`Cancellation.ReachesExactly`); `Cancellation.LostAfterClearing` is a cancel that is lost. A tail
  can miss the event of a reaper, exactly when `Subscription.EndedExactly` says.
- **Nothing lost, nothing invented.** An accepted commit is stored in full and nothing else changes
  (`StoreResults.CommitStores`), its events reach every subscriber (`LifecycleResults.CommitLands`), what
  a runner sends through the bridge is stored in order (`TxDelivery.NothingIsLost`), and every
  checkpoint holds the state that the machine's transition returned (`Runner.StepsAreTransitions`).
- **Agent.** What a denied tool would do has no influence on any session
  (`AgentResults.SessionIgnoresDenied`). Transcripts stay grouped in every reachable state, which makes
  every compacted window acceptable to a provider, and a run ends within `2 * max_model_turns + 2`
  transitions.

## Assumptions

- Identifiers, scopes, keys and JSON values are opaque values with equality; encoding is injective.
- An operation of a store sees one point in time. Results about expired leases over several
  operations take the clock to be monotone.
- Sequence numbers, counters and times are mathematical integers.
- In modules Lifecycle and LifecycleTasks other workers do not append to a run that is registered in
  this process; they may end it.
- In module TxBridge a thread has one runner and one bridge, and its queue starts empty.
- In module Cancellation the results about reached runs take a run id to be registered by one task at
  a time. That does not save a cancel that starts while the run before is unregistering.
- In module AgentSpec inputs hold no tool blocks, the registry answers under the requested id, the
  model answers with text, thinking and tool uses, and every resume carries an answer. What a resume
  without an answer leads to is shown as well.

## Where the code is followed

- A commit under a wrong scope is an error in memory and is skipped by the SQL store. A start whose
  run id exists under another scope is refused in memory, while the SQL store may still answer it by
  client key. Both differences are part of the contracts (`Answers`, `SqlStartAnswer`).
- A commit with several faults may report another one of them in the SQL store; `SqlCommitAnswer` in the
  contract of `SqliteStore.SqliteStore.CommitRun` says which.
- `append_with` and `finish_with` do not give a number back when the store refuses, unlike
  `commit_with`; the contracts say exactly when.
- Unregistering a run takes back its control and clears the cancel mark in two steps, so a cancel
  that comes between them is lost to the next run of that id.
- Reaping in memory keeps the runs that were reaped before an event that does not fit; the SQL
  store reaps all of a batch or none.
- A commit ignores the entries inside its finish record.

## Model

| member | source | states |
|---|---|---|
| `StoreSpec.CheckedEffectsPresent` | src/store/memory/op.rs:14-44 | every update of a checked batch names an effect that exists and passes its own check, for batches of any length |
| `StoreSpec.FirstFailure` | src/store/memory/op.rs:14-44 | a batch fails with the failure of its first failing update |
| `StoreInv.EmptyValid` | src/store/memory.rs:75-90 | the new store satisfies all invariants |
| `StoreInv.StartKeeps` | src/store/memory.rs:151-218 | starting a run keeps all invariants, whatever its answer |
| `StoreInv.ClaimNeverBusy` | src/store/memory/lease.rs:134-161 | once no other run is running on the thread, claiming the thread cannot find it held, so that error exit is dead |
| `StoreInv.CommitKeeps` | src/store/memory.rs:456-552 | a commit keeps all invariants |
| `StoreInv.AcceptedSound` | src/store/memory.rs:471-503 | what the checks of an accepted commit establish: shape, running run, scope and session, increasing numbers, existing effects, checkpoint of the right thread and run |
| `StoreInv.FinishKeeps` | src/store/memory.rs:233-294 | finishing a run keeps all invariants |
| `StoreInv.RecordKeeps` | src/store/memory.rs:353-390 | recording an event keeps all invariants |
| `StoreInv.CancelKeeps` | src/store/memory.rs:340-351 | marking a run cancelled keeps all invariants |
| `StoreInv.ReserveKeeps` | src/store/memory.rs:554-594 | reserving an effect keeps all invariants |
| `StoreInv.StartEffectKeeps` | src/store/memory.rs:596-628 | starting an effect keeps all invariants |
| `StoreInv.RenewKeeps` | src/store/memory/lease.rs:15-51 | renewing a lease keeps the run and the thread table in agreement |
| `StoreInv.ReleaseKeeps` | src/store/memory/lease.rs:53-69 | releasing a lease keeps the run and the thread table in agreement |
| `StoreInv.ReapKeeps` | src/store/memory/lease.rs:71-123 | reaping one run keeps all invariants |
| `StoreInv.EntriesAdded` | src/store/memory/op.rs:147-182 | entry numbers of every session stay exactly 1 to the counter, each used once |
| `StoreInv.LogExtends` | src/store/memory/validate.rs:107-131 | a checked batch keeps the whole log strictly increasing |
| `StoreHistory.ExecValid` | src/store/memory.rs:75-90 | every reachable store satisfies all invariants |
| `StoreHistory.LeaseTableIsProjection` | src/store/memory.rs:187-208 | in every reachable store a thread lease is there if and only if its run is running on that thread under that lease, and a thread has at most one running run |
| `StoreHistory.NextAdvances` | src/store/memory.rs:456-552 | what one operation of any kind can change: runs only grow and then freeze, leases are never replaced, effects move along their state machine, only accepted commits write checkpoints, entries only grow |
| `StoreHistory.ExecEvolves` | src/store/memory.rs:353-390 | over any history a run keeps its start, its log grows at the end, and a lease never becomes another lease |
| `StoreHistory.TerminalFrozen` | src/store/memory.rs:483-493 | from the moment a run is terminal its status, reason, events, terminal event, lease, effects and items never change; only the cancel flag may still be raised |
| `StoreHistory.WriterRuns` | src/store/memory.rs:781-823 | who writes a thread's checkpoint is running on it, and every other run of that thread is terminal |
| `StoreHistory.WritersFormBlocks` | src/store/memory.rs:494-509 | the writers of a thread's checkpoint form contiguous blocks by run over every history |
| `StoreHistory.CheckpointWriter` | src/store/memory.rs:505-509 | a checkpoint changes only by an accepted commit of the run it then names |
| `StoreHistory.CommitsCarryTheLease` | src/store/memory/lease.rs:163-177 | while nobody gave a run's lease back, every accepted commit of the run carried that lease id, unexpired |
| `StoreHistory.LeaseGone` | src/store/memory/lease.rs:53-69 | a running run loses its lease only by a release with that lease's owner and id |
| `StoreHistory.StartedAtMostOnce` | src/store/memory.rs:596-628 | between two starts of one effect a commit that reports its failure was accepted |
| `StoreHistory.EffectHistory` | src/store/memory/op.rs:14-44 | kind and request never change after reservation, and a done effect never changes again |
| `StoreHistory.EntriesImmutable` | src/store/memory/op.rs:147-182 | written entries keep number and content in every later store |
| `StoreHistory.NumbersConsumed` | src/store/memory/op.rs:147-182 | a batch consumes one number per new key and none for a key sent again; other sessions are untouched |
| `StoreResults.AcceptedExactly` | src/store/memory.rs:471-503 | a commit is accepted exactly when it is well formed, its run is running and admits its lease, its checkpoint is for the run's thread and names the run, its numbers go on, its updates report existing effects and agree with done ones, and its items and entries agree with what is stored |
| `StoreResults.ItemsApplied` | src/store/memory/op.rs:118-145 | after the items are applied every item of the batch has its kind and body, and every other item is as before |
| `StoreResults.EntriesApplied` | src/store/memory/op.rs:147-182 | after the entries are applied every entry of the batch has its content, and every other entry is as before |
| `StoreResults.EffectsTaken` | src/store/memory/op.rs:92-116 | an effect that was not done has the status, result and errors of its update, a done one and every other one is as before |
| `StoreResults.CommitStores` | src/store/memory.rs:504-551 | an acceptable commit leaves all of itself in the store: events, items, entries, effect updates, checkpoint, and for a finish status, reason, terminal event and no lease; no other run, item, entry, effect or checkpoint changes; any other commit changes nothing |
| `StoreResults.CommitPassesOver` | src/store/memory.rs:471-493 | what a commit that reaches no running run is answered: skipped, or the terminal event that the run has |
| `StoreResults.CommitFaults` | src/store/memory.rs:494-503 | which error a commit to a running run that is not acceptable is answered with |
| `StoreResults.CommitMisaddressed` | src/store/memory.rs:471-482 | which error a commit is answered with that is malformed, or of another scope or session |
| `StoreResults.StartCreates` | src/store/memory.rs:151-218 | a start creates its run exactly when there is none of its id, no earlier one answers, its entries fit and nothing else runs on its thread; and what it then leaves in the store |
| `StoreResults.StartAnswered` | src/store/memory.rs:160-186 | the run of this id, or the one of this client key, answers with what is stored about it if it was started in the same way, and with a conflict if not |
| `StoreResults.FinishStores` | src/store/memory.rs:233-294 | a finish takes place exactly when the run is running without a lease and entries and number fit; then status, reason, event and entries are stored and nothing else changes; a run that is over answers with its terminal event |
| `StoreResults.RecordStores` | src/store/memory.rs:353-390 | an event is recorded exactly when its run is running without a lease and session and number fit; then it is appended and nothing else changes |
| `StoreResults.CancelMarks` | src/store/memory.rs:340-351 | a request to cancel raises the flag of its run and changes nothing else |
| `StoreResults.ReserveStores` | src/store/memory.rs:554-594 | a key that is free gets a reserved effect, the same request again gets the effect that is there, another request under the key a conflict |
| `StoreResults.StartGrants` | src/store/memory.rs:596-628 | a start is granted, with an effect in status started, only for one that was reserved or failed; a started or unknown one is answered as pending and a done one as it is, and the store stays as it was |
| `StoreResults.GrantedAtMostOnce` | src/store/memory.rs:596-628 | over every history, between two starts of one key that were granted a commit reporting its failure was accepted |
| `StoreResults.HeldOrStale` | src/store/memory/lease.rs:163-177 | a leased running run is at any time either held by its lease, or stale and reaped, never both |
| `StoreResults.RenewMoves` | src/store/memory/lease.rs:15-51 | a renewal moves the expiry of the run's own unexpired lease in both tables, and is refused otherwise |
| `StoreResults.ReleaseTakes` | src/store/memory/lease.rs:53-69 | a release takes the lease of this owner and id off the run and its thread, and nothing else |
| `StoreResults.ReapEnds` | src/store/memory/lease.rs:71-123 | a reaped run is ended by its event for an expired lease and gives its thread lease up; no other run changes |
| `StoreResults.ItemsFitExactly` | src/store/memory/op.rs:46-65 | items are accepted exactly when their keys differ and they can be there beside all that is stored |
| `StoreResults.EntriesFitExactly` | src/store/memory/op.rs:67-90 | entries are accepted exactly when their keys differ and they can be there beside all that is stored |
| `StoreResults.IncreasesExactly` | src/store/memory/validate.rs:107-131 | numbers are accepted exactly when they are positive and the whole log increases with them |
| `StoreResults.ShapeExactly` | src/store/memory/validate.rs:29-83 | a commit is well shaped exactly when its events address its run, the one terminal event is the last one of a finish, and a finish ends this run |
| `StoreResults.BusyExactly` | src/store/memory.rs:757-779 | the thread is busy exactly when a running run other than this one is on it |
| `MemoryStore.After` | src/store/memory.rs:392-430 | the events of a log with a number above the cursor, and no others |
| `MemoryStore.MemoryRunStore.constructor` | src/store/memory.rs:44-48 | the new store is empty |
| `MemoryStore.MemoryRunStore.RunningThread` | src/store/memory.rs:757-779 | finds a run if and only if another run is running on the thread |
| `MemoryStore.MemoryRunStore.ValidateCommitEvents` | src/store/memory/validate.rs:29-83 | accepts exactly the commits whose events address the run and whose one terminal event comes last, with a finish |
| `MemoryStore.MemoryRunStore.ValidateEventSequence` | src/store/memory/validate.rs:107-131 | accepts exactly positive, strictly increasing numbers that go on from the log |
| `MemoryStore.MemoryRunStore.ValidateEffectUpdates` | src/store/memory/op.rs:14-44 | the first failure of the batch, or none |
| `MemoryStore.MemoryRunStore.ValidateItems` | src/store/memory/op.rs:46-65 | accepts exactly batches without repeated keys that agree with what is stored |
| `MemoryStore.MemoryRunStore.ValidateEntries` | src/store/memory/op.rs:67-90 | accepts exactly batches without repeated keys that agree with what is stored |
| `MemoryStore.MemoryRunStore.ApplyEffectUpdates` | src/store/memory/op.rs:92-116 | succeeds exactly when every effect exists, and then equals the fold of the updates |
| `MemoryStore.MemoryRunStore.ApplyItemWrites` | src/store/memory/op.rs:118-145 | inserts the items whose key is new |
| `MemoryStore.MemoryRunStore.ApplyEntryWrites` | src/store/memory/op.rs:147-182 | inserts the entries whose key is new, each under the next number |
| `MemoryStore.MemoryRunStore.StartRun` | src/store/memory.rs:151-218 | new store and answer are those of the specification |
| `MemoryStore.MemoryRunStore.CommitRun` | src/store/memory.rs:456-552 | new store and answer are those of the specification; an error, a skip or an earlier finish leaves every map as it was |
| `MemoryStore.MemoryRunStore.ApplyCommit` | src/store/memory.rs:504-551 | the apply phase of a checked commit runs to its end; its error exits cannot be taken |
| `MemoryStore.MemoryRunStore.FinishRun` | src/store/memory.rs:233-294 | new store and answer are those of the specification |
| `MemoryStore.MemoryRunStore.RecordEvent` | src/store/memory.rs:353-390 | new store and answer are those of the specification |
| `MemoryStore.MemoryRunStore.MarkCancelled` | src/store/memory.rs:340-351 | new store and answer are those of the specification |
| `MemoryStore.MemoryRunStore.ReserveEffect` | src/store/memory.rs:554-594 | new store and answer are those of the specification |
| `MemoryStore.MemoryRunStore.StartEffect` | src/store/memory.rs:596-628 | new store and answer are those of the specification |
| `MemoryStore.MemoryRunStore.Renew` | src/store/memory/lease.rs:15-51 | new store and answer are those of the specification |
| `MemoryStore.MemoryRunStore.Release` | src/store/memory/lease.rs:53-69 | new store is that of the specification |
| `MemoryStore.MemoryRunStore.TryReap` | src/store/memory/lease.rs:84-121 | leaves a fresh run alone, stops at an event that does not fit, and finishes a stale run with the event built for it |
| `MemoryStore.MemoryRunStore.ReapStale` | src/store/memory/lease.rs:71-123 | reaps distinct stale runs up to the limit and changes no other run; below the limit none is left stale; an error means that some stale run's built event does not fit, and the runs reaped before it stay reaped |
| `MemoryStore.MemoryRunStore.ListEvents` | src/store/memory.rs:392-430 | an error for the limit 0; otherwise one page of the events after the cursor, and the next cursor exactly when there is more |
| `MemoryStore.AfterAscends` | src/store/memory.rs:405-416 | the events after a cursor are in the order of their numbers, so sorting them changes nothing |
| `SqlTables.RowBusyAgrees` | src/sqlite/io.rs:360-381 | the query for another running run finds one exactly when the in-memory search does |
| `SqlTables.ThreadCheckAgrees` | src/sqlite/io.rs:396-463 | after the lease check both stores' checkpoint checks accept the same commits, although the SQL one compares no owner |
| `SqlTables.DeleteByRunIsByThread` | src/sqlite/io.rs:591-598 | deleting the thread lease by run removes exactly the row of the run's thread |
| `SqlTables.MaxRowIsLast` | src/sqlite/io.rs:541-548 | the highest stored number of a run is the number of its last event |
| `SqlTables.MaxEntryIsCount` | src/sqlite/op/entry.rs:37-45 | the highest stored number of a session is its entry counter |
| `SqlTables.EventsAppended` | src/sqlite/tx.rs:69-77 | inserting the rows of new events goes with appending them to the run's log |
| `SqlTables.SentAgain` | src/sqlite/op/entry.rs:27-36 | an entry key found while inserting was there before with the same content, so that conflict exit is dead |
| `SqlTables.OverwriteAgrees` | src/sqlite/op.rs:139-166 | overwriting done effects comes to the same as skipping them if and only if no update rewrites the stored errors of a done effect |
| `SqlTables.OverwriteDiffers` | src/sqlite/op.rs:139-166 | on the level of one batch: an update outside the library's constructors that passes every check and after which the two stores differ |
| `SqlTables.ConstructedStaysClean` | src/op.rs:93-127 | with updates of the library's constructors a done effect never carries an error |
| `SqlTables.ConstructedRewritesNothing` | src/op.rs:93-127 | with updates of the library's constructors nothing is rewritten |
| `SqlAgreement.PlanAgrees` | src/sqlite/tx.rs:61-87 | the SQL checks of a commit, in their own order, accept exactly the commits that the in-memory checks accept |
| `SqlAgreement.ErrorAgrees` | src/sqlite/tx.rs:61-87 | the first fault that the SQL checks meet in the tables is the one that the specification of the SQL answer names |
| `SqlAgreement.SameCommitError` | src/sqlite/tx.rs:61-87 | both stores refuse a commit to a running run with the same error, if its numbers increase and no update to reserved or started names a missing effect |
| `SqlAgreement.CommittedRelated` | src/sqlite/tx.rs:61-127 | the tables after an accepted commit are related to the store after it |
| `SqlAgreement.ConstructedCommitsAgree` | src/sqlite/op.rs:139-166 | with the library's constructors the SQL commit is the in-memory commit |
| `SqlAgreement.RecordIsCommit` | src/sqlite.rs:540-565 | recording an event as a commit does what the in-memory store does |
| `SqlAgreement.FinishIsCommit` | src/sqlite.rs:415-447 | finishing as a commit changes the store as the in-memory store does, and takes place exactly when it does there |
| `SqlAgreement.FinishAnswersAlike` | src/sqlite.rs:415-447 | a well addressed finish is answered as in memory |
| `SqlAgreement.RenewHitsOne` | src/sqlite/lease.rs:18-73 | the two updates of a renewal hit one row each if and only if the in-memory store renews |
| `SqlAgreement.ReleaseAgrees` | src/sqlite/lease.rs:75-109 | the update and the deletion of a release come to the in-memory release |
| `SqlAgreement.OpRowAgrees` | src/sqlite/op.rs:10-48 | the guard of the effect operations answers as the in-memory guard |
| `SqlAgreement.IdempotentRow` | src/sqlite/io.rs:128-147 | a row with scope, session and client key is the run that the in-memory index names |
| `SqlAgreement.NoIdempotentRow` | src/sqlite/io.rs:128-147 | without such a row the in-memory index names no run |
| `SqlAgreement.StartUnobstructed` | src/sqlite.rs:334-389 | after the checks of a start no index and no claim can refuse the new run |
| `SqlAgreement.ReapRelated` | src/sqlite/lease.rs:213-235 | finishing one stale run in the tables goes with reaping it in the store, and no index refuses the event |
| `SqlAgreement.TerminalRow` | src/sqlite/io.rs:570-589 | a terminal event row is the run's terminal event |
| `SqlAgreement.TerminalRowExists` | src/sqlite/io.rs:570-589 | a terminal run has a terminal event row |
| `SqliteStore.SqliteStore.constructor` | src/sqlite.rs:65-211 | the empty tables are related to the empty store |
| `SqliteStore.SqliteStore.LastSeq` | src/sqlite/io.rs:541-548 | MAX over the event rows is the number of the last event, 0 when there is none |
| `SqliteStore.SqliteStore.InsertEventRows` | src/sqlite/tx.rs:68-77 | inserts all rows exactly when the numbers increase from the last one; neither the primary key nor the terminal index refuses a row |
| `SqliteStore.SqliteStore.CheckEffectRows` | src/sqlite/op.rs:111-137 | passes exactly when the in-memory check passes |
| `SqliteStore.SqliteStore.CheckItemRows` | src/sqlite/op.rs:168-184 | passes exactly when the in-memory check passes |
| `SqliteStore.SqliteStore.CheckEntryRows` | src/sqlite/op/entry.rs:70-89 | passes exactly when the in-memory check passes |
| `SqliteStore.SqliteStore.OverwriteEffectRows` | src/sqlite/op.rs:139-166 | every update is written, also over an effect that is done |
| `SqliteStore.SqliteStore.InsertItemRows` | src/sqlite/op.rs:186-208 | inserts the items whose key is new |
| `SqliteStore.SqliteStore.LastEntrySeq` | src/sqlite/op/entry.rs:37-45 | MAX over the session's entry rows is the in-memory counter |
| `SqliteStore.SqliteStore.InsertEntryRows` | src/sqlite/op/entry.rs:8-68 | passes exactly when the in-memory check passes, and then inserts what the in-memory store inserts |
| `SqliteStore.SqliteStore.CommitChecks` | src/sqlite/tx.rs:61-67 | passes exactly when all checks pass on the tables before the first write |
| `SqliteStore.SqliteStore.CommitWrites` | src/sqlite/tx.rs:68-87 | passes exactly when numbers and entries are acceptable, and what is then in the tables |
| `SqliteStore.SqliteStore.CommitGuards` | src/sqlite/tx.rs:39-60 | the answers of a commit that does not reach its run agree with the in-memory store |
| `SqliteStore.SqliteStore.CommitRun` | src/sqlite/tx.rs:19-132 | writes before it has finished checking, yet accepts exactly the commits that the in-memory store accepts and ends in the related state; a rejected commit leaves tables and store unchanged and is answered with the fault that comes first in the SQL order |
| `SqliteStore.SqliteStore.StartGuards` | src/sqlite.rs:316-340 | the answers of a start that finds an earlier run or a busy thread |
| `SqliteStore.SqliteStore.FindIdempotent` | src/sqlite/io.rs:128-147 | finds the run that the in-memory index names, with its lookup and signature |
| `SqliteStore.SqliteStore.InsertRunRows` | src/sqlite.rs:351-399 | inserts run, claim and entries exactly when index, claim and entry checks let them in |
| `SqliteStore.SqliteStore.StartRun` | src/sqlite.rs:305-402 | ends in the related state, with exactly the answer of `SqlStartAnswer`, errors included |
| `SqlAgreement.StartsAnswerAlike` | src/sqlite.rs:305-402 | both stores give the same answer to a start if and only if its run id is not stored under another scope and not both the thread and the entries are in its way |
| `SqliteStore.SqliteStore.RecordEvent` | src/sqlite.rs:540-565 | ends in the related state; records exactly when the in-memory store does, and answers a well addressed event alike |
| `SqliteStore.SqliteStore.FinishRun` | src/sqlite.rs:415-447 | ends in the related state; finishes exactly when the in-memory store does, and answers a well addressed finish alike |
| `SqliteStore.SqliteStore.MarkCancelled` | src/sqlite.rs:520-538 | store and answer as in memory |
| `SqliteStore.SqliteStore.ReserveEffect` | src/sqlite/tx.rs:134-158 | inserts first and compares afterwards; store and answer as in memory |
| `SqliteStore.SqliteStore.StartEffect` | src/sqlite/tx.rs:160-181 | store and answer as in memory |
| `SqliteStore.SqliteStore.RenewRows` | src/sqlite/lease.rs:18-73 | a renewal whose second update does not hit one row is undone |
| `SqliteStore.SqliteStore.Renew` | src/sqlite/lease.rs:18-73 | store and answer as in memory |
| `SqliteStore.SqliteStore.Release` | src/sqlite/lease.rs:75-109 | store as in memory |
| `SqliteStore.SqliteStore.SelectStale` | src/sqlite/lease.rs:123-163 | selects distinct stale runs up to the limit, oldest leases first, each with its next number, and leaves none out for nothing |
| `SqliteStore.SqliteStore.ReapSelected` | src/sqlite/lease.rs:181-244 | finishes the picks that are still stale; one under another number fails the whole transaction and leaves everything unchanged |
| `SqlReap.BuildPicks` | src/sqlite/lease.rs:165-179 | the picks carry the next terminal events of their runs, or some built event does not fit |
| `SqlReap.SelectedPicked` | src/sqlite/lease.rs:123-179 | selection and check give picks as the safety theorem needs them |
| `SqlReap.StaleStaysPut` | src/sqlite/io.rs:383-394 | with a monotone clock, over any in-memory operations, a run with an expired lease is ended, gives its lease back, or gets no event |
| `SqlReap.PicksReaped` | src/sqlite/lease.rs:181-244 | picks that fit are all reaped, each with its event, and nothing else changes |
| `SqlReap.TwoPhaseReap` | src/sqlite/lease.rs:111-245 | under every interleaving of in-memory operations between the two transactions the second one does not fail, finishes exactly the picked runs that still have an expired lease, changes no other run, and keeps all invariants |
| `SqlHistory.HistoriesAgree` | src/sqlite/tx.rs:19-132 | over every history of any operations and any effect updates the SQL store holds what the in-memory store holds, but for the errors stored with done effects |
| `SqlHistory.SqlCommitStores` | src/sqlite/tx.rs:68-127 | an acceptable commit leaves all of itself in the SQL store; every effect it updates has taken the update over, also a done one |
| `SqlHistory.SqlStaleStaysPut` | src/sqlite/io.rs:383-394 | with a monotone clock, over any operations of the SQL store, a run with an expired lease is ended, gives its lease back, or gets no event |
| `SqlHistory.SqlTwoPhaseReap` | src/sqlite/lease.rs:111-245 | two-phase reaping is safe under every interleaving of the SQL store's own operations, also of commits with effect updates that no constructor builds |
| `SqlHistory.ConstructedHistoriesEqual` | src/op.rs:93-127 | with updates of the library's constructors both stores have the same histories |
| `SqlHistory.HistoriesDiffer` | src/sqlite/op.rs:139-166 | reachable stores that differ: from the same accepted operations only the SQL store takes over an error code reported for a done effect |
| `SqliteStore.SqliteStore.ReapStale` | src/sqlite/lease.rs:111-245 | both transactions with any operations of others between them: reaps exactly the selected runs that are still stale, each with its built event; the one error is an event that was not built to fit, and then nothing was written |
| `Registry.DeliveredOnce` | src/registry.rs:157-166 | every open subscriber of the run gets a published event once and no other channel is touched |
| `Registry.RunRegistry.TryInsert` | src/registry.rs:59-83 | refuses a registered run and a full registry, and never exceeds the capacity |
| `Registry.RunRegistry.Remove` | src/registry.rs:85-90 | the run is gone, the others stay |
| `Registry.RunRegistry.NextSeq` | src/registry.rs:108-113 | hands out the next number of the run |
| `Registry.RunRegistry.RewindSeq` | src/registry.rs:115-125 | takes back only the last number handed out |
| `Registry.RunRegistry.Subscribe` | src/registry.rs:127-136 | opens an empty channel unless the terminal event is published |
| `Registry.RunRegistry.RequestCancel` | src/registry.rs:138-142 | sets the flag of a registered run |
| `Registry.RunRegistry.Publish` | src/registry.rs:157-166 | sends to every open subscriber and forgets the others; nothing after the terminal event |
| `Registry.RunRegistry.PublishTerminal` | src/registry.rs:168-180 | sends the terminal event once |
| `Lifecycle.ForeignKeeps` | src/lifecycle.rs:494-542 | what other workers do to the store meanwhile does not disturb the numbering of a run registered here |
| `Lifecycle.CommitNumbered` | src/lifecycle.rs:494-542 | an accepted batch keeps the counter equal to the last stored number and to the count of events |
| `Lifecycle.AheadIncreases` | src/lifecycle.rs:494-514 | while the counter is not behind, the store never refuses a number handed out next |
| `Lifecycle.AppendAnswer` | src/lifecycle.rs:285-318 | while the counter is not behind, exactly what the store answers to an appended event, by the run's status, lease and session |
| `Lifecycle.RecordRefusedExactly` | src/store/memory.rs:353-390 | the store refuses an event if and only if the run is running and leased, or of another session, or at another number |
| `Lifecycle.FinishRefusedExactly` | src/store/memory.rs:233-294 | the store refuses a finish if and only if the session differs, or the run is running and leased, or the entries or the number do not fit |
| `Lifecycle.RefusedForLeaseOrSession` | src/lifecycle.rs:309 | while the counter is not behind, an event of a running run is refused if and only if the run is leased or of another session |
| `Lifecycle.FinishRefusedForNoNumber` | src/lifecycle.rs:374 | while the counter is not behind, a finish is refused for its session, its lease or its entries, never for its number |
| `Lifecycle.LostNumberIsAGap` | src/lifecycle.rs:309 | a number that is not given back breaks the gapless numbering of a running run; the counter stays ahead |
| `Lifecycle.RunLifecycle.Allocate` | src/lifecycle.rs:494-512 | hands out consecutive numbers, or none when the run is not registered |
| `Lifecycle.RunLifecycle.RewindSeqs` | src/lifecycle.rs:740-744 | the whole batch of numbers is taken back |
| `Lifecycle.RunLifecycle.PublishAll` | src/lifecycle.rs:544-563 | every open subscriber of the run gets exactly these events in order, if its terminal event is not out; nobody else gets anything, and other runs stay as they are |
| `Lifecycle.RunLifecycle.Announce` | src/lifecycle.rs:544-563 | what an answered commit makes known goes to the run's subscribers, a finish's terminal event included; a run that is over is unregistered |
| `Lifecycle.RunLifecycle.CommitLocked` | src/lifecycle.rs:483-569 | one section by itself, with other workers at the store: exactly its answer, the store, the registry and what the subscribers got, whether it reaches the store or not, and also when no number can be handed out; the numbering is kept |
| `Lifecycle.RunLifecycle.CommitWith` | src/lifecycle.rs:449-569 | one commit by itself, with other workers at the store: exactly its answer, the store and what the subscribers got, finishing commits included; for every run, registered counter, last stored number and count of stored events stay equal, whatever the outcome |
| `Lifecycle.RunLifecycle.AppendWith` | src/lifecycle.rs:266-319 | exactly its answer, the store and what the subscribers got; keeps the numbering unless a number is lost, which happens if and only if the run is known and registered, the event fits, and the store it reaches refuses it; then the counter stays ahead |
| `Lifecycle.RunLifecycle.FinishWith` | src/lifecycle.rs:321-381 | exactly its answer, the store and what the subscribers got; a finished run is unregistered after its terminal event went out; one number is lost if and only if the run is known and registered, the event fits, and the store it reaches refuses the finish |
| `Lifecycle.RunLifecycle.FinishDetachedWith` | src/lifecycle.rs:383-447 | exactly its answer and the store: refuses a registered run, answers for one that is over, otherwise the terminal event follows the last stored event without a gap |
| `Lifecycle.RunLifecycle.BeginStart` | src/lifecycle.rs:195-232 | exactly when an earlier run answers, the start is refused, or the run is registered within the capacity with its counter at 0 |
| `Lifecycle.RunLifecycle.EndStart` | src/lifecycle.rs:234-245 | a created run starts with gapless numbering, any other one is unregistered |
| `LifecycleResults.CommitLands` | src/lifecycle.rs:528-566 | an acceptable commit is stored, its events reach the run's subscribers, a finishing one with its terminal event, and the counter stands at the last number or the run is unregistered |
| `LifecycleResults.CommitFindsOver` | src/lifecycle.rs:544-563 | a commit that finds its run over changes no run and unregisters it; one that should have ended it makes the run's terminal event known |
| `LifecycleResults.CommitAnswers` | src/lifecycle.rs:483-512 | what a commit answers without the store: the run is not known, or not registered although the commit has events |
| `LifecycleResults.CommitMisbuilt` | src/lifecycle.rs:514-527 | a commit with an event for another run, session or number, or with a terminal event out of place, is refused and changes nothing |
| `LifecycleResults.AppendLands` | src/lifecycle.rs:285-318 | an appended event is stored and heard, or the run is over and unregistered, or it is refused and the number is lost, each exactly by the run's status, lease and session and the log |
| `LifecycleResults.AppendAnswers` | src/lifecycle.rs:266-308 | what appending answers without the store, and that it then changes nothing |
| `LifecycleResults.FinishLands` | src/lifecycle.rs:360-381 | a finish that can take place does, with the next number, and its event is heard; one that finds the run over makes the event known that ended it |
| `LifecycleResults.DetachedLands` | src/lifecycle.rs:383-447 | a detached finish that can take place does, with the number after the last event; it never touches a registered run |
| `LifecycleResults.BeginFinds` | src/lifecycle.rs:195-220 | the check in front of a start finds the earlier run that the store would find and answers as it would |
| `LifecycleTasks.RegistrySteps` | src/registry.rs:59-125 | the steps of the state machine do to the counters what the methods of the registry do |
| `LifecycleTasks.NextKeeps` | src/lifecycle.rs:195-569 | every step of every task and of other workers keeps the numbering invariant |
| `LifecycleTasks.OneSection` | src/lifecycle.rs:483-567 | in every interleaving of any number of tasks at most one is in the section of a run |
| `LifecycleTasks.NumbersAreExact` | src/lifecycle.rs:195-569 | in every reachable state of any number of tasks, for every registered and running run with no number under way and no start in progress, the counter is the count of stored events plus the lost numbers, and the stored numbers are exactly 1 to the counter if and only if none was lost |
| `LifecycleTasks.GaplessNumbering` | src/lifecycle.rs:494-542 | a run whose events all go through commits has stored numbers exactly 1 to its counter in every such state |
| `LifecycleTasks.CommitsLoseNothing` | src/lifecycle.rs:528-542 | commits lose no number, whatever the store answers |
| `LifecycleTasks.NeverOutOfOrder` | src/lifecycle.rs:494-535 | in every reachable state the events of a task that waits for the store go on from the log of its running run |
| `LifecycleTasks.LostExactly` | src/lifecycle.rs:309-374 | in every reachable state a step loses a number if and only if it is the store's refusal of an appended event or of a finish |
| `LifecycleTasks.AppendLosesExactly` | src/lifecycle.rs:309 | on a registered run that nobody is starting, an append that waits for the store loses its number if and only if the run is running, and leased or of another session |
| `LifecycleTasks.FinishLosesExactly` | src/lifecycle.rs:374 | on a registered run that nobody is starting, a finish that waits for the store loses its number if and only if the session differs, or the run is running, and leased or with conflicting entries |
| `LifecycleTasks.AppendLosesNumber` | src/lifecycle.rs:266-319 | a reachable state: appending to a leased run loses a number |
| `LifecycleTasks.FinishLosesNumber` | src/lifecycle.rs:321-381 | a reachable state: finishing a leased run loses a number |
| `LifecycleTasks.StartingIsOff` | src/lifecycle.rs:195-245 | why starts in progress are excepted: a reachable state in which a run of the same id, stored by others under another scope, is registered with its counter at 0 |
| `LifecycleAgreement.CommitAgrees` | src/lifecycle.rs:449-569 | a task of the state machine that is not interfered with leaves store and counters exactly as the commit method does |
| `LifecycleAgreement.AppendAgrees` | src/lifecycle.rs:266-319 | the same for appending an event, with the same number lost or none |
| `LifecycleAgreement.FinishAgrees` | src/lifecycle.rs:321-381 | the same for finishing a run |
| `LockMap.NextKeeps` | src/lifecycle.rs:247-264 | every step of every task keeps the lock invariant |
| `LockMap.CountedAlone` | src/lifecycle.rs:256-264 | a reference count of at most two means that no other task refers to the mapped lock |
| `LockMap.MutualExclusion` | src/lifecycle.rs:483-567 | in every interleaving of any number of tasks at most one is in the critical section of a run |
| `LockMap.OnlyTheLastRemoves` | src/lifecycle.rs:256-264 | a lock leaves the map only by a task that has left it while no other task refers to it |
| `LockMap.LastOneRemoves` | src/lifecycle.rs:256-264 | a check that finds no other reference to the mapped lock is followed by its removal, any other check removes nothing |
| `LockMap.NobodyIsStuck` | src/lifecycle.rs:247-264 | in every reachable state a task's next step is possible, or the task it waits for can go on |
| `Subscription.NextKeeps` | src/lifecycle.rs:591-642 | every step of storing, publishing, reaping and subscribing keeps the subscription invariant |
| `Subscription.DeliveredIsPrefix` | src/lifecycle.rs:591-642 | at any moment under every interleaving a subscriber has handed out a prefix of the events after its start, none twice and none left out |
| `Subscription.DeliveredUpToCursor` | src/lifecycle.rs:126-135 | an event of the log has been handed out if and only if its number is after the start and not after the cursor |
| `Subscription.InactiveIsComplete` | src/lifecycle.rs:629-642 | a subscriber that finds the run over has handed out everything after its start |
| `Subscription.EndedExactly` | src/lifecycle.rs:126-135 | a tail at its end has handed out everything if and only if no reaper ended the run, or a later finish published the reaper's event, or the subscriber read the store after the end, or it started after that event; otherwise it misses that one event |
| `Subscription.ReapedUnseen` | src/lifecycle.rs:591-642 | a tail that misses the reaper's event |
| `Subscription.ReapedButRead` | src/lifecycle.rs:610-627 | a tail that has it, although it was never published |
| `Subscription.DrainedIsLevel` | src/lifecycle.rs:544-563 | a tail with an empty channel has handed out every published event after its start |
| `Subscription.DrainHandsOut` | src/lifecycle.rs:126-135 | from any reachable state a tail that goes on reading hands out every published event after its start, and ends if the run is no longer registered |
| `Subscription.CatchesUp` | src/lifecycle.rs:610-642 | a subscriber of a run that is over gets through it page by page and has then handed out everything after its start |
| `Subscription.RunTail.NextEvent` | src/lifecycle.rs:126-135 | hands out the queued events after the cursor one by one, in order |
| `SubscriptionRegistry.ReachesEndOnce` | src/lifecycle.rs:717-738 | in every reachable state the terminal event is the last of the log, and there exactly when the run is over |
| `SubscriptionRegistry.PublishIsSend` | src/registry.rs:157-180 | publishing to the registry's channels is the step of the subscription machine |
| `SubscriptionRegistry.PublishAllIsSendAll` | src/lifecycle.rs:544-563 | publishing a batch gives the subscriber's channel just these events, in order |
| `SubscriptionRegistry.SubscribeOpens` | src/registry.rs:127-136 | the registry opens or refuses a channel exactly when the machine does |
| `SubscriptionRegistry.ReceiveAndRemove` | src/lifecycle.rs:126-135 | receiving takes the channel's next event, and unregistering takes away nothing that was sent |
| `SubscriptionRegistry.CommitIsStore` | src/lifecycle.rs:528-542 | a commit that the store accepts for a registered run is the step of the subscription machine that stores a batch: same log, same end, its events still to be published |
| `SubscriptionRegistry.ReapIsStep` | src/store/memory/lease.rs:71-123 | reaping the stored run is the step of the subscription machine, and nothing is published |
| `TxBridge.CheckpointIsThere` | src/runtime/tx.rs:438-450 | whenever the bridge takes up a step's event the checkpoint of just that step heads the queue, so the missing-checkpoint error is dead |
| `TxBridge.StepsArePaired` | src/runtime/tx.rs:415-484 | in every interleaving the stored steps are the first steps of the runner in order, each committed with the checkpoint saved for it |
| `TxBridge.LastStepEndsTheRun` | src/runtime/tx.rs:525-594 | a stored step that interrupts or completes is immediately followed by the run's terminal event, which is the last event |
| `TxBridge.CheckpointIsOfLastStep` | src/runtime/tx.rs:415-594 | a stored checkpoint that names the run is the one saved for its last stored step |
| `TxBridge.DeliverKeeps` | src/runtime/tx.rs:415-594 | handling any event with any verdicts of the store keeps the pairing |
| `TxBridge.GiveUpKeeps` | src/runtime/tx.rs:622-670 | giving up keeps what is stored paired |
| `TxBridge.EndKeeps` | src/runtime/tx.rs:672-719 | the commit that ends the run keeps what is stored paired, also when it is tried twice |
| `TxDelivery.EndIsStored` | src/runtime/tx.rs:525-594 | a terminal event ends the running run in the store, with the step held back under its checkpoint right before it, if one of two tries is accepted; a garbled event and giving up end it at the first try or not at all |
| `TxDelivery.StepIsStored` | src/runtime/tx.rs:438-484 | a step that goes on is stored with the checkpoint saved for it, a last one is held back with it; where the commit fails the step is not stored and the run ends as failed |
| `TxDelivery.PlainIsStored` | src/runtime/tx.rs:486-524 | any other event is stored as it comes, and ends the run in error after a last step |
| `TxDelivery.OverIsLeft` | src/runtime/tx.rs:415-594 | in a run that is over the bridge stores nothing, whatever it takes |
| `TxDelivery.NothingIsLost` | src/runtime/tx.rs:415-594 | while the store accepts and somebody listens, what the runner sent is stored, held back or on its way, in order; once the runner has stopped and the channel is empty the log is what was sent, with every step, and the checkpoint is the last one saved |
| `TxStore.CommitIsBatch` | src/store/memory.rs:456-552 | the commits of the bridge model are commits of the run store: one verdict gives the same answer and the same log |
| `TxStore.ReapIsReap` | src/store/memory/lease.rs:71-123 | reaping the run in the store is the step Reap of the bridge model exactly when the run is stale and the event fits, and otherwise changes nothing |
| `TxStore.OthersOverwrite` | src/store/memory.rs:494-509 | any operation that writes no events of the run leaves its log and checkpoint, or is the step Overwrite: another run writes the checkpoint, and then this run is over |
| `TxRuntime.TxSaver.Save` | src/runtime/tx.rs:67-78 | the checkpoint goes to the end of its thread's queue |
| `TxRuntime.TxSaver.Take` | src/runtime/tx.rs:47-55 | the checkpoint saved first comes out, other threads are untouched |
| `TxRuntime.TxSaver.Clear` | src/runtime/tx.rs:57-59 | the thread's queue is empty |
| `TxRuntime.TxRunOps.Take` | src/runtime/tx/op.rs:50-52 | hands over all pending operations and leaves none |
| `TxRuntime.TxRunOps.PushEffect` | src/runtime/tx/op.rs:89-104 | the same update again is ignored, another one under its key refused; keys stay distinct |
| `TxRuntime.TxRunOps.PushItem` | src/runtime/tx/op.rs:106-121 | the same item again is ignored, another one under its key refused; keys stay distinct |
| `TxRuntime.TxRunOps.PushEntry` | src/runtime/tx/op.rs:123-138 | the same entry again is ignored, another one under its key refused; keys stay distinct |
| `TxRuntime.Bridge.ForwardEvent` | src/runtime/tx.rs:415-594 | the bridge's handling of one event is that of the state machine |
| `TxRuntime.Bridge.ForwardDone` | src/runtime/tx.rs:438-484 | a step's event is held back, committed with its checkpoint, or ends the run in error |
| `TxRuntime.Bridge.CommitTerminal` | src/runtime/tx.rs:531-566 | the held step and the terminal event go into one commit |
| `TxRuntime.Bridge.FinishFailed` | src/runtime/tx.rs:672-719 | ends the run as failed, with the held step |
| `TxRuntime.Bridge.GiveUp` | src/runtime/tx.rs:622-670 | ends the run as cancelled, with the held step, and clears the queue |
| `Cancellation.FlaggedExactly` | src/runner.rs:563-575 | with one registration at a time, in every interleaving, the control of a registered run is set if and only if some cancel reached it: its mark still stood at a later look of the run, or it found the run's control |
| `Cancellation.SetExactly` | src/runner.rs:563-591 | however runs and cancels overlap, a control is set if and only if its run looked while a mark stood, or a cancel that had found it set it |
| `Cancellation.ReachesExactly` | src/runner.rs:84-89 | a cancel that is through reached the registered run if and only if every other task of the run id had gone when it put its mark, or it found the run's own control |
| `Cancellation.NoLostCancellation` | src/runner.rs:84-89 | with one registration at a time, a cancel that starts after every earlier task of the run id has gone is not lost: once it is through and the run is registered, its control is set |
| `Cancellation.MarkedExactly` | src/runner.rs:577-591 | the mark is there if and only if some cancel put it and nobody cleared it since |
| `Cancellation.StaleTaskTakesNothing` | src/runner.rs:577-591 | a late unregister never takes away the control of a newer registration |
| `Cancellation.FlagNeedsCancel` | src/runner.rs:563-575 | without a cancel no control is set |
| `Cancellation.LostAfterClearing` | src/runner.rs:577-591 | a cancel can be lost although runs register one after the other: it puts its mark between the two unlocking steps of the run before, which clears it |
| `Cancellation.LostWhenOverlapping` | src/runner.rs:563-591 | with overlapping registrations even a cancel that starts when every other task has gone can be lost |
| `Runner.InvokeLoop` | src/runner.rs:166-217 | saves, trace and outcome are those of the interpreter |
| `Runner.StreamLoop` | src/runner.rs:329-439 | saves, trace, events and outcome are those of the same interpreter |
| `Runner.StepsAreTransitions` | src/runner.rs:187-205 | every saved step is the machine's transition from the state saved before it: the checkpoint holds the state after the transition, and its next step, interrupt or completion and the outcome are what the transition returned; a failure is the step limit or the error of the next transition |
| `Runner.EventsReportSteps` | src/runner.rs:368-438 | each step is announced with its number and reported with its kind, a step that fails is only announced |
| `Runner.OneCheckpointPerStep` | src/runner.rs:368-438 | the stream reports exactly the steps of the trace, with one checkpoint each, within the step limit |
| `Runner.CheckpointsReflectSteps` | src/runner.rs:676-717 | each checkpoint names the step that follows, or the interrupt and its step, or neither at completion; the outcome matches the last one |
| `Runner.ResumeContinues` | src/runner.rs:628-650 | resuming a saved interrupt goes on from the saved state at the interrupted step, or where the machine jumps, with only the resume input applied |
| `Runner.OnlyInterruptsResume` | src/runner.rs:653-655 | no other checkpoint of a run can be resumed |
| `Runner.NewRunStartsOver` | src/runner.rs:657-673 | a run executed after the checkpoint of another run, or after one that completed or interrupted, hands the saved state to the machine and begins at its first step |
| `Runner.RestOfRun` | src/runner.rs:657-673 | the checkpoint of a step determines the rest of the run |
| `Runner.MoreStepsGoFurther` | src/runner.rs:167-172 | with at least as many steps left an execution goes at least as far and does the same; the same in full unless the step limit ended the shorter one |
| `Runner.SameRunContinues` | src/runner.rs:657-673 | a run executed again under its own id, with its whole step limit, does what was left to do, and goes on only if the first run came to that limit, if the machine takes the old state over unchanged |
| `Runner.BudgetIsRelative` | src/runner.rs:167-172 | only the number of steps left matters |
| `Transcript.CutGrouped` | crates/typemach-agent/src/context.rs:96-103 | a grouped transcript cut in front of a message that is no tool result is grouped in itself |
| `AgentContext.SafeStart` | crates/typemach-agent/src/context.rs:95-101 | the latest safe start at or before the wanted place |
| `AgentContext.BuildCompactedWindow` | crates/typemach-agent/src/context.rs:91-124 | the digest and the messages from that safe start on |
| `AgentContext.Shrunk` | crates/typemach-agent/src/context.rs:31-36 | the largest count, from the wanted one down, that is within the token budget, or 1 |
| `AgentContext.PromptWindow` | crates/typemach-agent/src/context.rs:16-47 | the window that the specification describes |
| `AgentContext.CompactedIsSafe` | crates/typemach-agent/src/context.rs:91-124 | whatever is kept, the window of a grouped transcript is grouped, archived and kept add up, and no use is cut from its result |
| `AgentContext.WindowIsSafe` | crates/typemach-agent/src/context.rs:16-47 | a grouped transcript is sent whole, or as a digest and a suffix in which every result follows its use, archived plus kept being the total |
| `AgentContext.WindowExactly` | crates/typemach-agent/src/context.rs:16-47 | exactly when the whole transcript is sent; otherwise what is left out ends at the latest safe place before the recent messages, and fewer of them are kept only to be within the token budget |
| `AgentSpec.RepairCloses` | crates/typemach-agent/src/lib.rs:590-618 | after the repair every tool use has a result and the transcript is grouped |
| `AgentSpec.FreshKeeps` | crates/typemach-agent/src/lib.rs:36-67 | a new run over a well-formed transcript is ready for the model |
| `AgentSpec.ModelTurnKeeps` | crates/typemach-agent/src/lib.rs:317-427 | a model turn leaves the new uses pending in the last group, or a transcript that can be repaired, within the budget |
| `AgentSpec.DispatchKeeps` | crates/typemach-agent/src/lib.rs:429-528 | dispatching reaches the model only with every use answered; asking or ending leaves a transcript that can be resumed or repaired, within the budget |
| `AgentSpec.ResumedKeeps` | crates/typemach-agent/src/lib.rs:281-295 | an answer puts the open question back in front of the pending tools |
| `AgentSpec.ResumeClosesExactly` | crates/typemach-agent/src/lib.rs:281-295 | when the loop goes on to the model after a resume, every use has its result if and only if the resume carried an answer, or the question's id has a result already, or a pending tool has the same id |
| `AgentSpec.UnansweredSession` | crates/typemach-agent/src/lib.rs:281-295 | a reachable state in front of the model with an unanswered use: the model asks the user and the resume carries no answer |
| `AgentSpec.SessionKeeps` | crates/typemach-agent/src/lib.rs:297-309 | in every reachable state, with a model, tools and policy that may differ from act to act, the transcript is grouped, before a model step every use has its result, and neither budget is exceeded |
| `AgentSpec.LengthBounded` | crates/typemach-agent/src/lib.rs:297-309 | from any state a run takes at most twice its remaining turns plus two transitions |
| `AgentSpec.RunLength` | crates/typemach-agent/src/lib.rs:322-327 | a new run takes at most twice the turn limit plus two transitions |
| `AgentSpec.BoundIsTight` | crates/typemach-agent/src/lib.rs:423-427 | a model that keeps asking for a tool reaches the bound |
| `AgentResults.DispatchIgnoresDenied` | crates/typemach-agent/src/lib.rs:481-491 | dispatching depends on the tool registry only at the pending uses that the policy allows, and only for the calls that the budget leaves: two worlds that differ elsewhere dispatch alike |
| `AgentResults.SessionIgnoresDenied` | crates/typemach-agent/src/lib.rs:297-309 | over whole sessions: whatever denied tools would do, and whatever the model would say to anything but a window of a transcript, the session is the same |
| `AgentResults.DispatchRecords` | crates/typemach-agent/src/lib.rs:429-528 | one result for each answered use, in order: the user's answer, the tool's own result or its archived note for an allowed use, an error for a denied one; and where and why dispatching ends |
| `AgentResults.CallsCounted` | crates/typemach-agent/src/lib.rs:436-441 | every recorded use counts against the budget, except a question that got the answer to another one |
| `AgentResults.TerminalEnds` | crates/typemach-agent/src/lib.rs:452-470 | dispatching ends at a use, without a call or a result, exactly when it is a built-in ending or a terminal tool of the registry |
| `AgentResults.AnswerIsRecorded` | crates/typemach-agent/src/lib.rs:530-571 | a resume with an answer records it first, for the question it is for; an answer to another question leaves an error |
| `AgentResults.ContentSays` | crates/typemach-agent/src/lib.rs:369-386 | the recorded message says all that was streamed and answered, in order, and has all other blocks followed by the tool uses |
| `AgentResults.ResponseIsRecorded` | crates/typemach-agent/src/lib.rs:387-427 | a response adds at most one message, which says what the response says, or its final text if it says nothing else; one that was cut off leaves no tool pending |
| `AgentResults.FreshContinues` | crates/typemach-agent/src/lib.rs:36-67 | a new run keeps the earlier transcript, adds errors for unanswered uses only, and ends with the new input, nothing pending and a whole budget |
| `AgentResults.BeginsAtModel` | src/runner.rs:657-673 | an executed run begins in front of the model with the transcript of a new run and no tool pending; executed again while it stood there it goes on with the model's turn |
| `Agent.RepairDanglingToolUses` | crates/typemach-agent/src/lib.rs:590-618 | the repair that the specification describes |
| `Agent.AgentState.constructor` | crates/typemach-agent/src/lib.rs:36-67 | the fresh state of the specification |
| `Agent.AgentState.ApplyResumeInput` | crates/typemach-agent/src/lib.rs:281-295 | the resumed state of the specification |
| `Agent.AgentState.Collect` | crates/typemach-agent/src/lib.rs:369-386 | the content of the new message and the tools that became pending |
| `Agent.AgentState.ModelTurn` | crates/typemach-agent/src/lib.rs:317-427 | state and move of the specification |
| `Agent.AgentState.ConsumeHumanAnswer` | crates/typemach-agent/src/lib.rs:530-571 | uses up the answer; a wrong one gives an error result and no tool call is counted |
| `Agent.AgentState.DispatchTools` | crates/typemach-agent/src/lib.rs:429-528 | state and move of the specification |
| `Agent.AgentState.Transition` | crates/typemach-agent/src/lib.rs:297-309 | state and move of the specification |

## Left out

- The PostgreSQL store: the same protocol as the SQL store over a connection pool.
- SQL text, schema creation and migration, JSON encoding and row decoding: tables are maps and sets, a transaction is a sequence of updates that can be undone.
- Creating sessions and generating ids, timestamps, finish data, error codes, and the texts and payloads of errors (which owner holds a busy thread, which reason an event was refused for).
- The readers `list_items`, `list_effects`, `list_entries` and `latest_entry`: filters and pages over maps that the model has.
- `SELECT` of event pages in the SQL store: the page is the one of the in-memory store over the same log.
- Heartbeats, timeouts, the task that renews leases, and a stream whose listener leaves the runner: expiry and giving up are nondeterministic in the models that need them.
- `push_live_entry`: a commit of one entry, covered by the commit results.
- The pending effects, items and entries that a bridge commit carries: TxRuntime models the buffers, the bridge state machine does not carry them along.
- The model client, HTTP, the sandbox and its helper, and the example programs.
- The agent's answer text, usage, artifacts, archives, digest and signals: they do not influence the transcript's shape or the budgets.
- Step counts of the runner are unbounded integers; the original counts in 32 bits.
- MemoryStore.MemoryRunStore.ReapStale: the order in which the map yields its runs is left open, as it is in the original.
- LockMap.MutualExclusion: each access to the lock map is atomic, as its own mutex makes it; fairness and waking of waiting tasks are not modelled.
- A task that is dropped while it waits for the store: its numbers would be neither stored nor given back, nor counted as lost in LifecycleTasks.
- SqlReap.TwoPhaseReap: the operations between the transactions are those of the in-memory store; SqlHistory.SqlTwoPhaseReap states the same for the SQL store's own.
- SqlReap.StaleStaysPut: about in-memory operations; SqlHistory.SqlStaleStaysPut states it for the SQL store.
- Lifecycle.RunLifecycle.CommitLocked: other tasks of the process stand still; LifecycleTasks has them interleave.
- Lifecycle.RunLifecycle.CommitWith: other tasks of the process stand still; LifecycleTasks has them interleave.
