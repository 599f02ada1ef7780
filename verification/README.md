# Verification of the AIOS2 execution runtime

This project models the crash-recoverable core of `runtime/` in Dafny and proves what its protocols promise, over
every interleaving of any number of workers and over a crash at every durable write.

What is modelled:

- **Stores.** The versioned compare-and-set store, execution leases with fencing tokens, the audit log, the commit
  journal (file lines, with the reader and the allocator as two separate loops), the tool intent ledger, the
  first-writer-wins result store and the reconciliation journal. Each is a class whose fields are the durable state.
  Its methods are proved against functions on values; the theorems are about those functions.
- **Protocols in the source's own form.** `Coordinator.Commit` and `Reconcile`, `Boundary.Commit`,
  `Executor.Execute`, `Worker.RecoverOne`, `ToolCoordinator.Commit` and `Loop.RunFromState` are methods with the
  source's branches and loops. Where a crash matters they carry a ghost path: the list of durable states they leave
  behind one by one.
- **Effects in fields.** Beside the functions that specify an operation stand lemmas that say what it does to the stored
  records, field by field and exactly when: `FencedTransitionIff`, `CompareAndSetIff`, `ClaimDoes`, `StepDoes`,
  `FirstOutcomeIsTheCallers`, `ApplyDoes`, `VisitDoes`, `WhatACommitLeaves`, `WhatRecoveryLeaves`, `AttemptWrites`,
  `WhatIsStored`, `OwnResultIsStored`, `CallLeaves`.
- **Step systems.** `CommitSystem`, `ToolSystem` and `RecoverySystem` interleave any number of such workers at every
  durable write, with stalls, expiries, lease and clock traffic, and death at any point, also inside a locked section.
  The methods are tied to the steps (`StepsOfApply`, `StepsOfVisit`, `StepsOfBoundary`, `StepsOfExecute`, and the
  logged run of `RecoverOne`).

A locked read-modify-write of one file is one atomic assignment. Clocks are numbers read at stated moments, which may
move backwards unless a lemma asks otherwise. That an executor's claim name is new is a condition on the action that
introduces it; direct callers of the boundary may use any name and token.

## Where the code does something a reader might not expect

Each of these is a lemma below, with the exact condition.

- A commit journal with a line that does not parse puts the reader ahead of the allocator. From then on every new
  commit is written but never read, until the file is rewritten (`AppendedIsReadable`, `GarbageHidesAllLaterCommits`).
- The journal checksum is never recomputed when one is present, so only an empty checksum is rejected; the model has a
  flag for that and claims no content integrity.
- The next rewrite of such a journal heals it by forgetting: the hidden records are gone (`MarkHealsTheGap`,
  `MarkDropsTheHidden`). An applied commit is itself forgotten by its own mark unless reader and allocator agreed on
  its number and that number followed the last accepted one; the guard against a second commit is then gone too
  (`GuardSurvivesIff`).
- A commit is recognised by a text joined with colons, so a colon in a name can make two commits one: the execution
  `job:1` failing at attempt 2 has the id of the execution `job` moving at attempt 1 to a status `2:failed`
  (`ColonsCollide`). Between records of one execution and correlation, or among names without a colon, a commit is taken
  for a duplicate exactly when attempt and target are the same (`DuplicateIff`).
- A commit along an edge the graph does not have is journalled before it is refused (`CommitRaisesIff`). Next to legal
  pending records of other executions, the next recovery pass raises at its record exactly when the record can be read
  back, leads to another status, and the pass holds the lease when it comes to it (`IllegalCommitBlocksIff`). On a
  sound disk, while only recovery acts, every later pass under the lease raises there and visits nothing behind it
  (`IllegalCommitGetsStuck`, `EveryPassRaises`). In general a visit raises exactly when the stored status is still the
  record's source and the edge is missing (`VisitRaisesIff`), and a pass exactly when one of its visits does
  (`PassRaisesIff`).
- A record can be applied twice: by a recovery pass, and then by its own commit, which had stalled before the lock
  (`AppliedTwice`). Without another write in between, a second application happens exactly when a commit that has
  journalled it takes the lock under its lease; a pass never applies it again (`AppliedAgainIff`).
- A pending record is applied exactly when the stored status is its source or its target status; one written from a
  stale copy waits until the status happens to return (`VisitActsIff`).
- A tool run can start on an intent that is already terminal, because claim and run are two steps. It cannot as long
  as the claim has not expired, and it can as soon as it has (`StartIsSafeIff`, under a clock that does not run back and
  without direct callers under the waiting executor's name).
- The answer "intent is already claimed" is not retryable, yet it is not cached, and the next call with the key can run
  the tool (`RefusedThenRun`). A non-retryable answer is final exactly when it was cached, which is exactly when it was
  not such a refusal (`AnswerIsFinalIff`).
- `mark` with a state that is not terminal reopens an unclaimed terminal intent, and is the only operation that does
  (`TerminalChangesIff`).
- `runtime/tool_execution_coordinator.py:3-5` says that a crash between the two layers is recoverable. The tool is
  indeed never run again, but no sequence of further calls and recovery passes ever commits the execution
  (`LostBetweenTheLayers`). Past the finalised intent, recovery commits the execution exactly when the crash came after
  the journal append (`RecoveredIff`).
- The coordinator's default target follows the caller's `ok`, the intent follows the stored one; the two agree exactly
  when these are equal (`DefaultTargetAgreesIff`, `TheyCanDisagree`).
- `runtime/autonomous_loop.py:80-82` says that `_transition` rejects a stale copy. It reads the store again and does
  not compare versions; a stale loop is stopped only by the graph (`StaleCopies`, `StaleLoopOverwrites`).
- `resumable` lists a pending record that has had an attempt; `resume` refuses it (`ListedAndTakenUp`). A first life
  that dies before its second event is not resumed (`CrashedLifeResumesIff`).
- A last failure without an error makes the loop raise and leaves the record running (`FirstSuccessWins`).
- One round of graph normalisation is not a closure: a mentioned state may get canonical edges that cannot be taken
  (`UsableEdges`, `OneRoundIsNotEnough`).

## Model

| member | source | states |
|---|---|---|
| StateMachine.Targets | runtime/execution_state_machine.py:32-42 | the loop collects exactly the states some configured edge leads to |
| StateMachine.Normalize | runtime/execution_state_machine.py:26-43 | a graph is rejected exactly when a target is neither configured nor canonical; otherwise configured states keep their edges and mentioned ones join with their canonical edges |
| StateMachine.CompletionIsUnique | runtime/execution_state_machine.py:41-43 | normalisation leaves no choice, whatever order the sets are walked in |
| StateMachine.UsableEdges | runtime/execution_state_machine.py:41-52 | exactly which moves a normalised graph allows: all configured edges, and canonical edges of mentioned states only towards states that are themselves configured or mentioned |
| StateMachine.DefaultIsComplete | runtime/execution_state_machine.py:11-17 | the canonical graph is its own normalisation |
| StateMachine.OneRoundIsNotEnough | runtime/execution_state_machine.py:41-52 | a concrete graph whose normalisation has a canonical edge that can never be taken |
| StateMachine.TextIsInjective | runtime/execution_state_machine.py:11-17 | a status of the model is its text: two statuses with one text are one |
| StateMachine.CanonicalMoves | runtime/execution_state_machine.py:11-17 | the moves of the canonical graph, one by one |
| ExecutionStore.Store.SaveUnlocked | runtime/execution_store.py:88-98 | the first failing check decides the error and nothing is written; otherwise exactly the one record is written, one version up |
| ExecutionStore.Store.SaveState | runtime/execution_store.py:81-81 | unvalidated save: the record as given, one version up, under any name but the empty one |
| ExecutionStore.Store.CompareAndSet | runtime/execution_store.py:82-85 | succeeds exactly on the expected version and status, behind the fence, along an edge; then stores the record as given, one version up |
| ExecutionStore.Store.MoveTo | runtime/execution_store.py:99-107 | re-reads the record, creates it only for pending, validates the edge; succeeds exactly then, with the given updates and nothing else |
| ExecutionStore.Store.MoveToFenced | runtime/execution_store.py:108-118 | succeeds exactly on the expected version and status, behind the fence, along an edge; then moves one record by the given updates, and otherwise names the check that failed |
| ExecutionStore.FencedTransitionIff | runtime/execution_store.py:108-118 | the table changes exactly if the version argument is not negative, the id not empty, the execution stored at that version and in the expected status, a token comes with a validator, a validator accepts id and token, and the graph has the edge; then one record changes, field by field as asked |
| ExecutionStore.CompareAndSetIff | runtime/execution_store.py:82-98 | the same for a compare-and-set, where an execution that is not stored counts as pending at version 0 |
| ExecutionStore.TransitionIff | runtime/execution_store.py:99-107 | the same for a plain transition, which needs the edge, or pending for a new execution |
| ExecutionStore.SaveIff | runtime/execution_store.py:88-98 | an unvalidated save changes the table exactly if the id is not empty |
| ExecutionStore.ResumableIff | runtime/execution_store.py:121-123 | listed are running and retrying executions, and pending ones that have had an attempt |
| ExecutionStore.OneStep | runtime/execution_store.py:88-118 | every operation touches at most one execution, exactly one version further, and a refused one touches none |
| ExecutionStore.WritesAreNumbered | runtime/execution_store.py:88-118 | over any history the successful writes of an execution carry consecutive versions and the last one is what is stored |
| ExecutionStore.StatusesFollowTheGraph | runtime/execution_store.py:97-97 | under validated writes consecutive stored statuses are legal successors |
| ExecutionStore.CompletedIsForever | runtime/execution_store.py:97-97 | in the canonical graph no validated history leaves `completed` |
| ExecutionStore.OneWinnerPerVersion | runtime/execution_store.py:91-91 | after a compare-and-set won a version, a second one against it is a version conflict, whatever happens in between |
| ExecutionLease.LeaseStore.Acquire | runtime/execution_lease.py:49-55 | refused exactly under another owner's live lease; a grant's token is one above the key's last token, also after release |
| ExecutionLease.LeaseStore.Renew | runtime/execution_lease.py:56-60 | extends exactly the caller's own live lease, same token |
| ExecutionLease.LeaseStore.Release | runtime/execution_lease.py:68-72 | gives up exactly the caller's lease and keeps its token on record |
| ExecutionLease.StepDoes | runtime/execution_lease.py:49-72 | when each operation changes the table, and the lease it leaves: owner, expiry and token |
| ExecutionLease.TokensNeverDecrease | runtime/execution_lease.py:49-72 | a key's token never goes down over any history and any clock |
| ExecutionLease.LaterGrantsHaveGreaterTokens | runtime/execution_lease.py:54-55 | every grant's token is greater than all earlier ones of the key |
| ExecutionLease.SupersededIsPowerless | runtime/execution_lease.py:56-72 | a superseded token can never again renew, release or own |
| ExecutionLease.OwnershipMovesForward | runtime/execution_lease.py:61-65 | a later owner has a greater token or is the same owner; at one moment there is at most one owner and token |
| ExecutionLease.ExpiredStaysExpired | runtime/execution_lease.py:56-65 | under a clock that never runs back an expired token can neither renew nor own again |
| ExecutionAudit.AuditLog.Append | runtime/execution_audit.py:42-53 | the first event of an id stays, ids remain unique |
| ExecutionAudit.AppendIsIdempotent | runtime/execution_audit.py:47-48 | appending twice is appending once |
| CommitJournal.Journal.NextSequenceUnlocked | runtime/execution_commit.py:34-41 | the allocator's loop computes one more than the highest number it can read off any line |
| CommitJournal.Journal.AppendRecord | runtime/execution_commit.py:42-46 | the record is appended with the allocator's number |
| CommitJournal.Journal.Read | runtime/execution_commit.py:47-59 | the reader's loop accepts exactly the records whose number it expects; it raises on lines whose number is no number |
| CommitJournal.Journal.Mark | runtime/execution_commit.py:92-103 | the file is rewritten from what the reader accepts, the first record of the id with the new phase |
| CommitJournal.ReaderTakesLine | runtime/execution_commit.py:47-59 | what the reader takes from one more line of each kind, and the number it expects next |
| CommitJournal.NextIsTheLeast | runtime/execution_commit.py:34-41 | the next number is past every number in the file, and no further than it has to be |
| CommitJournal.LookupFindsLast | runtime/execution_commit.py:82-83 | of several records with an id the last one is found |
| CommitJournal.PendingKeepsOrder | runtime/execution_commit.py:117-118 | the pending records are the waiting ones in their order |
| CommitJournal.ReaderAndAllocatorAgree | runtime/execution_commit.py:34-59 | over any mix of lines, accepted numbers strictly increase and the reader's cursor is never below the allocator |
| CommitJournal.AppendedIsReadable | runtime/execution_commit.py:34-59 | an appended record is readable exactly when cursor and allocator are equal, and their distance never changes by appending |
| CommitJournal.GarbageHidesAllLaterCommits | runtime/execution_commit.py:42-59 | once they differ, no number of appended commits is ever read |
| CommitJournal.TrailingGarbageOpensAGap | runtime/execution_commit.py:56-57 | a trailing line that does not parse makes them differ |
| CommitJournal.RereadKeepsSurvivors | runtime/execution_commit.py:92-97 | a rewritten file reads back as exactly the records numbered one above the record before them |
| CommitJournal.MarkThenRead | runtime/execution_commit.py:92-99 | the same for a mark of any readable journal, with one phase changed |
| CommitJournal.MarkHealsTheGap | runtime/execution_commit.py:92-97 | after a rewrite reader and allocator agree, whatever kept them apart |
| CommitJournal.MarkDropsTheHidden | runtime/execution_commit.py:92-97 | the rewritten file is the one it would be had the records behind a gap never been appended |
| CommitJournal.MarkedRecordStaysIff | runtime/execution_commit.py:42-59 | an appended and marked record is still there exactly when reader and allocator agreed on its number and it followed the last accepted one |
| CommitJournal.GapFreeReads | runtime/execution_commit.py:34-59 | a gap-free journal reads back whole, and cursor and allocator agree |
| CommitJournal.GapFreeAppend | runtime/execution_commit.py:42-46 | appending keeps it gap-free and adds one readable record |
| CommitJournal.GapFreeMark | runtime/execution_commit.py:92-99 | marking a gap-free journal changes one phase and nothing else |
| ExecutionCommit.Coordinator.Apply | runtime/execution_commit.py:85-91 | the locked section: its durable states one by one, and the error that leaves it |
| ExecutionCommit.Coordinator.Swap | runtime/execution_commit.py:78-79 | the fenced compare-and-set on the current version, with the validator repeating the lease check |
| ExecutionCommit.Coordinator.Commit | runtime/execution_commit.py:80-91 | duplicate check, journal append, locked section: reply and every durable state in between |
| ExecutionCommit.Coordinator.Visit | runtime/execution_commit.py:107-115 | one record of a recovery pass: finish, complete the audit, or leave alone |
| ExecutionCommit.Coordinator.Reconcile | runtime/execution_commit.py:104-116 | a pass visits the records pending at its start, each on what the ones before it left, until one raises |
| ExecutionCommit.VerdictIff | runtime/execution_commit.py:73-78 | the coordinator acts exactly without a lease store, or under its own live lease and token |
| CommitNames.IdTellsAttemptAndTarget | runtime/execution_commit.py:81-81 | for one execution and correlation, two commit ids are equal only if attempt and target are |
| CommitNames.IdTellsAll | runtime/execution_commit.py:81-81 | among names without a colon two ids are equal exactly if execution, attempt, target and correlation are |
| CommitNames.ColonsCollide | runtime/execution_commit.py:81-81 | two different commits with one id |
| CommitNames.IdSpelledOut | runtime/execution_commit.py:81-81 | the id of two commits, character by character |
| CommitNames.StaysWellNamed | runtime/execution_commit.py:81-103 | appending and marking keep every record under the id made of its own fields |
| CommitNames.DuplicateIff | runtime/execution_commit.py:80-84 | a commit is a duplicate exactly when a readable record is about the same execution, attempt, target and correlation, and then returns one and writes nothing; otherwise it appends its own record under the next number and returns that |
| CommitNames.LaterAttemptIsNoDuplicate | runtime/execution_commit.py:80-84 | if every readable record of the execution and correlation differs in attempt or target, the record is appended |
| CommitEffects.ApplyDoes | runtime/execution_commit.py:79-91 | exactly when the locked section writes, and what: the execution field by field, the event, the mark, in this order |
| CommitEffects.VisitDoes | runtime/execution_commit.py:104-116 | the same for a visit: an execution at the source moves, one at the target stays, and event and mark follow |
| CommitEffects.WhatACommitLeaves | runtime/execution_commit.py:79-91 | a commit that goes through: the execution, one new event and one new record marked applied, in the fields of the request, and nothing else |
| CommitEffects.WhatRecoveryLeaves | runtime/execution_commit.py:79-118 | the same in the same fields after a kill at any write and any killed passes, once a pass runs through |
| CommitEffects.RepairedExactly | runtime/execution_commit.py:104-116 | the ids a pass returns are exactly those of the records that were pending before it and are not after it |
| CommitRecovery.CrashRefinement | runtime/execution_commit.py:80-116 | a commit killed after any durable write, then any number of killed recovery passes, then one whole pass: the execution, its one audit event and its marked record are those of the uncrashed commit, one version up, and a finished execution is not resumable |
| CommitRecovery.CrashesKeepStarted | runtime/execution_commit.py:104-116 | any number of recovery passes killed at any of their writes leave the commit underway |
| CommitRecovery.PassFinishes | runtime/execution_commit.py:104-116 | one whole pass with the lease finishes any commit that is underway, at whatever stage |
| CommitRecovery.CommitGoesThroughTheStages | runtime/execution_commit.py:84-91 | the disks of a commit are the stages journalled, swapped, audited, marked, in this order |
| CommitRecovery.VisitActsIff | runtime/execution_commit.py:109-115 | a visit acts exactly when the execution exists, the lease is held and the status is the record's source or target |
| CommitRecovery.VisitIsLocal | runtime/execution_commit.py:107-115 | no write of a visit touches another execution, another commit's events or another record |
| CommitRecovery.RepairsLowerPending | runtime/execution_commit.py:104-118 | a pass that repairs k commits lowers the pending count by exactly k; it changes nothing exactly when it repairs none |
| CommitRecovery.FixpointStays | runtime/execution_commit.py:104-116 | a pass that changes nothing is the last that could |
| CommitRecovery.RecoveryReachesAFixpoint | runtime/execution_commit.py:104-118 | within the initial pending count of passes nothing changes any more, also when dependent records are out of order |
| RecoveryLimits.VisitRaisesIff | runtime/execution_commit.py:107-114 | a visit raises exactly when the stored status is the record's source, the lease is held, and the edge (or the id) is missing; nothing is written then |
| RecoveryLimits.PassRaisesIff | runtime/execution_commit.py:104-116 | a pass raises exactly when one of its visits does after visits that did not |
| RecoveryLimits.CommitRaisesIff | runtime/execution_commit.py:80-89 | exactly when a commit raises a store error; its record is then in the journal |
| RecoveryLimits.IllegalCommitBlocksIff | runtime/execution_commit.py:80-116 | exactly when an illegal commit makes the next recovery pass raise |
| RecoveryLimits.IllegalCommitGetsStuck | runtime/execution_commit.py:84-89 | on a sound disk an illegal commit leaves a record in the way |
| RecoveryLimits.StuckPassRaises | runtime/execution_commit.py:104-116 | a pass under the lease raises at that record, visits nothing behind it and leaves it there |
| RecoveryLimits.EveryPassRaises | runtime/execution_commit.py:104-116 | so does every later pass |
| RecoveryLimits.CrashedPassOfOthers | runtime/execution_commit.py:104-116 | a pass, whole or killed at any write, leaves alone every execution without a pending record |
| RecoveryLimits.GuardSurvivesIff | runtime/execution_commit.py:80-99 | exactly when an applied commit is still known to the duplicate check after its own mark |
| AppliedTwice.WritesIff | runtime/execution_commit.py:85-89 | in the step system executions change exactly by a commit or a visit whose guards hold, and then exactly one, one version up |
| AppliedTwice.AppliedAgainIff | runtime/execution_commit.py:85-114 | in any run, a record that was applied is applied again without another write in between exactly when a commit that journalled it takes the lock under its lease |
| AppliedTwice.AppliedTwice | runtime/execution_commit.py:84-114 | a run in which that happens: two versions up for one record |
| CommitSystem.StepsOfApply | runtime/execution_commit.py:85-91 | undisturbed, the system's steps leave exactly the disks the commit method writes |
| CommitSystem.StepsOfVisit | runtime/execution_commit.py:107-115 | the same for a visit of a recovery pass |
| CommitSystem.FencingOrder | runtime/execution_commit.py:73-114 | in every interleaving every lease-bound write to an execution carries the token live at that moment, and tokens along an execution's writes never go down |
| CommitSystem.AuditSoundness | runtime/execution_commit.py:85-116 | in every interleaving with crashes event ids are unique, every record no longer pending is in the log, and each event is appended while its target is the stored status |
| ToolIntents.IntentStore.Prepare | runtime/tool_intent_store.py:48-53 | the first intent of a key stays; an invalid state is refused |
| ToolIntents.IntentStore.Claim | runtime/tool_intent_store.py:54-64 | claims an open intent exactly unless another owner's claim is live or the same owner comes with another token; the claim expires one claim time from now |
| ToolIntents.IntentStore.RenewClaim | runtime/tool_intent_store.py:65-72 | only the live holder renews |
| ToolIntents.IntentStore.ReleaseClaim | runtime/tool_intent_store.py:73-78 | only the holder gives back, into a non-terminal state |
| ToolIntents.IntentStore.MarkClaimed | runtime/tool_intent_store.py:79-86 | only the live holder finalises |
| ToolIntents.IntentStore.FinalizeFromJournal | runtime/tool_intent_store.py:87-95 | finalises an open intent whoever holds it; a terminal one is returned as it is |
| ToolIntents.IntentStore.Mark | runtime/tool_intent_store.py:96-103 | marks an unclaimed intent; terminal over terminal changes nothing |
| ToolIntents.ClaimDoes | runtime/tool_intent_store.py:54-64 | exactly when a claim changes the ledger, and the owner, token, expiry and state it leaves |
| ToolIntents.RenewDoes | runtime/tool_intent_store.py:65-72 | the same for a renewal |
| ToolIntents.ReleaseDoes | runtime/tool_intent_store.py:73-78 | the same for a release |
| ToolIntents.MarkClaimedDoes | runtime/tool_intent_store.py:79-86 | the same for finalising under a claim |
| ToolIntents.FinalizeDoes | runtime/tool_intent_store.py:87-95 | the same for finalising from the journal |
| ToolIntents.MarkDoes | runtime/tool_intent_store.py:96-103 | the same for a free mark |
| ToolIntents.LedgerStaysSound | runtime/tool_intent_store.py:48-103 | in every reachable ledger an owned intent is executing with token and expiry, an unowned one has neither |
| ToolIntents.HowClaimsEnd | runtime/tool_intent_store.py:54-103 | the only ways a claim ends; in particular a live claim is never taken by another owner |
| ToolIntents.SupersededIsPowerless | runtime/tool_intent_store.py:65-86 | a pair that lost its claim can never renew, release or finalise unless it claims again |
| ToolIntents.TerminalChangesIff | runtime/tool_intent_store.py:87-103 | an operation changes a terminal intent exactly when it is a mark to a non-terminal state |
| ToolIntents.TerminalIsForever | runtime/tool_intent_store.py:48-103 | without such a mark a terminal intent never changes |
| ToolBoundary.ResultStore.Put | runtime/tool_idempotency_store.py:65-88 | the first result of a key stays and is answered; another tool is refused |
| ToolBoundary.Boundary.Commit | runtime/execution_boundary.py:26-41 | result first, then intent: reply and every durable state in between; the first outcome of a key is the caller's, field by field, the answer is the stored one, and the call commits exactly under its live claim |
| ToolBoundary.BoundarySettles | runtime/execution_boundary.py:26-41 | what one call stores, answers and finalises, for a new key and for a stored one, and that the result comes first |
| ToolBoundary.FirstOutcomeIsTheCallers | runtime/execution_boundary.py:36-41 | for a key with no stored result the caller's ok, value, error, call id, tool and arguments are stored and answered, and a live claim ends completed exactly if ok |
| ToolSystem.OutcomeAgreement | runtime/execution_boundary.py:36-41 | for any executors and crashes: stored results never change, a terminal intent shows the stored outcome, at most one call per key commits, all calls for a key get the same outcome |
| ToolSystem.StepsOfBoundary | runtime/execution_boundary.py:36-41 | undisturbed, the system's steps are the boundary method's writes and reply |
| ToolSystem.EffectBound | runtime/tool_executor.py:54-99 | the tool runs of a key are at most one plus its claim releases plus its takeovers |
| ToolSystem.TakeoversAreOfExpiredClaims | runtime/tool_intent_store.py:59-63 | a takeover replaces only a claim that had expired when the claimant read the clock |
| ToolSystem.LicenceHolds | runtime/tool_executor.py:54-76 | in every orderly run an executor about to run holds its claim until it expires |
| ToolSystem.StartIsSafeIff | runtime/tool_executor.py:64-76 | a claimant about to run is safe from a terminal intent in every continuation that does not carry the clock across its expiry, exactly as long as that expiry has not been reached |
| ToolExecutor.Executor.LookUp | runtime/tool_executor.py:49-53 | a stored result is answered and cached if it matches the call, and is a conflict otherwise |
| ToolExecutor.Executor.Claim | runtime/tool_executor.py:64-74 | the claim, or a stored result, or a refusal that caches nothing |
| ToolExecutor.Executor.Acquire | runtime/tool_executor.py:54-74 | prepare and claim with the others acting in every gap; a refusal leaves the cache alone |
| ToolExecutor.Executor.Finish | runtime/tool_executor.py:85-86 | a definite result through the boundary; ambiguous when the claim was lost |
| ToolExecutor.Executor.FinishWithout | runtime/tool_executor.py:87-94 | a definite result where a store is missing: what is left durable and answered |
| ToolExecutor.Executor.Conclude | runtime/tool_executor.py:75-99 | what a finished, failed, ambiguous or cancelled run leaves durable and cached, with any stores |
| ToolExecutor.Executor.Execute | runtime/tool_executor.py:39-99 | one call with other processes acting in every gap: stores, cache, reply, whether the tool ran and whether the claim was refused |
| ToolExecutor.UseCachesItsAnswer | runtime/tool_executor.py:46-96 | a call touches only its key's entry, never a settled one, and caches its answer unless the claim was refused |
| ToolExecutor.AnswerIsFinalIff | runtime/tool_executor.py:46-96 | a non-retryable answer is the next call's answer, whatever the others do, exactly when it was cached, and that is exactly when it was not a refusal |
| ToolExecutor.RefusedThenRun | runtime/tool_executor.py:64-76 | two calls of one executor: refused, then run |
| ToolExecutor.CacheStaysInAgreement | runtime/tool_executor.py:44-96 | every settled, unambiguous cache entry stays the stored outcome of its key |
| ToolExecutor.StoredIsAnswered | runtime/tool_executor.py:48-53 | a key with a stored result is answered from it or refused as a conflict, without a run |
| ToolExecutor.RunsUnderAClaim | runtime/tool_executor.py:64-76 | with a ledger, the tool runs only for a call that has just made the intent its own |
| ToolExecutor.SettledIsForever | runtime/tool_executor.py:46-47 | over any later calls a cached non-retryable result is returned and runs no tool |
| ToolExecutor.AnswersAreFinal | runtime/tool_executor.py:46-96 | a non-retryable answer that was no refusal is the answer of every later call with the key |
| ToolOutcomes.DefiniteResult | runtime/tool_executor.py:85-96 | a definite result of a run: on a key with no stored result it is stored, answered and cached, field by field; the answer is ambiguous exactly when the claim was lost |
| ToolOutcomes.OpenEnd | runtime/tool_executor.py:77-99 | any other end stores no result, and gives the claim back as ambiguous unless the tool raised |
| ToolOutcomes.FreshIntent | runtime/tool_executor.py:57-57 | the intent a call prepares |
| ToolOutcomes.RefusalSays | runtime/tool_executor.py:73-73 | the refusal in full |
| ToolOutcomes.RefusedMeansUnsettled | runtime/tool_executor.py:64-74 | with nobody acting between the last two looks, no call is refused over a finalised intent with a stored result |
| ToolOutcomes.StoredSays | runtime/tool_executor.py:48-53 | a stored result is the answer exactly to calls with its call id, tool and arguments |
| ToolOutcomes.KeylessRuns | runtime/tool_executor.py:42-43 | a call without a key runs the tool and touches nothing |
| ToolOutcomes.CacheDecides | runtime/tool_executor.py:46-47 | a cached result that is not retryable is the answer; otherwise the call goes as if nothing were cached |
| ToolOutcomes.OwnResultIsStored | runtime/tool_executor.py:39-96 | a whole call that runs the tool on a key nobody stores a result for: its definite result is stored, answered and cached |
| ToolOutcomes.OwnResultIsFinal | runtime/tool_executor.py:39-96 | undisturbed and in time, its intent ends as the result says and the answer is unambiguous |
| ExecutorSteps.OthersMakeAGap | runtime/tool_executor.py:45-99 | whatever the others do in a run of the step system is a gap of the executor |
| ExecutorSteps.StepsOfConclude | runtime/tool_executor.py:75-99 | the steps after the tool leave the stores the executor leaves |
| ExecutorSteps.StepsOfExecute | runtime/tool_executor.py:45-99 | with any gaps, a call runs the tool exactly when its steps get the claim; one more run is counted and the same stores are left |
| ReconciliationJournal.Journal.Begin | runtime/reconciliation_journal.py:63-67 | opens a pending record of the execution once, returns an existing one |
| ReconciliationJournal.Journal.Conclude | runtime/reconciliation_journal.py:68-74 | the first terminal record of a key stays; any other gives way to verdict and result, and keeps its execution |
| ReconciliationJournal.TerminalRecordsStay | runtime/reconciliation_journal.py:63-74 | a terminal record survives every begin and conclude, and its verdict is the evidence (runtime/recovery_policy.py:45-52) |
| ReconciliationJournal.FirstConclusionCounts | runtime/reconciliation_journal.py:60-74 | of two conclusions the first one stays, with its result and its execution, and is the evidence; an open record is none |
| RecoverySystem.JournalIsTheCommitPoint | runtime/intent_recovery_worker.py:29-83 | in every run of any workers no key gets a second terminal write, and every terminal intent shows the journal's verdict |
| RecoverySystem.LateWorkersNeverResolve | runtime/intent_recovery_worker.py:38-62 | a worker granted the lease after the record was written never calls the resolver under that grant |
| RecoverySystem.VerdictIsFinal | runtime/reconciliation_journal.py:70-74 | a written verdict never changes in any run |
| RecoverySystem.CommitIsFirst | runtime/intent_recovery_worker.py:69-75 | a worker that still owns its lease at the commit point is the first to write the record |
| RecoverySystem.InvHolds | runtime/intent_recovery_worker.py:29-83 | the invariant behind these, kept by every step of every worker |
| RecoveryWorker.Worker.Replay | runtime/intent_recovery_worker.py:42-48 | finalise from the journal under the lease |
| RecoveryWorker.Worker.WriteRecord | runtime/intent_recovery_worker.py:69-75 | the commit point: lease check, then the journal record with verdict and value; without the lease the claim is given back |
| RecoveryWorker.Worker.MarkClaimed | runtime/intent_recovery_worker.py:76-81 | the intent after the record, under the same lock: recovered exactly if the claim is held and has not expired, else a stale claim and nothing changed |
| RecoveryWorker.Worker.RecoverOne | runtime/intent_recovery_worker.py:29-83 | one call is a run of the step system; with a terminal record the resolver is not called, and while the lease lasts the intent is brought to the recorded verdict; with no verdict, a free lease, a claimable intent and enough time, the resolver's verdict is recorded, shown and answered, or the intent is given back as ambiguous; under another's lease nothing happens |
| ExecutionLoop.Loop.RunAttempts | runtime/autonomous_loop.py:58-76 | the loop over attempts performs exactly the events of the specified life up to its death |
| ExecutionLoop.Loop.Attempting | runtime/autonomous_loop.py:59-74 | the loop itself: at every turn the rest of the specified life lies ahead |
| ExecutionLoop.Loop.RunFromState | runtime/autonomous_loop.py:45-76 | the same from whatever record is stored; no version conflict, no illegal transition |
| ExecutionLoop.Loop.Resume | runtime/autonomous_loop.py:36-43 | only running and retrying records are taken up |
| ExecutionLoop.Loop.Move | runtime/autonomous_loop.py:78-88 | the transition goes through and the local copy is the stored record again |
| ExecutionLoop.Loop.Checkpoint | runtime/recovery_checkpoint.py:5-13 | the compare-and-set against the local copy goes through |
| ExecutionLoop.EveryCrashAndResume | runtime/autonomous_loop.py:36-76 | over a start and any number of crashes and resumes: versions go up by one along legal edges, the attempt never decreases nor exceeds the budget, runs are bounded per life, and what is reported is what is stored |
| ExecutionLoop.AttemptsAreSteady | runtime/autonomous_loop.py:58-76 | the same for one life, with the bound on its events |
| ExecutionLoop.FirstSuccessWins | runtime/autonomous_loop.py:60-76 | the report is that of the first success, else of the last failure, else an exception for a missing error |
| ExecutionLoop.AttemptWrites | runtime/autonomous_loop.py:59-74 | one attempt, event by event and field by field: running, the run, then completed, failed, or retrying and running with the next plan |
| ExecutionLoop.FirstWrites | runtime/autonomous_loop.py:45-58 | the first record of a first life, and the first write of a later one |
| ExecutionLoop.RefusedLives | runtime/autonomous_loop.py:36-56 | a life without a name, on a finished record, or resumed from a record that is neither running nor retrying, writes nothing and raises |
| ExecutionLoop.WhatIsStored | runtime/autonomous_loop.py:58-76 | the final record: after a first success its results and no error, after a last failure its error and the result the life started with; in both the attempt, its plan and the version |
| ExecutionLoop.WhatIsStoredBeyond | runtime/autonomous_loop.py:75-76 | a life that starts beyond the budget stores that the maximum is exceeded, and changes nothing else |
| ExecutionLoop.WhatAResumeStores | runtime/autonomous_loop.py:36-76 | the final record of a resumed life, which goes on with the stored plan at the stored attempt |
| ExecutionLoop.WhatARunStores | runtime/autonomous_loop.py:30-76 | the final record of a first life |
| ExecutionLoop.ReportedIsFinal | runtime/autonomous_loop.py:40-41 | after a reported outcome every resume is refused and does nothing |
| ExecutionLoop.LongEnough | runtime/replanning.py:17-23 | a resumed life that lives for four events per attempt left, and two, is not cut short |
| ExecutionLoop.CrashedLifeResumesIff | runtime/autonomous_loop.py:38-50 | a first life that dies is resumable exactly if it lived for at least two events |
| ExecutionLoop.ListedAndTakenUp | runtime/execution_store.py:121-123 | listed but refused are exactly the pending records that have had an attempt |
| ExecutionLoop.StaleCopies | runtime/autonomous_loop.py:78-88 | with a stale copy a checkpoint is refused; a transition goes through exactly when the new status allows it |
| ExecutionLoop.StaleLoopOverwrites | runtime/autonomous_loop.py:80-88 | a concrete stale transition that overwrites another worker's plan |
| ToolCommit.ToolCoordinator.Commit | runtime/tool_execution_coordinator.py:32-76 | boundary first, execution commit only if it committed: answer and every durable state in between |
| ToolCommit.CallLeaves | runtime/tool_execution_coordinator.py:55-76 | a call under a live claim: the first outcome stored, the intent in its state, the execution moved to the status asked for, or to the one the outcome suggests, with the stored value or error |
| ToolCommit.ClaimantIsTold | runtime/tool_execution_coordinator.py:55-76 | under a live claim the call is told the stored outcome and the reply of its execution commit |
| ToolCommit.OthersAreTold | runtime/tool_execution_coordinator.py:55-67 | without one it is told the stored outcome alone, or refused over another tool's key, and no execution is touched |
| ToolCommit.ToolFirst | runtime/tool_execution_coordinator.py:55-76 | in every crash prefix a touched execution layer stands on a final intent and an agreeing durable result; it is reached exactly by a call with a live claim |
| ToolCommit.SecondCallStaysOut | runtime/tool_execution_coordinator.py:66-67 | once the intent is final no call for the key reaches the execution layer |
| ToolCommit.OnlyPassesCount | runtime/tool_execution_coordinator.py:55-67 | once the outcome is settled, calls for the key mixed with recovery passes leave what the passes alone leave |
| ToolCommit.LostBetweenTheLayers | runtime/tool_execution_coordinator.py:3-5 | with the outcome settled and nothing pending about an execution, no sequence of calls for the key and killed or whole passes changes it |
| ToolCommit.RecoveredIff | runtime/tool_execution_coordinator.py:55-76 | past the finalised intent, whatever calls and passes come in between, a last whole pass commits the execution exactly when the crash came after the journal append |
| ToolCommit.DefaultTargetAgreesIff | runtime/tool_execution_coordinator.py:69-75 | the default target agrees with the intent exactly when the stored `ok` is the caller's |
| ToolCommit.TheyCanDisagree | runtime/tool_execution_coordinator.py:69-75 | a concrete call asked to complete an execution over a failed intent |
| ToolCommit.CrashedCallRecovers | runtime/tool_execution_coordinator.py:55-76 | a call killed after the journal append, then killed and whole recovery passes: the execution is where the uncrashed call takes it and says what the intent says |

## Left out

- File I/O, JSON, `fsync`, renames and lock files: a locked rewrite is one assignment. A torn last journal line, one without its newline, is not modelled.
- Checksums, UUIDs and ISO timestamps: the checksum is a flag for "not empty", tokens are arbitrary text, time is a number, and the digest that names an event without an id is an arbitrary function.
- The journal's quarantine copies: they are never read back.
- ExecutionStore.Store.MoveTo: the keyword updates are limited to attempt, plan, result and error, because nothing in the core passes others.
- ExecutionStore.Store.MoveToFenced: the same limit on the keyword updates.
- ExecutionCommit.Coordinator.Apply: the lease check and the validator in one locked section see the same clock reading; in the source a moment passes between them.
- ExecutionCommit.Coordinator.Reconcile: other coordinators act between its visits only in `CommitSystem`, not in the method.
- ToolExecutor.Executor.Execute: no other process acts between the two writes of the boundary inside this method; `ToolSystem` has that interleaving.
- RecoveryWorker.Worker.RecoverOne: nobody else acts while this one call is followed step by step; `RecoverySystem` has all interleavings. The intent is one read from this ledger, as `recover_all` hands it over.
- ExecutionLoop.Loop.RunFromState: the mode without a store, events, and exceptions of planner and executor, which end a life like a crash. The store must support the edges the loop uses, as the canonical graph does.
- `ReconciliationJournal.compact` and schema migration: compaction can drop evidence that is still needed; the recovery theorems hold for an uncompacted journal.
- `ToolExecutor.reconcile_intent`: it marks from the resolver's answer, outside the boundary.
- The store's own optional audit log: set to none; the coordinator's audit log is modelled.
- `recover_all`, `RecoveryPolicy.decide`, recovery queue, bootstrap and shutdown managers, the asynchronous tool recovery worker: loops over the modelled calls, or timing.
- `lease_aware_checkpoint.py` and `runtime_factory.py`: the loop passes no fencing token; the plain checkpoint is modelled.
- The web layer, event bus, observability, planning and sandbox code: no durable state of their own; a tool run is an arbitrary outcome.
