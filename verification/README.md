# Verified model of the durable runtime

This project models the parts of the runtime whose safety rests on several services rewriting the
same rows, and proves what those services keep together. The repository it describes runs components
of a topology: commands and events become deliveries, deliveries are leased to workers as numbered
attempts of an execution, a worker's proposed result is committed in one transaction, and recovery,
cancellation and reconciliation repair whatever a crash, a lost lease or an operator left behind.

## How it is organised

Every component comes in two forms. A specification on values (datatypes, functions and a step
relation) carries the theorems. Beside it stands a class with the fields, loops and in-place updates
of the source, whose methods are proved to yield exactly the specified state and result; so each
theorem about the specification is a theorem about those methods.

**The durable execution protocol.** `Board` holds executions, attempts and deliveries with the check
constraints of the schema, and the update that runs the lease trigger. `AuthorityProofs` shows that
each row update keeps the *authority invariant*: attempts of an execution are numbered 1..k, only
the last can be live, a pending attempt has all its inputs ready, an active one holds all its inputs
under its own token and expiry, ended executions have ended inputs, and no delivery is under two
executions. `Evolution` says what no update may ever do (touch an ended row, an identity column or
an active token). `RuntimeTables` has the transactions over all tables; `RuntimeSafety`,
`Publication` and `RuntimeConsistency` prove that every one keeps the whole invariant. `RuntimeRuns`
lets steps of any number of workers, operators and interleaved recoveries happen in any order, with
crashes between any two of them and with each recovery reading a clock of its own. On its runs rest
`RuntimeGuarantees` (the invariant spelled out: single authority, balanced books), `Fencing` (a
fenced attempt never changes anything durable again; exactly-once publication), `Retries` (at most
four leases, at most eleven moves of authority) and `Cancellation` (closed runs stay closed).
`Recovery` has the replay of stored submissions and the repair of the tables, and `RuntimeDatabase`
is the imperative form of all of it.

**The startup recovery.** `StartupRecovery` treats one recovery as a whole, over the tables, the
external actions, the staging rows and the disk: what each phase leaves behind, what is repaired, the
fixpoint, and exactly when it throws and in which phase. `StartupRecoveryService` is its imperative
form, and `RecoveryExample` holds two runs after which every recovery throws.

**Crash-safe artifacts.** `BlobStore` is the filesystem store, `ArtifactWorld` the run of uploads,
commits, promotions, reconcilers and crashes around it with every disk operation as its own step,
`Reconciliation` and `ReconciliationService` the repair batch, `OrphanPaging` the paged sweep and
`ReconciliationLoop` the loop of batches that the startup recovery runs.

**External actions.** `ExternalActions` runs dispatchers and reconcilers as processes against a
provider that may lose any response, `ExternalReconciliation` is the pass over uncertain ones, and
`ExternalActionService` has the service and the adapter.

**Canonical JSON.** `CanonicalJson`, `CanonicalPrinting` and `CanonicalNormalization` prove that the
canonical text decides equality; `CanonicalPrototypes` adds the prototypes that the normal form can
acquire; `ObjectGraph` proves the cycle check exact on graphs with sharing.
`Commands` builds idempotent command acceptance on that identity.

**Smaller cores.** `Projections` (bounded catch-up against the full rebuild), `LiveEvents` (the
event stream's writer and parser), `ComponentState` (versioned state), `ActivitySessions` (the
refresh server and client). `Basics` and `Ordering` are shared helpers.

## Where the code does not do what it intends

The model follows the code. For each of these there is a theorem with a concrete run or input that
shows it, and one with the exact condition.

- A worker-reported `cancelled` result writes an attempt failure that the terminal constraint
  forbids, so the commit aborts and its submission stays. From then on every startup recovery throws
  on it (`RecoveryExample.CancelledReportBlocksRecovery`). A duplicate output within one completed
  result aborts the same way, and so does a missing blob store. `Recovery.PoisonedIff` is the exact
  condition on a submission, `Recovery.RepairThrowsIff` the one on a batch.
- A startup recovery also throws on a provider error, on a staged directory that lost a file and on
  batch sizes out of range, and then its report may be missing although the tables are repaired.
  `StartupRecovery.RecoveryThrowsIff` is the exact condition, `RecoveryExample.TornRemovalBlocksRecovery`
  a run, and `StartupRecovery.RecoveryLeaves` says what has changed.
- Crash recoverability of artifacts holds in all runs if and only if an upload permission lasts at
  most one millisecond longer than the reconciler's grace period
  (`ArtifactWorld.RecoverableIffPatient`); a shorter grace period lets an orphan removal delete
  bytes that a commit then relies on (`ArtifactWorld.RaceLoses`). The shipped default satisfies the condition.
- Reconciliation rescans only the oldest `limit` committed artifacts, so one batch converges if and
  only if all later ones have their bytes already (`Reconciliation.BatchConvergesIff`, with the store
  `Reconciliation.SecondStaysMissing`).
- A crash in the middle of a removal leaves a torn directory that makes every listing over it fail
  (`BlobStore.ListingFailsIff`, with the run `BlobStore.TornStopsListing`). Nothing removes it, so
  every later startup recovery whose pages reach it throws, wherever it lies in the listing
  (`StartupRecovery.BlockedForever`, `ReconciliationLoop.LostWithinIff`, with the run
  `RecoveryExample.TornRemovalBlocksRecovery`).
- An acknowledged external action can be overwritten by another process that reconciles or
  dispatches the same action late (`ExternalActions.AcknowledgementSurvivesIff` is the exact condition,
  `ExternalActions.AcknowledgedCanFail` a run).
- A `__proto__` key disappears from canonical JSON (`CanonicalNormalization.PrototypeKeyIsLost`;
  `CanonicalNormalization.CanonicalDecides` says exactly which values print alike). When
  it is bound to an object or array, that becomes the prototype of the normal form, and normalizing
  the normal form again throws (`CanonicalPrototypes.NormIdempotentIff`,
  `CanonicalPrototypes.PrototypeObjectThrows`).
- An event inserted behind the earliest checkpoint is never counted by catch-up
  (`Projections.LateEventIsLost`, with the run `Projections.LateArrival`; `Projections.InterleavedAgreesIff`
  is the exact condition on runs).
- An event whose payload has a `nextCursor` key is taken for a checkpoint by the stream parser
  (`LiveEvents.RoundTripIff`, `LiveEvents.CursorEventIsLost`).
- A seed of another port after a component's first state write hides that write
  (`ComponentState.LatestIsLastWriteIff`, `ComponentState.SeedHidesFirstWrite`).
- The client session leaves `expired` again when a pending refresh succeeds
  (`ActivitySessions.ExpiredStaysIff`, `ActivitySessions.RefreshBringsBack`); only `stopped` is absorbing.
- Closing an activity instance revokes the sessions there are, but a join under way can insert one
  afterwards that is not revoked (`ActivitySessions.LateSessionIsNotRevoked`). They are all revoked for
  good exactly when no such join is under way at the close (`ActivitySessions.CloseRevokesIff`); in
  either case none is ever refreshed (`ActivitySessions.ClosedIsFinal`).

## Assumptions

- Each database transaction is one serializable step; row locks become exclusive access within it.
- Ids, lease tokens and session tokens never repeat (`nextId`).
- The scheduler opens an execution with attempt 1 leased; a delivery feeds at most one execution,
  and all inputs of an execution share region and correlation.
- Equal submission digests mean equal results (`SameDigestSameResult`); SHA-256 is an uninterpreted
  function, assumed collision-free only where a theorem says so.
- A recovery's `now` is a time at which its clock was read, so not in the future.
- The clocks of the database, of the services and of the filesystem agree.
- The orders in which submissions, artifacts and rows were created are parameters.
- Ports, schemas, proposed events, capabilities and the validity of proposals (a conflict with an
  existing action included) enter a commit as one truth value, and
  with the staging rows and bytes they make its `Verdict`: inadmissible (which covers unreadable
  artifacts), unavailable (a missing blob store) or admissible. The policy check and the resource
  admission enter a dispatch as truth values.
- What the provider answers for each external action, or that it throws, is a parameter of a recovery.
- The publication service promotes by row id and the others by staged reference; the two are taken
  to be equal.
- A JSON number is represented by the text it prints, with the sign of zero already dropped from it
  as printing does.

## Model

| member | source | states |
|---|---|---|
| AuthorityProofs.StartExecutionKeeps | packages/runtime-core/src/scheduling/scheduler-service.ts:374-418 | opening an execution with attempt 1 leased over its ready inputs keeps the authority invariant: attempts numbered 1..k, at most one live and it is the last, its inputs held exactly as its status says, ended executions with ended inputs, no delivery under two executions |
| AuthorityProofs.LeasePendingKeeps | packages/runtime-core/src/scheduling/scheduler-service.ts:386-418 | leasing the pending attempt under one token and expiry, with all its inputs, keeps the authority invariant |
| AuthorityProofs.ExtendMoves | packages/db/src/migrations/zzzz_20260716_attempt_delivery_lease_coherence.ts:10-30 | the trigger carries a heartbeat to every input: attempt and all inputs end under the same token and the new expiry, and no other row changes |
| AuthorityProofs.ExtendKeeps | packages/runtime-core/src/worker/worker-protocol-service.ts:414-439 | a heartbeat keeps the authority invariant |
| AuthorityProofs.CloseKeeps | packages/runtime-core/src/commit/execution-commit-service.ts:833-938 | ending the active attempt together with its execution and inputs (completed or dead-lettered) keeps the authority invariant |
| AuthorityProofs.NextNumberFree | packages/runtime-core/src/commit/execution-commit-service.ts:968-990 | in an authoritative board the number after a live attempt is never taken, so the guarded insert of a replacement always happens |
| AuthorityProofs.RetryKeeps | packages/runtime-core/src/commit/execution-commit-service.ts:968-1006 | ending an attempt and queueing the next one with all inputs ready again keeps the authority invariant, and the next attempt exists |
| AuthorityProofs.CancelAllKeeps | packages/runtime-core/src/operator/operator-command-service.ts:267-345 | cancelling whole executions with all their deliveries keeps the authority invariant |
| AuthorityProofs.AddDeliveryKeeps | packages/runtime-core/src/routing/routing-service.ts:119-156 | a routed delivery enters ready and owned by nobody, which keeps the authority invariant |
| Evolution.StartAdvances | packages/runtime-core/src/scheduling/scheduler-service.ts:374-418 | opening an execution changes no existing ended row and starts its lease after the clock |
| Evolution.MovedAdvances | packages/runtime-core/src/scheduling/scheduler-service.ts:386-418 | a move between live states keeps the token or grants the first one, and only with an expiry after the clock |
| Evolution.EndAdvances | packages/runtime-core/src/commit/execution-commit-service.ts:833-1026 | ending an attempt touches only its own execution and open inputs, and unless it completes nothing becomes completed |
| Evolution.CancelAdvances | packages/runtime-core/src/operator/operator-command-service.ts:267-345 | a cancellation changes only live rows and completes nothing |
| RuntimeSafety.CommitSound | packages/runtime-core/src/commit/execution-commit-service.ts:160-420 | from any sound state, a commit of any result (accepted, duplicate, rejected, aborted) leaves a sound state, evolves the rows, and completes something only when it reports `committed` |
| RuntimeSafety.LeaseNewSound | packages/runtime-core/src/scheduling/scheduler-service.ts:114-432 | the scheduler step keeps soundness whatever the caller asks for, and completes nothing |
| RuntimeSafety.LeaseAgainSound | packages/runtime-core/src/scheduling/scheduler-service.ts:366-432 | re-leasing a pending attempt keeps soundness |
| RuntimeSafety.HeartbeatSound | packages/runtime-core/src/worker/worker-protocol-service.ts:353-439 | a heartbeat with any identity, token and epoch keeps soundness |
| RuntimeSafety.IngressSound | packages/runtime-core/src/commands/command-service.ts:61-153 | accepting a command and routing it keeps soundness |
| RuntimeSafety.CancelRunSound | packages/runtime-core/src/operator/operator-command-service.ts:186-357 | cancelling a run, replaying it, or being refused keeps soundness; a run always covers whole executions |
| RuntimeSafety.SettleRegionSound | packages/runtime-core/src/observability/recovery-service.ts:301-381 | settling a cancelling region keeps soundness |
| RuntimeSafety.AbandonSound | packages/runtime-core/src/observability/recovery-service.ts:121-275 | abandoning an attempt keeps soundness and reports abandoned = replacement + terminal, with exactly one abandonment when the attempt was expired |
| RuntimeSafety.NoOrphans | packages/runtime-core/src/observability/recovery-service.ts:277-299 | once no active attempt is expired there is no orphaned delivery left, so exposing orphans changes nothing |
| RuntimeSafety.LeasedHasAttempt | packages/runtime-core/src/observability/recovery-service.ts:277-299 | every leased delivery belongs to an active attempt holding the very same lease |
| RuntimeSafety.ActiveRow | packages/runtime-core/src/commit/execution-commit-service.ts:249-331 | an active attempt has number 1..4, a running execution, and every input leased under its own lease |
| RuntimeSafety.AdmittedIsActive | packages/runtime-core/src/commit/execution-commit-service.ts:182-331 | a result that passes every check belongs to an active attempt of a running execution, has valid counters, and (if completed) distinct references and outputs |
| Publication.PublishResultPublishes | packages/runtime-core/src/commit/execution-commit-service.ts:841-895 | committing a completed result adds exactly one output row and one `component.output` event per staged artifact, in order, the proposed events after them, and nothing for any other attempt |
| Publication.InsertSequenced | packages/runtime-core/src/events/event-service.ts:13-70 | an insert keeps every stream numbered 1..n with the counter at n+1 |
| Publication.PublishResultSequenced | packages/runtime-core/src/commit/execution-commit-service.ts:841-895 | publishing a whole result keeps every stream gap-free |
| Publication.UsageRowsTotal | packages/runtime-core/src/commit/execution-commit-service.ts:808-831 | the ledger rows written for a result sum, per counter, to what the result reported |
| Publication.AccountedByCommit | packages/runtime-core/src/commit/execution-commit-service.ts:363-388 | a commit keeps the ledger total of each counter equal to the sum of that counter over the committed submissions |
| Publication.AccountedKept | packages/runtime-core/src/commit/execution-commit-service.ts:182-213 | steps that commit nothing, duplicates included, keep that equality |
| Publication.OneWinner | packages/runtime-core/src/commit/execution-commit-service.ts:833-910 | an execution has at most one completed attempt |
| Publication.WinnerKept | packages/runtime-core/src/commit/execution-commit-service.ts:833-1026 | the completed attempt stays the last of its execution through every step |
| RuntimeConsistency.CommitConsistent | packages/runtime-core/src/commit/execution-commit-service.ts:160-420 | a commit keeps the whole invariant: soundness, one winner, valid submissions, publication by winners only, gap-free streams, accounted ledger |
| RuntimeConsistency.HandoffConsistent | packages/runtime-core/src/worker/worker-protocol-service.ts:734-839 | recording a submission keeps the whole invariant |
| RuntimeConsistency.DiscardConsistent | packages/runtime-core/src/commit/execution-commit-service.ts:388-399 | deleting an uncommitted submission keeps the whole invariant |
| RuntimeConsistency.CancelRunConsistent | packages/runtime-core/src/operator/operator-command-service.ts:186-357 | cancelling a run keeps the whole invariant |
| RuntimeConsistency.AbandonConsistent | packages/runtime-core/src/observability/recovery-service.ts:121-275 | abandoning an attempt keeps the whole invariant |
| RuntimeConsistency.SettleRegionConsistent | packages/runtime-core/src/observability/recovery-service.ts:301-381 | settling a region keeps the whole invariant |
| RuntimeConsistency.LeaseNewConsistent | packages/runtime-core/src/scheduling/scheduler-service.ts:50-432 | the scheduler step keeps the whole invariant |
| RuntimeConsistency.HeartbeatConsistent | packages/runtime-core/src/worker/worker-protocol-service.ts:414-439 | a heartbeat keeps the whole invariant |
| RuntimeConsistency.IngressConsistent | packages/runtime-core/src/commands/command-service.ts:41-153 | accepting a command keeps the whole invariant |
| RuntimeRuns.InitialReliable | packages/db/src/migrations/001_initial.ts:21-45 | empty tables with any regions and routes satisfy the invariant of runs |
| RuntimeRuns.RunReliable | packages/runtime-core/src/commit/execution-commit-service.ts:160-420 | the invariant holds after every finite sequence of leases, heartbeats, hand-offs, commits, separate deletes, cancellations, region changes, recovery steps of any number of interleaved recoveries, crashes and passing time |
| RuntimeRuns.RunEvolves | packages/runtime-core/src/commit/execution-commit-service.ts:182-213 | over any run no ended row, identity column or active token ever changes |
| RuntimeRuns.ExpiredOnlyShrinks | packages/runtime-core/src/observability/recovery-service.ts:121-133 | leases start in the future only, so no attempt becomes expired at a time already passed |
| RuntimeRuns.SweepExposesNothing | packages/runtime-core/src/observability/recovery-service.ts:277-299 | in every reachable state, exposing orphans after a finished abandonment sweep touches no row, so never an input of a live attempt |
| RuntimeGuarantees.SingleAuthority | packages/db/src/migrations/001_initial.ts:32-37 | in every reachable state attempts are numbered 1..k with k at most 4; exactly a running execution has a live attempt, which is alone and number k; a pending attempt has all inputs ready, an active one all inputs leased under its own token and expiry; a completed execution has all inputs completed, a failed one all dead-lettered or cancelled |
| RuntimeGuarantees.BooksBalance | packages/runtime-core/src/commit/execution-commit-service.ts:363-388 | in every reachable state the ledger total of each counter is the sum over the committed submissions, each counted once, and each stream holds exactly 1..n with n+1 next |
| RuntimeGuarantees.RunArtifacts | packages/runtime-core/src/commit/execution-commit-service.ts:616-656 | over any run an artifact row keeps the size, schema and media type it was first recorded with |
| RuntimeGuarantees.GatheredOnce | packages/runtime-core/src/commit/execution-commit-service.ts:731-758 | a result publishes one artifact for each reference that its outputs, its state or its proposals name, the outputs first, and no others |
| RuntimeGuarantees.ConflictedIff | packages/runtime-core/src/commit/execution-commit-service.ts:624-634 | locking or creating one artifact after the other fails exactly when some staged artifact disagrees with the row of its digest or with another artifact of the same result |
| RuntimeGuarantees.UnappliedRests | packages/runtime-core/src/commit/execution-commit-service.ts:388-399 | a commit that is rejected, a duplicate or rolled back changes no table but its own uncommitted submission |
| Fencing.FencedRefused | packages/runtime-core/src/commit/execution-commit-service.ts:182-213 | a result for an attempt that ended, or whose region or execution left its epoch, is rejected or a duplicate and changes no row, whatever token, epoch and digest it carries |
| Fencing.FencedIdle | packages/runtime-core/src/worker/worker-protocol-service.ts:353-439 | a heartbeat or a new submission for such an attempt changes nothing |
| Fencing.RunFenced | packages/runtime-core/src/commit/execution-commit-service.ts:422-460 | a fenced attempt stays fenced over any run and its outputs and events stay as they are |
| Fencing.FencedForever | packages/runtime-core/src/commit/execution-commit-service.ts:388-399 | after any later run a commit with that attempt changes nothing durable except deleting its own uncommitted submission of the same digest |
| Fencing.ConflictErasesNothing | packages/runtime-core/src/commit/execution-commit-service.ts:188-213 | a commit with another digest than the recorded one is rejected and changes no row, the recorded submission included |
| Fencing.RecordedSurvives | packages/runtime-core/src/commit/execution-commit-service.ts:388-399 | over any run a recorded submission is lost only after a commit of its own attempt and digest was rejected, by the delete that follows |
| Fencing.RunRecords | packages/runtime-core/src/commit/execution-commit-service.ts:344-362 | a committed submission never changes again |
| Fencing.RunEpochs | packages/runtime-core/src/observability/recovery-service.ts:311-377 | region epochs never fall |
| Fencing.RepeatIsDuplicate | packages/runtime-core/src/commit/execution-commit-service.ts:188-200 | after an applied result and any further run, repeating it returns `duplicate` and changes nothing |
| Fencing.ExactlyOnce | packages/runtime-core/src/commit/execution-commit-service.ts:833-938 | in every reachable state an execution has at most one completed attempt, all its outputs come from that attempt, and its events are exactly one per staged artifact of the committed result |
| Fencing.AppliedIff | packages/runtime-core/src/commit/execution-commit-service.ts:182-331 | the exact condition for a result to be applied: entitled attempt, no conflicting or committed submission, admissible, not reported cancelled, and for a completed result a blob store where one is needed, distinct outputs and no artifact recorded with other metadata |
| Fencing.AppliedUnderAuthority | packages/runtime-core/src/commit/execution-commit-service.ts:422-460 | an applied result came from the active attempt under its own unexpired token, for a running execution and region of its epoch, with every input leased under that token (expiry waived only for replays) |
| Retries.AtMostFourLeases | packages/runtime-core/src/commit/execution-commit-service.ts:18 | in any run the number of lease grants for one execution never exceeds four |
| Retries.GrantCounts | packages/runtime-core/src/scheduling/scheduler-service.ts:386-418 | every lease grant raises the execution's lease count, which never exceeds four |
| Retries.BudgetFalls | packages/runtime-core/src/commit/execution-commit-service.ts:968-1006 | the measure built from attempt number and stage never rises and falls strictly with each lease, commit, abandonment or cancellation of the execution |
| Retries.AuthorityMovesRarely | packages/runtime-core/src/observability/recovery-service.ts:193-261 | in any run the authority over one execution moves at most eleven times |
| Cancellation.CancelCloses | packages/runtime-core/src/operator/operator-command-service.ts:267-345 | an accepted cancellation ends every live delivery, execution and attempt of the run, and every other row, completed ones included, is as before |
| Cancellation.ClosedRunStaysClosed | packages/runtime-core/src/operator/operator-command-service.ts:186-357 | over any run in which no new command enters the run, it stays closed and nothing more is published for its attempts |
| Cancellation.ClosedRunRefuses | packages/runtime-core/src/commit/execution-commit-service.ts:201-213 | any later result for a closed run is rejected or a duplicate and changes no row |
| Cancellation.CancelledForGood | packages/runtime-core/src/operator/operator-command-service.ts:359-401 | after any later run the run is still closed, repeating the same request changes no row, and the same key with another request is a conflict |
| Cancellation.CommitInto | packages/runtime-core/src/commit/execution-commit-service.ts:841-872 | an applied result routes deliveries only into the region and correlation of its own execution |
| Recovery.ReplayOne | packages/runtime-core/src/observability/recovery-service.ts:89-119 | replaying one pending submission decides it by its own rows and the artifact rows there are: committed if it can be, otherwise rejected and deleted or aborted with nothing changed, and the rows of no other submission, attempt or execution are touched |
| Recovery.ReplaySettles | packages/runtime-core/src/observability/recovery-service.ts:89-119 | replaying a batch settles each submission by its fate at its turn (its own rows as at the start, with the artifact rows that earlier submissions of the batch left), and throws exactly at the first one that is poisoned then |
| Recovery.CompatibleMeetsFate | packages/runtime-core/src/commit/execution-commit-service.ts:624-634 | where no earlier result of the batch records one of its digests with other metadata, the fate at its turn is the fate at the start |
| Recovery.AbandonsEach | packages/runtime-core/src/observability/recovery-service.ts:121-275 | the abandonment loop abandons every listed attempt, with abandoned = replacement + terminal, and creates no newly expired one |
| Recovery.RepairMends | packages/runtime-core/src/observability/recovery-service.ts:121-381 | the phases over the tables, unless the replay throws, leave no attempt expired at `now`, no orphaned delivery and no cancelling region, and count abandoned = replacement + terminal and committed + rejected = scanned |
| Recovery.MetIsCommitted | packages/runtime-core/src/observability/recovery-service.ts:89-119 | a batched submission that can commit at its turn is committed, and its attempt is not left to be executed again |
| Recovery.RepairEmpties | packages/runtime-core/src/observability/recovery-service.ts:79-119 | a batch that holds all pending submissions leaves none pending |
| Recovery.RepairThrowsIff | packages/runtime-core/src/observability/recovery-service.ts:89-119 | the replay throws if and only if a submission of the batch is poisoned at its turn |
| Recovery.PoisonedIff | packages/runtime-core/src/commit/execution-commit-service.ts:940-966 | a pending submission is poisoned exactly when its attempt is still entitled, nothing makes it inadmissible, and either it is completed while the blob store that its artifacts need is missing, or its references are distinct and it reports `cancelled` or is completed with one output twice and no artifact conflict |
| Recovery.PoisonStays | packages/runtime-core/src/observability/recovery-service.ts:89-119 | a replay that throws leaves the poisoned submission pending and still poisoned |
| StartupRecovery.ReachableStarts | packages/runtime-core/src/observability/recovery-service.ts:77-119 | every state that runs of the protocol, of the external actions and of the artifacts can reach meets what the theorems on recovery ask of its start |
| StartupRecovery.ReplayTables | packages/runtime-core/src/commit/execution-commit-service.ts:401-418 | the replay with its promotions does to the tables what the replay of the tables does under the verdicts that staging rows, disk and blob store give at each turn |
| StartupRecovery.RecoveryThrowsIff | packages/runtime-core/src/observability/recovery-service.ts:77-453 | a startup recovery throws if and only if a batched submission is poisoned at its turn, or the external phase gets no limit or its provider throws for a selected action, or the artifact phase refuses its options or its pages reach a directory that lost a file, or the projections refuse their batch size; and it ends in the first of these phases |
| StartupRecovery.RecoveryLeaves | packages/runtime-core/src/observability/recovery-service.ts:277-453 | which tables have changed when it ends in which phase: thrown in the replay, what was replayed before; thrown among actions or artifacts, the repaired tables without the report; later, with the report; and the actions as the external pass left them |
| StartupRecovery.RecoveryRepairs | packages/runtime-core/src/observability/recovery-service.ts:77-453 | a recovery at `now` that gets past the replay, thrown later or not, leaves no attempt expired at `now`, no orphaned delivery and no cancelling region, and its counts add up |
| StartupRecovery.CommittableIsCommitted | packages/runtime-core/src/observability/recovery-service.ts:89-119 | a batched submission that can commit, and with whose artifacts no earlier one of the batch disagrees, is committed and not executed again, even when its lease has expired |
| StartupRecovery.RecoveryFixpoint | packages/runtime-core/src/observability/recovery-service.ts:77-453 | when all pending submissions fit the batch, a second recovery at the same time changes the tables by its own report alone, and not even that if it throws among actions or artifacts, and counts zero of everything |
| StartupRecovery.LostFileThrowsIff | packages/runtime-core/src/observability/recovery-service.ts:455-504 | where nothing else throws and the pages reach all staged objects, a recovery throws if and only if some staged directory has lost a file |
| StartupRecovery.RecoverOrderly | packages/runtime-core/src/observability/recovery-service.ts:77-453 | however a recovery ends, consistent tables, external actions and disk stay so: the next one can start once its queries are answered |
| StartupRecovery.BlockedForever | packages/runtime-core/src/observability/recovery-service.ts:455-504 | no number of recoveries removes a staged directory that lost a file or puts anything before it, and each one with a blob store whose pages reach it (fewer staged ids before it than the pages hold) throws |
| StartupRecoveryService.StartupService.LinkRows | packages/runtime-core/src/commit/execution-commit-service.ts:654-656 | refines the linking of staging rows |
| StartupRecoveryService.StartupService.Promote | packages/runtime-core/src/commit/execution-commit-service.ts:401-418 | refines the promotions after a commit, which go on behind an error |
| StartupRecoveryService.StartupService.SubmitStored | packages/runtime-core/src/commit/execution-commit-service.ts:401-418 | refines the commit of a stored submission with the links and promotions of all its artifacts, request artifacts included, on tables, staging rows and disk |
| StartupRecoveryService.StartupService.ReplaySubmissions | packages/runtime-core/src/observability/recovery-service.ts:102-119 | refines the replay loop with its counters, which stops at the first throw |
| StartupRecoveryService.StartupService.ReconcileArtifacts | packages/runtime-core/src/observability/recovery-service.ts:455-504 | refines the loop of artifact batches with its cursor and its cap of 100 |
| StartupRecoveryService.StartupService.Run | packages/runtime-core/src/observability/recovery-service.ts:77-453 | the whole recovery yields exactly the tables, external actions, staging rows, disk, counts and end that the results above speak about |
| RecoveryExample.StuckConsistent | packages/runtime-core/src/commit/execution-commit-service.ts:955-966 | a worker that reports `cancelled` leads to a consistent state |
| RecoveryExample.CancelledReportBlocksRecovery | packages/db/src/migrations/999_task8_terminal_constraints.ts:14-16 | in that state every recovery whose batch is not empty throws and changes nothing, however often it runs and although the attempt has expired |
| RecoveryExample.CrashedPromotionTears | packages/artifact-store/src/index.ts:243-342 | upload, commit, promotion and a crash in the middle of its removal lead to a committed object beside a staged directory without its data |
| RecoveryExample.TornPlantOrderly | packages/artifact-store/src/index.ts:243-342 | with the tables that record the artifact, that is a state a recovery can meet |
| RecoveryExample.TornRemovalBlocksRecovery | packages/runtime-core/src/observability/recovery-service.ts:388-393 | from there every recovery with a blob store throws among the artifacts without any poisoned submission, its report is never inserted, and the directory stays |
| RuntimeDatabase.ValidateUsage | packages/runtime-core/src/commit/execution-commit-service.ts:462-486 | accepts exactly the five canonical counters with safe non-negative integers |
| RuntimeDatabase.ReferencesOnce | packages/runtime-core/src/commit/execution-commit-service.ts:295-342 | the `seen` loop accepts exactly the results without a repeated reference |
| RuntimeDatabase.GatherArtifacts | packages/runtime-core/src/commit/execution-commit-service.ts:697-758 | the loop over the proposals publishes a request artifact unless its reference has been published already |
| RuntimeDatabase.ArtifactsAgree | packages/runtime-core/src/commit/execution-commit-service.ts:624-634 | the loop over staged artifacts fails exactly when one conflicts |
| RuntimeDatabase.Database.constructor | packages/db/src/migrations/001_initial.ts:21-56 | starts with empty tables |
| RuntimeDatabase.Database.AllocateSequence | packages/runtime-core/src/events/event-service.ts:13-22 | returns the next number of the stream and advances only its counter |
| RuntimeDatabase.Database.InsertEvent | packages/runtime-core/src/events/event-service.ts:24-70 | refines the specified insert on all tables |
| RuntimeDatabase.Database.RouteEvent | packages/runtime-core/src/routing/routing-service.ts:119-156 | one ready delivery per connection, nothing else |
| RuntimeDatabase.Database.AcceptCommand | packages/runtime-core/src/commands/command-service.ts:61-153 | refines the specified ingress on all tables |
| RuntimeDatabase.Database.UpdateAttempt | packages/db/src/migrations/zzzz_20260716_attempt_delivery_lease_coherence.ts:10-30 | an attempt update with its trigger rewrites exactly the leased inputs under the new token |
| RuntimeDatabase.Database.Heartbeat | packages/runtime-core/src/worker/worker-protocol-service.ts:414-439 | refines the specified heartbeat, for any caller |
| RuntimeDatabase.Database.WriteResourceUsage | packages/runtime-core/src/commit/execution-commit-service.ts:808-831 | appends the five ledger rows |
| RuntimeDatabase.Database.PublishStaged | packages/runtime-core/src/commit/execution-commit-service.ts:841-872 | refines publication of the staged artifacts on all tables |
| RuntimeDatabase.Database.AnnounceProposed | packages/runtime-core/src/commit/execution-commit-service.ts:885-895 | refines publication of the proposed events |
| RuntimeDatabase.Database.PublishResult | packages/runtime-core/src/commit/execution-commit-service.ts:841-895 | refines both together |
| RuntimeDatabase.Database.Complete | packages/runtime-core/src/commit/execution-commit-service.ts:833-938 | refines completion on all tables, which `ExactlyOnce` and `CommitConsistent` are about |
| RuntimeDatabase.Database.CollectArtifacts | packages/runtime-core/src/commit/execution-commit-service.ts:635-650 | gives each digest without an artifact row the one of its first staged artifact |
| RuntimeDatabase.Database.Requeue | packages/runtime-core/src/commit/execution-commit-service.ts:968-1006 | inserts the next attempt exactly when its number is free and releases the inputs |
| RuntimeDatabase.Database.DeadLetter | packages/runtime-core/src/commit/execution-commit-service.ts:1007-1025 | fails the execution and dead-letters its inputs |
| RuntimeDatabase.Database.FailOrRetry | packages/runtime-core/src/commit/execution-commit-service.ts:940-1026 | refines failure handling and its outcome on all tables |
| RuntimeDatabase.Database.Check | packages/runtime-core/src/commit/execution-commit-service.ts:182-331 | returns the first refusal in the order of the source and changes nothing |
| RuntimeDatabase.Database.CommitTransaction | packages/runtime-core/src/commit/execution-commit-service.ts:160-386 | refines the commit transaction and its outcome on all tables |
| RuntimeDatabase.Database.Commit | packages/runtime-core/src/commit/execution-commit-service.ts:160-420 | refines the commit with its delete after a rejection |
| RuntimeDatabase.Database.CancelRows | packages/runtime-core/src/operator/operator-command-service.ts:267-345 | refines the three cancelling updates as one |
| RuntimeDatabase.Database.CancelRun | packages/runtime-core/src/operator/operator-command-service.ts:186-357 | refines the cancellation and its outcome |
| RuntimeDatabase.Database.AbandonExpired | packages/runtime-core/src/observability/recovery-service.ts:134-275 | refines abandonment and its counts |
| RuntimeDatabase.Database.ExposeOrphans | packages/runtime-core/src/observability/recovery-service.ts:277-299 | refines the exposure statement and counts the orphans |
| RuntimeDatabase.Database.SettleRegion | packages/runtime-core/src/observability/recovery-service.ts:311-377 | refines settling a region |
| RuntimeDatabase.Database.ReportRecovery | packages/runtime-core/src/observability/recovery-service.ts:395-432 | refines the report event |
| RuntimeDatabase.Database.AbandonEach | packages/runtime-core/src/observability/recovery-service.ts:134-275 | refines the abandonment loop with its totals |
| RuntimeDatabase.Database.SettleEach | packages/runtime-core/src/observability/recovery-service.ts:301-381 | refines the settling loop |
| RuntimeDatabase.Database.RepairRest | packages/runtime-core/src/observability/recovery-service.ts:121-381 | refines the phases behind the replay with their counts |
| BlobStore.WriteOnce | packages/artifact-store/src/index.ts:243-342 | over any interleaving of stage, promote, remove and crash steps a published committed object never changes, its bytes match its digest and size, and it sits under its own digest |
| BlobStore.StagedOnce | packages/artifact-store/src/index.ts:163-234 | a valid staged object stays as it is until it is removed or torn |
| BlobStore.StageReceipt | packages/artifact-store/src/index.ts:163-234 | a receipt states the measured digest and size of the bytes now staged and meets every expectation; a failed stage leaves the disk alone |
| BlobStore.PromoteRetries | packages/artifact-store/src/index.ts:243-342 | re-running a promotion interrupted anywhere ends with the same receipt, committed bytes present and staged bytes absent |
| BlobStore.PromoteFailsCleanly | packages/artifact-store/src/index.ts:243-342 | a failing promotion leaves the disk as it was |
| BlobStore.PromotesIff | packages/artifact-store/src/index.ts:243-342 | the exact condition for a promotion to succeed |
| BlobStore.ListingFailsIff | packages/artifact-store/src/index.ts:369-404 | on every disk that stage, promote, tear and remove steps can reach, a listing fails if and only if its limit is not 1 to 1000 or some directory in its page has lost its data or its metadata |
| BlobStore.TornStopsListing | packages/artifact-store/src/index.ts:369-404 | a concrete run (stage, promote, crash in the removal) after which every first page fails, whatever happens short of a removal of that directory, although the object is committed |
| BlobStore.DigestAccumulator.Update | packages/artifact-store/src/index.ts:117-133 | extends the bytes seen by the chunk |
| BlobStore.DigestAccumulator.Result | packages/artifact-store/src/index.ts:117-133 | measures exactly the bytes seen |
| BlobStore.FilesystemStore.StageStream | packages/artifact-store/src/index.ts:163-234 | staging in chunks equals staging the whole bytes |
| BlobStore.FilesystemStore.PromoteStaged | packages/artifact-store/src/index.ts:243-342 | refines the promotion on disk and receipt |
| BlobStore.FilesystemStore.ListPage | packages/artifact-store/src/index.ts:369-404 | returns the verified page of the sorted names behind the cursor, or its first error |
| ArtifactWorld.StepSafe | packages/runtime-core/src/commit/execution-commit-service.ts:616-671 | every single step of upload, commit, promotion, mark-promoted, reconcile and crash keeps the invariant |
| ArtifactWorld.SafeRecovers | packages/runtime-core/src/artifacts/artifact-reconciliation-service.ts:138-186 | the invariant makes every committed artifact recoverable: committed bytes hashing to its digest, or a linked staged row whose bytes hash to it |
| ArtifactWorld.AlwaysRecoverable | packages/runtime-core/src/commit/execution-commit-service.ts:401-418 | every committed artifact is recoverable in every reachable state of any run |
| ArtifactWorld.StepKeepsBytes | packages/runtime-core/src/artifacts/artifact-reconciliation-service.ts:206-227 | no step takes the staged bytes of a row unless its artifact is already committed on disk |
| ArtifactWorld.RaceLoses | packages/runtime-core/src/artifacts/artifact-reconciliation-service.ts:206-227 | when uploads may stay authorized longer than the grace period, an orphan removal can delete bytes a commit then relies on |
| ArtifactWorld.RecoverableIffPatient | packages/runtime-core/src/artifacts/artifact-reconciliation-service.ts:98-229 | all runs are recoverable if and only if the upload permission is at most one millisecond longer than the grace period |
| ArtifactWorld.DefaultsArePatient | packages/runtime-core/src/artifacts/artifact-reconciliation-service.ts:206-227 | the shipped defaults satisfy that condition for every permitted lease |
| Reconciliation.MendsOrReports | packages/runtime-core/src/artifacts/artifact-reconciliation-service.ts:138-186 | a non-dry pass leaves committed bytes for every scanned artifact it does not report unresolved, and never changes committed bytes |
| Reconciliation.MendsAll | packages/runtime-core/src/artifacts/artifact-reconciliation-service.ts:138-186 | in a sound state nothing scanned stays unresolved |
| Reconciliation.SafeIsSound | packages/runtime-core/src/artifacts/artifact-reconciliation-service.ts:138-186 | every reachable state with a patient reconciler is sound |
| Reconciliation.FullPassMendsAll | packages/runtime-core/src/artifacts/artifact-reconciliation-service.ts:138-186 | so after any run a full pass gives every artifact its committed bytes |
| Reconciliation.BatchesIgnoreLater | packages/runtime-core/src/artifacts/artifact-reconciliation-service.ts:138-142 | no number of batches mends an artifact beyond the oldest `limit` |
| Reconciliation.SecondStaysMissing | packages/runtime-core/src/artifacts/artifact-reconciliation-service.ts:138-142 | with two staged artifacts and a limit of one, no number of batches gives the second its committed bytes |
| Reconciliation.BatchConvergesIff | packages/runtime-core/src/artifacts/artifact-reconciliation-service.ts:138-142 | one batch leaves committed bytes for all artifacts exactly when those beyond `limit` had them already |
| OrphanPaging.PagesAddUp | packages/runtime-core/src/observability/recovery-service.ts:482-503 | following the cursor while visited orphans disappear: either no directory within the cap has lost a file, and the pages visit the listing once and in order up to the cap; or the sweep throws at the page of the first such directory, with exactly the pages before it swept |
| OrphanPaging.PagedTotals | packages/runtime-core/src/observability/recovery-service.ts:482-503 | when the cap is not hit the sweep throws if and only if some staged directory has lost a file, and otherwise its orphan counts and the remaining objects are those of one pass over the whole listing |
| OrphanPaging.SweepCounts | packages/runtime-core/src/artifacts/artifact-reconciliation-service.ts:206-227 | a sweep counts and removes exactly the orphans in its page |
| ReconciliationLoop.MendAllSettles | packages/runtime-core/src/artifacts/artifact-reconciliation-service.ts:138-186 | one pass of mending never throws on an honest disk, leaves directories that lost a file alone, and brings each scanned artifact to rest: mending it again changes nothing |
| ReconciliationLoop.LostWithinIff | packages/artifact-store/src/index.ts:369-404 | the pages reach a directory that lost a file if and only if fewer staged ids precede some such directory than the pages hold |
| ReconciliationLoop.LoopPages | packages/runtime-core/src/observability/recovery-service.ts:482-503 | the loop of whole batches is the first batch's mending followed by the paged sweep: later batches mend nothing more |
| ReconciliationLoop.ReconcileThrowsIff | packages/runtime-core/src/observability/recovery-service.ts:455-504 | the loop throws if and only if it refuses its options or, on the disk as mended, its pages reach a directory that lost a file |
| ReconciliationLoop.ReconcileThrowsIfAnyLost | packages/runtime-core/src/observability/recovery-service.ts:455-504 | if its pages reach all staged objects, that is if and only if some staged directory has lost a file |
| ReconciliationLoop.ReconcileKeepsLost | packages/runtime-core/src/observability/recovery-service.ts:455-504 | whatever the options, the loop stages nothing and neither removes nor repairs a directory that lost a file |
| ReconciliationService.Service.FindStaged | packages/db/src/repositories/artifact-repository.ts:34-41 | finds the first linked staged row by creation order |
| ReconciliationService.Service.MendArtifact | packages/runtime-core/src/artifacts/artifact-reconciliation-service.ts:139-186 | refines the mending of one artifact with its report |
| ReconciliationService.Service.MendArtifacts | packages/runtime-core/src/artifacts/artifact-reconciliation-service.ts:138-186 | refines the loop over artifacts |
| ReconciliationService.Service.AbandonRows | packages/runtime-core/src/artifacts/artifact-reconciliation-service.ts:188-204 | refines the abandonment of stale rows |
| ReconciliationService.Service.SweepObjects | packages/runtime-core/src/artifacts/artifact-reconciliation-service.ts:206-227 | refines the orphan sweep with its counts |
| ReconciliationService.Service.ListCandidates | packages/db/src/repositories/artifact-repository.ts:153-166 | lists exactly the stale unlinked staged rows, in order |
| ReconciliationService.Service.ListPage | packages/artifact-store/src/index.ts:369-404 | reads the next page of staged objects |
| ReconciliationService.Service.RunBatch | packages/runtime-core/src/artifacts/artifact-reconciliation-service.ts:98-229 | one batch yields exactly the state, report and cursor the results above speak about |
| ExternalActions.PrepareValid | packages/runtime-core/src/external-actions/external-action-service.ts:180-280 | preparing a dispatch keeps statuses of actions, attempts and approvals in correspondence and moves no status backwards |
| ExternalActions.PersistValid | packages/runtime-core/src/external-actions/external-action-service.ts:317-374 | persisting an outcome keeps the correspondence and moves no status backwards, whichever process persists it |
| ExternalActions.DecideValid | packages/runtime-core/src/operator/operator-command-service.ts:102-184 | a decision keeps the correspondence |
| ExternalActions.RunConsistent | packages/runtime-core/src/external-actions/external-action-service.ts:85-178 | the correspondence holds after any run of proposals, decisions, dispatchers, reconcilers and crashes |
| ExternalActions.RunEvolves | packages/runtime-core/src/external-actions/external-action-service.ts:317-374 | no path returns to `authorized`, and `reconciled`, `failed`, `denied` and `cancelled` are absorbing |
| ExternalActions.DispatchedAtMostOnce | packages/runtime-core/src/external-actions/external-action-service.ts:85-99 | over any run the provider is dispatched and asked to create at most once per action, at most one attempt row exists (numbered 1), it exists exactly when the action was sent, and its status corresponds |
| ExternalActions.ReconcilerCreatesNothing | packages/runtime-core/src/external-actions/github-draft-pr-adapter.ts:131-158 | a reconciling process never sends a create request |
| ExternalActions.DecidedOnce | packages/runtime-core/src/operator/operator-command-service.ts:102-184 | after an accepted decision and any run, no second decision changes a row; the same request is a replay or an idempotency conflict, another one not pending or a conflict |
| ExternalActions.SentWasApproved | packages/runtime-core/src/external-actions/external-action-service.ts:180-280 | an action that needs approval is authorized or sent only if it was approved, and a rejected one is denied |
| ExternalActions.AcknowledgedCanFail | packages/runtime-core/src/external-actions/external-action-service.ts:317-374 | a concrete run in which an acknowledged action is overwritten as failed although the draft exists |
| ExternalActions.StepRecords | packages/runtime-core/src/external-actions/external-action-service.ts:317-374 | a step changes an acknowledged or reconciled action only by persisting a result for it, and a reconciled one not at all |
| ExternalActions.AcknowledgementSurvivesIff | packages/runtime-core/src/external-actions/external-action-service.ts:101-147 | over any run an acknowledged action stays acknowledged or reconciled if and only if no other result for it is persisted before a reconciled one |
| ExternalActions.ReconciledIff | packages/runtime-core/src/external-actions/external-action-service.ts:101-147 | and then it ends reconciled if and only if some step persisted that |
| ExternalActionService.Service.MaxNumber | packages/runtime-core/src/external-actions/external-action-service.ts:247-256 | the highest attempt number of the action, zero if none |
| ExternalActionService.Service.PrepareDispatch | packages/runtime-core/src/external-actions/external-action-service.ts:180-280 | refines the preparation and its outcome |
| ExternalActionService.Service.PersistResult | packages/runtime-core/src/external-actions/external-action-service.ts:317-374 | refines persisting an outcome; on a state conflict nothing changes |
| ExternalActionService.Service.DecideApproval | packages/runtime-core/src/operator/operator-command-service.ts:102-184 | refines the decision and its outcome |
| ExternalReconciliation.UncertainTry | packages/runtime-core/src/external-actions/external-action-service.ts:101-147 | an uncertain action has exactly one latest attempt, and it can take a result |
| ExternalReconciliation.PassDecides | packages/runtime-core/src/external-actions/external-action-service.ts:164-177 | each scanned action takes the status its answer calls for and the others are left alone; each count is the number of candidates with that answer; the pass throws exactly at the first provider error, with everything before it recorded |
| ExternalReconciliation.PendingThrowsIff | packages/runtime-core/src/external-actions/external-action-service.ts:149-178 | the pass throws if and only if its limit is zero or the provider throws for a selected candidate |
| ExternalActionService.Service.FindLatest | packages/runtime-core/src/external-actions/external-action-service.ts:101-147 | finds the attempt with the highest number |
| ExternalActionService.Service.Reconcile | packages/runtime-core/src/external-actions/external-action-service.ts:101-147 | refines the reconciliation of one action; after a provider error nothing has changed |
| ExternalActionService.Service.ReconcilePending | packages/runtime-core/src/external-actions/external-action-service.ts:149-178 | refines the pass on all rows, counts and its error |
| ExternalActionService.Adapter.Dispatch | packages/runtime-core/src/external-actions/github-draft-pr-adapter.ts:58-129 | sends at most one create request, and only when the lookup answered and shows no draft |
| ExternalActionService.Adapter.Reconcile | packages/runtime-core/src/external-actions/github-draft-pr-adapter.ts:131-158 | acknowledges exactly when the lookup shows the draft, without any change at the provider |
| CanonicalJson.IndexInjective | packages/runtime-core/src/declarations/canonical-json.ts:36-44 | different element names denote different numbers |
| CanonicalJson.BeforeTotal | packages/runtime-core/src/declarations/canonical-json.ts:36-44 | the enumeration order of property names is total |
| CanonicalJson.BeforeOrder | packages/runtime-core/src/declarations/canonical-json.ts:36-44 | and a strict order |
| CanonicalPrinting.QuotePrefix | packages/runtime-core/src/declarations/canonical-json.ts:50-52 | quoting with the escapes of section 7 of RFC 8259 is unambiguous, also as a prefix of a longer text |
| CanonicalPrinting.NumberPrefix | packages/runtime-core/src/declarations/canonical-json.ts:50-52 | number texts followed by a delimiter are unambiguous |
| CanonicalPrinting.PrintPrefix | packages/runtime-core/src/declarations/canonical-json.ts:50-52 | printed values are unambiguous under any nesting |
| CanonicalPrinting.PrintInjective | packages/runtime-core/src/declarations/canonical-json.ts:50-52 | two values print the same text if and only if they are equal |
| CanonicalNormalization.Rebuilds | packages/runtime-core/src/declarations/canonical-json.ts:36-44 | the rebuilt object has the same properties in enumeration order, except for the prototype key |
| CanonicalNormalization.NormDecides | packages/runtime-core/src/declarations/canonical-json.ts:11-48 | two values have the same normal form if and only if they are equal up to key order, the sign of zero and the prototype key |
| CanonicalNormalization.CanonicalDecides | packages/runtime-core/src/declarations/canonical-json.ts:50-52 | two values print the same canonical text if and only if they are equal in that sense |
| CanonicalNormalization.NormWellFormed | packages/runtime-core/src/declarations/canonical-json.ts:11-48 | the normal form is well formed and equal to the value in that sense |
| CanonicalNormalization.OwnIdempotent | packages/runtime-core/src/declarations/canonical-json.ts:11-48 | on own properties alone, normalizing twice is normalizing once |
| CanonicalNormalization.PrototypeKeyIsLost | packages/runtime-core/src/declarations/canonical-json.ts:36-44 | an object with only a `__proto__` key prints like the empty object |
| CanonicalPrototypes.MakeOwns | packages/runtime-core/src/declarations/canonical-json.ts:36-44 | with prototypes kept, the own properties of the result are the normal form |
| CanonicalPrototypes.RemakesIff | packages/runtime-core/src/declarations/canonical-json.ts:29-48 | a result can be normalized again if and only if no `__proto__` property at any depth is bound to an object or array |
| CanonicalPrototypes.NormIdempotentIff | packages/runtime-core/src/declarations/canonical-json.ts:11-48 | normalizing a result again succeeds and gives the same normal form if and only if no `__proto__` property at any depth is bound to an object or array; otherwise it throws |
| CanonicalPrototypes.PrototypeObjectThrows | packages/runtime-core/src/declarations/canonical-json.ts:31-44 | the input `{"__proto__":{}}` prints like the empty object, and normalizing its result throws |
| ObjectGraph.OkNeverReturns | packages/runtime-core/src/declarations/canonical-json.ts:29-47 | where the traversal succeeds no walk returns to itself or to the path |
| ObjectGraph.CyclicReturns | packages/runtime-core/src/declarations/canonical-json.ts:29-47 | a cyclic verdict has a walk to show for it |
| ObjectGraph.CycleCheckIsExact | packages/runtime-core/src/declarations/canonical-json.ts:29-47 | on any finite graph the traversal succeeds if and only if neither a cycle nor an unsupported value can be reached from the root, reports only errors that can be reached, and where all that is reached is supported reports a cycle if and only if there is one |
| ObjectGraph.SharingIsInvisible | packages/runtime-core/src/declarations/canonical-json.ts:29-47 | a graph that unfolds to a tree normalizes to the normal form of that tree, on any path |
| ObjectGraph.SharedAsUnshared | packages/runtime-core/src/declarations/canonical-json.ts:11-48 | shared acyclic substructure gives the same output as its unshared tree |
| ObjectGraph.AcceptedUnfolds | packages/runtime-core/src/declarations/canonical-json.ts:29-47 | whatever is accepted has an unfolding |
| ObjectGraph.AcceptedIffUnfolds | packages/runtime-core/src/declarations/canonical-json.ts:11-48 | a graph is accepted if and only if it unfolds, and then its result is the normal form of the unfolding |
| ObjectGraph.Normalizer.Normalize | packages/runtime-core/src/declarations/canonical-json.ts:29-47 | terminates, agrees with the specified traversal and restores the path on every exit |
| ObjectGraph.Normalizer.NormalizeAll | packages/runtime-core/src/declarations/canonical-json.ts:29-35 | agrees with the specified traversal of the items and restores the path |
| ObjectGraph.Normalizer.BuildObject | packages/runtime-core/src/declarations/canonical-json.ts:36-44 | the assignment loop builds the specified object |
| Commands.DigestIdentifies | packages/runtime-core/src/commands/identity.ts:2-18 | with a collision-free hash two requests have the same digest if and only if they are the same request up to key order |
| Commands.FirstReceipt | packages/runtime-core/src/commands/command-service.ts:41-153 | the first submission under a key is recorded, and its replay names the same command, event and deliveries |
| Commands.SubmitKeeps | packages/runtime-core/src/commands/command-service.ts:41-153 | any submission keeps every recorded command with its event and deliveries |
| Commands.RepeatIsReplay | packages/runtime-core/src/commands/command-service.ts:155-187 | after any further submissions, the same key changes no row and returns the first receipt as a replay, or a conflict for another digest |
| Commands.Service.InsertCommand | packages/runtime-core/src/commands/command-service.ts:61-153 | refines the insert on all rows |
| Commands.Service.SubmitCommand | packages/runtime-core/src/commands/command-service.ts:41-187 | refines submit with replay and keeps the rows valid |
| Projections.DrainEnds | apps/control-plane/src/app.ts:191-206 | whatever the batch size, draining ends with the last event there is and counts every event ahead of the start once |
| Projections.CatchUpAgreesIff | apps/control-plane/src/app.ts:113-206 | for any complete checkpoints whose earliest names an existing event, catch-up agrees with the rebuild if and only if that checkpoint counts the events up to its own |
| Projections.CatchUpRefinesRebuild | packages/runtime-core/src/observability/observability-service.ts:93-148 | from honest checkpoints, draining in batches of any size leaves every checkpoint as the full rebuild does |
| Projections.ArrivalsKeepHonest | apps/control-plane/src/app.ts:118-189 | events that arrive behind no checkpoint keep the checkpoints honest |
| Projections.RunCounts | apps/control-plane/src/app.ts:118-189 | through any interleaving of arrivals and batches the earliest checkpoint counts all events up to its own except the late ones |
| Projections.InterleavedAgreesIff | apps/control-plane/src/app.ts:113-206 | after any interleaving of arrivals and batches a finished catch-up agrees with the full rebuild if and only if no event of the run arrived behind the earliest checkpoint of its moment |
| Projections.LateArrival | apps/control-plane/src/app.ts:118-189 | a run of one late arrival and one catch-up that ends with a count of one where the rebuild counts two |
| Projections.LateEventIsLost | apps/control-plane/src/app.ts:118-189 | an event that arrives behind the earliest checkpoint is never counted |
| Projections.BatchKeepsHonest | apps/control-plane/src/app.ts:118-189 | stopping after any batch leaves honest checkpoints |
| Projections.Projector.Select | apps/control-plane/src/app.ts:139-150 | up to `limit` events behind the checkpoint, in order |
| Projections.Projector.Rebuild | packages/runtime-core/src/observability/observability-service.ts:93-148 | the paged loop ends with every checkpoint at the last event and the number of all events |
| Projections.Projector.CatchUp | apps/control-plane/src/app.ts:113-189 | refines one batch |
| Projections.Projector.DrainCatchUp | apps/control-plane/src/app.ts:191-206 | finishes within any budget that suffices, ends as specified, and keeps honesty when told to stop earlier |
| LiveEvents.ParseBatch | packages/operator-ui-react/src/hooks/liveEvents.ts:24-54 | the line loop refines the specified parser |
| LiveEvents.ParseOfWritten | apps/control-plane/src/routes/inspection.ts:172-186 | parsing a written page takes its items in order and then the checkpoint |
| LiveEvents.StandardReadsAlike | apps/control-plane/src/routes/inspection.ts:172-186 | a client that follows section 9.2.6 of the HTML Living Standard reads from each written frame the same event name and text as the parser, and the same cursor if and only if that holds no null character or is the one it had |
| LiveEvents.RoundTrip | packages/operator-ui-react/src/hooks/liveEvents.ts:24-54 | parsing a written page gives exactly its events in order, and `nextCursor` or else the last event's cursor |
| LiveEvents.RoundTripIff | packages/operator-ui-react/src/hooks/liveEvents.ts:36-48 | all events come back if and only if none has a `nextCursor` key |
| LiveEvents.CursorEventIsLost | packages/operator-ui-react/src/hooks/liveEvents.ts:36-48 | a page of one event with a `nextCursor` key parses to no event |
| LiveEvents.Merge | packages/operator-ui-react/src/hooks/liveEvents.ts:8-22 | new events are added in front, the newest first, each id once, known ones skipped |
| LiveEvents.FreshKeeps | packages/operator-ui-react/src/hooks/liveEvents.ts:8-22 | merging keeps ids distinct, loses no id and takes nothing from elsewhere |
| LiveEvents.AppendDeduped | packages/operator-ui-react/src/hooks/liveEvents.ts:8-22 | exactly the first `max` of the merged events remain, at least one, so what is cut is the oldest; ids stay distinct, and nothing is lost while all fit |
| ComponentState.LatestIsTop | packages/db/src/repositories/component-state-repository.ts:147-177 | the latest row carries the highest number of the component |
| ComponentState.StateWriteRaises | packages/db/src/migrations/zzzzzzz_20260719_template_initial_state.ts:100-140 | a state-writing output raises the top version by exactly one and becomes the latest row, and no other component changes |
| ComponentState.LatestIsLastWriteIff | packages/db/src/repositories/component-state-repository.ts:147-177 | after any writes and seeds the latest row is the last state write if and only if it was not the first version or no later seed used another port |
| ComponentState.SeedHidesFirstWrite | packages/db/src/repositories/component-state-repository.ts:84-126 | a later seed of another port hides the first state write |
| ComponentState.Repository.CreateInitialVersion | packages/db/src/repositories/component-state-repository.ts:84-126 | seeds version 1 exactly when the component and port have none |
| ComponentState.Repository.AfterOutput | packages/db/src/migrations/zzzzzzz_20260719_template_initial_state.ts:64-140 | refines the trigger |
| ComponentState.Repository.ReadLatest | packages/db/src/repositories/component-state-repository.ts:147-177 | returns the artifact of the latest row |
| ActivitySessions.NeverBeyondFirstExpiry | apps/control-plane/src/activity-session-service.ts:194-255 | after any requests a refresh keeps the first absolute expiry and never idles beyond it |
| ActivitySessions.RotatedTokenIsDead | apps/control-plane/src/activity-session-service.ts:225-250 | a replaced token is never accepted again, for any session there is or ever will be |
| ActivitySessions.ClosedIsFinal | apps/control-plane/src/activity-session-service.ts:272-296 | after closing an instance no session of it is ever refreshed, one that a join under way inserts later included |
| ActivitySessions.CloseRevokesIff | apps/control-plane/src/activity-session-service.ts:272-296 | after closing an open instance all its sessions are revoked for good, those inserted later included, if and only if no join of it is under way at the close with time left for its session |
| ActivitySessions.LateSessionIsNotRevoked | apps/control-plane/src/activity-session-service.ts:272-296 | a run in which such a join inserts a session that is not revoked into a closed instance |
| ActivitySessions.StoppedForever | apps/discord-activity/src/session.ts:82-88 | after stop there is no token and no timer and the state is stopped, whatever callbacks still arrive |
| ActivitySessions.ExpiredStaysIff | apps/discord-activity/src/session.ts:100-139 | over any run of callbacks an expired client stays expired if and only if it is not stopped, not started while its times still run, and no pending refresh ends with an acceptable reply or, while its times still run, with an error that is not terminal |
| ActivitySessions.RefreshBringsBack | apps/discord-activity/src/session.ts:100-139 | a run in which a refresh that began before the expiry makes the client active again |
| ActivitySessions.ServerReplyIsAccepted | apps/discord-activity/src/session.ts:100-139 | a server reply passes the client's acceptance test at the same instant |
| ActivitySessions.NeverIdlesBeyond | apps/discord-activity/src/session.ts:100-139 | the client never reckons with idle time beyond its first absolute expiry |
| ActivitySessions.Controller.StartNow | apps/discord-activity/src/session.ts:72-80 | refines start on all fields |
| ActivitySessions.Controller.StopNow | apps/discord-activity/src/session.ts:82-88 | refines stop on all fields |
| ActivitySessions.Controller.ExpireNow | apps/discord-activity/src/session.ts:176-187 | refines expiry on all fields |
| ActivitySessions.Controller.ScheduleRefresh | apps/discord-activity/src/session.ts:152-165 | refines scheduling on all fields |
| ActivitySessions.Controller.CompleteRefresh | apps/discord-activity/src/session.ts:100-139 | refines the end of a refresh on all fields |
| Ordering.RestOfListing | packages/artifact-store/src/index.ts:369-404 | after any of the visited objects disappeared, the listing behind the last visited one is the rest of the original listing |
| Ordering.OrderById | packages/artifact-store/src/index.ts:376-384 | the sorted listing of a set of names |

## Left out

- The S3 blob stores: same contract as the filesystem store, behind an SDK that is not visible.
- Selection among ready deliveries: the scheduler's ranking, deferral and optional inputs only decide which execution is opened; the model lets any permitted choice happen.
- Resource admission and reservations: they decide whether a lease or a dispatch goes ahead, which the model leaves open.
- The action rows that the proposals of a commit insert: `ExternalActions` starts from proposed actions, and whether a proposal conflicts with a row of an earlier commit is part of the truth value above. Their request artifacts are modelled.
- The approval status `cancelled`, which the schema allows and no modelled operation writes.
- The codes of a rejection for content: all checks behind a `Verdict` share one, as nothing branches on which of them failed.
- Errors of the database and of the filesystem during a recovery: only those that the data determine are modelled.
- Completion times, lease owners, messages inside failures and the counts in receipts: no branch of the modelled code depends on them.
- Replayed delivery ids: claimed equal as sets, because a replay orders them by time and id.
- Tombstoned artifacts and states: nothing in the modelled code writes a tombstone during a run.
- `inputSetDigest` and sparse arrays: the first sorts by locale, the second is not JSON.
- Metadata fields beyond digest, size and time in the blob store, and file permissions.
- Schema and media-type validation, HTTP routes other than the event stream's writer, application wiring, pages, hosts, scripts and the worker SDK's transport.
- Re-entrant callbacks of the client session: each callback is one step.
- PostgreSQL isolation, deadlocks and statement timeouts.
