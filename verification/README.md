# Revenue recovery: model and proofs

A Dafny model of a revenue recovery system and proofs about it. Payment events are ingested, cases of revenue at risk
are planned under a merchant's policy, approved plans are handed to workers through an outbox and a queue, workers
call payment and message providers, and sweeps, webhooks and reconciliation touch the same rows. `dafny verify
dfyconfig.toml` checks the whole project.

## How it is built

- **Values and rules**: `Contracts`, `StateMachine`, `TimeCompliance`, `Qualification`, `Diagnosis`, `Intervention`,
  `Policy`, `Planning` follow the files of `libs/domain`. Where the source assigns step by step (diagnosis, policy,
  qualification, the nodes of the planning graph), a method does the same and is proved equal to a function, and
  `PlanningTheorems` proves the pipeline's properties about the functions.
- **Decisions by their inputs**: a function that specifies a program may repeat its error, so what the programs decide
  is stated once more in inputs alone: `Decisions` for planning, `Deliveries` for the worker, `Publishing` for the
  publisher (which it refines to `Outbox`), `Recoveries` for ingestion and results, `Records` for the rows written,
  `Benchmark` for the evaluation.
- **The store**: `Store` holds the tables with their unique indexes and, as functions, the effect of every
  transaction. `Repositories`, `ExecutionRepository`, `IngestionRepository`, `OutboxPublisher` and `Processor` are the
  repositories, the publisher and the job processor as classes over a mutable database, statement by statement, each
  method proved to have the effect of its function.
- **All writers at once**: `Protocol` interleaves every writer of the store as atomic steps: planners that read early
  and commit late, enqueuing, the relay, deliveries in any number, workers that may crash between any two steps,
  sweeps, releases, webhooks, reconciliation and ingestion. A run is any sequence of steps. `TableIntegrity` and
  `ProtocolInvariant` keep the tables sound; `LockLedger`, `Executions`, `ActionBound`, `MoneyConservation`,
  `CaseHistory`, `AuditReplay`, `Provenance`, `CaseMoves`, `TerminalStates`, `Idempotence` and `IngestionReplay` prove
  what holds of every run; `Scenarios` gives runs from the empty store in which the exceptional cases happen.
- **Reads apart from writes**: `ReadCommitted` models the same transactions again with the read and the guarded
  update as separate steps, and refines them to the atomic ones. `LostUpdates` accounts for the amounts at risk there.
- **The outbox in time**: `Outbox` models leases, retries and publication by any number of overlapping polls.
- **Evaluation**: `Evaluation`, `Metrics` and `Dataset` are the recovery loop, the metrics with their assertions and
  net return, and the dataset generator with its shuffle.
- **Keys as text**: `Keys` settles which idempotency keys can be told apart, so that the store may use structured ones.

## What the proofs found

Where the code and its own documentation differ, the model follows the code. A property that fails has a run or an
input at which it fails, and its exact condition.

- No result clears the lock of an executed intervention, so the sweep reaches each of them after its five minutes: it
  marks the row FAILED and escalates the case, even a recovered one (`Scenarios.RecoveredCaseIsEscalated`, a run from
  the empty store). docs/features/CASES.md:105 says that final states cannot be left; `TerminalStates.LeavingTerminal`
  says exactly when they are.
- A planner decides on what it read before its transaction, and the transaction checks the version but not the state,
  so a late planner can reopen a recovered case (`Scenarios.RecoveredCaseIsReopened`,
  `TerminalStates.LatePlannerReopens`).
- A sweep between two deliveries of one job lets an intervention be executed twice
  (`Scenarios.OneInterventionIsExecutedTwice`); without one it never is (`LockLedger.ExecutedAtMostOnce`). The sweep
  marks the row FAILED, so only workers that had passed their lookup by then can add calls
  (`Executions.CallsAfterSweep`), and all of them may (`Executions.EveryReadyWorkerCanCall`).
- A provider timeout is stored as the outcome of the intervention. The reconciliation it queues reports a second
  outcome, which the unique index refuses: an ambiguous case is never reconciled
  (`TerminalStates.TimeoutIsNeverReconciled`).
- Nothing increments the stored attempt count. The attempt gate, to which docs/features/FAILURES.md:22 attributes the
  end of retry loops, closes only for limits of zero or less (`TerminalStates.AttemptsAreNeverCounted`). What does
  bound the actions of a case is the unique index on case, type and attempt (`ActionBound.AtMostThreeActions`).
- persistExecutionResult and escalateStaleLocks write an audit row whether or not their guarded update matched
  (`ReadCommitted.UncheckedAudit`), and a partial recovery that loses the race leaves the amount at risk as it was
  (`ReadCommitted.UncheckedMoney`). Over whole runs such losses are the only way in which money is not conserved
  (`LostUpdates.MoneyWithLostUpdates`). A recovery notice updates the case without any version, so its audit row can
  name a state that the case had left (`ReadCommitted.UncheckedNotice`); scheduleRetry and the capture webhook change a case without an audit row of the
  same transaction, which `AuditReplay` counts as silent writes.
- The retry limit of the outbox holds while rows are handled within their lease. Polls that have outlived their leases
  can make any number of attempts (`Outbox.StalePollsOverrun`); `Outbox.LimitHoldsExactly` says which steps do it.
- The twelve hour retry of a text message never reaches the contact window from the hours 8 and 20
  (`TimeCompliance.TwelveHourRetryNeverLands`).
- The propensity score can change the decision exactly where it exchanges an email for a text message and only one of
  them has consent (`PlanningTheorems.ScoreDecidesExactly`).
- A replayed payment failure is reported as ineligible, because its failure reason is not read back
  (`IngestionReplay.ReplayedQualification`).
- The evaluation's fraud scenario carries a reason that the diagnosis does not know; its cases are escalated, and no
  chargeback is ever charged (`Evaluation.FraudScenarioIsEscalated`, `Metrics.NoChargebacks`). Its consents are a
  text, so the consent gate never closes there. Expired cards and invalid codes, recoverable by their ground truth, are
  escalated before any attempt for the same reason (`Benchmark.TruthIsMetExactly`). The integrity assertions fire on negative amounts
  (`Metrics.IntegrityExactly`).

## Reading the model

- Amounts are integers of minor units, confidence and scores of the policy are percent, times are milliseconds.
- Money in `MoneyConservation` counts the partial recovery of the payment retry; there is at most one, because every
  job carries attempt 1 and the schema allows one intervention per case, type and attempt.
- Clocks, generated identifiers, provider answers, the propensity score, the merchant's policy and failures of the
  queue or the database are parameters of the steps and methods.
- A transaction that throws leaves the tables as they were. The sweeps are enabled for every row at every time, which
  covers any threshold, and reconciliation acts on a state it may have read long ago.

## Model

| member | source | states |
|---|---|---|
| `ProtocolInvariant.RunsKeepEverything` | libs/persistence/src/repositories/prisma/execution.ts:14-400 | every interleaving of all writers keeps the tables sound (indexes, foreign rows, one intervention per slot) and every worker, job and draft in agreement with them |
| `ProtocolInvariant.RecordsArePermanent` | libs/persistence/src/repositories/prisma/execution.ts:281-301 | in every continuation of a run events, plans, outcomes and unique keys stay as they are, and versions only grow |
| `LockLedger.RunsBalance` | libs/persistence/src/repositories/prisma/execution.ts:187-279 | for one intervention or a whole case: claims = releases + locks now held, and provider calls + workers about to call <= claims |
| `LockLedger.LockConservation` | libs/persistence/src/repositories/prisma/execution.ts:187-279 | in every interleaving of workers, redeliveries, crashes and sweeps the claims of an intervention are its releases plus one if it is locked, and calls never exceed claims |
| `LockLedger.ExecutedAtMostOnce` | apps/worker/src/processors/recovery-plan-execution.processor.ts:118-160 | an intervention whose lock is never taken away is executed at most once, ever |
| `Executions.CallsAfterSweep` | apps/worker/src/processors/recovery-plan-execution.processor.ts:106-121 | in every run: after the first sweep of an intervention it is called at most once for the past and once for every worker that had passed its lookup and not claimed by then, however many deliveries follow, unless a step takes the row back from SUCCEEDED or FAILED |
| `Executions.RunSpends` | apps/worker/src/processors/recovery-plan-execution.processor.ts:118-121 | calls so far plus workers that may still call never grow in any run on a row that is SUCCEEDED or FAILED |
| `Executions.EveryReadyWorkerCanCall` | libs/persistence/src/repositories/prisma/execution.ts:223-270 | for any number of workers that have passed their lookup, a sweep after each lets all of them reach the provider |
| `Scenarios.OneInterventionIsExecutedTwice` | libs/persistence/src/repositories/prisma/execution.ts:223-270 | a run from the empty store in which one intervention is executed twice: two deliveries of one job, and a sweep between their claims |
| `ActionBound.OneInterventionPerType` | libs/persistence/prisma/schema.prisma:126-148 | a case has at most one intervention of each type that its root cause admits |
| `ActionBound.CallsPerCase` | apps/worker/src/processors/recovery-plan-execution.processor.ts:100-160 | provider calls of a case <= automatic types of its root cause + locks of the case taken by sweeps |
| `ActionBound.AtMostThreeActions` | apps/worker/src/processors/recovery-plan-execution.processor.ts:100-160 | without sweeps a case causes at most three actions, and none for fraud or an unknown cause |
| `PlanningTheorems.AutomaticTypes` | libs/domain/src/intervention.ts:16-63 | at most three types can run without a human for any root cause, none for fraud and unknown |
| `Idempotence.PlanningIsIdempotent` | libs/persistence/src/repositories/prisma/planning.ts:39-57 | once a plan key is stored, storing a plan with that key changes nothing and answers the first plan, at any later time |
| `Idempotence.EnqueuingIsIdempotent` | libs/persistence/src/repositories/prisma/planning.ts:288-294 | a plan that has its outbox row is never enqueued again |
| `Idempotence.PreparingIsIdempotent` | libs/persistence/src/repositories/prisma/execution.ts:26-33 | once an intervention key is stored, preparing it changes nothing and answers the first row, at any later time |
| `Idempotence.SecondPlanOfATypeNeverRuns` | libs/persistence/prisma/schema.prisma:146 | once an intervention of a type exists for a case, no preparation of that slot writes anything at any later time, for whatever plan |
| `MoneyConservation.MoneyIsConserved` | apps/worker/src/processors/recovery-plan-execution.processor.ts:182-195 | in every run: amount of the event = current amount at risk + the partial recovery of the retry, counted once; the amount is positive and grows only on a negative recovery |
| `MoneyConservation.RunsKeepMoney` | libs/persistence/src/repositories/prisma/execution.ts:332-344 | the invariant behind it: every worker past validation read the initial amount or the retry is settled, and an unsettled planned case is never DETECTED |
| `MoneyConservation.RetryResultKeepsAmount` | apps/worker/src/processors/recovery-plan-execution.processor.ts:185-193 | the result of the one retry is the only write of the amount, and it conserves it |
| `AuditReplay.EveryStep` | libs/persistence/src/repositories/prisma/execution.ts:67-80 | a step leaves a case and its trail alone, or writes the next version with exactly one trail entry, or is one of the two silent writers |
| `AuditReplay.AuditReplaysCases` | libs/persistence/src/repositories/prisma/execution.ts:346-359 | version = audited writes + silent writes in every run; a case without silent writes is replayed from its audit rows, which chain from creation to the current state |
| `CaseHistory.CreatePlanHistory` | libs/persistence/src/repositories/prisma/planning.ts:59-157 | planning writes one version and one effective audit entry, however many rows it logs |
| `CaseHistory.PrepareHistory` | libs/persistence/src/repositories/prisma/execution.ts:48-96 | preparing moves a case only from QUEUED to EXECUTING, with one entry |
| `CaseHistory.ResultHistory` | libs/persistence/src/repositories/prisma/execution.ts:326-361 | the only transaction that may set the amount; it moves the case of its own intervention, once |
| `CaseHistory.IngestHistory` | libs/persistence/src/repositories/prisma/ingestion.ts:186-279 | ingestion recovers a stored case or creates one at version 1 in DETECTED for the amount of its event |
| `Provenance.StoredStates` | libs/domain/src/state-machine.ts:14-31 | five states of the domain machine are never stored |
| `Provenance.TransitionsHaveProvenance` | libs/persistence/src/repositories/prisma/planning.ts:283-311 | EXECUTING is entered only from QUEUED by preparing, QUEUED only from POLICY_CHECKED by enqueuing, POLICY_CHECKED only by planning, DETECTED again only by a partial recovery |
| `Provenance.CallsAreAuthorised` | apps/worker/src/processors/recovery-plan-execution.processor.ts:52-56 | every provider call of every run is for a stored intervention of an approved plan of that case and type that needs no human and has an outbox row |
| `Recoveries.ResultsHaveProvenance` | apps/worker/src/processors/recovery-plan-execution.processor.ts:162-217 | in every run: a case is recovered only by a retry that recovered all that was at risk, by a capture, or by a notice for its own customer; it waits for its customer only after a link or a reminder was sent; it is ambiguous only after a timeout; the causes of FAILED, RETRYABLE, STOPPED and ESCALATED |
| `Recoveries.NoticesRecoverTheirCustomer` | libs/persistence/src/repositories/prisma/ingestion.ts:187-220 | an event changes the state of a stored case only if it is a new recovery notice, whose stored event and references name the merchant and customer of the case, and all later cases of that customer are recovered |
| `Recoveries.LatestOpenExactly` | libs/persistence/src/repositories/prisma/ingestion.ts:189-196 | the case found is of that merchant and customer, is not recovered, and all of their later cases are; if none is found, all are recovered |
| `Recoveries.CasesHaveOwners` | libs/persistence/src/repositories/prisma/ingestion.ts:232-262 | in every run a case has the merchant, the customer and the currency of the event it stems from |
| `Recoveries.IngestOpensExactly` | libs/persistence/src/repositories/prisma/ingestion.ts:232-262 | a case is opened exactly for a new event of a known or admissible merchant whose amount, currency, age, type and reason qualify, and is appended to the order of creation |
| `CaseHistory.MarkCaseHistory` | libs/persistence/src/repositories/prisma/execution.ts:109-142 | the two markers write one version and one entry |
| `CaseHistory.SweepHistory` | libs/persistence/src/repositories/prisma/execution.ts:246-267 | one iteration of the sweep escalates at most one case, with one entry |
| `CaseHistory.RetryHistory` | libs/persistence/src/repositories/prisma/execution.ts:378-387 | scheduling a retry writes a version without an entry |
| `CaseHistory.CaptureHistory` | apps/api/src/modules/events/razorpay-events.processor.ts:43-81 | the capture webhook writes a version without an entry of the case in its own statement |
| `TerminalStates.ExecutedStaysLocked` | libs/persistence/src/repositories/prisma/execution.ts:303-312 | an executed intervention stays locked until a sweep takes the lock: no result clears it |
| `TerminalStates.RecoveredCaseIsEscalated` | libs/persistence/src/repositories/prisma/execution.ts:223-270 | every complete recovery leaves the case recovered and the row locked, and the sweep of that row escalates the case, its outcome still SUCCEEDED |
| `Scenarios.RecoveredCaseIsEscalated` | libs/persistence/src/repositories/prisma/execution.ts:223-270 | a run from the empty store in which this happens, from ingestion to the sweep |
| `TerminalStates.LatePlannerReopens` | libs/persistence/src/repositories/prisma/planning.ts:30-74 | a planner takes a case out of a final state exactly if its key and identifier are new, and into a state that is not final unless it stops or escalates |
| `Scenarios.RecoveredCaseIsReopened` | libs/persistence/src/repositories/prisma/planning.ts:30-74 | a run from the empty store in which a planner reads a new case, the case is recovered, and the planner plans it for execution |
| `CaseMoves.MovesExactly` | libs/persistence/src/repositories/prisma/execution.ts:109-113 | for every kind of step its exact guard: the state of a case changes if and only if the guard holds before the step |
| `TerminalStates.LeavingTerminal` | libs/persistence/src/repositories/prisma/execution.ts:109-113 | in every run a step takes a case out of a terminal state, or out of ESCALATED, if and only if the guard of its kind holds; enqueuing and preparing never do, and a capture only does from ESCALATED |
| `TerminalStates.DomainTransitions` | libs/domain/src/state-machine.ts:14-35 | enqueuing and preparing follow the domain machine; entering POLICY_CHECKED never does |
| `TerminalStates.AttemptsAreNeverCounted` | libs/domain/src/policy.ts:99-109 | no writer counts attempts, so the attempt gate closes exactly for limits of zero or less |
| `TerminalStates.TimeoutIsNeverReconciled` | apps/worker/src/processors/reconciliation.processor.ts:69-74 | the timeout is itself the outcome, so in every continuation the reconciliation it queues changes nothing |
| `ReadCommitted.EqualVersionMeansEqualRow` | libs/persistence/src/repositories/prisma/planning.ts:60-74 | with split reads and writes: version = 1 + committed changes of the row, and a transaction that finds the version it read finds the row it read |
| `ReadCommitted.GuardedCommits` | libs/persistence/src/repositories/prisma/execution.ts:50-64 | a guarded commit does exactly what the atomic transaction does if the version matches, and otherwise nothing in any table |
| `ReadCommitted.OneWinnerPerVersion` | libs/persistence/src/repositories/prisma/planning.ts:297-311 | of all writers that have read one version at most one commits; every loser leaves all tables as they are |
| `ReadCommitted.VersionsOnlyGrow` | apps/api/src/modules/events/razorpay-events.processor.ts:58-62 | no interleaving lowers a version or removes a case |
| `ReadCommitted.GuardedRunsAreSerial` | apps/api/src/modules/events/razorpay-events.processor.ts:53-67 | every interleaved run of guarded transactions yields the tables of the serial run of its winners in commit order |
| `ReadCommitted.GuardedRunsAreAudited` | libs/persistence/src/repositories/prisma/planning.ts:94-157 | with split reads and writes the audit log of count-checking writers still replays every case, one entry per version |
| `ReadCommitted.UncheckedAudit` | libs/persistence/src/repositories/prisma/execution.ts:332-359 | persisting ignores the match count: its audit row is right exactly if the version still matched, and otherwise no case has changed |
| `ReadCommitted.UncheckedPersist` | libs/persistence/src/repositories/prisma/execution.ts:332-359 | persisting does what the atomic transaction does exactly if the version still matched |
| `ReadCommitted.UncheckedMoney` | libs/persistence/src/repositories/prisma/execution.ts:332-344 | a partial recovery reduces the amount at risk by what its outcome says exactly if the version still matched; otherwise the amount stays |
| `ReadCommitted.UncheckedSweep` | libs/persistence/src/repositories/prisma/execution.ts:247-266 | audit row and effect of the sweep are right exactly if the version still matched |
| `ReadCommitted.UncheckedRetry` | libs/persistence/src/repositories/prisma/execution.ts:378-387 | scheduling a retry differs from the atomic transaction exactly if it lost the race and the case is not retryable |
| `ReadCommitted.LatePreparation` | libs/persistence/src/repositories/prisma/execution.ts:49-64 | a preparation that read another state than QUEUED is unguarded; it differs from the atomic one exactly if the case is queued by then |
| `ReadCommitted.UncheckedNotice` | libs/persistence/src/repositories/prisma/ingestion.ts:187-220 | a recovery notice updates the case it found whatever happened since: its audit row continues the trail exactly if the state is still the one it read, and it is atomic exactly if the case is also still the latest open one |
| `ReadCommitted.UncheckedNoticeWithoutCase` | libs/persistence/src/repositories/prisma/ingestion.ts:187-220 | a notice that found no open case is atomic exactly if there is still none |
| `LostUpdates.MoneyWithLostUpdates` | libs/persistence/src/repositories/prisma/execution.ts:332-344 | in every run with split reads and writes the amount of the event is the amount at risk plus the partial recovery less what lost updates kept from it: nothing, or all of that recovery |
| `LostUpdates.CaptureLosesRecovery` | libs/persistence/src/repositories/prisma/execution.ts:332-344 | whenever a worker is about to store a partial recovery, a capture that commits first makes the run lose exactly what was recovered |
| `Repositories.Database.UpdateCaseAtVersion` | libs/persistence/src/repositories/prisma/planning.ts:60-70 | updateMany with the version guard: one row or none |
| `Repositories.Database.UpdateCaseAndAmountAtVersion` | libs/persistence/src/repositories/prisma/execution.ts:333-344 | the same with the remaining amount, if one is given |
| `Repositories.Database.CreateIntervention` | libs/persistence/prisma/schema.prisma:126-148 | refused by any of its three unique indexes |
| `Repositories.Database.CreateOutcome` | libs/persistence/prisma/schema.prisma:152-161 | refused for an intervention that has one |
| `Repositories.Database.CreatePlanRow` | libs/persistence/prisma/schema.prisma:83-103 | refused by a known identifier or key |
| `Repositories.Database.CreateOutboxRow` | libs/persistence/prisma/schema.prisma:105-124 | refused by a known identifier or plan |
| `Repositories.PlanningRepository.CreatePlanWithPlanningOutcome` | libs/persistence/src/repositories/prisma/planning.ts:15-161 | the statements of the transaction, with rollback, have exactly the effect of the atomic transaction the protocol interleaves |
| `Repositories.PlanningRepository.EnqueuePlanWithOutbox` | libs/persistence/src/repositories/prisma/planning.ts:270-345 | likewise |
| `Repositories.PlanningService.CreatePlan` | apps/api/src/modules/planning/planning.service.ts:14-61 | reads, checks the policy version, proposes, persists: every refusal leaves the store alone |
| `Repositories.PlanningService.EnqueuePlan` | apps/api/src/modules/planning/planning.service.ts:67-118 | the approval and state checks and the job of attempt 1 |
| `ExecutionRepository.ExecutionRepository.PrepareInterventionForExecution` | libs/persistence/src/repositories/prisma/execution.ts:14-99 | idempotent creation of the intervention and the move to EXECUTING |
| `ExecutionRepository.ExecutionRepository.MarkCaseAfterWorkflowFailure` | libs/persistence/src/repositories/prisma/execution.ts:101-185 | both markers: escalation and stop, unless the case is in one of them |
| `ExecutionRepository.ExecutionRepository.ClaimExecutionLock` | libs/persistence/src/repositories/prisma/execution.ts:187-204 | succeeds exactly if the row is unlocked, and locks it |
| `ExecutionRepository.ExecutionRepository.ReleaseStaleLocks` | libs/persistence/src/repositories/prisma/execution.ts:206-221 | frees exactly the stale locks of both tables and returns their number |
| `ExecutionRepository.ExecutionRepository.EscalateStaleLocks` | libs/persistence/src/repositories/prisma/execution.ts:223-279 | whatever the order of the rows: every stale intervention is freed and FAILED, every case hit is escalated once with one audit row, the count is the number of cases hit, outbox locks are freed only if there was a stale intervention |
| `ExecutionRepository.SweepOneMore` | libs/persistence/src/repositories/prisma/execution.ts:238-271 | one iteration of the sweep escalates a case exactly if no earlier iteration did |
| `ExecutionRepository.ExecutionRepository.PersistExecutionResult` | libs/persistence/src/repositories/prisma/execution.ts:281-362 | outcome, status, audit row and case update of one result, or nothing for a second one |
| `ExecutionRepository.ExecutionRepository.ScheduleRetry` | libs/persistence/src/repositories/prisma/execution.ts:364-388 | moves the case to RETRYABLE without an audit row |
| `ExecutionRepository.ExecutionRepository.BlockExecution` | libs/persistence/src/repositories/prisma/execution.ts:390-399 | marks the intervention stopped |
| `Records.PlanIsRecorded` | libs/persistence/src/repositories/prisma/planning.ts:59-157 | plan row, key and the two or three audit rows of a new plan, column by column |
| `Records.EnqueuingIsRecorded` | libs/persistence/src/repositories/prisma/planning.ts:297-345 | one pending outbox row with job, merchant and attempt 1, claimable from now on, and its audit row |
| `Records.PreparationIsRecorded` | libs/persistence/src/repositories/prisma/execution.ts:35-96 | a pending, unlocked row of plan, case, type, attempt and key, and its audit rows |
| `Records.ResultIsRecorded` | libs/persistence/src/repositories/prisma/execution.ts:290-361 | outcome, status and audit rows of a result; a recovered amount of zero is stored as none |
| `Records.StaleByAge` | libs/persistence/src/repositories/prisma/execution.ts:223-236 | a lock is stale exactly if it is at least as old as the limit |
| `Records.OutboxLocksFreed` | libs/persistence/src/repositories/prisma/execution.ts:272-276 | outbox locks are freed exactly by their recorded time |
| `Records.RowsAfterSweeps` | libs/persistence/src/repositories/prisma/execution.ts:206-270 | what sweep, release, retry and block make of status and lock |
| `Records.ClaimableAgain` | libs/persistence/src/repositories/prisma/outbox.ts:19-32 | a claimed row can be claimed again exactly after its lease, a failed one exactly after its delay |
| `IngestionRepository.IngestionRepository.IngestEventAndCreateCaseIfEligible` | libs/persistence/src/repositories/prisma/ingestion.ts:8-295 | the statements of the ingestion transaction, with rollback, have exactly the effect of the atomic transaction |
| `IngestionRepository.IngestionRepository.RecoverLatestCase` | libs/persistence/src/repositories/prisma/ingestion.ts:186-230 | recovers the latest open case of the customer without a version guard |
| `IngestionRepository.IngestionRepository.ResolveMerchant` | libs/persistence/src/repositories/prisma/ingestion.ts:79-106 | the merchant of the reference, a demonstration merchant where allowed, or none |
| `IngestionRepository.IngestionRepository.ResolveCustomer` | libs/persistence/src/repositories/prisma/ingestion.ts:108-134 | the customer of merchant and reference, created if new |
| `IngestionRepository.IngestionRepository.CreateEvent` | libs/persistence/src/repositories/prisma/ingestion.ts:136-153 | one row unless an identifier or a unique index is taken |
| `IngestionRepository.IngestionRepository.Record` | libs/persistence/src/repositories/prisma/ingestion.ts:79-170 | merchant, customer, event and audit row of a new key, or the reason for refusing it |
| `IngestionRepository.IngestionRepository.CreateCase` | libs/persistence/src/repositories/prisma/ingestion.ts:236-279 | the case with its creation entry |
| `ExecutionRepository.ExecutionRepository.SweepOne` | libs/persistence/src/repositories/prisma/execution.ts:239-270 | one iteration, with its answer whether it escalated |
| `ExecutionRepository.ExecutionRepository.RecordOutcome` | libs/persistence/src/repositories/prisma/execution.ts:290-324 | outcome, status and audit row, or nothing if an outcome exists |
| `ExecutionRepository.ExecutionRepository.MoveCaseToResult` | libs/persistence/src/repositories/prisma/execution.ts:326-361 | the case takes the resulting state and the remaining amount, unless it is in that state |
| `Processor.RecoveryPlanExecutionProcessor.Process` | apps/worker/src/processors/recovery-plan-execution.processor.ts:30-235 | one delivery does to the tables what its six protocol steps do, plus the stop of a rejected case and the escalation after the last attempt |
| `Processor.RecoveryPlanExecutionProcessor.Revalidate` | apps/worker/src/processors/recovery-plan-execution.processor.ts:34-97 | the validation that discards, stops or proceeds, as Deliveries.ValidateExactly spells it out |
| `Deliveries.ValidateExactly` | apps/worker/src/processors/recovery-plan-execution.processor.ts:34-97 | a job proceeds with the stored plan and amount exactly if case, plan and event are there, the merchant takes part and allows the type, the diagnosis is sure enough, the limits hold and a text message is inside the calling hours; the last and an unsure diagnosis discard the job, every other rejection stops the case |
| `Deliveries.ApprovedPlanProceeds` | apps/worker/src/processors/recovery-plan-execution.processor.ts:69-97 | a plan approved to run unattended proceeds at its delivery at every instant, a text message exactly inside the contact window |
| `Processor.RecoveryPlanExecutionProcessor.MapResult` | apps/worker/src/processors/recovery-plan-execution.processor.ts:162-217 | the mapping of the provider answer, as Deliveries.ResultExactly spells it out |
| `Deliveries.ResultExactly` | apps/worker/src/processors/recovery-plan-execution.processor.ts:162-217 | which answers lead to which state: a sent link or reminder to AWAITING_CUSTOMER_ACTION, a retry to RECOVERED exactly if it recovered all that was at risk; what remains at risk |
| `Deliveries.DeliveryCallsExactly` | apps/worker/src/processors/recovery-plan-execution.processor.ts:99-160 | a delivery calls the provider, once and for its own row and the stored type, exactly if it proceeds and its row is neither finished nor locked, or can be created; discarded, it leaves all tables alone |
| `Deliveries.DeliveryStoresExactly` | apps/worker/src/processors/recovery-plan-execution.processor.ts:123-222 | a delivery that calls leaves the row locked by its worker, with status, outcome and case state of the answer |
| `Processor.RecoveryPlanExecutionProcessor.FindOrPrepare` | apps/worker/src/processors/recovery-plan-execution.processor.ts:99-121 | existing intervention, preparation, or discard of an executed one |
| `Processor.RecoveryPlanExecutionProcessor.Execute` | apps/worker/src/processors/recovery-plan-execution.processor.ts:123-222 | claim, call and persist |
| `Processor.DeliveryIsARun` | apps/worker/src/processors/recovery-plan-execution.processor.ts:30-222 | an undisturbed delivery is the run of its six steps |
| `IngestionReplay.RepeatsDoNotMatter` | libs/persistence/src/repositories/prisma/ingestion.ts:17-77 | replaying a command log with any repeats leaves the store that the first accepted command of every key leaves |
| `IngestionReplay.KeptKeys` | libs/persistence/src/repositories/prisma/ingestion.ts:17-21 | those commands have distinct keys, and their keys are exactly the keys of the store |
| `IngestionReplay.OneEventPerKey` | libs/persistence/prisma/schema.prisma:52 | in every run of the whole system keys and events determine each other |
| `IngestionReplay.OneCasePerEvent` | libs/persistence/prisma/schema.prisma:63 | in every run no two cases stem from one event |
| `IngestionReplay.ReplaysChangeNothing` | libs/persistence/src/repositories/prisma/ingestion.ts:22-77 | a replay at any later time writes nothing: no second recovery, no case, no row |
| `IngestionReplay.ReplayNamesTheCase` | libs/persistence/src/repositories/prisma/ingestion.ts:23-27 | a replay answers with the event of the key and the case that stems from it |
| `IngestionReplay.ReplayedQualification` | libs/persistence/src/repositories/prisma/ingestion.ts:41-54 | the qualification a replay reports agrees with the original exactly unless the event is an eligible payment failure |
| `Recoveries.ReplayExactly` | libs/persistence/src/repositories/prisma/ingestion.ts:22-77 | what a replay answers: the event of the key, a case that stems from it if there is one, and no eligible payment failure; it writes nothing |
| `Outbox.LeasesExclude` | libs/persistence/src/repositories/prisma/outbox.ts:19-32 | two claims of a row that nobody handled in between are more than the lease duration apart, whatever claims and sweeps of a minute or more intervene; with a sweep of zero minutes at least the duration |
| `Outbox.LeaseLasts` | libs/persistence/src/repositories/prisma/outbox.ts:19-32 | in every continuation, sweeps and claims included, the lease of an unhandled row stands or the clock has reached its end, and has passed it without sweeps of zero minutes |
| `Outbox.RetriesAreBounded` | apps/api/src/modules/outbox-publisher/outbox-publisher.service.ts:114-124 | while rows are handled within their lease no row is tried more than four times |
| `Outbox.FailureUsesAnAttempt` | apps/api/src/modules/outbox-publisher/outbox-publisher.service.ts:117-123 | each timely failure uses up one attempt: rescheduled 1, 2 or 4 seconds ahead, or failed |
| `Outbox.LimitHoldsExactly` | apps/api/src/modules/outbox-publisher/outbox-publisher.service.ts:117 | the limit holds throughout a run if and only if no step overruns it: no error of a poll that has seen fewer than three attempts on a pending row that has made three, and no failure of a finished row that has made four |
| `Outbox.StalePollReschedules` | apps/api/src/modules/outbox-publisher/outbox-publisher.service.ts:117-123 | a pending row at the limit stays pending if and only if the failing poll has seen fewer than three attempts, so that its record is out of date |
| `Outbox.StalePollsOverrun` | apps/api/src/modules/outbox-publisher/outbox-publisher.service.ts:88-123 | for every n a run from the empty outbox makes n attempts on a row and leaves it pending |
| `Outbox.PublishedMeansAdded` | apps/api/src/modules/outbox-publisher/outbox-publisher.service.ts:93-108 | a published row had its job added to the queue, in every run |
| `Outbox.LeavingPendingIsFinal` | libs/persistence/src/repositories/prisma/outbox.ts:24 | a row that has left PENDING never returns and is never claimed again |
| `OutboxPublisher.OldestComeFirst` | libs/persistence/src/repositories/prisma/outbox.ts:22-29 | rows are claimed once each, and a claimable row is passed over only for a full batch of older ones |
| `OutboxPublisher.OutboxRepository.ClaimPendingOutboxEvents` | libs/persistence/src/repositories/prisma/outbox.ts:6-47 | leases exactly the chosen rows to the end of the lock duration |
| `OutboxPublisher.OutboxPublisherService.Handle` | apps/api/src/modules/outbox-publisher/outbox-publisher.service.ts:91-124 | publish, fail or reschedule one event, in every combination of failures |
| `Publishing.HandlingExactly` | apps/api/src/modules/outbox-publisher/outbox-publisher.service.ts:91-124 | a row is published exactly if the queue has its job and the update succeeds, an unknown type fails, an error uses up an attempt and puts the row off by 1, 2 or 4 seconds, and after three it fails; only an error of the catch block leaves the row as it is |
| `Publishing.PublishedWasAccepted` | apps/api/src/modules/outbox-publisher/outbox-publisher.service.ts:93-108 | a pending row that is published has its job in the queue |
| `Publishing.QueuedExactly` | apps/api/src/modules/outbox-publisher/outbox-publisher.service.ts:93-106 | the jobs put into the queue are exactly those of the rows whose job it accepted |
| `Publishing.HandlingIsARun` | apps/api/src/modules/outbox-publisher/outbox-publisher.service.ts:91-124 | handling one event is a run of the outbox: add and publish, reject, or report an error |
| `OutboxPublisher.OutboxPublisherService.HandleAll` | apps/api/src/modules/outbox-publisher/outbox-publisher.service.ts:90-125 | the loop: every event reached has its final row, the queue holds the jobs of exactly those it accepted, a failing catch block ends the loop |
| `OutboxPublisher.OutboxPublisherService.Poll` | apps/api/src/modules/outbox-publisher/outbox-publisher.service.ts:80-131 | the guard against overlapping polls, batch of ten, lease of thirty seconds, and the loop |
| `Publishing.PollIsARun` | apps/api/src/modules/outbox-publisher/outbox-publisher.service.ts:80-125 | a poll that handles k events of its batch is a run of the outbox, with the same rows, jobs and leases |
| `Publishing.PollRefinesOutbox` | apps/api/src/modules/outbox-publisher/outbox-publisher.service.ts:80-131 | so what the program leaves behind is what that run leaves behind, also if it ends early, and every accepted job is in the queue |
| `Publishing.OldestMayBePolled` | libs/persistence/src/repositories/prisma/outbox.ts:22-29 | the batch that the program claims may be claimed by that run |
| `Planning.ProposeRecoveryPlan` | libs/domain/src/planning.ts:38-122 | the nodes in their order compute the specified proposal; any state but DETECTED and RETRYABLE is refused |
| `Planning.DunningState.DiagnoseNode` | libs/domain/src/dunning-graph.ts:57-61 | stores the diagnosis with the score |
| `Planning.DunningState.Recommend` | libs/domain/src/dunning-graph.ts:63-89 | candidates, recommendation and the two overrides |
| `Planning.DunningState.EvaluatePolicy` | libs/domain/src/dunning-graph.ts:91-131 | consent, contact limit and the policy decision; Decisions.OutcomeExactly and PlanningTheorems.RemindersRespectTheWindow spell them out |
| `Planning.DunningState.CreatePlan` | libs/domain/src/dunning-graph.ts:133-161 | the plan and its key |
| `Decisions.DiagnosisByEvent` | libs/domain/src/diagnosis.ts:20-88 | suspected fraud is fraud whatever the event, failed payments are told apart by their reason, the confidence and reason codes of every event, stale exactly beyond the limit |
| `Decisions.RecommendationByEvent` | libs/domain/src/dunning-graph.ts:63-89 | candidates, rules and overrides together equal a prescription by event, reason, amount and what the merchant allows; the first three attempts after a bank or network failure are retries whatever the other rules say |
| `Decisions.VerdictByTable` | libs/domain/src/policy.ts:26-222 | the verdict is the row of the first closed gate of a decision table with codes, flags and retry times; with no gate closed, approval, with a human for large amounts and escalations |
| `Decisions.OutcomeExactly` | libs/domain/src/planning.ts:124-151 | the state a case ends in, by its inputs: RETRYABLE exactly for a reminder that may not be sent now, ESCALATED exactly for what needs a human, POLICY_CHECKED exactly for what may run unattended, else STOPPED |
| `Decisions.PlanExactly` | libs/domain/src/dunning-graph.ts:133-161 | a plan is of its case, the prescribed type and the version of the policy; it is approved exactly if it may run unattended or only waits for the word of a human; the key for a case without attempts ends with attempt 1 |
| `Diagnosis.DiagnoseRevenueCase` | libs/domain/src/diagnosis.ts:20-88 | root cause, confidence and reasons by assignment equal the table by type and reason |
| `Intervention.SelectCandidateInterventions` | libs/domain/src/intervention.ts:9-70 | the allowed part of the table, never empty |
| `Intervention.RecommendIntervention` | libs/domain/src/intervention.ts:78-170 | one of the candidates or NO_ACTION |
| `Policy.Verdict` | libs/domain/src/policy.ts:26-222 | approval exactly when no gate objects; a rejection always carries a reason |
| `Policy.EvaluateRecoveryPolicy` | libs/domain/src/policy.ts:26-222 | the early-return gates compute that verdict |
| `PlanningTheorems.UnattendedExactly` | libs/domain/src/planning.ts:124-151 | POLICY_CHECKED exactly when every condition for running unattended holds |
| `PlanningTheorems.PlanningOutcomes` | libs/domain/src/planning.ts:41-47 | planning succeeds exactly from two states and yields one of four |
| `PlanningTheorems.SuspectedFraudIsStopped` | libs/domain/src/policy.ts:57-66 | suspected fraud always ends STOPPED |
| `PlanningTheorems.ChannelNotAllowedMeansNoAction` | libs/domain/src/policy.ts:111-121 | in the pipeline CHANNEL_NOT_ALLOWED arises only for NO_ACTION |
| `PlanningTheorems.RemindersRespectTheWindow` | libs/domain/src/dunning-graph.ts:91-113 | an approved reminder was planned between 09:00 and 20:00 Indian time, with the consent of the customer, and with messages left in the window of the merchant, where a limit of zero counts as three |
| `PlanningTheorems.ScoreOnlyPicksTheReminder` | libs/domain/src/intervention.ts:131-163 | for any two scores the recommendations are equal or an exchange of EMAIL and SMS |
| `PlanningTheorems.ScoreCannotChangeTheDecision` | libs/domain/src/policy.ts:98-221 | with equal consents the score changes neither approval, reasons, retry time nor the resulting state |
| `PlanningTheorems.ScoreExchangesExactly` | libs/domain/src/intervention.ts:106-163 | two scores lead to different recommendations if and only if they differ in their advice on the channel and either reminder is open: both allowed, no active communication, no manual threshold and no payment link before them |
| `PlanningTheorems.ScoreDecidesExactly` | libs/domain/src/intervention.ts:131-163 | two scores lead to different states if and only if they differ in their advice on the channel, either reminder is open, just one of the reminders has consent, and no gate before the one for consent rejects: all conditions on the inputs |
| `PlanningTheorems.ScoreDecidesWhenConsentsDiffer` | libs/domain/src/dunning-graph.ts:91-98 | an input at which they do: one score is planned, another is stopped |
| `PlanningTheorems.ConsentGate` | libs/domain/src/policy.ts:151-161 | once no earlier gate rejects, a refused consent stops the case, and a reminder with consent never ends stopped |
| `PlanningTheorems.UnattendedTypes` | libs/domain/src/intervention.ts:16-63 | a plan that may run unattended uses a type its root cause admits |
| `TimeCompliance.WindowInTimeOfDay` | libs/domain/src/utils/time-compliance.ts:1-15 | the test is the window [09:00, 20:00) of the Indian day |
| `TimeCompliance.WindowIsDaily` | libs/domain/src/utils/time-compliance.ts:1-15 | and repeats every 24 hours |
| `TimeCompliance.TwelveHourRetry` | libs/domain/src/policy.ts:183-194 | a retry after twelve hours lands in the window except from the hours 8 and 20 |
| `TimeCompliance.TwelveHourRetryNeverLands` | libs/domain/src/policy.ts:183-194 | from those hours no number of repetitions ever lands |
| `Keys.InterventionKeysDiffer` | apps/worker/src/processors/recovery-plan-execution.processor.ts:100 | intervention keys are equal exactly if plan, type and attempt are, whatever the identifiers contain |
| `Keys.PlanKeysCollideExactly` | libs/domain/src/dunning-graph.ts:135 | plan keys are equal exactly if type and attempt are and the joined texts of case and version agree |
| `Keys.PlanKeysDifferWithinACase` | libs/domain/src/dunning-graph.ts:135 | so they differ within a case and under one policy version |
| `Keys.PlanKeysDiffer` | libs/utils/src/id.ts:3-5 | for case identifiers as generateId makes them, plan keys are equal exactly if case, policy version, type and attempt are |
| `StateMachine.DriveFollowsRuns` | libs/domain/src/state-machine.ts:33-51 | requested transitions succeed exactly along runs; the version grows by their number and nothing else changes |
| `StateMachine.TerminalStatesAbsorb` | libs/domain/src/state-machine.ts:4-31 | the terminal states are exactly those without a transition |
| `StateMachine.RunLengthBound` | libs/domain/src/state-machine.ts:14-31 | a run from DETECTED with k visits to RETRYABLE has at most 9 + 6k transitions |
| `StateMachine.RunLengthBoundIsTight` | libs/domain/src/state-machine.ts:14-31 | for every k a run attains the bound |
| `StateMachine.OneExecutionPerRetry` | libs/domain/src/state-machine.ts:14-31 | between two visits to RETRYABLE there is exactly one execution |
| `StateMachine.TransitionsFromBothEnds` | libs/domain/src/state-machine.ts:14-31 | the table of transitions agrees with the table of predecessors |
| `Qualification.Qualify` | libs/domain/src/qualification.ts:3-88 | eligible exactly when all rules hold; then a case for the whole amount in DETECTED |
| `Qualification.QualifyRevenueEvent` | libs/domain/src/qualification.ts:3-88 | the flags and reasons of the checks, in their order |
| `Qualification.CheckEventType` | libs/domain/src/qualification.ts:45-70 | the switch over the event type |
| `Qualification.ObjectionsExactly` | libs/domain/src/qualification.ts:3-88 | every rule raises its own objection, whatever the others say |
| `Evaluation.Evaluate` | libs/evaluation/src/baselines/sut.ts:30-279 | qualification, loop and final escalation compute the expected result |
| `Evaluation.RecoveryLoop` | libs/evaluation/src/baselines/sut.ts:133-256 | the loop terminates and never asks the planner in a state it refuses |
| `Evaluation.PlayRound` | libs/evaluation/src/baselines/sut.ts:136-255 | one iteration: draft, decision, attempt, provider |
| `Evaluation.Decide` | libs/evaluation/src/baselines/sut.ts:136-224 | one proposal: act, escalate or stop, as Benchmark.RoundExactly spells it out; never for a missing consent |
| `Benchmark.RoundExactly` | libs/evaluation/src/baselines/sut.ts:136-224 | every round by event, amount and simulated clock: a message goes out only inside the contact window of its hour, and outside it the case is blocked and stopped; retries up to their limit; a person for the rest |
| `Benchmark.EligibleExactly` | libs/evaluation/src/baselines/sut.ts:45-108 | which cases the loop takes on, by amount, currency, age, type and reason |
| `Benchmark.RecoveredExactly` | libs/evaluation/src/baselines/sut.ts:230-255 | a case is recovered exactly if it acts in its first round, or in its first two if the provider times out once, for the three providers that succeed; and by how many attempts |
| `Benchmark.UnsuccessfulExactly` | libs/evaluation/src/baselines/sut.ts:133-256 | without success a case acts until its first round that does not or until its attempts are used up; how it then ends |
| `Evaluation.CountDraft` | libs/evaluation/src/baselines/sut.ts:145-184 | counts requests and fallbacks of drafts |
| `Evaluation.CountHalt` | libs/evaluation/src/baselines/sut.ts:188-224 | counts blocks, stops and escalations |
| `Evaluation.Provide` | libs/evaluation/src/baselines/sut.ts:230-255 | the simulated provider and its counters |
| `Evaluation.Expected` | libs/evaluation/src/baselines/sut.ts:258-279 | every case ends in exactly one of recovered, stopped or escalated; successes <= attempts <= maximum; no consent block |
| `Evaluation.Attempts` | libs/evaluation/src/baselines/sut.ts:133-256 | rounds act until the first that does not, the first success or the limit |
| `Evaluation.FraudScenarioIsEscalated` | libs/evaluation/src/baselines/sut.ts:90 | fraud cases of the dataset carry an unknown reason and are escalated without an attempt |
| `Metrics.Compute` | libs/evaluation/src/metrics/calculator.ts:60-179 | the accumulation loops compute the sums |
| `Metrics.ComputeNetRoi` | libs/evaluation/src/metrics/calculate_net_roi.ts:13-44 | cost = 50 per attempt + 150000 per chargeback, net + cost = gross, over the results that have a case |
| `Metrics.EvaluateAll` | apps/evaluator/src/commands/evaluate.ts:41-45 | one result per case |
| `Metrics.EveryCaseEndsOnce` | libs/evaluation/src/baselines/sut.ts:258-279 | successes + stops + escalations = number of cases |
| `Metrics.RiskIsRecoveredOrNot` | libs/evaluation/src/metrics/calculator.ts:68-81 | amounts at risk = recovered + amounts of unrecovered cases |
| `Metrics.IntegrityExactly` | libs/evaluation/src/metrics/integrity.ts:4-19 | the assertions fire exactly when the unrecovered amounts sum to less than nothing |
| `Metrics.IntegrityHolds` | libs/evaluation/src/metrics/integrity.ts:4-19 | they never fire without negative amounts |
| `Metrics.NegativeAmountBreaksIntegrity` | libs/evaluation/src/metrics/integrity.ts:8-10 | one negative ineligible case makes them fire |
| `Metrics.NoChargebacks` | libs/evaluation/src/metrics/calculate_net_roi.ts:29-34 | no chargeback is ever charged to the system for fraud cases of the dataset |
| `Dataset.Shuffle` | scripts/generate_evaluation_dataset.ts:126-134 | the in-place loop yields the order its choices determine, a permutation, with every index in range |
| `Dataset.EveryOrderIsReachable` | scripts/generate_evaluation_dataset.ts:126-134 | every order of the elements comes from some choices |
| `Dataset.OneWayToEveryOrder` | scripts/generate_evaluation_dataset.ts:126-134 | from exactly one, if the elements differ |
| `Dataset.ShuffledIsAPermutation` | scripts/generate_evaluation_dataset.ts:126-134 | the shuffle keeps the elements |
| `Dataset.Generator.Next` | scripts/generate_evaluation_dataset.ts:11-19 | number n of the stream is a function of the seed, in [0, 1) |
| `Dataset.FirstNumbers` | scripts/generate_evaluation_dataset.ts:11-22 | the first two numbers of the stream with the seed of the dataset |
| `Dataset.Generator.RandomInt` | scripts/generate_evaluation_dataset.ts:25-27 | the scaled floor of the next number, in [min, max] |
| `Dataset.EveryIntCanBeDrawn` | scripts/generate_evaluation_dataset.ts:25-27 | every value of the range is drawn by some random number |
| `Dataset.GenerateGroundTruth` | scripts/generate_evaluation_dataset.ts:44-104 | a case is recoverable exactly if its provider lets some attempt within the limit succeed, first at the stated minimum |
| `Benchmark.TruthIsMetExactly` | scripts/generate_evaluation_dataset.ts:44-104 | what the loop makes of the dataset: bank timeouts are recovered with the attempts and amount of their ground truth and nothing else is; it agrees with recoverable except for expired cards and invalid codes, which are escalated; short funds are stopped exactly if one of three hours is outside the window |
| `Dataset.GenerateDataset` | scripts/generate_evaluation_dataset.ts:136-151 | the three splits hold every case once and their scenario counts add up |

## Left out

- Provider adapters, the message services, the language model client, prompts and templates: a provider answer is an arbitrary value.
- The scoring service and the whole of apps/ml-pipeline: the score is an arbitrary value.
- The frameworks beneath (graph library, job queue, web framework, database client): only node order, repeated delivery and row updates are kept.
- Encryption, hashing, signature checks, REST listing, dashboards, configuration and the frontend.
- The plan's planned time and link parameter, correlation identifiers, failure codes and metadata texts: no rule reads them.
- Rates of the metrics (precision, shares, averages), which the source computes in floating point.
- The audit rows WEBHOOK_PROCESSING_FAILED and those of the planning graph (libs/domain/src/planning.ts:60-104): they carry no transition of a case.
- libs/persistence/src/repositories/prisma/index.ts:15-52 (create and transitionWithVersion): only integration tests call them.
- releaseStaleLocks, scheduleRetry and blockExecution have no callers in the source; they are modelled as steps that may nevertheless happen.
- Event identifiers, customer references and time stamps of generated evaluation cases: the random numbers are drawn, the texts are not built.
- The counter of the random generator is kept as a 32-bit word; the source lets a floating-point number grow and uses its low 32 bits, which agree up to 2^53.
- Evaluation baselines 0 and 1: their results enter the metrics as arbitrary values.
- Liveness: notifications that arrive during a poll are dropped by the source, so delivery and re-planning are not guaranteed.
- ReadCommitted.GuardedRunsAreSerial: covers transactions whose commit depends on the match count; the ones that ignore it are characterised by UncheckedAudit, UncheckedPersist, UncheckedSweep, UncheckedRetry, UncheckedNotice and LatePreparation instead.
- AuditReplay.AuditReplaysCases: a case touched by the capture webhook or by scheduleRetry is only counted, not replayed, because those writes leave no audit row of the case in their transaction.
- LostUpdates.MoneyWithLostUpdates: assumes what workers do, that prepared interventions carry attempt 1 and that results are mapped from an amount the case had earlier in the run.
- Executions.CallsAfterSweep: speaks of the first sweep of an intervention; later ones are covered by LockConservation and RunSpends.
- Outbox.RetriesAreBounded: assumes that rows are handled before their lease ends, as the code itself does.
