# RevenueRescueAI: a verified model of the recovery-case system

RevenueRescueAI turns failed payments into recovery cases. Webhook events open and update cases; an
orchestrator recommends an action; a policy engine approves, rejects or escalates it; an approved
decision becomes a bounded workflow whose payment step calls a gateway; reconciliation compares the
case with the gateway's record; an operator may move or edit cases at any time. All of these services
write the same case rows, their transition logs and their audit logs.

This project models those services over one database and proves what holds in every interleaving of
their calls, together with the self-contained cores beside them: concurrent receipt of events, the
evaluation batch, strategy selection, backoff and redaction.

## How it is built

- `Domain`, `Store`, `Lists`: the rows, the tables with their queries, the session that commits or
  rolls back.
- `CaseLog`: one case row, its transition table, its two numbered logs. `Safety`: the fail-closed
  safety policy.
- `EventEngine`, `Ingestion`, `CaseService`, `PolicyRules`, `PolicyEngine`, `Recommendations`,
  `Lifecycle`, `Reconciliation`, `Workflows`, `Execution`: the services. Each is a class whose methods
  work step by step on the session, as the source does, and are proved equal to a function from
  database to database (`After...`); the deep properties are lemmas about those functions.
- `System`: one world (database and gateway log) and one step per service call. A call that raises
  leaves the database as it was; it does not take back what the gateway received.
- `WorkflowSteps`, `Evolution`: what one step, one round of the loop and one call can change.
- `EventLaws`, `PolicyLaws`, `DispatchLaws`, `ReconciliationLaws`, `VerticalLaws`: what each decision
  comes to, as conditions on the fields of rows and requests that name none of the functions they
  speak about; the service modules hold such laws of their own.
- `AuditTrail`, `CaseRuns`, `Settlement`, `IdentityRuns`, `DispatchRuns`, `LostDispatches`, `GatewayBounds`,
  `WorkflowRuns`, `LockRuns`, `PolicyRuns`, `EngineRuns`: theorems over whole runs. `Witnesses`: runs
  and stored databases that show where guarantees end.
- `Receipts`, `Evaluation`, `StrategySelection`, `Backoff`, `Redaction`: the cores that stand alone.

## What was found

- **Lifecycle moves lock.** `CaseTransitionService.transition` gives its audit row the number of the
  transition row, while every other writer numbers audit rows by the audit log. A table transition
  therefore commits exactly when the two logs of the case are equally long, the difference never
  shrinks, and a single recommendation makes it positive for good.
- **Approved cases are locked.** A policy decision that approves is always of a recommendation recent
  enough to have uneven logs behind it, so in every run no table transition of an approved case ever
  commits. Two consequences hold in every run from the empty database: the executions on file are all
  refused payments, and no workflow ever waits for verification or comes under review.
- **Lost dispatches.** A payment step calls the gateway and then makes such a transition, unless the
  payment was refused with attempts left. When it clashes, the rollback removes the
  execution, the attempt and the step's status but not the request the gateway received, so the step
  can be submitted again without bound. In every run what was submitted for a case is what is on file
  plus what was lost; so the bound of four per case holds of the gateway's calls exactly when those two
  numbers are together at most four, and the bound of one per workflow exactly when no call reached the
  gateway for the workflow after one that lost its dispatch. Both bounds always hold of the executions
  on file.
- **Direct settlement.** Reconciliation that finds a payment settled assigns `RECOVERED` without a
  transition row unless the case is being verified. A case's log leads to its state exactly when that
  branch was never taken for it.
- **Single-stepping.** `execute_next_step` does not stop at a workflow that waits or is under review,
  as the loop does. A single step keeps its workflow in order exactly when the workflow is in neither
  status, and a run keeps all of them in order exactly when no call steps past such a halt: one step
  ends in a `COMPLETED` workflow over a `WAITING` step, or takes a workflow out of review past its
  `FAILED` payment step and beside another active workflow of the case. Because of the lock above
  no run from the empty database ever reaches such a halt, so there workflows always stay in order; the
  failures are shown on stored databases.
- **Recommending a detected case.** The orchestrator numbers two audit rows in one call. In a session
  without autoflush, as the application configures it, both get the same number and the commit raises.
- **Case keys.** The key of a subscription's problem joins the reference and the billing period with a
  dash, so "a-1" in period "2" and "a" in period "1-2" are one problem to the engine. Keys tell
  problems apart exactly as long as the periods (and, for payments, the providers' names) hold no dash.
- **A complete trail.** Although the audit log and the transition log get out of step in number, in every
  run the audit log tells of exactly the moves the transition log holds, in the same order.
- **Shadowed strategies.** The plain customer reminder can never be selected, and manual review only
  under high risk, because an earlier catalogue entry always has the same estimate.

## Model

| member | source | states |
|---|---|---|
| CaseLog.TableTransitionCommits | backend/app/workflows/vertical_recovery.py:98-141 | a table transition succeeds if and only if the table allows it and the case has as many audit rows as transitions; then both logs stay numbered 1..n |
| CaseLog.TableFollows | backend/app/workflows/vertical_recovery.py:39-66 | every allowed move lowers the rank of the state and keeps the log replayable, except the one from verification back to a retry |
| CaseLog.TableTransitionExactly | backend/app/workflows/vertical_recovery.py:98-141 | what a table transition writes into case and logs, and which of its two refusals is raised |
| CaseLog.WhatLeadsTo | backend/app/workflows/vertical_recovery.py:39-66 | the table from its other end: which states lead to each; whatever has not ended can be escalated, only what ended or was escalated is closed |
| AuditTrail.TrailIsComplete | backend/app/workflows/vertical_recovery.py:110-139 | in every run of all services the audit log of every case tells of exactly the moves its transition log holds, from state to state and in order |
| Lifecycle.CaseTransitionService.Transition | backend/app/workflows/vertical_recovery.py:85-141 | the stored row moves by the table, is logged twice under one number, or nothing is written |
| Lifecycle.VerticalRecoveryWorkflow.Run | backend/app/workflows/vertical_recovery.py:171-281 | two table transitions, the agent's decision on file under the number of decisions plus one, the safety verdict on the case as it then stands, and either the refusal's transition or a planned attempt between two more; or an exception |
| VerticalLaws.SafetyExactly | backend/app/policy/safety.py:91-130 | each of the four verdicts if and only if, on the fields: stop when the case ended or the payment succeeded, else escalate a retry past its limit or in doubt, else reject what is out of order, else allow |
| VerticalLaws.VerticalRunExactly | backend/app/workflows/vertical_recovery.py:171-281 | a vertical run commits if and only if the rows exist and the case is detected with even logs; a succeeded payment or an action that is not allowed stops the case, a used-up retry limit escalates it, and an attempt is added exactly in the remaining cases |
| EventEngine.EventToCaseEngine.ProcessEvent | backend/app/services/event_to_case_engine.py:118-177 | customer and transaction are provisioned, the case is matched by key and then by transaction, and opened, updated or resolved |
| EventLaws.OutcomeExactly | backend/app/services/event_to_case_engine.py:118-177 | what an event comes to, to the last field of the case and its payment, decided by its kind, the case it belongs to, whether that case is open and its payment succeeded |
| EventLaws.OthersAreIgnored | backend/app/services/event_to_case_engine.py:128-134 | events of any other kind change nothing |
| EventLaws.KeyHasParts | backend/app/services/event_to_case_engine.py:100-116 | the key is the prefix of the family of the first reference given, and the mark of the problem in it |
| EventLaws.SameKeyExactly | backend/app/services/event_to_case_engine.py:100-116 | two events get one key if and only if they are of one family and their marks agree |
| EventLaws.SameSubscriptionExactly | backend/app/services/event_to_case_engine.py:106-108 | of one subscription, if and only if the billing periods agree; with dash-free periods, if and only if subscription and period agree |
| EventLaws.SameProviderExactly | backend/app/services/event_to_case_engine.py:113-116 | of payments or lone events, with dash-free provider names, if and only if provider and reference agree |
| EventLaws.DashesCollide | backend/app/services/event_to_case_engine.py:108-108 | subscription "a-1" in period "2" and subscription "a" in period "1-2" get one key |
| EventLaws.PeriodsAreProblems | backend/app/services/event_to_case_engine.py:100-177 | after a failure of a subscription opened a case, one in the same period is reported on it unless its payment succeeded, and one in another period with another payment opens its own |
| EventLaws.ProvisionExactly | backend/app/services/event_to_case_engine.py:179-225 | the customer and the payment an event finds, or the rows it adds: a payment first seen in a success is succeeded and otherwise failed, with the event's customer, amount, currency and failure |
| EventLaws.MatchExactly | backend/app/services/event_to_case_engine.py:139-150 | the matched case is the first under the key, or with none the first the payment triggered |
| EventEngine.EventToCaseEngine.GetOrCreateCustomer | backend/app/services/event_to_case_engine.py:179-196 | the customer of the event's provider and reference is found or appended |
| EventEngine.EventToCaseEngine.GetOrCreateTransaction | backend/app/services/event_to_case_engine.py:198-225 | the transaction of the event is found or appended as succeeded or failed |
| EventEngine.EventToCaseEngine.HandlePaymentSucceeded | backend/app/services/event_to_case_engine.py:227-321 | a success marks the event's transaction and recovers a case that has not ended, with both logs |
| EventEngine.EventToCaseEngine.HandleExistingCaseUpdate | backend/app/services/event_to_case_engine.py:323-413 | a repeated failure counts up, re-prioritises and audits, unless the case ended or its payment succeeded |
| EventEngine.EventToCaseEngine.CreateNewCase | backend/app/services/event_to_case_engine.py:415-558 | a new case starts detected with its first transition and audit row; a winner of the key turns it into an update |
| EventEngine.OutcomeMeans | backend/app/services/event_to_case_engine.py:118-177 | what each reported outcome says: created is new under the event's key, for its customer and payment; reported is open, about the event, counted once more; resolved was open and is recovered with the payment succeeded; ignored changes no case |
| EventEngine.MatchCase | backend/app/services/event_to_case_engine.py:139-150 | a match carries the key or the transaction, and none means no case carries either |
| Ingestion.WebhookEventRepository.Record | backend/app/repositories/webhook_events.py:30-84 | a receipt is accepted exactly when its key is new, and conflicts exactly when the payload differs from the one on file |
| Ingestion.WebhookEventRepository.MarkProcessed | backend/app/repositories/webhook_events.py:86-90 | only the flag of the receipt changes |
| Ingestion.EventService.IngestCanonicalEvent | backend/app/services/event_service.py:45-112 | one commit per new event, nothing for duplicates, an exception and no write for conflicts and invalid events |
| Ingestion.DeliveryExactly | backend/app/services/event_validator.py:30-118 | when a delivery is refused, conflicts, is a duplicate or is accepted, each if and only if, on its fields and the receipt on file |
| Ingestion.RedeliveryConflictsExactly | backend/app/services/event_deduplicator.py:40-58 | after an accepted delivery another under its provider and id conflicts if and only if one of eleven payload fields differs |
| Ingestion.StreamEqualsItsFirstDeliveries | backend/app/services/event_service.py:55-87 | ingesting any stream equals ingesting only the first valid delivery of each (provider, event id) |
| Ingestion.FirstDeliveriesAreDistinct | backend/app/services/event_deduplicator.py:57-92 | that reduced stream is part of the stream and has every key once |
| Ingestion.RepeatChangesNothing | backend/app/repositories/webhook_events.py:41-52 | a later delivery under a known key, identical or conflicting, changes nothing |
| Ingestion.ReplayedStreamChangesNothing | backend/app/services/event_service.py:55-87 | ingesting a whole stream a second time changes nothing |
| Ingestion.IngestRecords | backend/app/services/event_service.py:73-87 | a new valid delivery ends up on the ledger, processed, and no other receipt changes |
| EngineRuns.RedeliveryChangesNothing | backend/app/services/event_service.py:55-87 | the same with any calls of the other services before and in between |
| EngineRuns.FailureCountCountsReports | backend/app/services/event_to_case_engine.py:323-413 | in every run a case's failure count is the number of failures reported as created or updated for it, on top of what an operator who opened it stated |
| EngineRuns.LateFailuresChangeNothing | backend/app/services/event_to_case_engine.py:323-357 | no stream of failure events changes a case that ended or whose trigger payment succeeded |
| EngineRuns.VersionIsAuditLength | backend/app/services/recovery_case_service.py:228-295 | in runs of the engine and the operator service a case's version is the length of its audit log, numbered 1..n |
| Receipts.ReceiptsAreUnique | backend/app/repositories/webhook_events.py:41-84 | under every interleaving of lookups, inserts and fallbacks: answers tell of the row on file, conflict means a different hash, at most one call per key is accepted, none for a known key |
| Receipts.ExactlyOneIsAccepted | backend/app/repositories/webhook_events.py:64-84 | when all calls under a new key have returned, exactly one was accepted and all others got the winner's row |
| Receipts.EveryWorkerReturns | backend/app/repositories/webhook_events.py:41-84 | no call waits for another: three statements of its own suffice |
| CaseService.RecoveryCaseService.CreateCase | backend/app/services/recovery_case_service.py:58-106 | opening needs both parties, a free transaction and a free key, the requested one or a generated one when that is missing or empty; otherwise it raises and writes nothing |
| CaseService.OpensExactly | backend/app/services/recovery_case_service.py:58-106 | a case is opened if and only if its parties are on file and its payment and its key, requested or generated, belong to no case; and the row it starts as |
| CaseService.RecoveryCaseService.TransitionState | backend/app/services/recovery_case_service.py:161-226 | a free-form move of a case that has not ended, to another state, logged twice |
| CaseService.MovesExactly | backend/app/services/recovery_case_service.py:161-226 | an operator moves a case if and only if it has not ended and the state differs; what changes and what does not |
| CaseService.RecoveryCaseService.UpdateCase | backend/app/services/recovery_case_service.py:228-295 | an edit bumps the version and audits once if something was given to change, and is refused for ended cases |
| CaseService.EditsExactly | backend/app/services/recovery_case_service.py:228-295 | an edit is refused if and only if the case is missing or ended; when it changes nothing, and what it sets otherwise |
| CaseService.RegistersExactly | backend/app/services/transaction_service.py:41-58 | customers and payments are registered if and only if their provider and external id are new, and a payment only for a customer on file |
| CaseService.RevocationStands | backend/app/repositories/customer_consents.py:82-94 | a revoked consent is revoked as of now, and no other consent changes |
| PolicyRules.RetryRulePassesExactly | backend/app/policy/evaluators/retry_limit_evaluator.py:81-182 | the retry rule passes if and only if the failure is retryable, the key fresh, no attempt succeeded, is running or uncertain, quota is left, and every timestamped retry is a full cooldown old |
| PolicyRules.LatestTimeIsLatest | backend/app/policy/evaluators/retry_limit_evaluator.py:150-157 | the time the cooldown runs from is the latest any counted attempt carries |
| PolicyRules.ConsentRulePassesExactly | backend/app/policy/evaluators/consent_validator.py:61-171 | the consent rule passes an action that needs consent if and only if the newest matching consent has a grant time and is active |
| PolicyRules.NewestMatchingIsNewest | backend/app/policy/evaluators/consent_validator.py:61-171 | what "newest matching" means: listed, matching, and none matching is newer |
| PolicyRules.AggregatePrecedence | backend/app/policy/service.py:323-350 | failure outranks missing information, which outranks review; approval needs every rule to pass |
| PolicyRules.AggregateOfJoin | backend/app/policy/service.py:323-350 | the verdict on joined rule lists is the stricter of the two verdicts |
| PolicyLaws.EscalationExactly | backend/app/policy/evaluators/escalation_evaluator.py:32-150 | when the escalation rule passes, asks for review and lacks information, each if and only if, on amount, currency threshold, failure, retries, doubt and confidence |
| PolicyLaws.EligibilityExactly | backend/app/policy/evaluators/eligibility_evaluator.py:45-192 | the eligibility rule passes if and only if the recommendation is about the case, valid and at most two versions behind, and a decision is awaited |
| PolicyLaws.ConsentExactly | backend/app/policy/evaluators/consent_validator.py:22-188 | for every action: the consent rule passes if and only if the action needs none, or of the consents that cover it the one granted last is in force |
| PolicyLaws.RetryExactly | backend/app/policy/evaluators/retry_limit_evaluator.py:34-182 | when the retry rule fails, asks for review and passes, each if and only if, and for which failures it ends the case |
| PolicyLaws.StrategyExactly | backend/app/policy/evaluators/strategy_validator.py:28-150 | when the strategy rule passes, on action, failure, state and contact |
| PolicyLaws.EligibilityReasonExactly | backend/app/policy/evaluators/eligibility_evaluator.py:45-192 | which obstacle the eligibility rule names |
| PolicyLaws.ConsentReasonExactly | backend/app/policy/evaluators/consent_validator.py:48-171 | how the consent that counts stands, or at which filter none was left |
| PolicyLaws.RetryReasonExactly | backend/app/policy/evaluators/retry_limit_evaluator.py:81-182 | which obstacle the retry rule names |
| PolicyLaws.StrategyReasonExactly | backend/app/policy/evaluators/strategy_validator.py:70-150 | which mismatch the strategy rule names |
| PolicyLaws.EscalationReasonExactly | backend/app/policy/evaluators/escalation_evaluator.py:63-150 | which trigger the escalation rule names |
| PolicyLaws.ReasonsExactly | backend/app/policy/service.py:323-350 | the reasons given are exactly those of the rules that decided |
| PolicyEngine.PolicyEngineService.Evaluate | backend/app/policy/service.py:101-321 | replays a keyed verdict, reports missing rows, or stores a decision, marks the recommendation and moves or audits the case |
| PolicyLaws.VerdictExactly | backend/app/policy/service.py:101-350 | the verdict on the rows: rejected if and only if something bars the action, else review if and only if something is alarming or the confidence low, else insufficient if and only if the confidence is missing, else approved |
| PolicyLaws.VerdictLeavesExactly | backend/app/policy/service.py:200-399 | what each verdict leaves of case, recommendation and decision; a rejection stops an open case if and only if its payment can never succeed or its retries are used up |
| PolicyLaws.ReplaysExactly | backend/app/policy/service.py:101-116 | a request is answered from file if and only if it carries a key that is not empty and a decision on the case carries the same |
| PolicyLaws.MissingRowsExactly | backend/app/policy/service.py:118-135 | a request whose case or recommendation is missing is answered with insufficient information, the missing case named first, and changes nothing |
| PolicyEngine.VerdictPlacesCase | backend/app/policy/service.py:352-399 | a fresh approval always leaves the case ready for action and validates the recommendation, a fresh review always escalates, a rejection stops an open case exactly for the ending reasons, missing information moves nothing |
| PolicyEngine.ApprovedRetryIsGuarded | backend/app/policy/service.py:101-321 | a fresh approved retry had no succeeded, running or uncertain attempt, quota left, cooldowns elapsed and an active recurring consent |
| PolicyEngine.KeyedRequestReplays | backend/app/policy/service.py:401-426 | repeating a keyed request at once, whatever else it says, gives the same verdict and changes nothing |
| PolicyRuns.KeyedVerdictIsFinal | backend/app/policy/service.py:401-426 | the same after any calls of any services in between: the first verdict under a key is the verdict for good |
| PolicyEngine.NoSecondApproval | backend/app/policy/evaluators/eligibility_evaluator.py:146-192 | over any further evaluations a case waiting for its action gets no second approval |
| PolicyEngine.PassingRulesApprove | backend/app/policy/service.py:323-399 | when all five rules pass, exactly one approved decision is added and the case alone moves, to action pending |
| Recommendations.IntelligenceOrchestrator.GenerateRecommendation | backend/app/services/intelligence/orchestrator.py:215-311 | stores the next version, audits it, and takes a detected case to awaiting a decision; for a detected case a session without autoflush raises instead and writes nothing |
| Recommendations.RecommendsExactly | backend/app/services/intelligence/orchestrator.py:170-311 | when a recommendation is stored, that it is the newest of its case and not validated, and what it leaves of the case |
| PolicyRuns.VersionsStayCounted | backend/app/services/intelligence/orchestrator.py:177-179 | in every run the recommendations of every case, the orchestrator's and the vertical run's alike, stay versioned 1, 2, 3, ... |
| Workflows.WorkflowCreationService.CreateWorkflowForDecision | backend/app/workflows/creation_service.py:39-169 | a workflow is created only from an approved decision, for a case pending action with no active workflow, with the plan of the action, all pending |
| DispatchLaws.CreationCommitsExactly | backend/app/workflows/creation_service.py:39-214 | a workflow is created if and only if the decision is approved, its case pending action and without an open workflow; and its steps for every action |
| Workflows.FindActive | backend/app/repositories/workflows.py:36-52 | finds an active workflow of the case if there is one |
| Execution.PaymentAdapter.SubmitRetry | backend/app/workflows/adapters/razorpay_adapter.py:69-91 | a key reaches the gateway once; after that the stored reply is returned |
| Execution.WorkflowExecutionService.ExecuteValidateAuthorization | backend/app/workflows/execution_service.py:179-213 | completes on an allowed revalidation, otherwise fails step and workflow and stops or escalates the case |
| DispatchLaws.ValidationEndsExactly | backend/app/workflows/execution_service.py:179-213 | a validation completes if and only if its action is due; otherwise step and workflow fail and the case is escalated over an unknown outcome or stopped, if and only if its state and its logs take the move |
| Execution.WorkflowExecutionService.ExecuteDispatchPaymentRetry | backend/app/workflows/execution_service.py:228-381 | revalidates, stores the attempt, calls the gateway, stores the execution and the outcome, moves the case; an exception keeps the gateway's log |
| DispatchLaws.GatewayReceivesExactly | backend/app/workflows/execution_service.py:228-287 | the gateway receives one request if and only if the payment step is next, the retry is due and both parties exist; and what the request shows |
| DispatchLaws.PaymentEndsExactly | backend/app/workflows/execution_service.py:286-381 | reply by reply what a payment leaves of step, workflow, attempt, execution and case; a refusal stops the case if and only if four attempts are counted |
| DispatchLaws.PaymentCommitsExactly | backend/app/workflows/execution_service.py:314-381 | a due payment commits if and only if the logs are even or it was refused with attempts left |
| DispatchLaws.PaymentNotDueFails | backend/app/workflows/execution_service.py:228-256 | a payment step that is not due fails with its workflow, and nothing else changes |
| Execution.WorkflowExecutionService.RecordOutcome | backend/app/workflows/execution_service.py:317-381 | what each reply makes of the step, the workflow, the attempt and the case |
| Execution.WorkflowExecutionService.ExecuteNextStep | backend/app/workflows/execution_service.py:65-123 | runs the first ready step by its kind, or completes the workflow |
| DispatchLaws.OtherStepsSettle | backend/app/workflows/execution_service.py:96-122 | the other steps complete, but the wait for verification waits; nothing else changes |
| DispatchLaws.LastStepCompletes | backend/app/workflows/execution_service.py:74-96 | with no step left the workflow is completed if and only if it and its case exist and it has not ended |
| Execution.WorkflowExecutionService.ExecuteAllAvailableSteps | backend/app/workflows/execution_service.py:125-173 | the loop equals its specification and never ends by its iteration cap |
| DispatchLaws.LoopReceivesExactly | backend/app/workflows/execution_service.py:125-173 | after any run the loop calls the gateway, once, if and only if the payment step is still to come and the retry is due |
| DispatchLaws.LoopLeavesHalted | backend/app/workflows/execution_service.py:139-150 | the loop does not touch a workflow that ended, waits or is under review |
| Execution.WorkflowExecutionService.HandleExecuteAll | backend/app/core/database.py:104-113 | an exception rolls the session back and leaves what the gateway received |
| WorkflowSteps.NextStepIsOnlyStep | backend/app/workflows/execution_service.py:65-123 | a step changes only its own status, its workflow's status and its case, which evolves by logged moves |
| WorkflowSteps.RoundConsumesAStep | backend/app/workflows/execution_service.py:137-170 | every round that goes on leaves one ready step fewer |
| WorkflowSteps.CapIsNeverReached | backend/app/workflows/execution_service.py:137-170 | the cap of the number of steps plus two never ends the loop, and any larger cap gives the same result |
| WorkflowRuns.LoopAdvances | backend/app/workflows/execution_service.py:125-173 | a loop run leaves its workflow in order and not running, and no other workflow touched |
| WorkflowRuns.LoopKeepsWorkflowsInOrder | backend/app/workflows/execution_service.py:125-173 | in runs that execute with the loop: completed steps, then at most one failed or waiting, then pending; completed workflows fully completed; one active workflow per case |
| WorkflowRuns.SingleStepKeepsOrderExactly | backend/app/workflows/execution_service.py:78-96 | a single step that commits keeps its workflow in order if and only if the workflow was neither waiting nor under review |
| WorkflowRuns.OrderIsKeptExactly | backend/app/workflows/execution_service.py:65-173 | over whole runs of single steps, loops and all other calls, from any database with sound dispatches: the workflows end in order if and only if no call stepped past such a halt |
| WorkflowRuns.SingleStepReactivatesExactly | backend/app/workflows/execution_service.py:78-96 | a single step breaks one-active-per-case if and only if it takes a workflow out of review while its case has another active one |
| Witnesses.SteppingPastTheWait | backend/app/workflows/execution_service.py:78-96 | a stored database whose workflow one single step completes over its waiting step |
| Witnesses.SteppingPastTheReview | backend/app/workflows/execution_service.py:78-96 | a stored database in which one single step takes a workflow out of review past its failed dispatch and leaves two active workflows of one case |
| LockRuns.ApprovedCasesAreLocked | backend/app/policy/evaluators/eligibility_evaluator.py:134-144 | in every run a case with an approved decision on file has uneven logs, and no table transition of it commits |
| LockRuns.OnlyRefusalsAreOnFile | backend/app/workflows/execution_service.py:286-381 | in every run every execution on file is a refused payment, and no workflow waits or is under review |
| LockRuns.WorkflowsStayInOrder | backend/app/workflows/execution_service.py:65-173 | in every run from the empty database, single steps included, workflows stay in order and each case has at most one active |
| LockRuns.CallsAreLostByTheReply | backend/app/workflows/execution_service.py:286-343 | in every run a call loses its dispatch if and only if it reaches the gateway and the reply would move the case |
| DispatchRuns.RevalidationMeans | backend/app/workflows/revalidation_service.py:49-149 | an allowed retry revalidation means a case pending action, payment not succeeded, no unknown outcome, fewer than four attempts and a live consent |
| DispatchLaws.AllowedExactly | backend/app/workflows/revalidation_service.py:49-149 | for every action, revalidation allows it if and only if it is due: pending action, payment not succeeded, no unknown execution, and for a retry fewer than four attempts and the first granted recurring consent neither revoked nor expired, for a reminder a granted contact consent |
| DispatchLaws.ReminderGoesOutExactly | backend/app/workflows/revalidation_service.py:128-149 | run by the loop, a new reminder goes out if and only if it is due; otherwise its validation fails and it stays unsent |
| DispatchLaws.RemindersAreValidated | backend/app/workflows/creation_service.py:171-197 | in every run a communication that went out is the second step of an approved reminder, behind a completed validation |
| DispatchRuns.GatewayCall | backend/app/workflows/execution_service.py:228-287 | the gateway is called exactly when a dispatch step is next, revalidation allows it and both parties exist |
| DispatchRuns.DispatchEnds | backend/app/workflows/execution_service.py:314-381 | reply by reply: accepted awaits verification, unknown is escalated and put under review, refused fails the workflow and stops the case at most; the new attempt carries the outcome |
| DispatchRuns.DispatchesAreAuthorised | backend/app/workflows/execution_service.py:228-287 | in every run of all services each gateway call was made for an approved retry decision on the case, still on file, with earlier steps completed, the case pending action, payment not succeeded, no unknown execution, a granted, unrevoked, unexpired recurring consent, and the attempt on file as started |
| DispatchRuns.DispatchesOnFileAreBounded | backend/app/workflows/revalidation_service.py:67-101 | in every run a case has at most four executions on file, never more than attempts, and a workflow at most one |
| DispatchRuns.BlockedCasesAreNeverDispatched | backend/app/workflows/revalidation_service.py:67-101 | after an unknown execution, a succeeded payment, an ended case or four attempts no run calls the gateway for the case again |
| DispatchRuns.ExecutionsMirrorTheGateway | backend/app/workflows/execution_service.py:286-312 | executions and gateway log agree row for row if and only if no call of the run lost a dispatch |
| DispatchRuns.LostDispatchRepeats | backend/app/workflows/execution_service.py:286-343 | a lost dispatch leaves the database as it was and can be repeated any number of times |
| LostDispatches.StepLosesExactly | backend/app/workflows/execution_service.py:125-343 | a call, single step or loop, loses a dispatch if and only if it reaches the gateway, the reply would move the case and the case's logs are uneven |
| LostDispatches.GatewayIsMirroredExactly | backend/app/workflows/execution_service.py:286-343 | over whole runs: the execution table mirrors the gateway if and only if that condition never held before a call |
| LostDispatches.SafeWhateverTheReply | backend/app/workflows/execution_service.py:228-343 | what can be checked beforehand: no reply can be lost if and only if the call does not reach the gateway or the case's logs are even |
| LostDispatches.StepCallsOnce | backend/app/workflows/execution_service.py:228-312 | a call that reaches the gateway adds one submission, and one execution unless it is lost; no other call adds either |
| LostDispatches.GatewayCallsAreBounded | backend/app/workflows/revalidation_service.py:84-101 | runs that lose nothing call the gateway at most four times for a case and once for a workflow; the two rows that follow say exactly when each bound holds |
| GatewayBounds.CaseBoundHoldsExactly | backend/app/workflows/revalidation_service.py:84-101 | in every run the gateway was called at most four times for a case if and only if its lost calls and its executions on file are together at most four |
| GatewayBounds.WorkflowBoundHoldsExactly | backend/app/workflows/execution_service.py:228-343 | in every run the gateway was called at most once for a workflow if and only if no call reached it for the workflow after one that lost its dispatch |
| GatewayBounds.SubmissionsAreFiledOrLost | backend/app/workflows/execution_service.py:286-312 | in every run the submissions of a case are its executions on file plus its lost calls |
| Witnesses.RecommendedDispatchesAreLost | backend/app/workflows/execution_service.py:286-343 | a concrete run, the same with and without autoflush: a case handed to the decision by the operator, recommended, approved and with a live consent, is submitted n times for any n, with nothing on file |
| Reconciliation.PaymentReconciliationService.ResolveDiscrepancy | backend/app/services/payment_reconciliation_service.py:130-177 | which discrepancy is found, how it is resolved, and what becomes of transaction and case |
| Reconciliation.PaymentReconciliationService.ReconcileCase | backend/app/services/payment_reconciliation_service.py:74-222 | the report and the committed rows, or an exception and no write |
| ReconciliationLaws.ReportExactly | backend/app/services/payment_reconciliation_service.py:96-190 | each resolution, discrepancy and classification if and only if, on the rows and the inquiry, with the reference to ask about spelled out |
| ReconciliationLaws.ReconcileExactly | backend/app/services/payment_reconciliation_service.py:74-210 | a reconciliation commits if and only if the rows exist and the case can make the move it takes; and what case, payment and logs are then |
| ReconciliationLaws.UnconfirmedVerificationEscalates | backend/app/services/payment_reconciliation_service.py:166-177 | with auto-resolution an unconfirmed payment takes a case out of verification to an operator if and only if its logs are even |
| ReconciliationLaws.LastIsLatest | backend/app/repositories/workflows.py:106-112 | the latest execution is the one executed last, of equally late ones the last row |
| Reconciliation.PaymentReconciliationService.ReconcilePendingCases | backend/app/services/payment_reconciliation_service.py:224-237 | the batch reconciles its cases one commit each and stops at the first exception |
| Reconciliation.BatchTakesTheOldest | backend/app/services/payment_reconciliation_service.py:224-232 | the batch is of pending cases in the order their states changed, at most as many as the limit, none twice, and leaves none behind that changed before one it takes |
| Reconciliation.LatestExecution | backend/app/repositories/workflows.py:106-112 | the case's execution with the latest execution time, and none only if the case has none |
| Reconciliation.ReportMeans | backend/app/services/payment_reconciliation_service.py:130-210 | what each resolution leaves: settled means payment succeeded and case recovered or closed, refused means payment failed and case out of verification, unconfirmed means escalated, none means neither moved; each run adds its audit row |
| Evolution.ReconcileEvolves | backend/app/services/payment_reconciliation_service.py:130-210 | a reconciliation settles directly, reopens while clearing a pending payment, or follows the lifecycle |
| CaseRuns.StepOnCase | backend/app/services/recovery_case_service.py:161-226 | what any call can do to any case: settle it directly, move it by hand, reopen it, or lower its rank by logged moves |
| CaseRuns.RunEvolves | backend/app/core/database.py:104-113 | in every run receipts, customers, decisions and executions only accumulate, a succeeded payment stays so, finished workflows and executed steps stay, case logs only grow |
| CaseRuns.TerminalStatesAbsorb | backend/app/services/event_to_case_engine.py:242-250 | for every writer: an ended case stays ended, a recovered one can only be closed, a closed one never changes |
| CaseRuns.LogsStayNumbered | backend/app/repositories/audit_events.py:45-80 | in every run of all services both logs and the attempts of every case are numbered 1..n |
| CaseRuns.TransitionCommitsExactly | backend/app/workflows/vertical_recovery.py:98-141 | after any run a table transition commits if and only if the table allows it and the two logs are equally long |
| CaseRuns.UnevenLogsLockTheTable | backend/app/workflows/vertical_recovery.py:126-139 | once the logs are uneven no table transition of the case ever commits again |
| CaseRuns.RecommendationLocksTheTable | backend/app/services/intelligence/orchestrator.py:230-259 | one recommendation that commits has that effect in every run |
| CaseRuns.LogReplaysExactly | backend/app/services/payment_reconciliation_service.py:130-149 | in every run of all services a case's log, chained from detected, leads to its state if and only if no reconciliation settled it directly |
| Witnesses.DirectSettlementLeavesTheLogBehind | backend/app/services/payment_reconciliation_service.py:130-149 | a concrete run that ends recovered with an empty log |
| Settlement.MovesArePaidFor | backend/app/workflows/vertical_recovery.py:39-66 | without operator moves, state changes over any run are paid from a potential of rank and one pending payment |
| Settlement.EveryCaseSettles | backend/app/services/payment_reconciliation_service.py:151-164 | from any moment of any run a case changes state at most 11 times (8 if its payment is not pending) plus 3 for each reopening through the table |
| Settlement.ChangesAreMoves | backend/app/workflows/vertical_recovery.py:104-125 | every call that changes a case's state is counted among those moves |
| Settlement.OperatorMovesAreUnbounded | backend/app/services/recovery_case_service.py:169-175 | operator moves have to be left out: they can move a case any number of times |
| IdentityRuns.OneCasePerProblem | backend/app/services/event_to_case_engine.py:139-225 | in every run case keys and triggers are distinct, customers and payments distinct by provider and external id, and every reference is to a row |
| IdentityRuns.EventKeepsDistinct | backend/app/services/event_to_case_engine.py:118-225 | an event never duplicates a customer, a payment or a problem |
| Evaluation.BuildScenarios | backend/app/evaluation/simulator.py:94-148 | the batch of a seed, scenario by scenario; a count below one is refused |
| Evaluation.ScenariosExactly | backend/app/evaluation/simulator.py:94-148 | scenario by scenario: class every five, repeat every eleven, and the amount stepping by 137 and 17 within 1000 to 9999 |
| Evaluation.RunOne | backend/app/evaluation/simulator.py:171-229 | what the policy's verdict and the simulated provider make of a scenario |
| Evaluation.SimulationExactly | backend/app/evaluation/simulator.py:171-229 | decision, recovery, failure and disposition of any scenario, on its fields |
| Evaluation.CalculateMetrics | backend/app/evaluation/metrics.py:42-74 | every count and sum of a batch, its four rates, and the table of ground truths with exactly those that occur |
| Evaluation.CountedExactly | backend/app/evaluation/metrics.py:45-55 | what each figure counts |
| Evaluation.RateIsNearest | backend/app/evaluation/metrics.py:34-39 | a rate is the nearest ten-thousandth, of two equally near the even one, and zero over zero |
| Evaluation.ShareIsARate | backend/app/evaluation/metrics.py:34-39 | the rate of a part of a whole lies between zero and one, and is one for the whole |
| Evaluation.BatchCountsAreExact | backend/app/evaluation/simulator.py:119-147 | for every seed 55m scenarios give 44m at risk, 20m recovered, 20m failures, 10m escalations, 10m verifications, 5m rejected, 5m stopped |
| Evaluation.EvaluateBatch | backend/app/evaluation/metrics.py:34-74 | so built, run and measured, the batch has case recovery rate 0.4545, accuracy 0.2000 and safety rate 1 whatever the seed, and recovers no more than is at risk |
| StrategySelection.EstimateProbability | backend/app/services/intelligence/probability_estimator.py:57-92 | the accumulated logit is a base plus a weight of the action, squashed and clamped |
| StrategySelection.RiskCosts | backend/app/services/intelligence/probability_estimator.py:84-85 | a risk score of 70 or more costs 1.2 |
| StrategySelection.AttemptsCost | backend/app/services/intelligence/probability_estimator.py:60-63 | the second prior attempt costs 0.92, the third and fourth 0.25 each, any other nothing |
| StrategySelection.SuccessPays | backend/app/services/intelligence/probability_estimator.py:65-68 | the success rate counts by 0.55 between zero and one |
| StrategySelection.EstimateStartsAt | backend/app/services/intelligence/probability_estimator.py:27-38 | the point the differences start from |
| StrategySelection.ActionsPay | backend/app/services/intelligence/probability_estimator.py:71-81 | what each action adds |
| StrategySelection.EstimateMoves | backend/app/services/intelligence/probability_estimator.py:57-92 | under any sigmoid that never falls, more risk, more attempts and a lower success rate never raise an estimate, which stays within 0.01 and 0.99 |
| StrategySelection.SelectStrategy | backend/app/services/intelligence/strategy_selector.py:130-230 | builds, filters, ranks and selects as specified |
| StrategySelection.ChoiceExactly | backend/app/services/intelligence/strategy_selector.py:79-230 | which strategies may be chosen, what each is offered at, and that the choice is the earliest of the best; its confidence; and the answer for an ended case |
| StrategySelection.RankingPermutes | backend/app/services/intelligence/strategy_selector.py:208-209 | the ranking is a descending permutation of the candidates |
| StrategySelection.WinnerIsEarliestMaximum | backend/app/services/intelligence/strategy_selector.py:195-215 | the winner has the largest net value of the eligible candidates, the earliest in catalogue order among equals |
| StrategySelection.HighRiskIsNeverAutomated | backend/app/services/intelligence/strategy_selector.py:199-206 | high risk leaves only manual review or no action |
| StrategySelection.PermittedRetryDominates | backend/app/services/intelligence/strategy_catalog.py:48-150 | whenever retry is permitted it wins if and only if its gross value exceeds that of stopping by its cost, and otherwise no action wins |
| StrategySelection.ShadowedStrategiesLose | backend/app/services/intelligence/strategy_catalog.py:48-150 | the customer reminder is never selected, manual review only under high risk |
| StrategySelection.GrossIsNearest | backend/app/services/intelligence/strategy_selector.py:171-177 | each gross value is within half a minor unit of amount times probability and never above the amount |
| StrategySelection.ConfidenceIsCapped | backend/app/services/intelligence/strategy_selector.py:217-230 | the reported confidence never exceeds that of the failure classification |
| Backoff.ChainRetriesThenEscalates | backend/app/resilience/recovery.py:126-155 | fed back into itself the schedule gives exactly max_attempts - 1 retries, of delay min(base * 2^i, cap), and then escalates |
| Backoff.OnlyTransientFailuresRetry | backend/app/resilience/recovery.py:99-155 | for every kind of failure and every starting attempt: only timeouts, transient and unknown errors are retried, as often as attempts are left; a chain ends in verification of an uncertain outcome, in stopping a duplicate, else in escalation |
| Backoff.RetriesFollowDelays | backend/app/resilience/recovery.py:133-141 | each retry is due its delay after the one before |
| Backoff.DelaysNeverDecrease | backend/app/resilience/recovery.py:133-137 | delays never decrease along the chain |
| Backoff.TotalWaitIsBounded | backend/app/resilience/recovery.py:133-137 | the whole wait is at most base * (2^(max_attempts-1) - 1) and at most max_attempts - 1 caps |
| Redaction.SanitizeMetadata | backend/app/services/event_normalizer.py:86-104 | the recursive loop computes the redacted form |
| Redaction.SensitiveExactly | backend/app/services/event_normalizer.py:25-38 | a key is sensitive if and only if it mentions one of twelve words, in whatever case |
| Redaction.CardNumbersMatch | backend/app/services/event_normalizer.py:99-102 | a string holds a card number if and only if the regular expression matches 13 to 19 digits in it |
| Redaction.PlainNumbersAreHiddenExactly | backend/app/services/event_normalizer.py:99-102 | a string of digits alone is hidden if and only if there are 13 to 19 of them |
| Redaction.RedactionCleans | backend/app/services/event_normalizer.py:86-104 | at no depth does a card number or an unmarked sensitive key remain |
| Redaction.CleanDataIsFixed | backend/app/services/event_normalizer.py:86-104 | redaction changes nothing if and only if the data is clean already |
| Redaction.RedactionIsIdempotent | backend/app/services/event_normalizer.py:86-104 | redacting twice is redacting once |
| Redaction.PlacesAreKept | backend/app/services/event_normalizer.py:86-104 | off sensitive keys every path leads to the redacted form of what it led to |
| Redaction.HarmlessValuesComeThrough | backend/app/services/event_normalizer.py:86-104 | keys, list lengths and harmless values come through unchanged |
| Redaction.HiddenValuesAreGone | backend/app/services/event_normalizer.py:86-104 | nothing under a sensitive key can be reached any more |

## Left out

- Routes, authentication, middleware, sockets and the frontend: input and output only.
- SQL itself: tables are sequences and one map, row ids are positions, deletion does not occur. Text that serves as a case key stays text.
- Autoflush: it decides what the orchestrator's second audit query sees and is an input there; the other services' queries are taken to see earlier writes of the same call.
- Clocks, random ids and opening or closing times: times are integers handed in, ids are positions, the two dates are dropped.
- SHA-256 and JSON serialisation of the fingerprint: the tuple of normalised fields is the fingerprint.
- Normalisation of provider names, currencies and failure codes, white space and case folding of keys: inputs are taken as normalised.
- Prioritiser, risk assessor, failure analysis and the attribution check: their results are inputs of a step.
- `RiskCaseService`: it opens cases without looking at the trigger transaction, so it is not among the steps of a run, and one case per payment is stated for the event engine and the operator service only.
- Rollback by the winner of a concurrent receipt: in `Receipts` an inserted row stays.
- Lost updates between concurrent sessions on one case row: every service call is atomic.
- The payment adapter answers only SUBMITTED, SUCCEEDED, FAILED or UNKNOWN, as its simulation and status mapping do; live calls and latency are left out. Each request has its own adapter, as the route builds it.
- The stale `case.attempts` collection after a failed dispatch: whether it was reloaded is an input, and the theorems hold either way.
- Uniqueness of attempt numbers and execution keys: both are shown never to clash (`CaseRuns.LogsStayNumbered`, `DispatchRuns.DispatchesOnFileAreBounded`) rather than modelled as errors.
- The times of state changes: a reconciliation batch takes them as an input; rows that tie in an order by time are taken in row order, where the queries leave it open.
- The vertical run's agent and tool: what the agent answers is an input of the run, and a tool that raises is not modelled.
- Databases not grown from the empty one, such as seed data and fixtures: the theorems of `LockRuns` do not speak of them; those that start from an arbitrary world state what they need of it.
- Communication and support-task steps complete without effect, as in the source.
- Floating point in the estimator: the logit is real arithmetic and the rounded sigmoid any non-decreasing function.
- Evaluation.CalculateMetrics: does not model the rounding of a quotient to 28 digits before its rounding to four.
- Unicode digits, letters and case in `Redaction`: only the ASCII ones; `str(key)` of keys that are not strings.
- Where two checks differ the code is followed: revalidation lets a consent expire after `expires_at`, the policy at it; policy evaluation counts cancelled retries towards escalation, although the retry rule does not.
