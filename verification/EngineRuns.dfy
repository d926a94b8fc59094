/** The event engine's bookkeeping over whole runs: failure counts, events that come too late,
    versions, and deliveries that come again. */
module EngineRuns {
  import opened Domain
  import opened CaseLog
  import opened Store
  import opened System
  import opened Evolution
  import opened EventEngine
  import opened Workflows
  import opened WorkflowSteps
  import opened CaseRuns
  import CaseService
  import IdentityRuns
  import Ingestion
  import Lifecycle
  import PolicyEngine
  import PolicyRules
  import Reconciliation
  import Safety

  // ----------------------------------------------------------- failure counts

  /** The failures counted for a case; none before it is opened. */
  function Counted(db: Database, id: nat): int {
    if id < |db.cases| then FailureCount(db.cases[id]) else 0
  }

  /** Whether a delivery reported the failure to this case, opening it or updating it. */
  predicate Reports(db: Database, d: Ingestion.Delivery, id: nat) {
    var r := Ingestion.AfterIngest(db, d);
    r.Ok? && (r.value.1 == Ingestion.Accepted(CaseCreated(id)) || r.value.1 == Ingestion.Accepted(CaseReported(id)))
  }

  /** What a call adds to a case's count: a failure reported to it, or what an operator who opens
      it states. */
  function Adds(w: World, step: Step, id: nat): int {
    match step
    case Deliver(d) => if Reports(w.db, d, id) then 1 else 0
    case OpenCase(r) =>
      if CaseService.AfterOpen(w.db, r).Ok? && id == |w.db.cases| then
        if r.failureCount.Some? then r.failureCount.value else 1
      else 0
    case _ => 0
  }

  predicate SetsCount(step: Step, id: nat) {
    step.EditCase? && step.caseId == id && step.metadata.Some? && step.metadata.value.failureCount.Some?
  }

  lemma EventCounts(db: Database, e: Event, priority: int, id: nat)
    ensures var (after, outcome) := AfterEvent(db, e, priority);
      Counted(after, id) == Counted(db, id) + (if outcome == CaseCreated(id) || outcome == CaseReported(id) then 1 else 0)
  {
    if Creates(e) || Resolves(e) {
      var (ready, customer, transaction) := Provision(db, e);
      var existing := MatchCase(ready, DeriveCaseKey(e), transaction);
      if Resolves(e) {
        SuccessCounts(ready, existing, transaction, id);
      } else if existing.Some? {
        FailureCounts(ready, existing.value, priority, id);
      } else {
        CreationCounts(ready, customer, transaction, DeriveCaseKey(e), priority, id);
      }
    }
  }

  lemma SuccessCounts(db: Database, existing: Option<nat>, transaction: nat, id: nat)
    requires existing.Some? ==> existing.value < |db.cases|
    requires transaction < |db.transactions|
    ensures var (after, outcome) := AfterSuccess(db, existing, transaction);
      Counted(after, id) == Counted(db, id) && !outcome.CaseCreated? && !outcome.CaseReported?
  {
  }

  lemma FailureCounts(db: Database, found: nat, priority: int, id: nat)
    requires found < |db.cases|
    ensures var (after, outcome) := AfterFailure(db, found, priority);
      && !outcome.CaseCreated?
      && Counted(after, id) == Counted(db, id) + (if outcome == CaseReported(id) then 1 else 0)
  {
  }

  lemma CreationCounts(db: Database, customer: nat, transaction: nat, key: string, priority: int, id: nat)
    ensures var (after, outcome) := AfterCreation(db, customer, transaction, key, priority);
      Counted(after, id) == Counted(db, id) + (if outcome == CaseCreated(id) || outcome == CaseReported(id) then 1 else 0)
  {
    var byKey := FindCaseByKey(db, key);
    if byKey.Some? {
      FailureCounts(db, byKey.value, priority, id);
    }
  }

  lemma DeliveryCounts(db: Database, d: Ingestion.Delivery, id: nat)
    ensures Counted(Ingestion.Ingest(db, d), id) == Counted(db, id) + (if Reports(db, d, id) then 1 else 0)
  {
    EventCounts(Ingestion.Received(db, d.event), d.event, d.priority, id);
  }

  lemma ExecutionCounts(w: World, step: Step, id: nat)
    requires step.ExecuteNext? || step.ExecuteAll?
    ensures Counted(Apply(w, step).db, id) == Counted(w.db, id)
  {
    match step {
      case ExecuteNext(workflow, x) => NextStepCounts(w.db, w.gateway, workflow, x, id);
      case ExecuteAll(workflow, x) => AllStepsCount(w.db, w.gateway, workflow, x, id);
    }
  }

  lemma NextStepCounts(db: Database, gateway: seq<Submission>, workflow: nat, x: Circumstances, id: nat)
    ensures var ran := AfterNextStep(db, gateway, workflow, x);
      ran.result.Ok? ==> Counted(ran.result.value, id) == Counted(db, id)
  {
    if AfterNextStep(db, gateway, workflow, x).result.Ok? && FirstReady(db.workflows[workflow].steps).Some? {
      NextStepIsOnlyStep(db, gateway, workflow, x, FirstReady(db.workflows[workflow].steps).value);
    }
  }

  lemma AllStepsCount(db: Database, gateway: seq<Submission>, workflow: nat, x: Circumstances, id: nat)
    ensures var ran := AfterAllSteps(db, gateway, workflow, x).ran;
      ran.result.Ok? ==> Counted(ran.result.value, id) == Counted(db, id)
  {
    hide Apply;
    if workflow < |db.workflows| {
      var round := RoundOf(workflow, x);
      var inv := (d: Database, g: seq<Submission>) => Counted(d, id) == Counted(db, id);
      forall d, g | inv(d, g) && round(d, g).Continues? ensures inv(round(d, g).db, round(d, g).gateway) {
        NextStepCounts(d, g, workflow, x, id);
      }
      var d, g := LoopKeeps(round, inv, db, gateway, |db.workflows[workflow].steps| + 2);
      NextStepCounts(d, g, workflow, x, id);
    }
  }

  lemma StepCounts(w: World, step: Step, id: nat)
    requires !SetsCount(step, id)
    ensures Counted(Apply(w, step).db, id) == Counted(w.db, id) + Adds(w, step, id)
  {
    match step {
      case Deliver(d) => DeliveryCounts(w.db, d, id);
      case ExecuteNext(_, _) => ExecutionCounts(w, step, id);
      case ExecuteAll(_, _) => ExecutionCounts(w, step, id);
      case OpenCase(_) => OperatorCounts(w, step, id);
      case OperatorMove(_, _) => OperatorCounts(w, step, id);
      case EditCase(_, _, _) => OperatorCounts(w, step, id);
      case _ => OthersCountNothing(w.db, step, id);
    }
  }

  lemma OthersCountNothing(db: Database, step: Step, id: nat)
    requires !step.Deliver? && !step.ExecuteNext? && !step.ExecuteAll?
    requires !step.OpenCase? && !step.OperatorMove? && !step.EditCase?
    ensures Counted(Commit(db, step), id) == Counted(db, id)
  {
    hide Apply, PolicyEngine.RunRules, PolicyRules.Aggregate, Reconciliation.ResolutionOf, Reconciliation.ProviderStatus;
    match step {
      case VerticalRun(r) => VerticalRunCountsNothing(db, r, id);
      case ReconcileCase(caseId, q) => ReconcileCountsNothing(db, caseId, q, id);
      case Evaluate(request, config, now) => EvaluationCountsNothing(db, request, config, now, id);
      case _ =>
    }
  }

  lemma VerticalRunCountsNothing(db: Database, r: Lifecycle.VerticalRequest, id: nat)
    ensures Counted(OrKeep(db, Lifecycle.AfterVerticalRun(db, r)), id) == Counted(db, id)
  {
    hide Safety.SafetyOf;
  }

  lemma ReconcileCountsNothing(db: Database, caseId: nat, q: Reconciliation.Inquiry, id: nat)
    ensures Counted(Reconciliation.Reconcile(db, caseId, q), id) == Counted(db, id)
  {
    hide Reconciliation.ResolutionOf, Reconciliation.ProviderStatus;
  }

  lemma EvaluationCountsNothing(db: Database, request: PolicyEngine.PolicyRequest, config: PolicyRules.PolicyConfig, now: int, id: nat)
    ensures Counted(PolicyEngine.AfterEvaluation(db, request, config, now).0, id) == Counted(db, id)
  {
    hide PolicyEngine.RunRules, PolicyRules.Aggregate;
  }

  lemma OperatorCounts(w: World, step: Step, id: nat)
    requires (step.OpenCase? || step.OperatorMove? || step.EditCase?) && !SetsCount(step, id)
    ensures Counted(Commit(w.db, step), id) == Counted(w.db, id) + Adds(w, step, id)
  {
    hide Apply;
  }

  function AddsInRun(w: World, steps: seq<Step>, id: nat): int
    decreases steps
  {
    if steps == [] then 0 else Adds(w, steps[0], id) + AddsInRun(Apply(w, steps[0]), steps[1..], id)
  }

  /** Whatever else happens, a case's failure count is the number of failures reported to it (on
      top of what an operator who opened it stated), unless an edit of that entry overwrites it. */
  lemma {:induction false} FailureCountCountsReports(w: World, steps: seq<Step>, id: nat)
    requires forall k :: 0 <= k < |steps| ==> !SetsCount(steps[k], id)
    ensures Counted(Run(w, steps).db, id) == Counted(w.db, id) + AddsInRun(w, steps, id)
    decreases steps
  {
    hide Apply;
    if steps != [] {
      assert !SetsCount(steps[0], id);
      StepCounts(w, steps[0], id);
      FailureCountCountsReports(Apply(w, steps[0]), steps[1..], id);
    }
  }

  // -------------------------------------------------------------- late events

  /** Failures of an ended case, or of a payment that succeeded, come too late. */
  predicate TooLate(db: Database, id: nat, e: Event) {
    id < |db.cases| && (Terminal(db.cases[id].state) || (!Resolves(e) && TriggerHas(db, db.cases[id], TxSucceeded)))
  }

  lemma LateEventIsIgnored(db: Database, d: Ingestion.Delivery, id: nat)
    requires TooLate(db, id, d.event)
    ensures id < |Ingestion.Ingest(db, d).cases| && Ingestion.Ingest(db, d).cases[id] == db.cases[id]
  {
    LateForEngine(Ingestion.Received(db, d.event), d.event, d.priority, id);
  }

  lemma LateForEngine(db: Database, e: Event, priority: int, id: nat)
    requires TooLate(db, id, e)
    ensures var after := AfterEvent(db, e, priority).0; id < |after.cases| && after.cases[id] == db.cases[id]
  {
    if Creates(e) || Resolves(e) {
      var (ready, customer, transaction) := Provision(db, e);
      var existing := MatchCase(ready, DeriveCaseKey(e), transaction);
      ProvisionFollows(db, e);
      if TriggerHas(db, db.cases[id], TxSucceeded) {
        assert PaymentEvolves(db.transactions[db.cases[id].trigger], ready.transactions[db.cases[id].trigger]);
      }
      if Resolves(e) {
        assert AfterSuccess(ready, existing, transaction).0.cases[id] == db.cases[id];
      } else if existing.Some? {
        assert AfterFailure(ready, existing.value, priority).0.cases[id] == db.cases[id];
      } else {
        assert AfterCreation(ready, customer, transaction, DeriveCaseKey(e), priority).0.cases[id] == db.cases[id];
      }
    }
  }

  /** No stream of failure events changes a case, its logs or its count once it has ended or its
      payment has succeeded. */
  lemma {:induction false} LateFailuresChangeNothing(w: World, steps: seq<Step>, id: nat)
    requires id < |w.db.cases| && (Terminal(w.db.cases[id].state) || TriggerHas(w.db, w.db.cases[id], TxSucceeded))
    requires forall k :: 0 <= k < |steps| ==> steps[k].Deliver? && !Resolves(steps[k].delivery.event)
    ensures id < |Run(w, steps).db.cases| && Run(w, steps).db.cases[id] == w.db.cases[id]
    decreases steps
  {
    if steps != [] {
      var d := steps[0].delivery;
      assert steps[0].Deliver? && !Resolves(d.event);
      LateEventIsIgnored(w.db, d, id);
      StepEvolves(w, steps[0]);
      if TriggerHas(w.db, w.db.cases[id], TxSucceeded) {
        var t := w.db.cases[id].trigger;
        assert PaymentEvolves(w.db.transactions[t], Apply(w, steps[0]).db.transactions[t]);
      }
      LateFailuresChangeNothing(Apply(w, steps[0]), steps[1..], id);
    }
  }

  // ----------------------------------------------------------------- versions

  predicate Versioned(db: Database) {
    forall j :: 0 <= j < |db.cases| ==> db.cases[j].version == |db.cases[j].audits|
  }

  /** The event engine, the operator service and the registry. */
  predicate EngineOrOperator(step: Step) {
    step.Deliver? || step.OpenCase? || step.OperatorMove? || step.EditCase? || step.RegisterCustomer?
    || step.RecordTransaction? || step.RegisterConsent? || step.RevokeConsent?
  }

  lemma EventKeepsVersions(db: Database, e: Event, priority: int)
    requires Versioned(db)
    ensures Versioned(AfterEvent(db, e, priority).0)
  {
    if Creates(e) || Resolves(e) {
      var (ready, customer, transaction) := Provision(db, e);
      var existing := MatchCase(ready, DeriveCaseKey(e), transaction);
      assert Versioned(ready);
      if Resolves(e) {
        assert Versioned(AfterSuccess(ready, existing, transaction).0);
      } else if existing.Some? {
        assert Versioned(AfterFailure(ready, existing.value, priority).0);
      } else {
        assert Versioned(AfterCreation(ready, customer, transaction, DeriveCaseKey(e), priority).0);
      }
    }
  }

  lemma DeliveryKeepsVersions(db: Database, d: Ingestion.Delivery)
    requires Versioned(db)
    ensures Versioned(Ingestion.Ingest(db, d))
  {
    EventKeepsVersions(Ingestion.Received(db, d.event), d.event, d.priority);
  }

  lemma OperatorKeepsVersions(db: Database, step: Step)
    requires Versioned(db) && (step.OpenCase? || step.OperatorMove? || step.EditCase?)
    ensures Versioned(Commit(db, step))
  {
    hide Apply;
  }

  lemma StepKeepsVersions(w: World, step: Step)
    requires Versioned(w.db) && EngineOrOperator(step)
    ensures Versioned(Apply(w, step).db)
  {
    if step.Deliver? {
      DeliveryKeepsVersions(w.db, step.delivery);
    } else if step.OpenCase? || step.OperatorMove? || step.EditCase? {
      OperatorKeepsVersions(w.db, step);
    } else {
      assert Apply(w, step).db.cases == w.db.cases;
    }
  }

  /** In runs of the engine and the operator service a case's version is the length of its audit
      log, which is numbered 1..n. */
  lemma {:induction false} VersionIsAuditLength(w: World, steps: seq<Step>)
    requires Versioned(w.db) && AllLogged(w.db)
    requires forall k :: 0 <= k < |steps| ==> EngineOrOperator(steps[k])
    ensures Versioned(Run(w, steps).db)
    ensures forall j :: 0 <= j < |Run(w, steps).db.cases| ==> AuditsNumbered(Run(w, steps).db.cases[j].audits)
    decreases steps
  {
    hide Apply;
    if steps != [] {
      assert EngineOrOperator(steps[0]);
      StepKeepsVersions(w, steps[0]);
      StepKeepsLogged(w, steps[0]);
      VersionIsAuditLength(Apply(w, steps[0]), steps[1..]);
    }
  }

  // ------------------------------------------------------------- redeliveries

  lemma KnownEventStaysKnown(w: World, steps: seq<Step>, again: Ingestion.Delivery)
    requires Ingestion.EventKey(again.event) in w.db.ledger
    ensures Apply(Run(w, steps), Deliver(again)) == Run(w, steps)
  {
    RunEvolves(w, steps);
    Ingestion.RepeatChangesNothing(Run(w, steps).db, again);
  }

  /** Once a valid delivery was made, delivering its (provider, event id) again changes nothing,
      whatever its payload and whatever the other services did in between. */
  lemma RedeliveryChangesNothing(before: seq<Step>, d: Ingestion.Delivery, between: seq<Step>, again: Ingestion.Delivery)
    requires Ingestion.ValidEvent(d.event, d.now) && Ingestion.EventKey(again.event) == Ingestion.EventKey(d.event)
    ensures var w := Run(START, before + ([Deliver(d)] + between));
      Apply(w, Deliver(again)) == w
  {
    var w := Run(START, before);
    RunAppend(START, before, [Deliver(d)] + between);
    assert ([Deliver(d)] + between)[1..] == between;
    Ingestion.IngestRecords(w.db, d);
    KnownEventStaysKnown(Apply(w, Deliver(d)), between, again);
  }
}
