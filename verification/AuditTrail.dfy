/** The audit trail over whole runs: it tells of every logged change of state, in order. */
module AuditTrail {
  import opened Domain
  import opened CaseLog
  import opened Store
  import opened System
  import opened Evolution
  import opened Workflows
  import opened WorkflowSteps
  import CaseService
  import EventEngine
  import Ingestion
  import Lifecycle
  import PolicyEngine
  import PolicyRules
  import Recommendations
  import Reconciliation
  import Safety

  predicate AllAudited(db: Database) {
    forall id :: 0 <= id < |db.cases| ==> Audited(db.cases[id])
  }

  lemma NewCaseIsAudited(customer: nat, trigger: nat, key: string, priority: int)
    ensures Audited(EventEngine.NewCase(customer, trigger, key, priority))
  {
    var c := EventEngine.NewCase(customer, trigger, key, priority);
    assert c.audits[..0] == [] && c.transitions[..0] == [];
  }

  lemma OpenedCaseIsAudited(customer: nat, trigger: nat, key: string, priority: int, failureCount: Option<int>)
    ensures Audited(CaseService.OpenedCase(customer, trigger, key, priority, failureCount))
  {
    var c := CaseService.OpenedCase(customer, trigger, key, priority, failureCount);
    assert c.audits[..0] == [];
  }

  lemma EventKeepsTrail(db: Database, e: EventEngine.Event, priority: int)
    requires AllAudited(db)
    ensures AllAudited(EventEngine.AfterEvent(db, e, priority).0)
  {
    hide Audited, EventEngine.DeriveCaseKey, EventEngine.MatchCase, EventEngine.Provision, EventEngine.Resolved, EventEngine.Refailed,
      EventEngine.NewCase;
    if EventEngine.Creates(e) || EventEngine.Resolves(e) {
      var (ready, customer, transaction) := EventEngine.Provision(db, e);
      var key := EventEngine.DeriveCaseKey(e);
      var existing := EventEngine.MatchCase(ready, key, transaction);
      NewCaseIsAudited(customer, transaction, key, priority);
      assert EventEngine.MatchCase(ready, key, transaction).None? ==> FindCaseByKey(ready, key).None?;
      if existing.Some? {
        SuccessTells(ready.cases[existing.value]);
        FailureTells(ready.cases[existing.value], priority);
      }
    }
  }

  lemma SuccessTells(c: Case)
    ensures Audited(c) && !Terminal(c.state) ==> Audited(EventEngine.Resolved(c))
  {
    if !Terminal(c.state) {
      MoveTells(c, Recovered, CaseRecovered);
    }
  }

  lemma FailureTells(c: Case, priority: int)
    ensures Audited(c) ==> Audited(EventEngine.Refailed(c, priority))
  {
    var d := c.(failureCount := Some(EventEngine.FailureCount(c) + 1), priority := priority, version := c.version + 1);
    AuditTells(d, CaseUpdated, Some(c.state), Some(c.state));
  }

  lemma DeliveryKeepsTrail(db: Database, d: Ingestion.Delivery)
    requires AllAudited(db)
    ensures AllAudited(Ingestion.Ingest(db, d))
  {
    hide Audited, EventEngine.AfterEvent;
    EventKeepsTrail(Ingestion.Received(db, d.event), d.event, d.priority);
  }

  lemma OperatorKeepsTrail(db: Database, step: Step)
    requires AllAudited(db) && (step.OpenCase? || step.OperatorMove? || step.EditCase?)
    ensures AllAudited(Commit(db, step))
  {
    hide Audited, CaseService.OpenedCase, CaseService.OperatorMoved, CaseService.Edited;
    match step {
      case OpenCase(r) =>
        OpenedCaseIsAudited(r.customer, r.transaction, CaseService.RequestedKey(r), r.priority, r.failureCount);
      case OperatorMove(id, to) =>
        if id < |db.cases| && to != db.cases[id].state {
          OperatorTells(db.cases[id], to);
        }
      case EditCase(id, priority, metadata) =>
        if id < |db.cases| {
          EditTells(db.cases[id], priority, metadata);
        }
    }
  }

  lemma OperatorTells(c: Case, to: CaseState)
    requires to != c.state
    ensures Audited(c) ==> Audited(CaseService.OperatorMoved(c, to))
  {
    MoveTells(c, to, StateTransition);
  }

  lemma EditTells(c: Case, priority: Option<int>, metadata: Option<CaseService.MetadataEdit>)
    ensures Audited(c) ==> Audited(CaseService.Edited(c, priority, metadata))
  {
    var d := CaseService.Edited(c, priority, metadata);
    assert d.audits[..|c.audits|] == c.audits;
  }

  lemma AdviceTells(c: Case)
    ensures Audited(c) ==> Audited(Recommendations.Advised(c))
  {
    var recorded := RecordAudit(c, RecommendationGenerated, Some(c.state), Some(c.state));
    AuditTells(c, RecommendationGenerated, Some(c.state), Some(c.state));
    if c.state.Detected? {
      MoveTells(recorded, AwaitingDecision, StateTransition);
    }
  }

  lemma JudgementTells(c: Case, target: Option<CaseState>)
    ensures Audited(c) ==> Audited(PolicyEngine.Judged(c, target))
  {
    if target.Some? && target.value != c.state {
      MoveTells(c, target.value, PolicyEvaluated);
    } else {
      AuditTells(c, PolicyEvaluated, Some(c.state), Some(c.state));
    }
  }

  lemma EvaluationKeepsTrail(db: Database, request: PolicyEngine.PolicyRequest, config: PolicyRules.PolicyConfig, now: int)
    requires AllAudited(db)
    ensures AllAudited(PolicyEngine.AfterEvaluation(db, request, config, now).0)
  {
    hide Audited, PolicyEngine.RunRules, PolicyRules.Aggregate, PolicyEngine.Target, PolicyEngine.Judged;
    if PolicyEngine.Fresh(db, request) {
      var c := db.cases[request.caseId];
      var (status, reasons) := PolicyRules.Aggregate(PolicyEngine.RunRules(db, request, config, now));
      JudgementTells(c, PolicyEngine.Target(status, c.state, reasons));
    }
  }

  lemma VerticalTells(c: Case, id: nat, verdict: Safety.SafetyOutcome, action: ActionType, now: int)
    requires Lifecycle.AfterJudgement(c, id, verdict, action, now).Ok?
    ensures Audited(c) ==> Audited(Lifecycle.AfterJudgement(c, id, verdict, action, now).value)
  {
    hide TableTransition, Told, Moved;
    if verdict.Allow? {
      var pending := TableTransition(c, ActionPending).value;
      TableTells(c, ActionPending);
      TableTells(pending.(attempts := pending.attempts + [Lifecycle.PlannedAttempt(id, |c.attempts| + 1, action, now)]), VerificationPending);
    } else {
      TableTells(c, if verdict.EscalateCase? then Escalated else Stopped);
    }
  }

  lemma AwaitingTells(c: Case)
    requires Lifecycle.AwaitingAgent(c).Ok?
    ensures Audited(c) ==> Audited(Lifecycle.AwaitingAgent(c).value)
  {
    TableTells(c, ContextReady);
    TableTells(TableTransition(c, ContextReady).value, AwaitingDecision);
  }

  lemma LifecycleKeepsTrail(db: Database, step: Step)
    requires AllAudited(db) && (step.Transition? || step.VerticalRun? || step.Recommend?)
    ensures AllAudited(Commit(db, step))
  {
    hide Audited, TableTransition, Lifecycle.AwaitingAgent, Lifecycle.AfterJudgement, Safety.SafetyOf, Recommendations.Advised;
    match step {
      case Transition(id, to) =>
        if id < |db.cases| && TableTransition(db.cases[id], to).Ok? {
          TableTells(db.cases[id], to);
        }
      case Recommend(id, _, _, _) =>
        if id < |db.cases| {
          AdviceTells(db.cases[id]);
        }
      case VerticalRun(r) =>
        if Lifecycle.AfterVerticalRun(db, r).Ok? {
          var c := Lifecycle.AwaitingAgent(db.cases[r.caseId]).value;
          var context := Lifecycle.AgentContext(c, r.caseId, db.transactions[r.transaction].status, r.action);
          AwaitingTells(db.cases[r.caseId]);
          VerticalTells(c, r.caseId, Safety.SafetyOf(context, r.config), r.action, r.now);
        }
    }
  }

  lemma ResolutionTells(c: Case, resolution: Option<Reconciliation.Resolution>)
    requires Reconciliation.Resolved(c, resolution).Ok?
    ensures Audited(c) ==> Audited(Reconciliation.Resolved(c, resolution).value)
  {
    match resolution {
      case None =>
      case Some(ResolvedToSucceeded) => if c.state.VerificationPending? { TableTells(c, Recovered); }
      case Some(ResolvedToFailed) => if c.state.VerificationPending? { TableTells(c, RetryEligible); }
      case Some(EscalatedForReview) => if !c.state.Escalated? && !c.state.Closed? { TableTells(c, Escalated); }
    }
  }

  lemma NoteTells(c: Case)
    requires Reconciliation.Noted(c).Ok?
    ensures Audited(c) ==> Audited(Reconciliation.Noted(c).value)
  {
    assert Reconciliation.Noted(c).value.audits[..|c.audits|] == c.audits;
  }

  lemma ReconcileKeepsTrail(db: Database, id: nat, q: Reconciliation.Inquiry)
    requires AllAudited(db)
    ensures AllAudited(Reconciliation.Reconcile(db, id, q))
  {
    hide Audited, Reconciliation.ResolutionOf, Reconciliation.ProviderStatus, Reconciliation.Resolved, Reconciliation.Noted;
    if Reconciliation.AfterReconcile(db, id, q).Ok? {
      var c := db.cases[id];
      var resolution := Reconciliation.ResolutionOf(db, c, Reconciliation.ProviderStatus(db, c, id, q), q);
      ResolutionTells(c, resolution);
      NoteTells(Reconciliation.Resolved(c, resolution).value);
    }
  }

  lemma NextStepKeepsTrail(db: Database, gateway: seq<Submission>, id: nat, x: Circumstances)
    requires AllAudited(db) && AfterNextStep(db, gateway, id, x).result.Ok?
    ensures AllAudited(AfterNextStep(db, gateway, id, x).result.value)
  {
    hide Audited;
    var next := FirstReady(db.workflows[id].steps);
    if next.Some? {
      NextStepIsOnlyStep(db, gateway, id, x, next.value);
    }
  }

  lemma RoundKeepsTrail(db: Database, gateway: seq<Submission>, id: nat, x: Circumstances)
    requires AllAudited(db)
    ensures match AfterRound(db, gateway, id, x)
            case Continues(after, _) => AllAudited(after)
            case Ends(all) => all.ran.result.Ok? ==> AllAudited(all.ran.result.value)
  {
    hide Audited, AfterNextStep;
    if AfterNextStep(db, gateway, id, x).result.Ok? {
      NextStepKeepsTrail(db, gateway, id, x);
    }
  }

  lemma AllStepsKeepTrail(db: Database, gateway: seq<Submission>, id: nat, x: Circumstances)
    requires AllAudited(db) && AfterAllSteps(db, gateway, id, x).ran.result.Ok?
    ensures AllAudited(AfterAllSteps(db, gateway, id, x).ran.result.value)
  {
    hide AllAudited, AfterRound;
    var round := RoundOf(id, x);
    var inv := (d: Database, g: seq<Submission>) => AllAudited(d);
    forall d, g | inv(d, g) && round(d, g).Continues? ensures inv(round(d, g).db, round(d, g).gateway) {
      RoundKeepsTrail(d, g, id, x);
    }
    var d, g := LoopKeeps(round, inv, db, gateway, |db.workflows[id].steps| + 2);
    RoundKeepsTrail(d, g, id, x);
  }

  lemma StepKeepsTrail(w: World, step: Step)
    requires AllAudited(w.db)
    ensures AllAudited(Apply(w, step).db)
  {
    hide Audited, AfterNextStep, AfterAllSteps, AfterCreateWorkflow, Ingestion.Ingest, Reconciliation.Reconcile,
      PolicyEngine.AfterEvaluation, Recommendations.AfterRecommend, Lifecycle.AfterVerticalRun;
    match step {
      case Deliver(d) => DeliveryKeepsTrail(w.db, d);
      case ExecuteNext(id, x) =>
        if AfterNextStep(w.db, w.gateway, id, x).result.Ok? { NextStepKeepsTrail(w.db, w.gateway, id, x); }
      case ExecuteAll(id, x) =>
        if AfterAllSteps(w.db, w.gateway, id, x).ran.result.Ok? { AllStepsKeepTrail(w.db, w.gateway, id, x); }
      case ReconcileCase(id, q) => ReconcileKeepsTrail(w.db, id, q);
      case Evaluate(request, config, now) => EvaluationKeepsTrail(w.db, request, config, now);
      case CreateWorkflow(decision) => CreationKeepsCases(w.db, decision);
      case _ => OthersKeepTrail(w.db, step);
    }
  }

  lemma CreationKeepsCases(db: Database, decision: nat)
    ensures OrKeep(db, AfterCreateWorkflow(db, decision)).cases == db.cases
  {
  }

  lemma OthersKeepTrail(db: Database, step: Step)
    requires AllAudited(db)
    requires !step.Deliver? && !step.ExecuteNext? && !step.ExecuteAll? && !step.ReconcileCase? && !step.Evaluate? && !step.CreateWorkflow?
    ensures AllAudited(Commit(db, step))
  {
    hide Audited, Recommendations.AfterRecommend, Lifecycle.AfterVerticalRun, Lifecycle.AfterTransition, CaseService.AfterOpen,
      CaseService.AfterOperatorMove, CaseService.AfterEdit;
    if step.OpenCase? || step.OperatorMove? || step.EditCase? {
      OperatorKeepsTrail(db, step);
    } else if step.Transition? || step.VerticalRun? || step.Recommend? {
      LifecycleKeepsTrail(db, step);
    } else {
      assert Commit(db, step).cases == db.cases;
    }
  }

  /** In every run of all services the audit log of every case tells of exactly the moves its
      transition log holds, from state to state and in order. */
  lemma {:induction false} TrailIsComplete(w: World, steps: seq<Step>)
    requires AllAudited(w.db)
    ensures AllAudited(Run(w, steps).db)
    decreases steps
  {
    hide Apply, AllAudited;
    if steps != [] {
      StepKeepsTrail(w, steps[0]);
      TrailIsComplete(Apply(w, steps[0]), steps[1..]);
    }
  }
}
