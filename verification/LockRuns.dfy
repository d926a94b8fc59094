/** The lifecycle lock over whole runs: every approved case has uneven logs, so only refused
    dispatches are ever filed, and no workflow ever waits or comes under review. */
module LockRuns {
  import opened Domain
  import opened CaseLog
  import opened Store
  import opened System
  import opened Evolution
  import opened Workflows
  import opened WorkflowSteps
  import opened CaseRuns
  import opened DispatchRuns
  import Ingestion
  import Lifecycle
  import LostDispatches
  import PolicyEngine
  import PolicyRules
  import Recommendations
  import Reconciliation
  import WorkflowRuns

  // ---------------------------------------------------------- stale decisions

  /** A case whose logs are even has only decisions that are too old to be approved: each came
      with at least three changes of version. */
  predicate OnlyOldDecisions(db: Database, id: nat)
    requires id < |db.cases|
  {
    var c, n := db.cases[id], Lifecycle.DecisionCount(db.recommendations, id);
    Gap(c) >= 1 || (3 * n + 1 <= c.version && VersionsWithin(db.recommendations, id, n))
  }

  predicate VersionsWithin(rows: seq<Recommendation>, id: nat, n: int) {
    forall k :: 0 <= k < |rows| && rows[k].caseId == id ==> rows[k].version <= n
  }

  predicate DecisionsOk(db: Database) {
    && (forall k :: 0 <= k < |db.recommendations| ==> db.recommendations[k].caseId < |db.cases|)
    && (forall id :: 0 <= id < |db.cases| ==> OnlyOldDecisions(db, id))
  }

  lemma {:induction false} NoDecisionsAbout(rows: seq<Recommendation>, id: nat)
    requires forall k :: 0 <= k < |rows| ==> rows[k].caseId != id
    ensures Lifecycle.DecisionCount(rows, id) == 0
  {
    if rows != [] {
      NoDecisionsAbout(rows[..|rows| - 1], id);
    }
  }

  lemma {:induction false} SomeDecisionAbout(rows: seq<Recommendation>, id: nat, k: nat)
    requires k < |rows| && rows[k].caseId == id
    ensures Lifecycle.DecisionCount(rows, id) >= 1
  {
    if k < |rows| - 1 {
      SomeDecisionAbout(rows[..|rows| - 1], id, k);
    }
  }

  lemma {:induction false} ValidationCountsNothing(rows: seq<Recommendation>, at: nat, v: ValidationStatus, id: nat)
    requires at < |rows|
    ensures Lifecycle.DecisionCount(rows[at := rows[at].(validation := v)], id) == Lifecycle.DecisionCount(rows, id)
  {
    var last := |rows| - 1;
    if at < last {
      ValidationCountsNothing(rows[..last], at, v, id);
      assert rows[at := rows[at].(validation := v)][..last] == rows[..last][at := rows[at].(validation := v)];
    } else {
      assert rows[at := rows[at].(validation := v)][..last] == rows[..last];
    }
  }

  /** The same decisions, up to their validation. */
  ghost predicate SameDecisions(a: Database, b: Database) {
    && |b.recommendations| == |a.recommendations|
    && (forall k :: 0 <= k < |a.recommendations| ==>
          b.recommendations[k].caseId == a.recommendations[k].caseId
          && b.recommendations[k].version == a.recommendations[k].version)
    && (forall id: nat :: Lifecycle.DecisionCount(b.recommendations, id) == Lifecycle.DecisionCount(a.recommendations, id))
  }

  lemma EvolvingKeepsDecisions(a: Database, b: Database)
    requires DecisionsOk(a) && Evolves(a, b) && NewCasesAreOpened(a, b) && SameDecisions(a, b)
    ensures DecisionsOk(b)
  {
    forall id | 0 <= id < |b.cases| ensures OnlyOldDecisions(b, id) {
      if id < |a.cases| {
        assert OnlyOldDecisions(a, id) && CaseEvolves(a.cases[id], b.cases[id]);
      } else {
        NoDecisionsAbout(a.recommendations, id);
        assert JustOpened(b.cases[id]);
      }
    }
  }

  /** A decision that is added to a case: it locks the case, or comes with three versions. */
  lemma AddedDecisionKeeps(a: Database, b: Database, id: nat, row: Recommendation)
    requires DecisionsOk(a) && Evolves(a, b) && |b.cases| == |a.cases| && id < |a.cases|
    requires row.caseId == id && b.recommendations == a.recommendations + [row]
    requires Gap(b.cases[id]) >= 1 || (b.cases[id].version >= a.cases[id].version + 3
               && row.version == Lifecycle.DecisionCount(a.recommendations, id) + 1)
    ensures DecisionsOk(b)
  {
    assert b.recommendations[..|a.recommendations|] == a.recommendations;
    forall j | 0 <= j < |b.cases| ensures OnlyOldDecisions(b, j) {
      assert OnlyOldDecisions(a, j) && CaseEvolves(a.cases[j], b.cases[j]);
    }
  }

  lemma RecommendationLocks(c: Case)
    requires LogsOk(c)
    ensures Gap(Recommendations.Advised(c)) >= 1
  {
  }

  lemma VerticalRunAges(db: Database, r: Lifecycle.VerticalRequest)
    requires Lifecycle.AfterVerticalRun(db, r).Ok?
    ensures Lifecycle.AfterVerticalRun(db, r).value.cases[r.caseId].version >= db.cases[r.caseId].version + 3
  {
  }

  lemma OthersLeaveDecisions(w: World, step: Step)
    requires !step.Recommend? && !step.VerticalRun? && !step.Evaluate?
    ensures Apply(w, step).db.recommendations == w.db.recommendations && Apply(w, step).db.decisions == w.db.decisions
  {
    hide Ingestion.Ingest, Reconciliation.Reconcile, AfterNextStep, AfterAllSteps;
    match step {
      case ExecuteNext(id, x) =>
        if AfterNextStep(w.db, w.gateway, id, x).result.Ok? { NextStepFollows(w.db, w.gateway, id, x); }
      case ExecuteAll(id, x) => AllStepsFollow(w.db, w.gateway, id, x);
      case Deliver(d) => DeliveryLeavesPlans(w.db, d);
      case ReconcileCase(id, q) => ReconcileLeavesPlans(w.db, id, q);
      case _ =>
    }
  }

  lemma EvaluationKeepsDecisions(db: Database, request: PolicyEngine.PolicyRequest, config: PolicyRules.PolicyConfig, now: int)
    requires DecisionsOk(db)
    ensures DecisionsOk(PolicyEngine.AfterEvaluation(db, request, config, now).0)
  {
    var after := PolicyEngine.AfterEvaluation(db, request, config, now).0;
    EvaluationFollows(db, request, config, now);
    if PolicyEngine.Fresh(db, request) {
      var at := request.recommendation;
      forall id: nat ensures Lifecycle.DecisionCount(after.recommendations, id) == Lifecycle.DecisionCount(db.recommendations, id) {
        ValidationCountsNothing(db.recommendations, at, after.recommendations[at].validation, id);
      }
    }
    EvolvingKeepsDecisions(db, after);
  }

  lemma StepKeepsDecisions(w: World, step: Step)
    requires DecisionsOk(w.db) && AllLogged(w.db)
    ensures DecisionsOk(Apply(w, step).db)
  {
    hide AfterNextStep, AfterAllSteps, AfterCreateWorkflow, Ingestion.Ingest, Reconciliation.Reconcile, Recommendations.AfterRecommend, Lifecycle.AfterVerticalRun, PolicyEngine.AfterEvaluation, Lifecycle.AfterTransition;
    match step {
      case Recommend(id, action, score, autoflush) => RecommendKeepsDecisions(w.db, id, action, score, autoflush);
      case VerticalRun(r) => VerticalRunKeepsDecisions(w.db, r);
      case Evaluate(request, config, now) => EvaluationKeepsDecisions(w.db, request, config, now);
      case _ =>
        StepEvolves(w, step);
        OthersLeaveDecisions(w, step);
        EvolvingKeepsDecisions(w.db, Apply(w, step).db);
    }
  }

  lemma RecommendKeepsDecisions(db: Database, id: nat, action: ActionType, score: real, autoflush: bool)
    requires DecisionsOk(db) && AllLogged(db)
    ensures DecisionsOk(OrKeep(db, Recommendations.AfterRecommend(db, id, action, score, autoflush)))
  {
    if Recommendations.AfterRecommend(db, id, action, score, autoflush).Ok? {
      var after := Recommendations.AfterRecommend(db, id, action, score, autoflush).value;
      RecommendFollows(db, id, action, score, autoflush);
      RecommendationLocks(db.cases[id]);
      AddedDecisionKeeps(db, after, id, after.recommendations[|db.recommendations|]);
    }
  }

  lemma VerticalRunKeepsDecisions(db: Database, r: Lifecycle.VerticalRequest)
    requires DecisionsOk(db)
    ensures DecisionsOk(OrKeep(db, Lifecycle.AfterVerticalRun(db, r)))
  {
    if Lifecycle.AfterVerticalRun(db, r).Ok? {
      VerticalRunFollows(db, r);
      VerticalRunAges(db, r);
      AddedDecisionKeeps(db, Lifecycle.AfterVerticalRun(db, r).value, r.caseId, Lifecycle.Drafted(db, r));
    }
  }

  // ---------------------------------------------------------------- approvals

  predicate IsLocked(db: Database, d: PolicyDecision) {
    d.status.Approved? ==> d.caseId < |db.cases| && Gap(db.cases[d.caseId]) >= 1
  }

  predicate ApprovalsOk(db: Database) {
    forall k :: 0 <= k < |db.decisions| ==> IsLocked(db, db.decisions[k])
  }

  lemma EvolvingKeepsApprovals(a: Database, b: Database)
    requires ApprovalsOk(a) && Evolves(a, b) && b.decisions == a.decisions
    ensures ApprovalsOk(b)
  {
    forall k | 0 <= k < |b.decisions| ensures IsLocked(b, b.decisions[k]) {
      assert IsLocked(a, a.decisions[k]);
      if a.decisions[k].status.Approved? {
        assert CaseEvolves(a.cases[a.decisions[k].caseId], b.cases[a.decisions[k].caseId]);
      }
    }
  }

  /** A fresh approval is of a recommendation that is not too old, and so of a locked case. */
  lemma ApprovalFindsLock(db: Database, request: PolicyEngine.PolicyRequest, config: PolicyRules.PolicyConfig, now: int)
    requires DecisionsOk(db) && PolicyEngine.Fresh(db, request)
    requires PolicyEngine.AfterEvaluation(db, request, config, now).1.status.Approved?
    ensures Gap(db.cases[request.caseId]) >= 1
  {
    PolicyRules.AggregatePrecedence(PolicyEngine.RunRules(db, request, config, now));
    var rec := db.recommendations[request.recommendation];
    assert rec.caseId == request.caseId && rec.version >= db.cases[request.caseId].version - 2;
    assert OnlyOldDecisions(db, request.caseId);
    SomeDecisionAbout(db.recommendations, request.caseId, request.recommendation);
  }

  lemma EvaluationKeepsApprovals(db: Database, request: PolicyEngine.PolicyRequest, config: PolicyRules.PolicyConfig, now: int)
    requires DecisionsOk(db) && ApprovalsOk(db)
    ensures ApprovalsOk(PolicyEngine.AfterEvaluation(db, request, config, now).0)
  {
    if PolicyEngine.Fresh(db, request) {
      var (after, result) := PolicyEngine.AfterEvaluation(db, request, config, now);
      EvaluationFollows(db, request, config, now);
      if result.status.Approved? {
        ApprovalFindsLock(db, request, config, now);
      }
      assert CaseEvolves(db.cases[request.caseId], after.cases[request.caseId]);
      forall k | 0 <= k < |after.decisions| ensures IsLocked(after, after.decisions[k]) {
        if k < |db.decisions| {
          assert IsLocked(db, db.decisions[k]);
          if db.decisions[k].status.Approved? {
            assert CaseEvolves(db.cases[db.decisions[k].caseId], after.cases[db.decisions[k].caseId]);
          }
        }
      }
    }
  }

  lemma StepKeepsApprovals(w: World, step: Step)
    requires DecisionsOk(w.db) && ApprovalsOk(w.db)
    ensures ApprovalsOk(Apply(w, step).db)
  {
    hide AfterNextStep, AfterAllSteps, AfterCreateWorkflow, Ingestion.Ingest, Reconciliation.Reconcile, Recommendations.AfterRecommend, Lifecycle.AfterVerticalRun, PolicyEngine.AfterEvaluation, Lifecycle.AfterTransition;
    match step {
      case Evaluate(request, config, now) => EvaluationKeepsApprovals(w.db, request, config, now);
      case _ =>
        StepEvolves(w, step);
        OnlyEvaluationDecides(w, step);
        EvolvingKeepsApprovals(w.db, Apply(w, step).db);
    }
  }

  lemma OnlyEvaluationDecides(w: World, step: Step)
    requires !step.Evaluate?
    ensures Apply(w, step).db.decisions == w.db.decisions
  {
    if !step.Recommend? && !step.VerticalRun? {
      OthersLeaveDecisions(w, step);
    }
  }

  // ----------------------------------------------------------------- refusals

  /** The workflow neither waits nor is under review, and a dispatch it made has ended it. */
  predicate Unaccepted(w: Workflow) {
    && !w.status.WfWaiting? && !w.status.WfRequiresReview?
    && forall k :: 0 <= k < |w.steps| && w.steps[k].kind.DispatchPaymentRetry? && !Ready(w.steps[k]) ==> w.status.WfFailed?
  }

  predicate RefusalsOk(db: Database) {
    && (forall j :: 0 <= j < |db.executions| ==> db.executions[j].status.ExFailed?)
    && (forall j :: 0 <= j < |db.workflows| ==> Unaccepted(db.workflows[j]))
  }

  predicate LockOk(db: Database) {
    DispatchOk(db) && AllLogged(db) && DecisionsOk(db) && ApprovalsOk(db) && RefusalsOk(db)
  }

  lemma WorkflowsAreLocked(db: Database, id: nat)
    requires DispatchOk(db) && ApprovalsOk(db) && id < |db.workflows|
    ensures db.workflows[id].caseId < |db.cases| && Gap(db.cases[db.workflows[id].caseId]) >= 1
  {
    assert WorkflowOk(db, db.workflows[id]);
    assert IsLocked(db, db.decisions[db.workflows[id].decision]);
  }

  /** A step that commits: what it leaves of its own status and its workflow's. */
  lemma LockedStepLeaves(db: Database, gateway: seq<Submission>, id: nat, x: Circumstances, k: nat)
    requires DispatchOk(db) && ApprovalsOk(db) && AllLogged(db) && RefusalsOk(db)
    requires id < |db.workflows| && FirstReady(db.workflows[id].steps) == Some(k)
    requires AfterNextStep(db, gateway, id, x).result.Ok?
    ensures var after := AfterNextStep(db, gateway, id, x).result.value;
      && |after.workflows| == |db.workflows| && |after.workflows[id].steps| == |db.workflows[id].steps|
      && (after.workflows[id].status.WfRunning? || after.workflows[id].status.WfFailed?)
      && (db.workflows[id].steps[k].kind.DispatchPaymentRetry? ==> after.workflows[id].status.WfFailed?)
      && (ReachesGateway(db, id, x.now) ==> x.reply.status.ExFailed?)
  {
    var w := db.workflows[id];
    var after := AfterNextStep(db, gateway, id, x).result.value;
    WorkflowsAreLocked(db, id);
    assert WorkflowOk(db, w) && Unaccepted(w);
    if ReachesGateway(db, id, x.now) {
      ReachedDispatchEnds(World(db, gateway), id, x);
      DispatchEnds(db, gateway, id, x);
    } else {
      QuietStepLeaves(db, gateway, id, x, k);
    }
  }

  lemma VerificationFollowsDispatch(db: Database, w: Workflow)
    requires WorkflowOk(db, w)
    ensures forall k :: 0 <= k < |w.steps| && w.steps[k].kind.AwaitVerification? ==>
              k == 3 && w.steps[2].kind.DispatchPaymentRetry?
  {
  }

  lemma QuietStepLeaves(db: Database, gateway: seq<Submission>, id: nat, x: Circumstances, k: nat)
    requires id < |db.workflows| && WorkflowOk(db, db.workflows[id]) && Unaccepted(db.workflows[id])
    requires FirstReady(db.workflows[id].steps) == Some(k)
    requires AfterNextStep(db, gateway, id, x).result.Ok? && !ReachesGateway(db, id, x.now)
    ensures var after := AfterNextStep(db, gateway, id, x).result.value;
      && |after.workflows| == |db.workflows| && |after.workflows[id].steps| == |db.workflows[id].steps|
      && (after.workflows[id].status.WfRunning? || after.workflows[id].status.WfFailed?)
      && (db.workflows[id].steps[k].kind.DispatchPaymentRetry? ==> after.workflows[id].status.WfFailed?)
  {
    var w := db.workflows[id];
    var running := Running(db, id, k);
    VerificationFollowsDispatch(db, w);
    match w.steps[k].kind {
      case ValidateAuthorization => ValidateIsOnlyStep(running, id, k, x);
      case DispatchPaymentRetry =>
        SameEvidence(db, running, w.caseId, x.now);
        DispatchIsOnlyStep(running, gateway, id, k, x);
      case AwaitVerification =>
        assert false;
      case WaitCooldown =>
      case DispatchCommunication =>
      case CreateSupportTask =>
    }
  }

  lemma NextStepKeepsRefusals(db: Database, gateway: seq<Submission>, id: nat, x: Circumstances)
    requires DispatchOk(db) && ApprovalsOk(db) && AllLogged(db) && RefusalsOk(db)
    requires AfterNextStep(db, gateway, id, x).result.Ok?
    ensures RefusalsOk(AfterNextStep(db, gateway, id, x).result.value)
  {
    hide AfterDispatch, AfterValidate, ReachesGateway, DispatchOk, AllLogged;
    if FirstReady(db.workflows[id].steps).Some? {
      ReadyStepKeepsRefusals(db, gateway, id, x, FirstReady(db.workflows[id].steps).value);
    } else {
      CompletionIsUnaccepted(db, id);
    }
  }

  lemma ReadyStepKeepsRefusals(db: Database, gateway: seq<Submission>, id: nat, x: Circumstances, k: nat)
    requires DispatchOk(db) && ApprovalsOk(db) && AllLogged(db) && RefusalsOk(db)
    requires id < |db.workflows| && !Finished(db.workflows[id].status) && FirstReady(db.workflows[id].steps) == Some(k)
    requires AfterNextStep(db, gateway, id, x).result.Ok?
    ensures RefusalsOk(AfterNextStep(db, gateway, id, x).result.value)
  {
    hide AfterNextStep, ReachesGateway, DispatchOk, AllLogged;
    ExecutionsOfNextStep(db, gateway, id, x);
    LockedStepLeaves(db, gateway, id, x, k);
    NextStepIsOnlyStep(db, gateway, id, x, k);
    StepIsUnaccepted(db, AfterNextStep(db, gateway, id, x).result.value, id, k);
  }

  lemma StepIsUnaccepted(db: Database, after: Database, id: nat, k: nat)
    requires Located(db, id, k) && OnlyStep(db, after, id, k) && !Finished(db.workflows[id].status)
    requires forall j :: 0 <= j < |db.workflows| ==> Unaccepted(db.workflows[j])
    requires after.workflows[id].status.WfRunning? || after.workflows[id].status.WfFailed?
    requires db.workflows[id].steps[k].kind.DispatchPaymentRetry? ==> after.workflows[id].status.WfFailed?
    ensures forall j :: 0 <= j < |after.workflows| ==> Unaccepted(after.workflows[j])
  {
    assert Unaccepted(db.workflows[id]);
  }

  lemma CompletionIsUnaccepted(db: Database, id: nat)
    requires RefusalsOk(db) && id < |db.workflows| && !Finished(db.workflows[id].status)
    requires FirstReady(db.workflows[id].steps).None?
    ensures RefusalsOk(SetWorkflow(db, id, db.workflows[id].(status := WfCompleted)))
  {
    assert Unaccepted(db.workflows[id]);
  }

  predicate ExecutionLock(db: Database) {
    DispatchOk(db) && ApprovalsOk(db) && AllLogged(db) && RefusalsOk(db)
  }

  lemma NextStepKeepsExecutionLock(db: Database, gateway: seq<Submission>, id: nat, x: Circumstances)
    requires ExecutionLock(db) && AfterNextStep(db, gateway, id, x).result.Ok?
    ensures ExecutionLock(AfterNextStep(db, gateway, id, x).result.value)
  {
    var after := AfterNextStep(db, gateway, id, x).result.value;
    NextStepFollows(db, gateway, id, x);
    NextStepKeepsDispatch(db, gateway, id, x);
    EvolvingKeepsLogged(db, after);
    EvolvingKeepsApprovals(db, after);
    NextStepKeepsRefusals(db, gateway, id, x);
  }

  lemma RoundKeepsExecutionLock(db: Database, gateway: seq<Submission>, id: nat, x: Circumstances)
    requires ExecutionLock(db)
    ensures match AfterRound(db, gateway, id, x)
            case Continues(after, _) => ExecutionLock(after)
            case Ends(all) => all.ran.result.Ok? ==> ExecutionLock(all.ran.result.value)
  {
    if id < |db.workflows| && !Halts(db.workflows[id].status) {
      assert WorkflowOk(db, db.workflows[id]);
      if AfterNextStep(db, gateway, id, x).result.Ok? {
        NextStepKeepsExecutionLock(db, gateway, id, x);
      }
    }
  }

  lemma AllStepsKeepExecutionLock(w: World, id: nat, x: Circumstances)
    requires ExecutionLock(w.db) && AfterAllSteps(w.db, w.gateway, id, x).ran.result.Ok?
    ensures ExecutionLock(AfterAllSteps(w.db, w.gateway, id, x).ran.result.value)
  {
    var round := RoundOf(id, x);
    var inv := (d: Database, g: seq<Submission>) => ExecutionLock(d);
    forall d, g | inv(d, g) && round(d, g).Continues? ensures inv(round(d, g).db, round(d, g).gateway) {
      RoundKeepsExecutionLock(d, g, id, x);
    }
    var d, g := LoopKeeps(round, inv, w.db, w.gateway, |w.db.workflows[id].steps| + 2);
    RoundKeepsExecutionLock(d, g, id, x);
  }

  lemma StepKeepsRefusals(w: World, step: Step)
    requires ExecutionLock(w.db)
    ensures RefusalsOk(Apply(w, step).db)
  {
    hide AfterNextStep, AfterAllSteps, AfterCreateWorkflow;
    match step {
      case ExecuteNext(id, x) =>
        if AfterNextStep(w.db, w.gateway, id, x).result.Ok? { NextStepKeepsExecutionLock(w.db, w.gateway, id, x); }
      case ExecuteAll(id, x) =>
        if AfterAllSteps(w.db, w.gateway, id, x).ran.result.Ok? { AllStepsKeepExecutionLock(w, id, x); }
      case CreateWorkflow(decision) => CreationKeepsRefusals(w.db, decision);
      case _ => OthersLeaveWorkflows(w, step);
    }
  }

  lemma CreationKeepsRefusals(db: Database, decision: nat)
    requires RefusalsOk(db)
    ensures RefusalsOk(OrKeep(db, AfterCreateWorkflow(db, decision)))
  {
  }

  // --------------------------------------------------------------- whole runs

  lemma StepKeepsLock(w: World, step: Step)
    requires LockOk(w.db)
    ensures LockOk(Apply(w, step).db)
  {
    hide Apply;
    StepDispatches(w, step);
    StepKeepsLogged(w, step);
    StepKeepsDecisions(w, step);
    StepKeepsApprovals(w, step);
    StepKeepsRefusals(w, step);
  }

  lemma {:induction false} RunKeepsLock(w: World, steps: seq<Step>)
    requires LockOk(w.db)
    ensures LockOk(Run(w, steps).db)
    decreases steps
  {
    hide Apply;
    if steps != [] {
      StepKeepsLock(w, steps[0]);
      RunKeepsLock(Apply(w, steps[0]), steps[1..]);
    }
  }

  /** In every run a case with an approved decision on file has uneven logs, and so no table
      transition of it ever commits. */
  lemma ApprovedCasesAreLocked(steps: seq<Step>, k: nat, to: CaseState)
    requires var db := Run(START, steps).db; k < |db.decisions| && db.decisions[k].status.Approved?
    ensures var db := Run(START, steps).db;
      && db.decisions[k].caseId < |db.cases| && Gap(db.cases[db.decisions[k].caseId]) >= 1
      && Lifecycle.AfterTransition(db, db.decisions[k].caseId, to).Raised?
  {
    hide Apply;
    RunKeepsLock(START, steps);
    var db := Run(START, steps).db;
    assert IsLocked(db, db.decisions[k]);
    UnevenLogsBlock(db, db.decisions[k].caseId, to);
  }

  /** In every run the executions on file are refused payments, and no workflow waits for
      verification or is under review: an accepted or uncertain dispatch is never filed. */
  lemma OnlyRefusalsAreOnFile(steps: seq<Step>)
    ensures var db := Run(START, steps).db;
      && (forall e <- db.executions :: e.status.ExFailed?)
      && (forall v <- db.workflows :: !v.status.WfWaiting? && !v.status.WfRequiresReview?)
  {
    hide Apply;
    RunKeepsLock(START, steps);
    var db := Run(START, steps).db;
    forall v <- db.workflows ensures !v.status.WfWaiting? && !v.status.WfRequiresReview? {
      assert Unaccepted(v);
    }
  }

  lemma {:induction false} NoHaltToPass(w: World, steps: seq<Step>)
    requires LockOk(w.db)
    ensures !WorkflowRuns.PassesHaltInRun(w, steps)
    decreases steps
  {
    hide Apply;
    if steps != [] {
      assert forall id :: 0 <= id < |w.db.workflows| ==> Unaccepted(w.db.workflows[id]);
      StepKeepsLock(w, steps[0]);
      NoHaltToPass(Apply(w, steps[0]), steps[1..]);
    }
  }

  /** So the halts single-stepping would pass are never there to pass: in every run, single steps
      included, workflows stay in order and each case has one active workflow. */
  lemma WorkflowsStayInOrder(steps: seq<Step>)
    ensures WorkflowRuns.InOrder(Run(START, steps).db.workflows)
  {
    hide Apply;
    NoHaltToPass(START, steps);
    WorkflowRuns.OrderIsKeptExactly(START, steps);
  }

  /** In every run a call loses its dispatch exactly when it reaches the gateway and the reply moves
      the case: when the payment is accepted or uncertain, or refused for the last time. */
  lemma CallsAreLostByTheReply(steps: seq<Step>, step: Step)
    ensures var w := Run(START, steps);
      Loses(w, step) <==>
        && LostDispatches.CallsGateway(w.db, step)
        && MoveAfterReply(step.x.reply.status,
                          |w.db.cases[LostDispatches.CalledCase(w.db, step)].attempts|, step.x.reloaded).Some?
  {
    hide Apply;
    var w := Run(START, steps);
    RunKeepsLock(START, steps);
    LostDispatches.StepLosesExactly(w, step);
    if LostDispatches.CallsGateway(w.db, step) {
      WorkflowsAreLocked(w.db, step.workflowId);
    }
  }
}
