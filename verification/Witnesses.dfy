/** Runs that show where two guarantees end: a direct settlement leaves the transition log
    behind, and a recommended case loses every dispatch the gateway accepts. */
module Witnesses {
  import opened Domain
  import opened CaseLog
  import opened Store
  import opened System
  import opened CaseService
  import opened Workflows
  import Lists
  import PolicyRules
  import PolicyEngine
  import Recommendations
  import Reconciliation
  import CaseRuns
  import DispatchRuns
  import WorkflowRuns

  const BUYER := Customer("psp", "buyer", true, None)
  const PAYMENT := Transaction(0, "psp", "pay", 2500, "INR", TxFailed, Some(OtherFailure("insufficient_funds")))
  const MANDATE := Consent(0, RecurringBilling, Granted, None, Some(0), None, None)
  const OPENING := OpenRequest(0, 0, Some("case"), "", 1, None)
  const SETUP := [RegisterCustomer(BUYER), RecordTransaction(PAYMENT), RegisterConsent(MANDATE), OpenCase(OPENING)]

  /** The database with one case, as the operator opens it. */
  const OPEN := EMPTY.(customers := [BUYER], transactions := [PAYMENT], consents := [MANDATE],
                       cases := [OpenedCase(0, 0, "case", 1, None)])

  lemma SetupOpensOneCase()
    ensures Run(START, SETUP) == World(OPEN, [])
  {
    hide Apply;
    var a := EMPTY.(customers := [BUYER]);
    var b := a.(transactions := [PAYMENT]);
    var c := b.(consents := [MANDATE]);
    assert Commit(EMPTY, SETUP[0]) == a;
    assert Commit(a, SETUP[1]) == b;
    assert Commit(b, SETUP[2]) == c;
    assert Commit(c, SETUP[3]) == OPEN;
    CommitFirst(EMPTY, SETUP[0], SETUP[1..]);
    CommitFirst(a, SETUP[1], SETUP[2..]);
    CommitFirst(b, SETUP[2], SETUP[3..]);
    CommitFirst(c, SETUP[3], []);
    assert SETUP == [SETUP[0]] + SETUP[1..] && SETUP[1..] == [SETUP[1]] + SETUP[2..];
    assert SETUP[2..] == [SETUP[2]] + SETUP[3..] && SETUP[3..] == [SETUP[3]] + [];
  }

  lemma CommitFirst(db: Database, step: Step, rest: seq<Step>)
    requires !step.ExecuteNext? && !step.ExecuteAll?
    ensures Run(World(db, []), [step] + rest) == Run(World(Commit(db, step), []), rest)
  {
    RunFirst(World(db, []), step, rest);
  }

  const SETTLED_AT_GATEWAY := Reconciliation.Inquiry(ExSucceeded, false, true)

  /** A reconciliation that finds the payment settled recovers a detected case, whose log is
      still empty. */
  lemma DirectSettlementLeavesTheLogBehind()
    ensures var after := Reconciliation.Reconcile(Run(START, SETUP).db, 0, SETTLED_AT_GATEWAY);
      |after.cases| == 1 && after.cases[0].state.Recovered? && after.cases[0].transitions == [] && !Replays(after.cases[0])
  {
    hide Apply;
    SetupOpensOneCase();
    assert !("tx_" <= "pay") by {
      assert "tx_"[0] != "pay"[0];
    }
    assert Reconciliation.HasReference(OPEN, OPEN.cases[0], 0);
  }

  const CONFIG := PolicyRules.PolicyConfig(4, 24, 1_000_000, map[])
  const REQUEST := PolicyEngine.PolicyRequest(0, 0, None, None, false)
  const JUDGEMENT := Evaluate(REQUEST, CONFIG, 10)
  const ACCEPTED := Circumstances(10, Reply(ExSubmitted, Some("ref")), true)

  /** The operator puts the case before the orchestrator's step, so that its recommendation writes
      one audit row and commits whether the session autoflushes or not. */
  const HANDOVER := OperatorMove(0, AwaitingDecision)

  function Advice(autoflush: bool): Step {
    Recommend(0, RetryPayment, 0.9, autoflush)
  }

  const HANDED_OVER := OPEN.(cases := [OperatorMoved(OPEN.cases[0], AwaitingDecision)])

  const ADVISED := HANDED_OVER.(recommendations := [Recommendation(0, 1, RetryPayment, Some(0.9), NotValidated)],
                                cases := [Recommendations.Advised(HANDED_OVER.cases[0])])

  lemma AdviceAwaitsDecision(autoflush: bool)
    ensures Commit(OPEN, HANDOVER) == HANDED_OVER
    ensures Commit(HANDED_OVER, Advice(autoflush)) == ADVISED
    ensures ADVISED.cases[0].state.AwaitingDecision? && ADVISED.cases[0].version == 2 && ADVISED.cases[0].attempts == []
  {
    assert Recommendations.LatestVersion([], 0) == 0;
  }

  lemma OnlyRow(row: Consent, p: Consent -> bool)
    requires p(row)
    ensures Lists.Filter([row], p) == [row]
  {
    assert [row][1..] == [];
  }

  lemma EveryRulePasses()
    ensures var checks := PolicyEngine.RunRules(ADVISED, REQUEST, CONFIG, 10);
      forall k :: 0 <= k < |checks| ==> checks[k].status.Passed?
  {
    AdviceAwaitsDecision(true);
    var c := ADVISED.cases[0];
    var own := Lists.Filter(ADVISED.consents, (k: Consent) => k.customer == c.customer);
    OnlyRow(MANDATE, (k: Consent) => k.customer == c.customer);
    PolicyRules.ConsentRulePassesExactly(RetryPayment, 0, own, None, false, 10);
    assert PolicyRules.NewestMatching([MANDATE], 0, RecurringBilling, None) == Some(MANDATE);
    PolicyRules.RetryRulePassesExactly([], CONFIG, 10, None, PAYMENT.failure);
  }

  const JUDGED := MoveLogged(ADVISED.cases[0], ActionPending, PolicyEvaluated)

  predicate Approves(d: PolicyDecision) {
    d.status.Approved? && d.caseId == 0 && d.action.RetryPayment?
  }

  lemma JudgementApproves() returns (after: Database)
    ensures after == PolicyEngine.AfterEvaluation(ADVISED, REQUEST, CONFIG, 10).0
    ensures after.cases == [JUDGED] && |after.decisions| == 1 && Approves(after.decisions[0])
    ensures after == ADVISED.(cases := after.cases, decisions := after.decisions, recommendations := after.recommendations)
  {
    hide PolicyEngine.RunRules, PolicyRules.Aggregate;
    EveryRulePasses();
    PolicyEngine.PassingRulesApprove(ADVISED, REQUEST, CONFIG, 10);
    after := PolicyEngine.AfterEvaluation(ADVISED, REQUEST, CONFIG, 10).0;
  }

  const NEXT := ExecuteNext(0, ACCEPTED)

  /** A database in which the one case is ready for its dispatch. */
  predicate ReadyForDispatch(db: Database) {
    && db.customers == [BUYER] && db.transactions == [PAYMENT] && db.consents == [MANDATE] && db.executions == []
    && |db.cases| == 1 && db.cases[0].state.ActionPending? && db.cases[0].attempts == []
    && db.cases[0].trigger == 0 && db.cases[0].customer == 0
  }

  lemma DispatchIsAllowed(db: Database)
    requires ReadyForDispatch(db)
    ensures Revalidate(db, 0, RetryPayment, 10).Allowed?
  {
    assert IsGranted(db.consents[0], 0, RecurringBilling);
  }

  /** The payment plan with its first two steps in the given statuses. */
  function PlanAt(first: StepStatus, second: StepStatus, status: WorkflowStatus): Workflow {
    Workflow(0, 0, status,
             [ WorkflowStep(ValidateAuthorization, RetryPayment, first),
               WorkflowStep(WaitCooldown, RetryPayment, second),
               WorkflowStep(DispatchPaymentRetry, RetryPayment, StPending),
               WorkflowStep(AwaitVerification, RetryPayment, StPending) ])
  }

  const PLANNED := PlanAt(StPending, StPending, WfPending)
  const VALIDATED := PlanAt(StCompleted, StPending, WfRunning)
  const COOLED := PlanAt(StCompleted, StCompleted, WfRunning)

  lemma ValidationRuns(db: Database)
    requires ReadyForDispatch(db) && db.workflows == [PLANNED]
    ensures AfterNextStep(db, [], 0, ACCEPTED) == Ran(Ok(db.(workflows := [VALIDATED])), [])
  {
    var running := DispatchRuns.Running(db, 0, 0);
    assert FirstReady(PLANNED.steps) == Some(0);
    DispatchIsAllowed(running);
    assert Mark(running, 0, 0, StCompleted, WfRunning).workflows[0].steps == VALIDATED.steps;
    assert Mark(running, 0, 0, StCompleted, WfRunning).workflows == [VALIDATED];
  }

  lemma CooldownRuns(db: Database)
    requires ReadyForDispatch(db) && db.workflows == [VALIDATED]
    ensures AfterNextStep(db, [], 0, ACCEPTED) == Ran(Ok(db.(workflows := [COOLED])), [])
  {
    var running := DispatchRuns.Running(db, 0, 1);
    assert Ready(VALIDATED.steps[1]) && !Ready(VALIDATED.steps[0]);
    assert FirstReady(VALIDATED.steps) == Some(1);
    assert Mark(running, 0, 1, StCompleted, WfRunning).workflows[0].steps == COOLED.steps;
    assert Mark(running, 0, 1, StCompleted, WfRunning).workflows == [COOLED];
  }

  lemma DispatchIsNext(db: Database)
    requires ReadyForDispatch(db) && db.workflows == [COOLED]
    ensures DispatchRuns.ReachesGateway(db, 0, 10)
  {
    assert Ready(COOLED.steps[2]) && !Ready(COOLED.steps[0]) && !Ready(COOLED.steps[1]);
    assert FirstReady(COOLED.steps) == Some(2);
    DispatchIsAllowed(db);
  }

  function ToDispatch(autoflush: bool): seq<Step> {
    [HANDOVER, Advice(autoflush), JUDGEMENT, CreateWorkflow(0), NEXT, NEXT]
  }

  lemma CreationPlans(db: Database)
    requires ReadyForDispatch(db) && db.workflows == [] && |db.decisions| == 1 && Approves(db.decisions[0])
    ensures Commit(db, CreateWorkflow(0)) == db.(workflows := [PLANNED])
  {
    assert PlannedSteps(Plan(RetryPayment), RetryPayment) == PLANNED.steps;
  }

  lemma ApprovedPlanRuns(db: Database) returns (v: World)
    requires ReadyForDispatch(db) && db.workflows == [] && |db.decisions| == 1 && Approves(db.decisions[0])
    ensures v == World(db.(workflows := [COOLED]), []) && DispatchRuns.ReachesGateway(v.db, 0, 10)
    ensures Run(World(db, []), [CreateWorkflow(0), NEXT, NEXT]) == v
  {
    hide AfterNextStep, AfterCreateWorkflow;
    var planned, validated := db.(workflows := [PLANNED]), db.(workflows := [VALIDATED]);
    v := World(db.(workflows := [COOLED]), []);
    CreationPlans(db);
    ValidationRuns(planned);
    CooldownRuns(validated);
    DispatchIsNext(v.db);
    RunFirst(World(db, []), CreateWorkflow(0), [NEXT, NEXT]);
    RunFirst(World(planned, []), NEXT, [NEXT]);
    RunFirst(World(validated, []), NEXT, []);
    assert [CreateWorkflow(0)] + [NEXT, NEXT] == [CreateWorkflow(0), NEXT, NEXT];
    assert [NEXT] + [NEXT] == [NEXT, NEXT] && [NEXT] + [] == [NEXT];
  }

  lemma AdviceRuns(autoflush: bool, rest: seq<Step>)
    ensures Run(World(OPEN, []), [HANDOVER, Advice(autoflush)] + rest) == Run(World(ADVISED, []), rest)
  {
    hide Apply;
    AdviceAwaitsDecision(autoflush);
    CommitFirst(OPEN, HANDOVER, [Advice(autoflush)] + rest);
    CommitFirst(HANDED_OVER, Advice(autoflush), rest);
    assert [HANDOVER, Advice(autoflush)] + rest == [HANDOVER] + ([Advice(autoflush)] + rest);
  }

  lemma EvaluationApplies(db: Database, request: PolicyEngine.PolicyRequest, config: PolicyRules.PolicyConfig, now: int)
    ensures Apply(World(db, []), Evaluate(request, config, now))
         == World(PolicyEngine.AfterEvaluation(db, request, config, now).0, [])
  {
  }

  lemma AdvisedCaseReachesItsDispatch(autoflush: bool) returns (v: World)
    ensures Run(World(OPEN, []), ToDispatch(autoflush)) == v
    ensures v.gateway == [] && v.db.executions == [] && |v.db.workflows| == 1 && v.db.workflows[0].caseId == 0
    ensures v.db.cases == [JUDGED] && DispatchRuns.ReachesGateway(v.db, 0, 10)
  {
    var plan := [CreateWorkflow(0), NEXT, NEXT];
    var judged := JudgementApproves();
    assert ReadyForDispatch(judged) by { AdviceAwaitsDecision(true); }
    v := ApprovedPlanRuns(judged);
    EvaluationApplies(ADVISED, REQUEST, CONFIG, 10);
    RunFirst(World(ADVISED, []), JUDGEMENT, plan);
    AdviceRuns(autoflush, [JUDGEMENT] + plan);
    assert [HANDOVER, Advice(autoflush)] + ([JUDGEMENT] + plan) == ToDispatch(autoflush);
  }

  /** The bound on dispatches fails at the gateway: a recommended, approved case with a live
      consent is submitted as often as its step is executed, and no submission is on file. */
  lemma RecommendedDispatchesAreLost(autoflush: bool, n: nat)
    ensures var w := Run(START, SETUP + ToDispatch(autoflush) + DispatchRuns.Repeat(NEXT, n));
      DispatchRuns.SubmissionsOf(w.gateway, 0) == n && w.db.executions == []
  {
    hide Apply;
    SetupOpensOneCase();
    var v := AdvisedCaseReachesItsDispatch(autoflush);
    RunAppend(START, SETUP, ToDispatch(autoflush));
    RunAppend(START, SETUP + ToDispatch(autoflush), DispatchRuns.Repeat(NEXT, n));
    JudgedLogsAreUneven();
    DispatchRuns.LostDispatchRepeats(v, 0, ACCEPTED, n);
  }

  lemma JudgedLogsAreUneven()
    ensures LogsOk(JUDGED) && Gap(JUDGED) != 0
  {
    MoveKeepsLogs(OPEN.cases[0], AwaitingDecision, StateTransition);
    AuditEvolves(HANDED_OVER.cases[0], RecommendationGenerated, Some(AwaitingDecision), Some(AwaitingDecision));
    MoveKeepsLogs(ADVISED.cases[0], ActionPending, PolicyEvaluated);
  }

  // --------------------------------------------------------- stored databases

  /** A payment plan whose first two steps completed. */
  function DispatchedPlan(third: StepStatus, fourth: StepStatus, status: WorkflowStatus): Workflow {
    Workflow(0, 0, status,
             [ WorkflowStep(ValidateAuthorization, RetryPayment, StCompleted),
               WorkflowStep(WaitCooldown, RetryPayment, StCompleted),
               WorkflowStep(DispatchPaymentRetry, RetryPayment, third),
               WorkflowStep(AwaitVerification, RetryPayment, fourth) ])
  }

  const APPROVAL := PolicyDecision(0, 0, RetryPayment, Approved, [], [], None, 1)
  const WAITING := DispatchedPlan(StCompleted, StWaiting, WfWaiting)
  const REVIEWED := DispatchedPlan(StFailed, StPending, WfRequiresReview)

  /** A database as a fixture may store it: no run of the services leads to it. */
  function Stored(workflows: seq<Workflow>): Database {
    OPEN.(decisions := [APPROVAL], workflows := workflows)
  }

  lemma StoredWorkflowIsFine(db: Database, w: Workflow)
    requires db.cases == OPEN.cases && db.decisions == [APPROVAL]
    requires w == WAITING || w == REVIEWED || w == PLANNED
    ensures DispatchRuns.WorkflowOk(db, w) && WorkflowRuns.Orderly(w)
  {
    assert WorkflowRuns.Reached(w, if w == WAITING then 3 else if w == REVIEWED then 2 else 0);
  }

  lemma StoredWorkflowsAreFine(workflows: seq<Workflow>)
    requires forall w <- workflows :: w == WAITING || w == REVIEWED || w == PLANNED
    ensures DispatchRuns.DispatchOk(Stored(workflows))
    ensures forall w <- workflows :: WorkflowRuns.Orderly(w)
  {
    hide DispatchRuns.WorkflowOk, WorkflowRuns.Orderly;
    forall w <- workflows ensures DispatchRuns.WorkflowOk(Stored(workflows), w) && WorkflowRuns.Orderly(w) {
      StoredWorkflowIsFine(Stored(workflows), w);
    }
  }

  /** One single step completes a stored workflow over its waiting step. */
  lemma SteppingPastTheWait()
    ensures var db := Stored([WAITING]);
      WorkflowRuns.InOrder(db.workflows) && !WorkflowRuns.InOrder(Run(World(db, []), [NEXT]).db.workflows)
  {
    hide Apply;
    var w := World(Stored([WAITING]), []);
    StoredWorkflowsAreFine([WAITING]);
    forall j | 0 <= j < |w.db.workflows| ensures WorkflowRuns.Orderly(w.db.workflows[j]) {
      assert w.db.workflows[j] in [WAITING];
    }
    WorkflowRuns.PassedHaltBreaksRun(w, NEXT, []);
    RunFirst(w, NEXT, []);
    assert [NEXT] + [] == [NEXT];
  }

  /** One single step takes a stored workflow out of review, past its failed dispatch, beside
      another active workflow of the case. */
  lemma SteppingPastTheReview()
    ensures var db := Stored([REVIEWED, PLANNED]);
      && WorkflowRuns.InOrder(db.workflows)
      && !WorkflowRuns.InOrder(Run(World(db, []), [NEXT]).db.workflows)
      && var next := AfterNextStep(db, [], 0, ACCEPTED).result;
         next.Ok? && !WorkflowRuns.OneActivePerCase(next.value.workflows)
  {
    hide Apply;
    var w := World(Stored([REVIEWED, PLANNED]), []);
    StoredWorkflowsAreFine([REVIEWED, PLANNED]);
    forall j | 0 <= j < |w.db.workflows| ensures WorkflowRuns.Orderly(w.db.workflows[j]) {
      assert w.db.workflows[j] in [REVIEWED, PLANNED];
    }
    WorkflowRuns.PassedHaltBreaksRun(w, NEXT, []);
    RunFirst(w, NEXT, []);
    assert [NEXT] + [] == [NEXT];
    WorkflowRuns.PassedHaltCommits(w.db, [], 0, ACCEPTED);
    WorkflowRuns.SingleStepReactivatesExactly(w.db, [], 0, ACCEPTED);
    assert IsActiveFor(w.db.workflows[1], w.db.workflows[0].caseId);
  }
}
