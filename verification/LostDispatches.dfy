/** Exactly which calls lose a dispatch, and what that makes of the bounds at the gateway. */
module LostDispatches {
  import opened Domain
  import opened CaseLog
  import opened Store
  import opened System
  import opened Workflows
  import opened WorkflowSteps
  import opened CaseRuns
  import opened DispatchRuns
  import opened Evolution
  import WorkflowRuns

  /** Whether the loop over a workflow's steps gets as far as the gateway. */
  predicate LoopReachesGateway(db: Database, id: nat, now: int) {
    && id < |db.workflows| && !Halts(db.workflows[id].status) && db.workflows[id].caseId < |db.cases|
    && var steps := db.workflows[id].steps;
    && |steps| > 2 && steps[2].kind.DispatchPaymentRetry?
    && FirstReady(steps).Some? && FirstReady(steps).value <= 2
    && Dispatches(db, db.workflows[id].caseId, now)
  }

  /** Whether a reply would move the case, and the case's logs would not take the move. */
  predicate MoveClashes(db: Database, caseId: nat, x: Circumstances)
    requires caseId < |db.cases|
  {
    MoveAfterReply(x.reply.status, |db.cases[caseId].attempts|, x.reloaded).Some? && Gap(db.cases[caseId]) != 0
  }

  // -------------------------------------------------- the rounds before dispatch

  /** In a payment plan the two steps before the dispatch only mark themselves, when they let the
      loop go on at all; and they do when revalidation allows. */
  lemma EarlyRound(db: Database, gateway: seq<Submission>, id: nat, x: Circumstances, k: nat)
    requires id < |db.workflows| && WorkflowOk(db, db.workflows[id]) && !Halts(db.workflows[id].status)
    requires db.decisions[db.workflows[id].decision].action.RetryPayment?
    requires FirstReady(db.workflows[id].steps) == Some(k) && k < 2
    ensures var round, w := AfterRound(db, gateway, id, x), db.workflows[id];
      && (round.Continues? ==>
            round.gateway == gateway
            && round.db == db.(workflows := db.workflows[id := Marked(w, k, StCompleted, WfRunning)]))
      && (round.Ends? ==> round.all.ran.gateway == gateway)
      && (Dispatches(db, w.caseId, x.now) ==> round.Continues?)
      && (k == 0 && round.Continues? ==> Revalidate(db, w.caseId, RetryPayment, x.now).Allowed?)
  {
    var w := db.workflows[id];
    var running := Running(db, id, k);
    SameEvidence(db, running, w.caseId, x.now);
    assert w.steps[k].kind == Plan(RetryPayment)[k];
    var marked := Marked(w, k, StCompleted, WfRunning);
    assert Mark(running, id, k, StCompleted, WfRunning).workflows[id].steps == marked.steps;
    assert Mark(running, id, k, StCompleted, WfRunning).workflows == db.workflows[id := marked];
  }

  lemma NextReady(w: Workflow, k: nat, db: Database)
    requires WorkflowOk(db, w) && FirstReady(w.steps) == Some(k) && k + 1 < |w.steps|
    ensures FirstReady(Marked(w, k, StCompleted, WfRunning).steps) == Some(k + 1)
  {
    var after := Marked(w, k, StCompleted, WfRunning).steps;
    assert Ready(w.steps[k + 1]) && Ready(after[k + 1]);
    assert forall j :: 0 <= j <= k ==> !Ready(after[j]);
  }

  // ------------------------------------------------------------------- rounds

  /** The gateway's log grew by one submission of this workflow, for its case. */
  predicate CalledOnce(before: seq<Submission>, log: seq<Submission>, id: nat, caseId: nat) {
    && |log| == |before| + 1 && before <= log
    && log[|before|].workflow == id && log[|before|].caseId == caseId
  }

  /** The dispatch is behind the loop and the wait for verification next. */
  predicate VerificationIsNext(db: Database, id: nat) {
    && id < |db.workflows| && db.workflows[id].caseId < |db.cases| && db.workflows[id].status.WfRunning?
    && var steps := db.workflows[id].steps;
    && |steps| == 4 && steps[3].kind.AwaitVerification? && FirstReady(steps) == Some(3)
  }

  /** The round that dispatches raises exactly when the move clashes. */
  lemma DispatchRound(db: Database, gateway: seq<Submission>, id: nat, x: Circumstances)
    requires DispatchOk(db) && LoopReachesGateway(db, id, x.now) && FirstReady(db.workflows[id].steps) == Some(2)
    requires LogsOk(db.cases[db.workflows[id].caseId])
    ensures match AfterRound(db, gateway, id, x)
            case Continues(after, log) =>
              && !MoveClashes(db, db.workflows[id].caseId, x) && VerificationIsNext(after, id)
              && CalledOnce(gateway, log, id, db.workflows[id].caseId)
            case Ends(all) =>
              && CalledOnce(gateway, all.ran.gateway, id, db.workflows[id].caseId)
              && (all.ran.result.Raised? <==> MoveClashes(db, db.workflows[id].caseId, x))
  {
    assert WorkflowOk(db, db.workflows[id]);
    GatewayCall(db, gateway, id, x);
    ReachedDispatchEnds(World(db, gateway), id, x);
    if AfterRound(db, gateway, id, x).Continues? {
      DispatchLeadsToVerification(db, gateway, id, x);
    }
  }

  lemma DispatchLeadsToVerification(db: Database, gateway: seq<Submission>, id: nat, x: Circumstances)
    requires id < |db.workflows| && WorkflowOk(db, db.workflows[id]) && FirstReady(db.workflows[id].steps) == Some(2)
    requires db.workflows[id].steps[2].kind.DispatchPaymentRetry? && AfterRound(db, gateway, id, x).Continues?
    ensures VerificationIsNext(AfterRound(db, gateway, id, x).db, id)
  {
    var after := AfterRound(db, gateway, id, x).db;
    DispatchIsThird(db, db.workflows[id], 2);
    NextStepIsOnlyStep(db, gateway, id, x, 2);
    WorkflowRuns.NextStepAgrees(db, gateway, id, x, 2);
    assert Ready(after.workflows[id].steps[3]);
    assert forall j :: 0 <= j < 3 ==> !Ready(after.workflows[id].steps[j]);
  }

  lemma VerificationRound(db: Database, gateway: seq<Submission>, id: nat, x: Circumstances)
    requires VerificationIsNext(db, id)
    ensures AfterRound(db, gateway, id, x).Ends? && AfterRound(db, gateway, id, x).all.ran.result.Ok?
    ensures AfterRound(db, gateway, id, x).all.ran.gateway == gateway
  {
  }

  /** A round that does not dispatch leaves the gateway alone, changes no table but the workflows
      when it goes on, and is as far from the gateway as before. */
  predicate Quiet(db: Database, gateway: seq<Submission>, id: nat, x: Circumstances, round: Round) {
    match round
    case Continues(after, log) =>
      && log == gateway && after == db.(workflows := after.workflows) && DispatchOk(after)
      && id < |after.workflows| && id < |db.workflows| && after.workflows[id].caseId == db.workflows[id].caseId
      && LoopReachesGateway(after, id, x.now) == LoopReachesGateway(db, id, x.now)
    case Ends(all) => all.ran.gateway == gateway && !LoopReachesGateway(db, id, x.now)
  }

  lemma PaymentPlanRound(db: Database, gateway: seq<Submission>, id: nat, x: Circumstances, k: nat)
    requires DispatchOk(db) && id < |db.workflows| && !Halts(db.workflows[id].status)
    requires FirstReady(db.workflows[id].steps) == Some(k) && k < 2
    requires db.decisions[db.workflows[id].decision].action.RetryPayment?
    ensures Quiet(db, gateway, id, x, AfterRound(db, gateway, id, x))
  {
    assert WorkflowOk(db, db.workflows[id]);
    EarlyRound(db, gateway, id, x, k);
    if AfterRound(db, gateway, id, x).Continues? {
      NextStepKeepsDispatch(db, gateway, id, x);
      StepTowardsDispatch(db, id, x.now, k);
    }
  }

  lemma StepTowardsDispatch(db: Database, id: nat, now: int, k: nat)
    requires id < |db.workflows| && WorkflowOk(db, db.workflows[id]) && !Halts(db.workflows[id].status)
    requires FirstReady(db.workflows[id].steps) == Some(k) && k < 2
    requires db.decisions[db.workflows[id].decision].action.RetryPayment?
    ensures var next := db.(workflows := db.workflows[id := Marked(db.workflows[id], k, StCompleted, WfRunning)]);
      LoopReachesGateway(next, id, now) == LoopReachesGateway(db, id, now)
  {
    var w := db.workflows[id];
    NextReady(w, k, db);
    SameEvidence(db, db.(workflows := db.workflows[id := Marked(w, k, StCompleted, WfRunning)]), w.caseId, now);
  }

  /** Off the payment plan, or past its dispatch. */
  lemma OtherRound(db: Database, gateway: seq<Submission>, id: nat, x: Circumstances, k: nat)
    requires DispatchOk(db) && id < |db.workflows| && !Halts(db.workflows[id].status)
    requires FirstReady(db.workflows[id].steps) == Some(k)
    requires !(db.decisions[db.workflows[id].decision].action.RetryPayment? && k < 2)
    requires !LoopReachesGateway(db, id, x.now)
    ensures Quiet(db, gateway, id, x, AfterRound(db, gateway, id, x))
  {
    var w := db.workflows[id];
    assert WorkflowOk(db, w);
    if w.steps[k].kind.DispatchPaymentRetry? {
      DispatchIsThird(db, w, k);
    }
    GatewayCall(db, gateway, id, x);
    if AfterRound(db, gateway, id, x).Continues? {
      NextStepKeepsDispatch(db, gateway, id, x);
      OtherContinues(db, gateway, id, x, k);
    }
  }

  /** A round that goes on without the gateway only completes its step. */
  lemma ContinuesInPlace(db: Database, gateway: seq<Submission>, id: nat, x: Circumstances, k: nat)
    requires AfterRound(db, gateway, id, x).Continues? && FirstReady(db.workflows[id].steps) == Some(k)
    requires !ReachesGateway(db, id, x.now)
    ensures AfterRound(db, gateway, id, x).db
         == db.(workflows := db.workflows[id := Marked(db.workflows[id], k, StCompleted, WfRunning)])
  {
    var w := db.workflows[id];
    var running := Running(db, id, k);
    var marked := Marked(w, k, StCompleted, WfRunning);
    SameEvidence(db, running, w.caseId, x.now);
    assert Mark(running, id, k, StCompleted, WfRunning).workflows[id].steps == marked.steps;
    assert Mark(running, id, k, StCompleted, WfRunning).workflows == db.workflows[id := marked];
  }

  lemma OtherContinues(db: Database, gateway: seq<Submission>, id: nat, x: Circumstances, k: nat)
    requires DispatchOk(db) && AfterRound(db, gateway, id, x).Continues?
    requires FirstReady(db.workflows[id].steps) == Some(k)
    requires !ReachesGateway(db, id, x.now)
    requires !(db.decisions[db.workflows[id].decision].action.RetryPayment? && k < 2)
    ensures var after := AfterRound(db, gateway, id, x).db;
      && after == db.(workflows := after.workflows) && after.workflows[id].caseId == db.workflows[id].caseId
      && !LoopReachesGateway(after, id, x.now)
  {
    assert WorkflowOk(db, db.workflows[id]);
    ContinuesInPlace(db, gateway, id, x, k);
    NoDispatchAhead(db, db.workflows[id], k);
  }

  lemma NoDispatchAhead(db: Database, w: Workflow, k: nat)
    requires WorkflowOk(db, w) && FirstReady(w.steps) == Some(k)
    requires !(db.decisions[w.decision].action.RetryPayment? && k < 2)
    ensures var steps := Marked(w, k, StCompleted, WfRunning).steps;
      |steps| > 2 && steps[2].kind.DispatchPaymentRetry? && FirstReady(steps).Some? ==> FirstReady(steps).value > 2
  {
    var steps := Marked(w, k, StCompleted, WfRunning).steps;
    if |steps| > 2 && steps[2].kind.DispatchPaymentRetry? {
      DispatchIsThird(db, w, 2);
      assert forall j :: 0 <= j <= k ==> !Ready(steps[j]);
    }
  }

  lemma AnyRound(db: Database, gateway: seq<Submission>, id: nat, x: Circumstances)
    requires DispatchOk(db) && id < |db.workflows|
    requires !(LoopReachesGateway(db, id, x.now) && FirstReady(db.workflows[id].steps) == Some(2))
    ensures Quiet(db, gateway, id, x, AfterRound(db, gateway, id, x))
  {
    var w := db.workflows[id];
    assert WorkflowOk(db, w);
    if !Halts(w.status) && FirstReady(w.steps).Some? {
      var k := FirstReady(w.steps).value;
      if db.decisions[w.decision].action.RetryPayment? && k < 2 {
        PaymentPlanRound(db, gateway, id, x, k);
      } else {
        assert !LoopReachesGateway(db, id, x.now) by {
          if |w.steps| > 2 && w.steps[2].kind.DispatchPaymentRetry? {
            DispatchIsThird(db, w, 2);
          }
        }
        OtherRound(db, gateway, id, x, k);
      }
    }
  }

  // ----------------------------------------------------------------- theorems

  /** Whether a call of the execution service calls the gateway. */
  predicate CallsGateway(db: Database, step: Step) {
    match step
    case ExecuteNext(id, x) => ReachesGateway(db, id, x.now)
    case ExecuteAll(id, x) => LoopReachesGateway(db, id, x.now)
    case _ => false
  }

  /** The case a call of the gateway is about. */
  function CalledCase(db: Database, step: Step): nat
    requires CallsGateway(db, step)
  {
    db.workflows[step.workflowId].caseId
  }

  /** The call gets as far as the gateway, the gateway's reply moves the case, and the case has an
      audit row without a transition. */
  predicate WouldLose(db: Database, step: Step) {
    CallsGateway(db, step) && MoveClashes(db, CalledCase(db, step), step.x)
  }

  /** The same call with another reply. */
  function WithReply(step: Step, reply: Reply, reloaded: bool): Step
    requires step.ExecuteNext? || step.ExecuteAll?
  {
    step.(x := Circumstances(step.x.now, reply, reloaded))
  }

  /** What a caller can check beforehand, whatever the gateway will answer: no reply can be lost
      exactly when the call does not reach the gateway or the case's logs are even. */
  lemma SafeWhateverTheReply(db: Database, step: Step)
    requires step.ExecuteNext? || step.ExecuteAll?
    ensures (forall reply, reloaded :: !WouldLose(db, WithReply(step, reply, reloaded)))
            <==> (CallsGateway(db, step) ==> Gap(db.cases[CalledCase(db, step)]) == 0)
  {
    if CallsGateway(db, step) && Gap(db.cases[CalledCase(db, step)]) != 0 {
      assert WouldLose(db, WithReply(step, Reply(ExSubmitted, None), true));
    } else {
      forall reply, reloaded ensures !WouldLose(db, WithReply(step, reply, reloaded)) {
        assert CallsGateway(db, WithReply(step, reply, reloaded)) == CallsGateway(db, step);
      }
    }
  }

  /** Where the loop can be: still as far from the gateway as at first, or past a dispatch that
      did not clash. */
  predicate OnTheWay(w: World, id: nat, x: Circumstances, d: Database, g: seq<Submission>)
    requires id < |w.db.workflows| && w.db.workflows[id].caseId < |w.db.cases|
  {
    || ( && DispatchOk(d) && g == w.gateway && d == w.db.(workflows := d.workflows) && id < |d.workflows|
         && d.workflows[id].caseId == w.db.workflows[id].caseId
         && LoopReachesGateway(d, id, x.now) == LoopReachesGateway(w.db, id, x.now) )
    || ( && LoopReachesGateway(w.db, id, x.now) && !MoveClashes(w.db, w.db.workflows[id].caseId, x)
         && VerificationIsNext(d, id) && CalledOnce(w.gateway, g, id, w.db.workflows[id].caseId) )
  }

  /** What the loop comes to at the gateway. */
  predicate Arrived(w: World, id: nat, x: Circumstances, ran: Ran)
    requires id < |w.db.workflows| && w.db.workflows[id].caseId < |w.db.cases|
  {
    if LoopReachesGateway(w.db, id, x.now) then
      && CalledOnce(w.gateway, ran.gateway, id, w.db.workflows[id].caseId)
      && (ran.result.Raised? <==> MoveClashes(w.db, w.db.workflows[id].caseId, x))
    else ran.gateway == w.gateway
  }

  lemma RoundOnTheWay(w: World, id: nat, x: Circumstances, d: Database, g: seq<Submission>)
    requires id < |w.db.workflows| && w.db.workflows[id].caseId < |w.db.cases|
    requires LogsOk(w.db.cases[w.db.workflows[id].caseId]) && OnTheWay(w, id, x, d, g)
    ensures match AfterRound(d, g, id, x)
            case Continues(after, log) => OnTheWay(w, id, x, after, log)
            case Ends(all) => Arrived(w, id, x, all.ran)
  {
    if VerificationIsNext(d, id) && |g| == |w.gateway| + 1 {
      VerificationRound(d, g, id, x);
    } else if LoopReachesGateway(d, id, x.now) && FirstReady(d.workflows[id].steps) == Some(2) {
      DispatchRound(d, g, id, x);
    } else {
      AnyRound(d, g, id, x);
    }
  }

  lemma AllStepsLoseExactly(w: World, id: nat, x: Circumstances)
    requires DispatchOk(w.db) && AllLogged(w.db)
    ensures Loses(w, ExecuteAll(id, x)) <==> WouldLose(w.db, ExecuteAll(id, x))
  {
    AllStepsDispatched(w, id, x);
    if id < |w.db.workflows| {
      AllStepsArrive(w, id, x);
    }
  }

  lemma AllStepsArrive(w: World, id: nat, x: Circumstances)
    requires DispatchOk(w.db) && AllLogged(w.db) && id < |w.db.workflows|
    ensures w.db.workflows[id].caseId < |w.db.cases|
    ensures Arrived(w, id, x, AfterAllSteps(w.db, w.gateway, id, x).ran)
  {
    assert WorkflowOk(w.db, w.db.workflows[id]);
    var round := RoundOf(id, x);
    var inv := (d: Database, g: seq<Submission>) => OnTheWay(w, id, x, d, g);
    forall d, g | inv(d, g) && round(d, g).Continues? ensures inv(round(d, g).db, round(d, g).gateway) {
      RoundOnTheWay(w, id, x, d, g);
    }
    var d, g := LoopKeeps(round, inv, w.db, w.gateway, |w.db.workflows[id].steps| + 2);
    CapIsNeverReached(w.db, w.gateway, id, x, |w.db.workflows[id].steps| + 2);
    RoundOnTheWay(w, id, x, d, g);
  }

  lemma NextStepLosesExactly(w: World, id: nat, x: Circumstances)
    requires AllLogged(w.db)
    ensures Loses(w, ExecuteNext(id, x)) <==> WouldLose(w.db, ExecuteNext(id, x))
  {
    GatewayCall(w.db, w.gateway, id, x);
    if ReachesGateway(w.db, id, x.now) {
      ReachedDispatchEnds(w, id, x);
    }
  }

  /** A call loses a dispatch exactly when that condition holds before it. */
  lemma StepLosesExactly(w: World, step: Step)
    requires DispatchOk(w.db) && AllLogged(w.db)
    ensures Loses(w, step) <==> WouldLose(w.db, step)
  {
    match step {
      case ExecuteNext(id, x) => NextStepLosesExactly(w, id, x);
      case ExecuteAll(id, x) => AllStepsLoseExactly(w, id, x);
      case CreateWorkflow(_) =>
      case _ => OthersLeaveWorkflows(w, step);
    }
  }

  /** A call of the gateway adds one submission, and one execution unless it is lost; no other
      call touches either. */
  lemma StepCallsOnce(w: World, step: Step)
    requires DispatchOk(w.db) && AllLogged(w.db)
    ensures var v := Apply(w, step);
      if CallsGateway(w.db, step) then
        && CalledOnce(w.gateway, v.gateway, step.workflowId, CalledCase(w.db, step))
        && (if WouldLose(w.db, step) then v.db.executions == w.db.executions
            else FiledOnce(w.db.executions, v.db.executions, step.workflowId, CalledCase(w.db, step)))
      else v.gateway == w.gateway && v.db.executions == w.db.executions
  {
    hide Apply;
    StepDispatches(w, step);
    StepLosesExactly(w, step);
    StepGateway(w, step);
    var v := Apply(w, step);
    if CallsGateway(w.db, step) && !WouldLose(w.db, step) {
      assert Records(v.db.executions[|w.db.executions|..][0], v.gateway[|w.gateway|..][0]);
    }
  }

  predicate FiledOnce(before: seq<Execution>, rows: seq<Execution>, id: nat, caseId: nat) {
    && |rows| == |before| + 1 && before <= rows
    && rows[|before|].workflow == id && rows[|before|].caseId == caseId
  }

  lemma StepGateway(w: World, step: Step)
    requires DispatchOk(w.db) && AllLogged(w.db)
    ensures if CallsGateway(w.db, step) then CalledOnce(w.gateway, Apply(w, step).gateway, step.workflowId, CalledCase(w.db, step))
            else Apply(w, step).gateway == w.gateway
  {
    match step {
      case ExecuteNext(id, x) => GatewayCall(w.db, w.gateway, id, x);
      case ExecuteAll(id, x) => if id < |w.db.workflows| { AllStepsArrive(w, id, x); }
      case CreateWorkflow(_) =>
      case _ => OthersLeaveWorkflows(w, step);
    }
  }

  predicate WouldLoseInRun(w: World, steps: seq<Step>)
    decreases steps
  {
    steps != [] && (WouldLose(w.db, steps[0]) || WouldLoseInRun(Apply(w, steps[0]), steps[1..]))
  }

  lemma {:induction false} RunLosesExactly(w: World, steps: seq<Step>)
    requires DispatchOk(w.db) && AllLogged(w.db)
    ensures LosesInRun(w, steps) <==> WouldLoseInRun(w, steps)
    decreases steps
  {
    hide Apply;
    if steps != [] {
      StepLosesExactly(w, steps[0]);
      StepDispatches(w, steps[0]);
      StepKeepsLogged(w, steps[0]);
      RunLosesExactly(Apply(w, steps[0]), steps[1..]);
    }
  }

  /** The execution table tells exactly what the gateway received, row for row, in those runs in
      which no call was made under that condition. */
  lemma GatewayIsMirroredExactly(steps: seq<Step>)
    ensures AllRecorded(Run(START, steps).db.executions, Run(START, steps).gateway) <==> !WouldLoseInRun(START, steps)
  {
    hide Apply;
    ExecutionsMirrorTheGateway(steps);
    RunLosesExactly(START, steps);
  }

  /** In those runs the gateway itself is called at most four times for a case and once for a
      workflow. */
  lemma GatewayCallsAreBounded(steps: seq<Step>, id: nat)
    requires !WouldLoseInRun(START, steps)
    ensures var log := Run(START, steps).gateway;
      && SubmissionsOf(log, id) <= MAX_ATTEMPTS
      && forall i, j :: 0 <= i < j < |log| ==> log[i].workflow != log[j].workflow
  {
    hide Apply;
    GatewayIsMirroredExactly(steps);
    DispatchesOnFileAreBounded(steps, id);
    RecordedIsBounded(Run(START, steps).db.executions, Run(START, steps).gateway, id);
  }

  lemma RecordedIsBounded(rows: seq<Execution>, log: seq<Submission>, id: nat)
    requires AllRecorded(rows, log) && OnePerWorkflow(rows)
    ensures SubmissionsOf(log, id) == ExecutionsOf(rows, id)
    ensures forall i, j :: 0 <= i < j < |log| ==> log[i].workflow != log[j].workflow
  {
    RecordedCounts(rows, log, id);
    forall i, j | 0 <= i < j < |log| ensures log[i].workflow != log[j].workflow {
      assert Records(rows[i], log[i]) && Records(rows[j], log[j]);
    }
  }
}
