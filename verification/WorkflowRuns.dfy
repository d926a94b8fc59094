/** The shape of workflows over whole runs, kept by the loop always and by single-stepping exactly
    when it does not step past a halt. */
module WorkflowRuns {
  import opened Domain
  import opened CaseLog
  import opened Store
  import opened System
  import opened Workflows
  import opened WorkflowSteps
  import opened Evolution
  import CaseRuns
  import DispatchRuns

  /** Steps are completed up to `m`, the step there tells the workflow's status, and the steps
      after it are pending. */
  predicate Reached(w: Workflow, m: nat) {
    && m <= |w.steps|
    && (forall k :: 0 <= k < m ==> w.steps[k].status.StCompleted?)
    && (forall k :: m < k < |w.steps| ==> w.steps[k].status.StPending?)
    && match w.status
       case WfPending => m < |w.steps| ==> w.steps[m].status.StPending?
       case WfRunning => m < |w.steps| ==> w.steps[m].status.StPending?
       case WfWaiting => m < |w.steps| && w.steps[m].status.StWaiting?
       case WfFailed => m < |w.steps| && w.steps[m].status.StFailed?
       case WfRequiresReview => m < |w.steps| && w.steps[m].status.StFailed?
       case WfCompleted => m == |w.steps|
       case _ => false
  }

  predicate Orderly(w: Workflow) {
    exists m :: 0 <= m <= |w.steps| && Reached(w, m)
  }

  /** Between calls no workflow is left running. */
  predicate AtRest(w: Workflow) {
    Orderly(w) && !w.status.WfRunning?
  }

  predicate OneActivePerCase(rows: seq<Workflow>) {
    forall i, j :: 0 <= i < j < |rows| && Active(rows[i].status) && Active(rows[j].status) ==> rows[i].caseId != rows[j].caseId
  }

  /** Every workflow in order, and one active workflow per case. */
  predicate InOrder(rows: seq<Workflow>) {
    (forall j :: 0 <= j < |rows| ==> Orderly(rows[j])) && OneActivePerCase(rows)
  }

  predicate WorkflowsOk(rows: seq<Workflow>) {
    InOrder(rows) && forall j :: 0 <= j < |rows| ==> AtRest(rows[j])
  }

  // ---------------------------------------------------------------- one round

  /** What the status of an executed step says about its workflow. */
  predicate Agrees(step: StepStatus, status: WorkflowStatus) {
    match step
    case StCompleted => status.WfRunning?
    case StFailed => status.WfFailed? || status.WfRequiresReview?
    case StWaiting => status.WfWaiting?
    case _ => false
  }

  lemma NextStepAgrees(db: Database, gateway: seq<Submission>, id: nat, x: Circumstances, k: nat)
    requires id < |db.workflows| && FirstReady(db.workflows[id].steps) == Some(k)
    requires AfterNextStep(db, gateway, id, x).result.Ok?
    ensures var after := AfterNextStep(db, gateway, id, x).result.value;
      && |after.workflows| == |db.workflows| && |after.workflows[id].steps| == |db.workflows[id].steps|
      && Agrees(after.workflows[id].steps[k].status, after.workflows[id].status)
  {
    var running := DispatchRuns.Running(db, id, k);
    match db.workflows[id].steps[k].kind {
      case ValidateAuthorization => ValidateIsOnlyStep(running, id, k, x);
      case DispatchPaymentRetry => DispatchIsOnlyStep(running, gateway, id, k, x);
      case AwaitVerification =>
      case WaitCooldown =>
      case DispatchCommunication =>
      case CreateSupportTask =>
    }
  }

  /** From `v` to `w`: still in order, about the same case, and not newly active. */
  predicate Advanced(v: Workflow, w: Workflow) {
    Orderly(w) && w.caseId == v.caseId && (Active(w.status) ==> Active(v.status))
  }

  lemma NextStepAdvances(db: Database, gateway: seq<Submission>, id: nat, x: Circumstances, k: nat)
    requires id < |db.workflows| && Orderly(db.workflows[id])
    requires db.workflows[id].status.WfPending? || db.workflows[id].status.WfRunning?
    requires FirstReady(db.workflows[id].steps) == Some(k)
    requires AfterNextStep(db, gateway, id, x).result.Ok?
    ensures var after := AfterNextStep(db, gateway, id, x).result.value;
      && |after.workflows| == |db.workflows| && after.workflows == db.workflows[id := after.workflows[id]]
      && Advanced(db.workflows[id], after.workflows[id])
      && k < |after.workflows[id].steps| && Agrees(after.workflows[id].steps[k].status, after.workflows[id].status)
  {
    var v := db.workflows[id];
    var after := AfterNextStep(db, gateway, id, x).result.value;
    NextStepIsOnlyStep(db, gateway, id, x, k);
    NextStepAgrees(db, gateway, id, x, k);
    var m :| 0 <= m <= |v.steps| && Reached(v, m);
    assert m == k;
    assert Reached(after.workflows[id], if after.workflows[id].steps[k].status.StCompleted? then k + 1 else k);
  }

  lemma RoundAdvances(db: Database, gateway: seq<Submission>, id: nat, x: Circumstances)
    requires id < |db.workflows| && Orderly(db.workflows[id])
    ensures match AfterRound(db, gateway, id, x)
            case Continues(after, log) =>
              |after.workflows| == |db.workflows| && after.workflows == db.workflows[id := after.workflows[id]]
              && Advanced(db.workflows[id], after.workflows[id])
            case Ends(all) =>
              all.ran.result.Ok? ==>
                var after := all.ran.result.value;
                |after.workflows| == |db.workflows| && after.workflows == db.workflows[id := after.workflows[id]]
                && Advanced(db.workflows[id], after.workflows[id]) && !after.workflows[id].status.WfRunning?
  {
    var v := db.workflows[id];
    var m :| 0 <= m <= |v.steps| && Reached(v, m);
    if Halts(v.status) {
      assert db.workflows == db.workflows[id := v];
    } else if FirstReady(v.steps).None? {
      assert m == |v.steps|;
      assert Reached(v.(status := WfCompleted), m);
    } else if AfterNextStep(db, gateway, id, x).result.Ok? {
      NextStepAdvances(db, gateway, id, x, FirstReady(v.steps).value);
    }
  }

  /** Running the loop leaves its workflow in order and at rest, and no other touched. */
  lemma LoopAdvances(db: Database, gateway: seq<Submission>, id: nat, x: Circumstances)
    requires id < |db.workflows| && Orderly(db.workflows[id])
    requires AfterAllSteps(db, gateway, id, x).ran.result.Ok?
    ensures var after := AfterAllSteps(db, gateway, id, x).ran.result.value;
      && |after.workflows| == |db.workflows| && after.workflows == db.workflows[id := after.workflows[id]]
      && Advanced(db.workflows[id], after.workflows[id]) && !after.workflows[id].status.WfRunning?
  {
    hide Apply;
    var round := RoundOf(id, x);
    var inv := (d: Database, g: seq<Submission>) =>
        |d.workflows| == |db.workflows| && d.workflows == db.workflows[id := d.workflows[id]]
        && Advanced(db.workflows[id], d.workflows[id]);
    forall d, g | inv(d, g) && round(d, g).Continues? ensures inv(round(d, g).db, round(d, g).gateway) {
      RoundAdvances(d, g, id, x);
    }
    var d, g := LoopKeeps(round, inv, db, gateway, |db.workflows[id].steps| + 2);
    CapIsNeverReached(db, gateway, id, x, |db.workflows[id].steps| + 2);
    RoundAdvances(d, g, id, x);
  }

  // --------------------------------------------------------------- whole runs

  lemma StepKeepsOrder(w: World, step: Step)
    requires WorkflowsOk(w.db.workflows) && !step.ExecuteNext?
    ensures WorkflowsOk(Apply(w, step).db.workflows)
  {
    hide AfterCreateWorkflow;
    match step {
      case ExecuteAll(id, x) =>
        if AfterAllSteps(w.db, w.gateway, id, x).ran.result.Ok? {
          assert AtRest(w.db.workflows[id]);
          LoopAdvances(w.db, w.gateway, id, x);
        }
      case CreateWorkflow(decision) => CreationKeepsOrder(w.db, decision);
      case _ => DispatchRuns.OthersLeaveWorkflows(w, step);
    }
  }

  lemma CreationKeepsOrder(db: Database, decision: nat)
    requires WorkflowsOk(db.workflows)
    ensures WorkflowsOk(OrKeep(db, AfterCreateWorkflow(db, decision)).workflows)
  {
    CreationKeepsInOrder(db, decision);
  }

  /** In runs that execute workflows with the loop: completed steps come first, then at most one
      failed or waiting step, then pending ones; a completed workflow has every step completed;
      and a case has at most one active workflow. */
  lemma {:induction false} LoopKeepsWorkflowsInOrder(w: World, steps: seq<Step>)
    requires WorkflowsOk(w.db.workflows)
    requires forall k :: 0 <= k < |steps| ==> !steps[k].ExecuteNext?
    ensures WorkflowsOk(Run(w, steps).db.workflows)
    decreases steps
  {
    hide Apply;
    if steps != [] {
      assert !steps[0].ExecuteNext?;
      StepKeepsOrder(w, steps[0]);
      LoopKeepsWorkflowsInOrder(Apply(w, steps[0]), steps[1..]);
    }
  }

  // ---------------------------------------------------------- single-stepping

  /** A single step keeps its workflow in order exactly when the workflow is neither waiting nor
      under review, the two halts `execute_next_step` does not stop at. */
  lemma SingleStepKeepsOrderExactly(db: Database, gateway: seq<Submission>, id: nat, x: Circumstances)
    requires id < |db.workflows| && Orderly(db.workflows[id]) && AfterNextStep(db, gateway, id, x).result.Ok?
    ensures var v, after := db.workflows[id], AfterNextStep(db, gateway, id, x).result.value;
      && id < |after.workflows|
      && (Orderly(after.workflows[id]) <==> !v.status.WfWaiting? && !v.status.WfRequiresReview?)
  {
    var v := db.workflows[id];
    if v.status.WfWaiting? || v.status.WfRequiresReview? {
      PassedHaltBreaks(db, gateway, id, x);
      BrokenIsDisorderly(AfterNextStep(db, gateway, id, x).result.value.workflows[id]);
    } else if FirstReady(v.steps).Some? {
      NextStepAdvances(db, gateway, id, x, FirstReady(v.steps).value);
    } else {
      var m :| 0 <= m <= |v.steps| && Reached(v, m);
      assert m == |v.steps|;
      assert Reached(v.(status := WfCompleted), m);
    }
  }

  predicate Unsuccessful(step: WorkflowStep) {
    step.status.StWaiting? || step.status.StFailed?
  }

  /** An unsuccessful step that was passed over: by a later step, or by completing the workflow. */
  predicate Broken(w: Workflow) {
    exists j :: 0 <= j < |w.steps| && PassedOver(w, j)
  }

  predicate PassedOver(w: Workflow, j: nat)
    requires j < |w.steps|
  {
    Unsuccessful(w.steps[j]) && (w.status.WfCompleted? || exists k :: j < k < |w.steps| && !Ready(w.steps[k]))
  }

  lemma BrokenIsDisorderly(w: Workflow)
    requires Broken(w)
    ensures !Orderly(w)
  {
    var j :| 0 <= j < |w.steps| && PassedOver(w, j);
    forall m | 0 <= m <= |w.steps| ensures !Reached(w, m) {
      assert Unsuccessful(w.steps[j]);
    }
  }

  /** Executed steps and completed workflows stay, so nothing mends a broken workflow. */
  lemma BrokenStays(v: Workflow, w: Workflow)
    requires Broken(v) && WorkflowEvolves(v, w)
    ensures Broken(w)
  {
    var j :| 0 <= j < |v.steps| && PassedOver(v, j);
    if v.status.WfCompleted? {
      assert w == v;
    } else {
      var k :| j < k < |v.steps| && !Ready(v.steps[k]);
      assert w.steps[j] == v.steps[j] && w.steps[k] == v.steps[k];
      assert PassedOver(w, j);
    }
  }

  lemma PassedHaltBreaks(db: Database, gateway: seq<Submission>, id: nat, x: Circumstances)
    requires id < |db.workflows| && Orderly(db.workflows[id])
    requires db.workflows[id].status.WfWaiting? || db.workflows[id].status.WfRequiresReview?
    requires AfterNextStep(db, gateway, id, x).result.Ok?
    ensures var after := AfterNextStep(db, gateway, id, x).result.value; id < |after.workflows| && Broken(after.workflows[id])
  {
    hide Apply;
    var v := db.workflows[id];
    var after := AfterNextStep(db, gateway, id, x).result.value;
    var m :| 0 <= m <= |v.steps| && Reached(v, m);
    assert Unsuccessful(v.steps[m]);
    if FirstReady(v.steps).Some? {
      var k := FirstReady(v.steps).value;
      NextStepIsOnlyStep(db, gateway, id, x, k);
      assert !Ready(after.workflows[id].steps[k]);
    }
    assert PassedOver(after.workflows[id], m);
  }

  /** A call that steps past a halt. */
  predicate PassesHalt(db: Database, step: Step) {
    step.ExecuteNext? && step.workflowId < |db.workflows|
    && (db.workflows[step.workflowId].status.WfWaiting? || db.workflows[step.workflowId].status.WfRequiresReview?)
  }

  predicate PassesHaltInRun(w: World, steps: seq<Step>)
    decreases steps
  {
    steps != [] && (PassesHalt(w.db, steps[0]) || PassesHaltInRun(Apply(w, steps[0]), steps[1..]))
  }

  /** Stepping past a halt always commits: what is next is the wait for verification, or nothing. */
  lemma PassedHaltCommits(db: Database, gateway: seq<Submission>, id: nat, x: Circumstances)
    requires id < |db.workflows| && Orderly(db.workflows[id]) && DispatchRuns.WorkflowOk(db, db.workflows[id])
    requires db.workflows[id].status.WfWaiting? || db.workflows[id].status.WfRequiresReview?
    ensures AfterNextStep(db, gateway, id, x).result.Ok?
  {
    hide Apply;
    var v := db.workflows[id];
    var m :| 0 <= m <= |v.steps| && Reached(v, m);
    assert DispatchRuns.StepSettled(v.steps[m], v.status);
    if v.status.WfRequiresReview? {
      DispatchRuns.DispatchIsThird(db, v, m);
      assert Ready(v.steps[3]) && FirstReady(v.steps) == Some(3);
    } else {
      assert m == 3 && FirstReady(v.steps).None?;
    }
  }

  lemma SingleStepKeepsInOrder(db: Database, gateway: seq<Submission>, id: nat, x: Circumstances)
    requires InOrder(db.workflows) && id < |db.workflows|
    requires !db.workflows[id].status.WfWaiting? && !db.workflows[id].status.WfRequiresReview?
    requires AfterNextStep(db, gateway, id, x).result.Ok?
    ensures InOrder(AfterNextStep(db, gateway, id, x).result.value.workflows)
  {
    var v := db.workflows[id];
    var after := AfterNextStep(db, gateway, id, x).result.value;
    assert Orderly(v);
    SingleStepKeepsOrderExactly(db, gateway, id, x);
    if FirstReady(v.steps).Some? {
      NextStepAdvances(db, gateway, id, x, FirstReady(v.steps).value);
    }
    OneAdvanceKeepsInOrder(db.workflows, after.workflows, id);
  }

  lemma OneAdvanceKeepsInOrder(rows: seq<Workflow>, after: seq<Workflow>, id: nat)
    requires InOrder(rows) && id < |rows| && |after| == |rows| && after == rows[id := after[id]]
    requires Advanced(rows[id], after[id])
    ensures InOrder(after)
  {
  }

  lemma StepKeepsInOrder(w: World, step: Step)
    requires InOrder(w.db.workflows) && !PassesHalt(w.db, step)
    ensures InOrder(Apply(w, step).db.workflows)
  {
    hide AfterCreateWorkflow;
    match step {
      case ExecuteNext(id, x) =>
        if AfterNextStep(w.db, w.gateway, id, x).result.Ok? {
          SingleStepKeepsInOrder(w.db, w.gateway, id, x);
        }
      case ExecuteAll(id, x) =>
        if AfterAllSteps(w.db, w.gateway, id, x).ran.result.Ok? {
          assert Orderly(w.db.workflows[id]);
          LoopAdvances(w.db, w.gateway, id, x);
          OneAdvanceKeepsInOrder(w.db.workflows, AfterAllSteps(w.db, w.gateway, id, x).ran.result.value.workflows, id);
        }
      case CreateWorkflow(decision) => CreationKeepsInOrder(w.db, decision);
      case _ => DispatchRuns.OthersLeaveWorkflows(w, step);
    }
  }

  lemma CreationKeepsInOrder(db: Database, decision: nat)
    requires InOrder(db.workflows)
    ensures InOrder(OrKeep(db, AfterCreateWorkflow(db, decision)).workflows)
  {
    if AfterCreateWorkflow(db, decision).Ok? {
      var added := AfterCreateWorkflow(db, decision).value.workflows[|db.workflows|];
      assert Reached(added, 0);
      assert forall j :: 0 <= j < |db.workflows| ==> !IsActiveFor(db.workflows[j], added.caseId);
    }
  }

  lemma PassedHaltBreaksRun(w: World, step: Step, steps: seq<Step>)
    requires DispatchRuns.DispatchOk(w.db) && InOrder(w.db.workflows) && PassesHalt(w.db, step)
    ensures !InOrder(Run(Apply(w, step), steps).db.workflows)
  {
    var id := step.workflowId;
    assert Orderly(w.db.workflows[id]) && DispatchRuns.WorkflowOk(w.db, w.db.workflows[id]);
    PassedHaltCommits(w.db, w.gateway, id, step.x);
    PassedHaltBreaks(w.db, w.gateway, id, step.x);
    BrokenStaysInRun(Apply(w, step), steps, id);
  }

  lemma BrokenStaysInRun(w: World, steps: seq<Step>, id: nat)
    requires id < |w.db.workflows| && Broken(w.db.workflows[id])
    ensures !InOrder(Run(w, steps).db.workflows)
  {
    hide Apply;
    CaseRuns.RunEvolves(w, steps);
    var v := Run(w, steps).db.workflows[id];
    assert WorkflowEvolves(w.db.workflows[id], v);
    BrokenStays(w.db.workflows[id], v);
    BrokenIsDisorderly(v);
  }

  /** Over whole runs that mix single steps, loops and all other calls: the workflows end in order,
      one active per case, exactly when no call stepped past a halt. */
  lemma {:induction false} OrderIsKeptExactly(w: World, steps: seq<Step>)
    requires DispatchRuns.DispatchOk(w.db) && InOrder(w.db.workflows)
    ensures InOrder(Run(w, steps).db.workflows) <==> !PassesHaltInRun(w, steps)
    decreases steps
  {
    hide Apply;
    if steps != [] {
      if PassesHalt(w.db, steps[0]) {
        PassedHaltBreaksRun(w, steps[0], steps[1..]);
      } else {
        StepKeepsInOrder(w, steps[0]);
        DispatchRuns.StepDispatches(w, steps[0]);
        OrderIsKeptExactly(Apply(w, steps[0]), steps[1..]);
      }
    }
  }

  /** Another active workflow of the same case. */
  predicate HasActiveSibling(rows: seq<Workflow>, id: nat)
    requires id < |rows|
  {
    exists j :: 0 <= j < |rows| && j != id && IsActiveFor(rows[j], rows[id].caseId)
  }

  /** A single step breaks one-active-per-case exactly when it takes a workflow out of review while
      its case has another active one. */
  lemma SingleStepReactivatesExactly(db: Database, gateway: seq<Submission>, id: nat, x: Circumstances)
    requires InOrder(db.workflows) && id < |db.workflows| && DispatchRuns.WorkflowOk(db, db.workflows[id])
    requires AfterNextStep(db, gateway, id, x).result.Ok?
    ensures var reactivates := db.workflows[id].status.WfRequiresReview? && HasActiveSibling(db.workflows, id);
      OneActivePerCase(AfterNextStep(db, gateway, id, x).result.value.workflows) <==> !reactivates
  {
    var v := db.workflows[id];
    var after := AfterNextStep(db, gateway, id, x).result.value;
    assert Orderly(v);
    if v.status.WfRequiresReview? {
      ReviewedStepWaits(db, gateway, id, x);
      SiblingsDecide(db.workflows, after.workflows, id);
    } else if v.status.WfWaiting? {
      WaitingStepCompletes(db, gateway, id, x);
    } else {
      SingleStepKeepsInOrder(db, gateway, id, x);
    }
  }

  lemma SiblingsDecide(rows: seq<Workflow>, after: seq<Workflow>, id: nat)
    requires OneActivePerCase(rows) && id < |rows| && |after| == |rows| && after == rows[id := after[id]]
    requires Active(after[id].status) && after[id].caseId == rows[id].caseId
    ensures OneActivePerCase(after) <==> !HasActiveSibling(rows, id)
  {
    if HasActiveSibling(rows, id) {
      var j :| 0 <= j < |rows| && j != id && IsActiveFor(rows[j], rows[id].caseId);
      assert after[j] == rows[j];
    } else {
      forall i, j | 0 <= i < j < |after| && Active(after[i].status) && Active(after[j].status)
        ensures after[i].caseId != after[j].caseId
      {
        if i == id {
          assert !IsActiveFor(rows[j], rows[id].caseId);
        } else if j == id {
          assert !IsActiveFor(rows[i], rows[id].caseId);
        }
      }
    }
  }

  lemma ReviewedStepWaits(db: Database, gateway: seq<Submission>, id: nat, x: Circumstances)
    requires id < |db.workflows| && Orderly(db.workflows[id]) && DispatchRuns.WorkflowOk(db, db.workflows[id])
    requires db.workflows[id].status.WfRequiresReview? && AfterNextStep(db, gateway, id, x).result.Ok?
    ensures var after := AfterNextStep(db, gateway, id, x).result.value;
      && |after.workflows| == |db.workflows| && after.workflows == db.workflows[id := after.workflows[id]]
      && after.workflows[id].status.WfWaiting? && after.workflows[id].caseId == db.workflows[id].caseId
  {
    var v := db.workflows[id];
    var m :| 0 <= m <= |v.steps| && Reached(v, m);
    assert DispatchRuns.StepSettled(v.steps[m], v.status);
    DispatchRuns.DispatchIsThird(db, v, m);
    assert Ready(v.steps[3]) && FirstReady(v.steps) == Some(3);
    NextStepIsOnlyStep(db, gateway, id, x, 3);
  }

  lemma WaitingStepCompletes(db: Database, gateway: seq<Submission>, id: nat, x: Circumstances)
    requires InOrder(db.workflows) && id < |db.workflows| && DispatchRuns.WorkflowOk(db, db.workflows[id])
    requires db.workflows[id].status.WfWaiting? && AfterNextStep(db, gateway, id, x).result.Ok?
    ensures OneActivePerCase(AfterNextStep(db, gateway, id, x).result.value.workflows)
  {
    hide Apply;
    var v := db.workflows[id];
    assert Orderly(v);
    var m :| 0 <= m <= |v.steps| && Reached(v, m);
    assert DispatchRuns.StepSettled(v.steps[m], v.status);
    assert m == 3 && FirstReady(v.steps).None?;
  }
}
