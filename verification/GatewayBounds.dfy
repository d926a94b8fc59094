/** The bounds at the gateway, exactly: what is submitted is what is filed and what is lost. */
module GatewayBounds {
  import opened Domain
  import opened Store
  import opened System
  import opened Evolution
  import opened Workflows
  import opened CaseRuns
  import opened DispatchRuns
  import opened LostDispatches

  // ----------------------------------------------------------------- per case

  /** The calls of the run that lose a dispatch of this case. */
  function LostCalls(w: World, steps: seq<Step>, caseId: nat): nat
    decreases steps
  {
    if steps == [] then 0
    else
      (if WouldLose(w.db, steps[0]) && CalledCase(w.db, steps[0]) == caseId then 1 else 0)
      + LostCalls(Apply(w, steps[0]), steps[1..], caseId)
  }

  /** Submissions of a case that are not on file. */
  function Unfiled(w: World, caseId: nat): int {
    SubmissionsOf(w.gateway, caseId) - ExecutionsOf(w.db.executions, caseId)
  }

  lemma StepLeavesUnfiled(w: World, step: Step, caseId: nat)
    requires DispatchOk(w.db) && AllLogged(w.db)
    ensures Unfiled(Apply(w, step), caseId)
         == Unfiled(w, caseId) + (if WouldLose(w.db, step) && CalledCase(w.db, step) == caseId then 1 else 0)
  {
    hide Apply;
    StepCallsOnce(w, step);
    if CallsGateway(w.db, step) {
      CallCounts(w.gateway, Apply(w, step).gateway, step.workflowId, CalledCase(w.db, step), caseId);
      if !WouldLose(w.db, step) {
        FilingCounts(w.db.executions, Apply(w, step).db.executions, step.workflowId, CalledCase(w.db, step), caseId);
      }
    }
  }

  lemma CallCounts(before: seq<Submission>, log: seq<Submission>, id: nat, called: nat, caseId: nat)
    requires CalledOnce(before, log, id, called)
    ensures SubmissionsOf(log, caseId) == SubmissionsOf(before, caseId) + (if called == caseId then 1 else 0)
    ensures forall other :: SubmissionsTo(log, other) == SubmissionsTo(before, other) + (if id == other then 1 else 0)
  {
    assert log[..|before|] == before;
  }

  lemma FilingCounts(before: seq<Execution>, rows: seq<Execution>, id: nat, called: nat, caseId: nat)
    requires FiledOnce(before, rows, id, called)
    ensures ExecutionsOf(rows, caseId) == ExecutionsOf(before, caseId) + (if called == caseId then 1 else 0)
  {
    assert rows[..|before|] == before;
  }

  lemma {:induction false} RunLeavesUnfiled(w: World, steps: seq<Step>, caseId: nat)
    requires DispatchOk(w.db) && AllLogged(w.db)
    ensures Unfiled(Run(w, steps), caseId) == Unfiled(w, caseId) + LostCalls(w, steps, caseId)
    decreases steps
  {
    hide Apply;
    if steps != [] {
      StepLeavesUnfiled(w, steps[0], caseId);
      StepDispatches(w, steps[0]);
      StepKeepsLogged(w, steps[0]);
      RunLeavesUnfiled(Apply(w, steps[0]), steps[1..], caseId);
    }
  }

  /** In every run the gateway was called for a case once for each execution on file and once for
      each lost dispatch, */
  lemma SubmissionsAreFiledOrLost(steps: seq<Step>, caseId: nat)
    ensures var w := Run(START, steps);
      SubmissionsOf(w.gateway, caseId) == ExecutionsOf(w.db.executions, caseId) + LostCalls(START, steps, caseId)
  {
    hide Apply;
    RunLeavesUnfiled(START, steps, caseId);
  }

  /** so it was called at most four times exactly when those two together are at most four; the
      executions on file alone always are. */
  lemma CaseBoundHoldsExactly(steps: seq<Step>, caseId: nat)
    ensures var w := Run(START, steps);
      && ExecutionsOf(w.db.executions, caseId) <= MAX_ATTEMPTS
      && (SubmissionsOf(w.gateway, caseId) <= MAX_ATTEMPTS <==>
            LostCalls(START, steps, caseId) <= MAX_ATTEMPTS - ExecutionsOf(w.db.executions, caseId))
  {
    hide Apply;
    SubmissionsAreFiledOrLost(steps, caseId);
    DispatchesOnFileAreBounded(steps, caseId);
  }

  // ------------------------------------------------------------- per workflow

  function SubmissionsTo(log: seq<Submission>, id: nat): nat {
    if log == [] then 0
    else SubmissionsTo(log[..|log| - 1], id) + (if log[|log| - 1].workflow == id then 1 else 0)
  }

  predicate Calls(db: Database, step: Step, id: nat) {
    CallsGateway(db, step) && step.workflowId == id
  }

  /** The calls of the run that reach the gateway for this workflow. */
  function CallsOf(w: World, steps: seq<Step>, id: nat): nat
    decreases steps
  {
    if steps == [] then 0
    else (if Calls(w.db, steps[0], id) then 1 else 0) + CallsOf(Apply(w, steps[0]), steps[1..], id)
  }

  /** Whether a call loses a dispatch of the workflow and a later one reaches the gateway for it. */
  predicate CalledAfterLoss(w: World, steps: seq<Step>, id: nat)
    decreases steps
  {
    steps != [] &&
    var v := Apply(w, steps[0]);
    ( (Calls(w.db, steps[0], id) && WouldLose(w.db, steps[0]) && CallsOf(v, steps[1..], id) > 0)
      || CalledAfterLoss(v, steps[1..], id) )
  }

  lemma {:induction false} SubmissionsAreCalls(w: World, steps: seq<Step>, id: nat)
    requires DispatchOk(w.db) && AllLogged(w.db)
    ensures SubmissionsTo(Run(w, steps).gateway, id) == SubmissionsTo(w.gateway, id) + CallsOf(w, steps, id)
    decreases steps
  {
    hide Apply;
    if steps != [] {
      StepSubmits(w, steps[0], id);
      StepDispatches(w, steps[0]);
      StepKeepsLogged(w, steps[0]);
      SubmissionsAreCalls(Apply(w, steps[0]), steps[1..], id);
    }
  }

  lemma StepSubmits(w: World, step: Step, id: nat)
    requires DispatchOk(w.db) && AllLogged(w.db)
    ensures SubmissionsTo(Apply(w, step).gateway, id)
         == SubmissionsTo(w.gateway, id) + (if Calls(w.db, step, id) then 1 else 0)
  {
    hide Apply;
    StepGateway(w, step);
    if CallsGateway(w.db, step) {
      CallCounts(w.gateway, Apply(w, step).gateway, step.workflowId, CalledCase(w.db, step), 0);
    }
  }

  /** A workflow whose dispatch is behind it. */
  predicate DispatchIsBehind(db: Database, id: nat) {
    && id < |db.workflows| && |db.workflows[id].steps| > 2
    && db.workflows[id].steps[2].kind.DispatchPaymentRetry? && !Ready(db.workflows[id].steps[2])
  }

  lemma BehindCallsNoMore(db: Database, step: Step, id: nat)
    requires DispatchOk(db) && DispatchIsBehind(db, id)
    ensures !Calls(db, step, id)
  {
    var w := db.workflows[id];
    assert WorkflowOk(db, w);
    if FirstReady(w.steps).Some? {
      var k := FirstReady(w.steps).value;
      if w.steps[k].kind.DispatchPaymentRetry? {
        DispatchIsThird(db, w, k);
      }
    }
  }

  lemma {:induction false} BehindIsNeverCalled(w: World, steps: seq<Step>, id: nat)
    requires DispatchOk(w.db) && DispatchIsBehind(w.db, id)
    ensures CallsOf(w, steps, id) == 0 && !CalledAfterLoss(w, steps, id)
    decreases steps
  {
    hide Apply;
    if steps != [] {
      var v := Apply(w, steps[0]);
      BehindCallsNoMore(w.db, steps[0], id);
      StepEvolves(w, steps[0]);
      assert WorkflowEvolves(w.db.workflows[id], v.db.workflows[id]);
      StepDispatches(w, steps[0]);
      BehindIsNeverCalled(v, steps[1..], id);
    }
  }

  /** A dispatch that is filed is behind its workflow. */
  lemma FiledIsBehind(w: World, step: Step, id: nat)
    requires DispatchOk(w.db) && AllLogged(w.db) && Calls(w.db, step, id) && !WouldLose(w.db, step)
    ensures DispatchOk(Apply(w, step).db) && DispatchIsBehind(Apply(w, step).db, id)
  {
    hide Apply;
    var v := Apply(w, step);
    StepDispatches(w, step);
    StepCallsOnce(w, step);
    var e := v.db.executions[|w.db.executions|];
    assert ExecutionOk(v.db, e) && WorkflowOk(v.db, v.db.workflows[id]);
    DispatchIsThird(v.db, v.db.workflows[id], e.step);
  }

  lemma {:induction false} NoCallsNoneAfterLoss(w: World, steps: seq<Step>, id: nat)
    requires CallsOf(w, steps, id) == 0
    ensures !CalledAfterLoss(w, steps, id)
    decreases steps
  {
    hide Apply;
    if steps != [] {
      NoCallsNoneAfterLoss(Apply(w, steps[0]), steps[1..], id);
    }
  }

  lemma {:induction false} SecondCallFollowsLoss(w: World, steps: seq<Step>, id: nat)
    requires DispatchOk(w.db) && AllLogged(w.db)
    ensures CallsOf(w, steps, id) <= 1 <==> !CalledAfterLoss(w, steps, id)
    decreases steps
  {
    hide Apply;
    if steps != [] {
      var v := Apply(w, steps[0]);
      if Calls(w.db, steps[0], id) && !WouldLose(w.db, steps[0]) {
        FiledIsBehind(w, steps[0], id);
        BehindIsNeverCalled(v, steps[1..], id);
      } else {
        StepDispatches(w, steps[0]);
        StepKeepsLogged(w, steps[0]);
        SecondCallFollowsLoss(v, steps[1..], id);
        if CallsOf(v, steps[1..], id) == 0 {
          NoCallsNoneAfterLoss(v, steps[1..], id);
        }
      }
    }
  }

  /** In every run the gateway was called at most once for a workflow exactly when no call reached
      it for the workflow after one that lost its dispatch. */
  lemma WorkflowBoundHoldsExactly(steps: seq<Step>, id: nat)
    ensures SubmissionsTo(Run(START, steps).gateway, id) <= 1 <==> !CalledAfterLoss(START, steps, id)
  {
    hide Apply;
    SubmissionsAreCalls(START, steps, id);
    SecondCallFollowsLoss(START, steps, id);
  }
}
