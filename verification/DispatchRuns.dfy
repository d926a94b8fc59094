/** Theorems about payment dispatch over whole runs: under what authority the gateway is called,
    how often a dispatch is on file, when it is lost, and what rules further dispatches out. */
module DispatchRuns {
  import opened Domain
  import opened CaseLog
  import opened Store
  import opened System
  import opened Evolution
  import opened Workflows
  import opened WorkflowSteps
  import opened CaseRuns
  import Ingestion
  import Lifecycle
  import PolicyEngine
  import Reconciliation

  // --------------------------------------------------------------- invariants

  /** The only ways a step that is not ready can stand. */
  predicate StepSettled(step: WorkflowStep, status: WorkflowStatus) {
    match step.kind
    case ValidateAuthorization => step.status.StCompleted? || (step.status.StFailed? && status.WfFailed?)
    case WaitCooldown => step.status.StCompleted?
    case DispatchCommunication => step.status.StCompleted?
    case CreateSupportTask => step.status.StCompleted?
    case DispatchPaymentRetry => step.status.StCompleted? || step.status.StFailed?
    case AwaitVerification => step.status.StWaiting?
  }

  /** A workflow carries out the plan of an approved decision about its case, in order. */
  predicate WorkflowOk(db: Database, w: Workflow) {
    && w.decision < |db.decisions| && w.caseId < |db.cases|
    && var d := db.decisions[w.decision];
    && d.status.Approved? && d.caseId == w.caseId
    && |w.steps| == |Plan(d.action)|
    && forall k :: 0 <= k < |w.steps| ==>
         && w.steps[k].kind == Plan(d.action)[k] && w.steps[k].action == d.action
         && (!Ready(w.steps[k]) ==> StepSettled(w.steps[k], w.status))
         && (Ready(w.steps[k]) ==> forall j :: k < j < |w.steps| ==> Ready(w.steps[j]))
  }

  /** An execution on file belongs to a dispatch step that has run. */
  predicate ExecutionOk(db: Database, e: Execution) {
    && e.workflow < |db.workflows| && e.step < |db.workflows[e.workflow].steps|
    && e.caseId == db.workflows[e.workflow].caseId
    && db.workflows[e.workflow].steps[e.step].kind.DispatchPaymentRetry?
    && !Ready(db.workflows[e.workflow].steps[e.step])
  }

  function ExecutionsOf(rows: seq<Execution>, caseId: nat): nat {
    if rows == [] then 0
    else ExecutionsOf(rows[..|rows| - 1], caseId) + (if rows[|rows| - 1].caseId == caseId then 1 else 0)
  }

  predicate OnePerWorkflow(rows: seq<Execution>) {
    forall i, j :: 0 <= i < j < |rows| ==> rows[i].workflow != rows[j].workflow
  }

  predicate Bounded(db: Database) {
    forall c :: 0 <= c < |db.cases| ==>
      ExecutionsOf(db.executions, c) <= MAX_ATTEMPTS && ExecutionsOf(db.executions, c) <= |db.cases[c].attempts|
  }

  predicate DispatchOk(db: Database) {
    && (forall j :: 0 <= j < |db.workflows| ==> WorkflowOk(db, db.workflows[j]))
    && (forall j :: 0 <= j < |db.executions| ==> ExecutionOk(db, db.executions[j]))
    && OnePerWorkflow(db.executions)
    && Bounded(db)
  }

  /** What stood on file when the gateway was called. */
  predicate Authorised(s: Submission) {
    && s.workflow < |s.seen.workflows| && s.caseId < |s.seen.cases|
    && var w := s.seen.workflows[s.workflow];
    && var c := s.seen.cases[s.caseId];
    && w.caseId == s.caseId && w.decision < |s.seen.decisions|
    && var d := s.seen.decisions[w.decision];
    && d.status.Approved? && d.action.RetryPayment? && d.caseId == s.caseId
    && s.step < |w.steps| && w.steps[s.step].kind.DispatchPaymentRetry?
    && (forall k :: 0 <= k < s.step ==> w.steps[k].status.StCompleted?)
    && c.state.ActionPending?
    && c.trigger < |s.seen.transactions| && !TriggerHas(s.seen, c, TxSucceeded)
    && (forall k :: 0 <= k < |s.seen.executions| ==> !IsUnknownFor(s.seen.executions[k], s.caseId))
    && 1 <= |c.attempts| <= MAX_ATTEMPTS && c.attempts[|c.attempts| - 1].status.Started?
    && HasLiveConsent(s.seen, c.customer, s.at)
  }

  predicate HasLiveConsent(db: Database, customer: nat, at: int) {
    exists k :: 0 <= k < |db.consents| && IsLive(db.consents[k], customer, at)
  }

  predicate IsLive(k: Consent, customer: nat, at: int) {
    IsGranted(k, customer, RecurringBilling) && k.revokedAt.None? && (k.expiresAt.Some? ==> at <= k.expiresAt.value)
  }

  // ----------------------------------------------------------------- one step

  /** Writes outside the workflow and execution tables keep the invariants. */
  lemma EvolvingKeepsDispatch(a: Database, b: Database)
    requires DispatchOk(a) && Evolves(a, b) && NewCasesAreOpened(a, b)
    requires b.workflows == a.workflows && b.executions == a.executions
    ensures DispatchOk(b)
  {
    forall j | 0 <= j < |b.workflows| ensures WorkflowOk(b, b.workflows[j]) {
      assert WorkflowOk(a, a.workflows[j]);
    }
    forall j | 0 <= j < |b.executions| ensures ExecutionOk(b, b.executions[j]) {
      assert ExecutionOk(a, a.executions[j]);
    }
    forall c | 0 <= c < |b.cases|
      ensures ExecutionsOf(b.executions, c) <= MAX_ATTEMPTS && ExecutionsOf(b.executions, c) <= |b.cases[c].attempts|
    {
      if c < |a.cases| {
        assert CaseEvolves(a.cases[c], b.cases[c]);
      } else {
        ExecutionsAreOfKnownCases(a);
        NoExecutionsOf(a.executions, c);
      }
    }
  }

  lemma ExecutionsAreOfKnownCases(db: Database)
    requires DispatchOk(db)
    ensures forall j :: 0 <= j < |db.executions| ==> db.executions[j].caseId < |db.cases|
  {
    forall j | 0 <= j < |db.executions| ensures db.executions[j].caseId < |db.cases| {
      assert ExecutionOk(db, db.executions[j]);
      assert WorkflowOk(db, db.workflows[db.executions[j].workflow]);
    }
  }

  lemma {:induction false} NoExecutionsOf(rows: seq<Execution>, c: nat)
    requires forall j :: 0 <= j < |rows| ==> rows[j].caseId != c
    ensures ExecutionsOf(rows, c) == 0
  {
    if rows != [] {
      NoExecutionsOf(rows[..|rows| - 1], c);
    }
  }

  /** A dispatch step is the third step of a payment plan, and nothing else is. */
  lemma DispatchIsThird(db: Database, w: Workflow, k: nat)
    requires WorkflowOk(db, w) && k < |w.steps| && w.steps[k].kind.DispatchPaymentRetry?
    ensures k == 2 && db.decisions[w.decision].action.RetryPayment?
  {
  }

  /** What the first ready step of a workflow that may run finds before it. */
  lemma StepsBeforeReady(db: Database, w: Workflow, k: nat)
    requires WorkflowOk(db, w) && !Finished(w.status) && FirstReady(w.steps) == Some(k)
    ensures w.steps[k].kind.DispatchPaymentRetry? ==> forall j :: 0 <= j < k ==> w.steps[j].status.StCompleted?
  {
    if w.steps[k].kind.DispatchPaymentRetry? {
      DispatchIsThird(db, w, k);
      assert w.steps[0].kind.ValidateAuthorization? && w.steps[1].kind.WaitCooldown?;
      assert StepSettled(w.steps[0], w.status) && StepSettled(w.steps[1], w.status);
    }
  }

  lemma RevalidationMeans(db: Database, caseId: nat, now: int)
    requires Revalidate(db, caseId, RetryPayment, now).Allowed?
    ensures caseId < |db.cases| && db.cases[caseId].state.ActionPending?
    ensures !TriggerHas(db, db.cases[caseId], TxSucceeded) && |db.cases[caseId].attempts| < MAX_ATTEMPTS
    ensures forall k :: 0 <= k < |db.executions| ==> !IsUnknownFor(db.executions[k], caseId)
    ensures HasLiveConsent(db, db.cases[caseId].customer, now)
  {
    var c := db.cases[caseId];
    var found := FindFirst(db.consents, (k: Consent) => IsGranted(k, c.customer, RecurringBilling));
    assert IsLive(db.consents[found.value], c.customer, now);
  }

  /** The database marked running is what the step sees. */
  function Running(db: Database, id: nat, k: nat): Database
    requires id < |db.workflows| && k < |db.workflows[id].steps|
  {
    Mark(db, id, k, StRunning, WfRunning)
  }

  /** Whether executing the next step of a workflow calls the gateway. */
  predicate ReachesGateway(db: Database, id: nat, now: int) {
    && id < |db.workflows| && !Finished(db.workflows[id].status) && db.workflows[id].caseId < |db.cases|
    && FirstReady(db.workflows[id].steps).Some?
    && db.workflows[id].steps[FirstReady(db.workflows[id].steps).value].kind.DispatchPaymentRetry?
    && Dispatches(db, db.workflows[id].caseId, now)
  }

  /** The submission the next step makes. */
  function NextSubmission(db: Database, id: nat, x: Circumstances): Submission
    requires ReachesGateway(db, id, x.now)
  {
    var k := FirstReady(db.workflows[id].steps).value;
    var caseId := db.workflows[id].caseId;
    Submission(id, k, caseId, x.now, BeforeSubmit(Running(db, id, k), caseId, x.now), x.reply)
  }

  /** The gateway is called exactly when a dispatch step is next and revalidation allows it. */
  lemma GatewayCall(db: Database, gateway: seq<Submission>, id: nat, x: Circumstances)
    ensures AfterNextStep(db, gateway, id, x).gateway ==
              if ReachesGateway(db, id, x.now) then gateway + [NextSubmission(db, id, x)] else gateway
  {
  }

  /** Every call of the gateway is authorised. */
  lemma NextSubmissionIsAuthorised(db: Database, id: nat, x: Circumstances)
    requires DispatchOk(db) && ReachesGateway(db, id, x.now)
    ensures Authorised(NextSubmission(db, id, x))
  {
    var w := db.workflows[id];
    var k := FirstReady(w.steps).value;
    assert WorkflowOk(db, w);
    DispatchIsThird(db, w, k);
    StepsBeforeReady(db, w, k);
    RevalidationMeans(db, w.caseId, x.now);
    var c := db.cases[w.caseId];
    var at :| 0 <= at < |db.consents| && IsLive(db.consents[at], c.customer, x.now);
    assert IsLive(NextSubmission(db, id, x).seen.consents[at], c.customer, x.now);
  }

  /** The rows the next step leaves: its step settled, and an execution on file if it reached
      the gateway. */
  lemma SameEvidence(a: Database, b: Database, caseId: nat, now: int)
    requires b == a.(workflows := b.workflows) && caseId < |a.cases|
    ensures Revalidate(b, caseId, RetryPayment, now) == Revalidate(a, caseId, RetryPayment, now)
    ensures Dispatches(b, caseId, now) == Dispatches(a, caseId, now)
  {
    if exists k :: 0 <= k < |a.executions| && IsUnknownFor(a.executions[k], caseId) {
      var k :| 0 <= k < |a.executions| && IsUnknownFor(a.executions[k], caseId);
      assert IsUnknownFor(b.executions[k], caseId);
    }
  }

  lemma DispatchStepLeaves(db: Database, gateway: seq<Submission>, id: nat, x: Circumstances, k: nat)
    requires id < |db.workflows| && FirstReady(db.workflows[id].steps) == Some(k)
    requires db.workflows[id].steps[k].kind.DispatchPaymentRetry?
    requires AfterNextStep(db, gateway, id, x).result.Ok?
    ensures var after, w := AfterNextStep(db, gateway, id, x).result.value, db.workflows[id];
      && w.caseId < |db.cases| && |after.workflows| == |db.workflows| && |after.workflows[id].steps| == |w.steps|
      && after.workflows[id].steps[k].kind == w.steps[k].kind
      && StepSettled(after.workflows[id].steps[k], after.workflows[id].status)
      && after.executions ==
           (if ReachesGateway(db, id, x.now)
            then db.executions + [Execution(id, k, w.caseId, x.reply.status, x.reply.reference, x.now)]
            else db.executions)
      && (ReachesGateway(db, id, x.now) ==>
            |after.cases| == |db.cases| && |after.cases[w.caseId].attempts| == |db.cases[w.caseId].attempts| + 1)
  {
    hide Revalidate, MoveAfterReply;
    var running := Running(db, id, k);
    SameEvidence(db, running, db.workflows[id].caseId, x.now);
    DispatchIsOnlyStep(running, gateway, id, k, x);
  }

  lemma NextStepLeaves(db: Database, gateway: seq<Submission>, id: nat, x: Circumstances, k: nat)
    requires id < |db.workflows| && FirstReady(db.workflows[id].steps) == Some(k)
    requires AfterNextStep(db, gateway, id, x).result.Ok?
    ensures var after, w := AfterNextStep(db, gateway, id, x).result.value, db.workflows[id];
      && w.caseId < |db.cases| && |after.workflows| == |db.workflows| && |after.workflows[id].steps| == |w.steps|
      && after.workflows[id].steps[k].kind == w.steps[k].kind
      && StepSettled(after.workflows[id].steps[k], after.workflows[id].status)
      && after.executions ==
           (if ReachesGateway(db, id, x.now)
            then db.executions + [Execution(id, k, w.caseId, x.reply.status, x.reply.reference, x.now)]
            else db.executions)
      && (ReachesGateway(db, id, x.now) ==>
            |after.cases| == |db.cases| && |after.cases[w.caseId].attempts| == |db.cases[w.caseId].attempts| + 1)
  {
    hide Revalidate, Dispatches;
    var running := Running(db, id, k);
    match db.workflows[id].steps[k].kind {
      case ValidateAuthorization => ValidateIsOnlyStep(running, id, k, x);
      case DispatchPaymentRetry => DispatchStepLeaves(db, gateway, id, x, k);
      case AwaitVerification =>
      case WaitCooldown =>
      case DispatchCommunication =>
      case CreateSupportTask =>
    }
  }

  /** What a committed dispatch leaves, reply by reply: an accepted one awaits verification, one of
      unknown outcome is escalated and its workflow put under review, a refused one fails the
      workflow and stops the case at most; the attempt on file carries the outcome. */
  lemma DispatchEnds(db: Database, gateway: seq<Submission>, id: nat, x: Circumstances)
    requires ReachesGateway(db, id, x.now) && AfterNextStep(db, gateway, id, x).result.Ok?
    ensures var after, w := AfterNextStep(db, gateway, id, x).result.value, db.workflows[id];
      && |after.cases| == |db.cases| && |after.workflows| == |db.workflows|
      && |after.workflows[id].steps| == |w.steps|
      && var c, d, v := db.cases[w.caseId], after.cases[w.caseId], after.workflows[id];
      && var step := v.steps[FirstReady(w.steps).value].status;
      && d.attempts == c.attempts + [RetryAttempt(w.caseId, |c.attempts| + 1, AttemptAfterReply(x.reply.status), x.now)]
      && match x.reply.status
         case ExSubmitted => d.state.VerificationPending? && step.StCompleted? && v.status.WfRunning?
         case ExSucceeded => d.state.VerificationPending? && step.StCompleted? && v.status.WfRunning?
         case ExUnknown => d.state.Escalated? && step.StFailed? && v.status.WfRequiresReview?
         case ExFailed => (d.state == c.state || d.state.Stopped?) && step.StFailed? && v.status.WfFailed?
  {
    var k := FirstReady(db.workflows[id].steps).value;
    DispatchIsOnlyStep(Running(db, id, k), gateway, id, k, x);
  }

  lemma NextStepKeepsWorkflow(db: Database, after: Database, id: nat, k: nat)
    requires id < |db.workflows| && WorkflowOk(db, db.workflows[id]) && !Finished(db.workflows[id].status)
    requires FirstReady(db.workflows[id].steps) == Some(k)
    requires Located(db, id, k) && OnlyStep(db, after, id, k)
    requires !Ready(after.workflows[id].steps[k]) && StepSettled(after.workflows[id].steps[k], after.workflows[id].status)
    ensures WorkflowOk(after, after.workflows[id])
  {
  }

  lemma NewExecutionIsFirstOfItsWorkflow(db: Database, id: nat, k: nat)
    requires DispatchOk(db) && id < |db.workflows| && k < |db.workflows[id].steps|
    requires db.workflows[id].steps[k].kind.DispatchPaymentRetry? && Ready(db.workflows[id].steps[k])
    ensures forall j :: 0 <= j < |db.executions| ==> db.executions[j].workflow != id
  {
    forall j | 0 <= j < |db.executions| ensures db.executions[j].workflow != id {
      var e := db.executions[j];
      assert ExecutionOk(db, e) && WorkflowOk(db, db.workflows[id]);
      if e.workflow == id {
        DispatchIsThird(db, db.workflows[id], k);
        DispatchIsThird(db, db.workflows[id], e.step);
        assert false;
      }
    }
  }

  /** A step that commits keeps every workflow in order and every dispatch bound. */
  lemma NextStepKeepsDispatch(db: Database, gateway: seq<Submission>, id: nat, x: Circumstances)
    requires DispatchOk(db) && AfterNextStep(db, gateway, id, x).result.Ok?
    ensures DispatchOk(AfterNextStep(db, gateway, id, x).result.value)
  {
    var after := AfterNextStep(db, gateway, id, x).result.value;
    var w := db.workflows[id];
    assert WorkflowOk(db, w);
    var next := FirstReady(w.steps);
    if next.None? {
      CompletionKeepsDispatch(db, id);
    } else {
      var k := next.value;
      NextStepIsOnlyStep(db, gateway, id, x, k);
      NextStepLeaves(db, gateway, id, x, k);
      NextStepKeepsWorkflow(db, after, id, k);
      if ReachesGateway(db, id, x.now) {
        NewExecutionIsFirstOfItsWorkflow(db, id, k);
        RevalidationMeans(db, w.caseId, x.now);
      }
      StepKeepsDispatch(db, after, id, k, ReachesGateway(db, id, x.now));
    }
  }

  lemma CompletionKeepsDispatch(db: Database, id: nat)
    requires DispatchOk(db) && id < |db.workflows| && !Finished(db.workflows[id].status)
    requires FirstReady(db.workflows[id].steps).None?
    ensures DispatchOk(SetWorkflow(db, id, db.workflows[id].(status := WfCompleted)))
  {
    var after := SetWorkflow(db, id, db.workflows[id].(status := WfCompleted));
    forall j | 0 <= j < |after.workflows| ensures WorkflowOk(after, after.workflows[j]) {
      assert WorkflowOk(db, db.workflows[j]);
    }
    forall j | 0 <= j < |after.executions| ensures ExecutionOk(after, after.executions[j]) {
      assert ExecutionOk(db, db.executions[j]);
    }
  }

  /** What the step put on file. */
  predicate Filed(db: Database, after: Database, id: nat, k: nat, dispatched: bool)
    requires Located(db, id, k) && |after.cases| == |db.cases|
  {
    var caseId := db.workflows[id].caseId;
    if !dispatched then after.executions == db.executions
    else
      && |after.executions| == |db.executions| + 1
      && (var e := after.executions[|db.executions|]; e.workflow == id && e.step == k && e.caseId == caseId)
      && db.workflows[id].steps[k].kind.DispatchPaymentRetry?
      && |db.cases[caseId].attempts| < MAX_ATTEMPTS
      && |after.cases[caseId].attempts| == |db.cases[caseId].attempts| + 1
      && (forall j :: 0 <= j < |db.executions| ==> db.executions[j].workflow != id)
  }

  lemma StepKeepsDispatch(db: Database, after: Database, id: nat, k: nat, dispatched: bool)
    requires DispatchOk(db) && Located(db, id, k) && OnlyStep(db, after, id, k)
    requires WorkflowOk(after, after.workflows[id]) && !Ready(after.workflows[id].steps[k])
    requires Filed(db, after, id, k, dispatched)
    ensures DispatchOk(after)
  {
    forall j | 0 <= j < |after.workflows| ensures WorkflowOk(after, after.workflows[j]) {
      assert WorkflowOk(db, db.workflows[j]);
    }
    StepKeepsExecutions(db, after, id, k, dispatched);
    StepKeepsBounds(db, after, id, k, dispatched);
  }

  lemma StepKeepsExecutions(db: Database, after: Database, id: nat, k: nat, dispatched: bool)
    requires Located(db, id, k) && OnlyStep(db, after, id, k)
    requires OnePerWorkflow(db.executions) && forall j :: 0 <= j < |db.executions| ==> ExecutionOk(db, db.executions[j])
    requires !Ready(after.workflows[id].steps[k]) && Filed(db, after, id, k, dispatched)
    ensures OnePerWorkflow(after.executions)
    ensures forall j :: 0 <= j < |after.executions| ==> ExecutionOk(after, after.executions[j])
  {
    forall j | 0 <= j < |after.executions| ensures ExecutionOk(after, after.executions[j]) {
      if j < |db.executions| {
        assert ExecutionOk(db, db.executions[j]);
      }
    }
  }

  lemma StepKeepsBounds(db: Database, after: Database, id: nat, k: nat, dispatched: bool)
    requires Located(db, id, k) && OnlyStep(db, after, id, k) && Bounded(db)
    requires Filed(db, after, id, k, dispatched)
    ensures Bounded(after)
  {
    var caseId := db.workflows[id].caseId;
    assert CaseFollows(db.cases[caseId], after.cases[caseId]);
    if dispatched {
      assert after.executions[..|db.executions|] == db.executions;
    }
  }

  // ----------------------------------------------------------------- one call

  /** An execution on file records what a submission was answered. */
  predicate Records(e: Execution, s: Submission) {
    e.workflow == s.workflow && e.step == s.step && e.caseId == s.caseId
    && e.status == s.reply.status && e.reference == s.reply.reference
  }

  /** From (a, g) to (b, h) every submission was authorised and is on file. */
  predicate DispatchedTo(a: Database, g: seq<Submission>, b: Database, h: seq<Submission>) {
    && DispatchOk(b) && b.decisions == a.decisions
    && g <= h && a.executions <= b.executions
    && AllRecorded(b.executions[|a.executions|..], h[|g|..])
    && AllAuthorised(h[|g|..], a)
  }

  predicate AllRecorded(rows: seq<Execution>, log: seq<Submission>) {
    |rows| == |log| && forall k :: 0 <= k < |rows| ==> Records(rows[k], log[k])
  }

  /** Each submission was authorised, by decisions that were on file in `db`. */
  predicate AllAuthorised(log: seq<Submission>, db: Database) {
    forall s <- log :: Authorised(s) && s.seen.decisions == db.decisions
  }

  lemma DispatchedTransitively(a: Database, g: seq<Submission>, b: Database, h: seq<Submission>, c: Database, i: seq<Submission>)
    requires DispatchedTo(a, g, b, h) && DispatchedTo(b, h, c, i)
    ensures DispatchedTo(a, g, c, i)
  {
    hide DispatchOk, Authorised, Records;
    assert c.executions[|a.executions|..] == b.executions[|a.executions|..] + c.executions[|b.executions|..];
    assert i[|g|..] == h[|g|..] + i[|h|..];
  }

  lemma NextStepDispatches(db: Database, gateway: seq<Submission>, id: nat, x: Circumstances)
    requires DispatchOk(db) && AfterNextStep(db, gateway, id, x).result.Ok?
    ensures DispatchedTo(db, gateway, AfterNextStep(db, gateway, id, x).result.value, AfterNextStep(db, gateway, id, x).gateway)
  {
    var after, log := AfterNextStep(db, gateway, id, x).result.value, AfterNextStep(db, gateway, id, x).gateway;
    GatewayCall(db, gateway, id, x);
    NextStepKeepsDispatch(db, gateway, id, x);
    ExecutionsOfNextStep(db, gateway, id, x);
    if ReachesGateway(db, id, x.now) {
      NextSubmissionIsAuthorised(db, id, x);
      assert after.executions[|db.executions|..] == [after.executions[|db.executions|]];
      assert log[|gateway|..] == [NextSubmission(db, id, x)];
    } else {
      assert after.executions[|db.executions|..] == [] && log[|gateway|..] == [];
    }
  }

  lemma ExecutionsOfNextStep(db: Database, gateway: seq<Submission>, id: nat, x: Circumstances)
    requires AfterNextStep(db, gateway, id, x).result.Ok?
    ensures var after := AfterNextStep(db, gateway, id, x).result.value;
      && after.decisions == db.decisions && db.executions <= after.executions
      && (if ReachesGateway(db, id, x.now) then
            |after.executions| == |db.executions| + 1
            && Records(after.executions[|db.executions|], NextSubmission(db, id, x))
          else after.executions == db.executions)
  {
    var next := FirstReady(db.workflows[id].steps);
    if next.Some? {
      NextStepLeaves(db, gateway, id, x, next.value);
      NextStepIsOnlyStep(db, gateway, id, x, next.value);
    }
  }

  /** What executing steps can do to the gateway's log: add authorised submissions, each on file
      unless the call raised. */
  predicate Dispatched(w: World, ran: Ran) {
    && w.gateway <= ran.gateway
    && AllAuthorised(ran.gateway[|w.gateway|..], w.db)
    && (ran.result.Ok? ==> DispatchedTo(w.db, w.gateway, ran.result.value, ran.gateway))
  }

  lemma NextStepDispatched(w: World, id: nat, x: Circumstances)
    requires DispatchOk(w.db)
    ensures Dispatched(w, AfterNextStep(w.db, w.gateway, id, x))
  {
    GatewayCall(w.db, w.gateway, id, x);
    if AfterNextStep(w.db, w.gateway, id, x).result.Ok? {
      NextStepDispatches(w.db, w.gateway, id, x);
    } else if ReachesGateway(w.db, id, x.now) {
      NextSubmissionIsAuthorised(w.db, id, x);
    }
  }

  lemma LastRoundDispatched(w: World, id: nat, x: Circumstances)
    requires DispatchOk(w.db) && AfterRound(w.db, w.gateway, id, x).Ends?
    ensures Dispatched(w, AfterRound(w.db, w.gateway, id, x).all.ran)
  {
    if id < |w.db.workflows| && !Halts(w.db.workflows[id].status) {
      if FirstReady(w.db.workflows[id].steps).None? {
        CompletionKeepsDispatch(w.db, id);
      } else {
        NextStepDispatched(w, id, x);
      }
    }
  }

  lemma DispatchedAfterwards(w: World, d: Database, g: seq<Submission>, ran: Ran)
    requires DispatchedTo(w.db, w.gateway, d, g) && Dispatched(World(d, g), ran)
    ensures Dispatched(w, ran)
  {
    assert ran.gateway[|w.gateway|..] == g[|w.gateway|..] + ran.gateway[|g|..];
    if ran.result.Ok? {
      DispatchedTransitively(w.db, w.gateway, d, g, ran.result.value, ran.gateway);
    }
  }

  lemma RoundDispatched(w: World, d: Database, g: seq<Submission>, id: nat, x: Circumstances)
    requires DispatchedTo(w.db, w.gateway, d, g)
    ensures match AfterRound(d, g, id, x)
            case Continues(after, log) => DispatchedTo(w.db, w.gateway, after, log)
            case Ends(all) => Dispatched(w, all.ran)
  {
    hide DispatchOk, Authorised, Records, AfterNextStep;
    match AfterRound(d, g, id, x) {
      case Continues(after, log) =>
        NextStepDispatches(d, g, id, x);
        DispatchedTransitively(w.db, w.gateway, d, g, after, log);
      case Ends(all) =>
        LastRoundDispatched(World(d, g), id, x);
        DispatchedAfterwards(w, d, g, all.ran);
    }
  }

  lemma AllStepsDispatched(w: World, id: nat, x: Circumstances)
    requires DispatchOk(w.db)
    ensures Dispatched(w, AfterAllSteps(w.db, w.gateway, id, x).ran)
  {
    hide DispatchOk, Authorised, Records, AfterRound;
    if id < |w.db.workflows| {
      var round := RoundOf(id, x);
      var inv := (d: Database, g: seq<Submission>) => DispatchedTo(w.db, w.gateway, d, g);
      forall d, g | inv(d, g) && round(d, g).Continues? ensures inv(round(d, g).db, round(d, g).gateway) {
        RoundDispatched(w, d, g, id, x);
      }
      var d, g := LoopKeeps(round, inv, w.db, w.gateway, |w.db.workflows[id].steps| + 2);
      RoundDispatched(w, d, g, id, x);
    }
  }

  lemma CreationKeepsDispatch(db: Database, decision: nat)
    requires DispatchOk(db) && AfterCreateWorkflow(db, decision).Ok?
    ensures DispatchOk(AfterCreateWorkflow(db, decision).value)
    ensures AfterCreateWorkflow(db, decision).value.executions == db.executions
  {
    var after := AfterCreateWorkflow(db, decision).value;
    forall j | 0 <= j < |after.workflows| ensures WorkflowOk(after, after.workflows[j]) {
      if j < |db.workflows| {
        assert WorkflowOk(db, db.workflows[j]);
      }
    }
    forall j | 0 <= j < |after.executions| ensures ExecutionOk(after, after.executions[j]) {
      assert ExecutionOk(db, db.executions[j]);
    }
  }

  /** Neither decisions nor what became of them changed. */
  predicate SamePlans(a: Database, b: Database) {
    && b.recommendations == a.recommendations && b.decisions == a.decisions
    && b.workflows == a.workflows && b.executions == a.executions
  }

  lemma DeliveryLeavesPlans(db: Database, d: Ingestion.Delivery)
    ensures SamePlans(db, Ingestion.Ingest(db, d))
  {
  }

  lemma ReconcileLeavesPlans(db: Database, id: nat, q: Reconciliation.Inquiry)
    ensures SamePlans(db, Reconciliation.Reconcile(db, id, q))
  {
    hide Reconciliation.ResolutionOf, Reconciliation.ProviderStatus, Reconciliation.Resolved;
  }

  lemma OthersLeaveWorkflows(w: World, step: Step)
    requires !step.CreateWorkflow? && !step.ExecuteNext? && !step.ExecuteAll?
    ensures Apply(w, step).db.workflows == w.db.workflows && Apply(w, step).db.executions == w.db.executions
    ensures Apply(w, step).gateway == w.gateway
  {
    hide Ingestion.Ingest, Reconciliation.Reconcile, PolicyEngine.RunRules, PolicyEngine.Judged, Lifecycle.AfterJudgement;
    match step {
      case Deliver(d) => DeliveryLeavesPlans(w.db, d);
      case ReconcileCase(id, q) => ReconcileLeavesPlans(w.db, id, q);
      case _ =>
    }
  }

  /** Whether a call submits more than it leaves on file. */
  predicate Loses(w: World, step: Step) {
    |Apply(w, step).gateway| - |w.gateway| > |Apply(w, step).db.executions| - |w.db.executions|
  }

  lemma CreationDispatches(w: World, decision: nat)
    requires DispatchOk(w.db)
    ensures var v := Apply(w, CreateWorkflow(decision));
      DispatchOk(v.db) && v.gateway == w.gateway && v.db.executions == w.db.executions
  {
    hide AfterCreateWorkflow;
    if AfterCreateWorkflow(w.db, decision).Ok? {
      CreationKeepsDispatch(w.db, decision);
    }
  }

  lemma StepDispatches(w: World, step: Step)
    requires DispatchOk(w.db)
    ensures var v := Apply(w, step);
      && DispatchOk(v.db)
      && w.gateway <= v.gateway && w.db.executions <= v.db.executions && w.db.decisions <= v.db.decisions
      && AllAuthorised(v.gateway[|w.gateway|..], w.db)
      && |v.gateway| - |w.gateway| >= |v.db.executions| - |w.db.executions|
      && (!Loses(w, step) ==> AllRecorded(v.db.executions[|w.db.executions|..], v.gateway[|w.gateway|..]))
  {
    hide AfterNextStep, AfterAllSteps, AfterCreateWorkflow, Commit;
    StepEvolves(w, step);
    match step {
      case ExecuteNext(id, x) => NextStepDispatched(w, id, x);
      case ExecuteAll(id, x) => AllStepsDispatched(w, id, x);
      case CreateWorkflow(decision) => CreationDispatches(w, decision);
      case _ =>
        OthersLeaveWorkflows(w, step);
        EvolvingKeepsDispatch(w.db, Apply(w, step).db);
    }
  }

  // --------------------------------------------------------------- whole runs

  predicate GatewayOk(w: World) {
    DispatchOk(w.db) && forall s <- w.gateway :: Authorised(s) && s.seen.decisions <= w.db.decisions
  }

  lemma NewSubmissionsAreOk(w: World, v: World)
    requires GatewayOk(w) && DispatchOk(v.db) && w.db.decisions <= v.db.decisions
    requires w.gateway <= v.gateway && AllAuthorised(v.gateway[|w.gateway|..], w.db)
    ensures GatewayOk(v)
  {
    forall s <- v.gateway ensures Authorised(s) && s.seen.decisions <= v.db.decisions {
      assert v.gateway == w.gateway + v.gateway[|w.gateway|..];
      if s !in w.gateway {
        assert s in v.gateway[|w.gateway|..];
      }
    }
  }

  lemma {:induction false} RunKeepsGateway(w: World, steps: seq<Step>)
    requires GatewayOk(w)
    ensures GatewayOk(Run(w, steps))
    decreases steps
  {
    hide Apply;
    if steps != [] {
      var v := Apply(w, steps[0]);
      StepDispatches(w, steps[0]);
      NewSubmissionsAreOk(w, v);
      RunKeepsGateway(v, steps[1..]);
    }
  }

  /** Dispatch authority: whatever calls a run mixes, the gateway was only ever called for an
      approved retry decision that is still on file, with every earlier step completed, the case
      pending action, its payment not succeeded, no unknown outcome and a live consent. */
  lemma DispatchesAreAuthorised(steps: seq<Step>)
    ensures forall s <- Run(START, steps).gateway :: Authorised(s) && s.seen.decisions <= Run(START, steps).db.decisions
  {
    hide Apply;
    RunKeepsGateway(START, steps);
  }

  /** Dispatch bounds: in every run a case has at most four executions on file, never more than
      attempts, and a workflow at most one. */
  lemma DispatchesOnFileAreBounded(steps: seq<Step>, id: nat)
    ensures var db := Run(START, steps).db;
      && OnePerWorkflow(db.executions)
      && ExecutionsOf(db.executions, id) <= MAX_ATTEMPTS
      && (id < |db.cases| ==> ExecutionsOf(db.executions, id) <= |db.cases[id].attempts|)
  {
    hide Apply;
    RunKeepsGateway(START, steps);
    var db := Run(START, steps).db;
    if id >= |db.cases| {
      ExecutionsAreOfKnownCases(db);
      NoExecutionsOf(db.executions, id);
    }
  }

  predicate LosesInRun(w: World, steps: seq<Step>)
    decreases steps
  {
    steps != [] && (Loses(w, steps[0]) || LosesInRun(Apply(w, steps[0]), steps[1..]))
  }

  lemma {:induction false} UnfiledStaysUnfiled(w: World, steps: seq<Step>)
    requires DispatchOk(w.db) && |w.gateway| > |w.db.executions|
    ensures |Run(w, steps).gateway| > |Run(w, steps).db.executions|
    decreases steps
  {
    hide Apply;
    if steps != [] {
      StepDispatches(w, steps[0]);
      UnfiledStaysUnfiled(Apply(w, steps[0]), steps[1..]);
    }
  }

  lemma RecordedTogether(rows: seq<Execution>, log: seq<Submission>, rows': seq<Execution>, log': seq<Submission>)
    requires AllRecorded(rows, log) && rows <= rows' && log <= log'
    requires AllRecorded(rows'[|rows|..], log'[|log|..])
    ensures AllRecorded(rows', log')
  {
    assert rows' == rows + rows'[|rows|..];
    assert log' == log + log'[|log|..];
  }

  lemma {:induction false} RecordedUnlessLost(w: World, steps: seq<Step>)
    requires DispatchOk(w.db) && AllRecorded(w.db.executions, w.gateway)
    ensures AllRecorded(Run(w, steps).db.executions, Run(w, steps).gateway) <==> !LosesInRun(w, steps)
    decreases steps
  {
    hide Apply;
    if steps != [] {
      var v := Apply(w, steps[0]);
      StepDispatches(w, steps[0]);
      if Loses(w, steps[0]) {
        UnfiledStaysUnfiled(v, steps[1..]);
      } else {
        RecordedTogether(w.db.executions, w.gateway, v.db.executions, v.gateway);
        RecordedUnlessLost(v, steps[1..]);
      }
    }
  }

  /** The execution table tells exactly what the gateway received, row for row, in those runs
      that lost no dispatch. */
  lemma ExecutionsMirrorTheGateway(steps: seq<Step>)
    ensures AllRecorded(Run(START, steps).db.executions, Run(START, steps).gateway) <==> !LosesInRun(START, steps)
  {
    hide Apply;
    RecordedUnlessLost(START, steps);
  }

  function SubmissionsOf(log: seq<Submission>, caseId: nat): nat {
    if log == [] then 0
    else SubmissionsOf(log[..|log| - 1], caseId) + (if log[|log| - 1].caseId == caseId then 1 else 0)
  }

  lemma {:induction false} RecordedCounts(rows: seq<Execution>, log: seq<Submission>, caseId: nat)
    requires AllRecorded(rows, log)
    ensures SubmissionsOf(log, caseId) == ExecutionsOf(rows, caseId)
  {
    if rows != [] {
      assert Records(rows[|rows| - 1], log[|rows| - 1]);
      RecordedCounts(rows[..|rows| - 1], log[..|rows| - 1], caseId);
    }
  }

  lemma ReachedDispatchEnds(w: World, id: nat, x: Circumstances)
    requires ReachesGateway(w.db, id, x.now) && LogsOk(w.db.cases[w.db.workflows[id].caseId])
    ensures var c := w.db.cases[w.db.workflows[id].caseId];
      AfterNextStep(w.db, w.gateway, id, x).result.Ok? <==>
        Gap(c) == 0 || MoveAfterReply(x.reply.status, |c.attempts|, x.reloaded).None?
    ensures AfterNextStep(w.db, w.gateway, id, x).result.Ok? ==>
              |AfterNextStep(w.db, w.gateway, id, x).result.value.executions| == |w.db.executions| + 1
  {
    var caseId := w.db.workflows[id].caseId;
    var c := w.db.cases[caseId];
    RevalidationMeans(w.db, caseId, x.now);
    var attempted := WithAttempt(c, caseId, AttemptAfterReply(x.reply.status), x.now);
    var move := MoveAfterReply(x.reply.status, |c.attempts|, x.reloaded);
    if move.Some? {
      TableTransitionCommits(attempted, move.value);
    }
  }

  function Repeat(step: Step, n: nat): seq<Step> {
    if n == 0 then [] else [step] + Repeat(step, n - 1)
  }

  /** A lost dispatch leaves everything as it was but the gateway's log, so it can be repeated:
      there is no bound on the gateway calls of one workflow in runs that lose dispatches. */
  lemma {:induction false} LostDispatchRepeats(w: World, id: nat, x: Circumstances, n: nat)
    requires ReachesGateway(w.db, id, x.now) && LogsOk(w.db.cases[w.db.workflows[id].caseId])
    requires x.reply.status.ExSubmitted? && Gap(w.db.cases[w.db.workflows[id].caseId]) != 0
    ensures Run(w, Repeat(ExecuteNext(id, x), n)).db == w.db
    ensures var caseId := w.db.workflows[id].caseId;
      SubmissionsOf(Run(w, Repeat(ExecuteNext(id, x), n)).gateway, caseId) == SubmissionsOf(w.gateway, caseId) + n
    decreases n
  {
    hide Apply;
    if n > 0 {
      var v := LostDispatch(w, id, x);
      RunFirst(w, ExecuteNext(id, x), Repeat(ExecuteNext(id, x), n - 1));
      LostDispatchRepeats(v, id, x, n - 1);
    }
  }

  lemma LostDispatch(w: World, id: nat, x: Circumstances) returns (v: World)
    requires ReachesGateway(w.db, id, x.now) && LogsOk(w.db.cases[w.db.workflows[id].caseId])
    requires x.reply.status.ExSubmitted? && Gap(w.db.cases[w.db.workflows[id].caseId]) != 0
    ensures v == Apply(w, ExecuteNext(id, x)) && v.db == w.db
    ensures var caseId := w.db.workflows[id].caseId; SubmissionsOf(v.gateway, caseId) == SubmissionsOf(w.gateway, caseId) + 1
  {
    v := Apply(w, ExecuteNext(id, x));
    var log := w.gateway + [NextSubmission(w.db, id, x)];
    assert log[..|log| - 1] == w.gateway;
    GatewayCall(w.db, w.gateway, id, x);
    ReachedDispatchEnds(w, id, x);
  }

  // ------------------------------------------------------------------ blocked

  /** What rules out any further dispatch of a case. */
  predicate Blocked(db: Database, id: nat) {
    id < |db.cases| &&
    ( (exists k :: 0 <= k < |db.executions| && IsUnknownFor(db.executions[k], id))
    || TriggerHas(db, db.cases[id], TxSucceeded)
    || Terminal(db.cases[id].state)
    || |db.cases[id].attempts| >= MAX_ATTEMPTS )
  }

  lemma BlockedStays(a: Database, b: Database, id: nat)
    requires Blocked(a, id) && Evolves(a, b)
    ensures Blocked(b, id)
  {
    assert CaseEvolves(a.cases[id], b.cases[id]);
    if exists k :: 0 <= k < |a.executions| && IsUnknownFor(a.executions[k], id) {
      var k :| 0 <= k < |a.executions| && IsUnknownFor(a.executions[k], id);
      assert IsUnknownFor(b.executions[k], id);
    } else if TriggerHas(a, a.cases[id], TxSucceeded) {
      assert PaymentEvolves(a.transactions[a.cases[id].trigger], b.transactions[a.cases[id].trigger]);
    }
  }

  predicate NoneFor(log: seq<Submission>, id: nat) {
    forall s <- log :: s.caseId != id
  }

  lemma BlockedNextStep(db: Database, gateway: seq<Submission>, workflow: nat, x: Circumstances, id: nat)
    requires Blocked(db, id)
    ensures var log := AfterNextStep(db, gateway, workflow, x).gateway; gateway <= log && NoneFor(log[|gateway|..], id)
  {
    GatewayCall(db, gateway, workflow, x);
    if ReachesGateway(db, workflow, x.now) {
      RevalidationMeans(db, db.workflows[workflow].caseId, x.now);
    }
  }

  /** A round of the loop on a blocked case. */
  lemma BlockedRound(db: Database, gateway: seq<Submission>, workflow: nat, x: Circumstances, id: nat)
    requires Blocked(db, id)
    ensures match AfterRound(db, gateway, workflow, x)
            case Ends(all) => gateway <= all.ran.gateway && NoneFor(all.ran.gateway[|gateway|..], id)
            case Continues(after, log) => Blocked(after, id) && gateway <= log && NoneFor(log[|gateway|..], id)
  {
    BlockedNextStep(db, gateway, workflow, x, id);
    if AfterRound(db, gateway, workflow, x).Continues? {
      NextStepFollows(db, gateway, workflow, x);
      BlockedStays(db, AfterNextStep(db, gateway, workflow, x).result.value, id);
    }
  }

  lemma BlockedAllSteps(w: World, workflow: nat, x: Circumstances, id: nat)
    requires Blocked(w.db, id)
    ensures var log := AfterAllSteps(w.db, w.gateway, workflow, x).ran.gateway;
      w.gateway <= log && NoneFor(log[|w.gateway|..], id)
  {
    if workflow < |w.db.workflows| {
      var round := RoundOf(workflow, x);
      var inv := (d: Database, g: seq<Submission>) => Blocked(d, id) && w.gateway <= g && NoneFor(g[|w.gateway|..], id);
      forall d, g | inv(d, g) && round(d, g).Continues? ensures inv(round(d, g).db, round(d, g).gateway) {
        BlockedRound(d, g, workflow, x, id);
        NoneForJoined(w.gateway, g, round(d, g).gateway, id);
      }
      var d, g := LoopKeeps(round, inv, w.db, w.gateway, |w.db.workflows[workflow].steps| + 2);
      if round(d, g).Ends? {
        BlockedRound(d, g, workflow, x, id);
        NoneForJoined(w.gateway, g, round(d, g).all.ran.gateway, id);
      }
    }
  }

  lemma NoneForJoined(a: seq<Submission>, b: seq<Submission>, c: seq<Submission>, id: nat)
    requires a <= b <= c && NoneFor(b[|a|..], id) && NoneFor(c[|b|..], id)
    ensures NoneFor(c[|a|..], id)
  {
    assert c[|a|..] == b[|a|..] + c[|b|..];
  }

  lemma BlockedStep(w: World, step: Step, id: nat)
    requires Blocked(w.db, id)
    ensures var log := Apply(w, step).gateway; w.gateway <= log && NoneFor(log[|w.gateway|..], id)
  {
    match step {
      case ExecuteNext(workflow, x) => BlockedNextStep(w.db, w.gateway, workflow, x, id);
      case ExecuteAll(workflow, x) => BlockedAllSteps(w, workflow, x, id);
      case CreateWorkflow(_) =>
      case _ => OthersLeaveWorkflows(w, step);
    }
  }

  /** After an unknown outcome is on file, or the payment succeeded, or the case ended, or four
      attempts were made, no run ever calls the gateway for the case again. */
  lemma {:induction false} BlockedCasesAreNeverDispatched(w: World, steps: seq<Step>, id: nat)
    requires Blocked(w.db, id)
    ensures w.gateway <= Run(w, steps).gateway && NoneFor(Run(w, steps).gateway[|w.gateway|..], id)
    decreases steps
  {
    hide Apply;
    if steps != [] {
      var v := Apply(w, steps[0]);
      StepEvolves(w, steps[0]);
      BlockedStays(w.db, v.db, id);
      BlockedStep(w, steps[0], id);
      BlockedCasesAreNeverDispatched(v, steps[1..], id);
      NoneForJoined(w.gateway, v.gateway, Run(w, steps).gateway, id);
    }
  }
}
