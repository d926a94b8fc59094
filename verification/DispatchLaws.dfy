/** When a payment or a reminder goes out and what becomes of it, said on the rows alone. */
module DispatchLaws {
  import opened Domain
  import opened CaseLog
  import opened Store
  import opened System
  import opened Workflows
  import opened WorkflowSteps
  import opened CaseRuns
  import opened DispatchRuns
  import LockRuns
  import LostDispatches
  import WorkflowRuns

  // -------------------------------------------------------------- authorization

  /** The case is pending action, its payment has not succeeded and no execution of it is unknown. */
  predicate MayAct(db: Database, caseId: nat) {
    && caseId < |db.cases| && db.cases[caseId].state.ActionPending?
    && (db.cases[caseId].trigger < |db.transactions| ==> !db.transactions[db.cases[caseId].trigger].status.TxSucceeded?)
    && forall k :: 0 <= k < |db.executions| && db.executions[k].caseId == caseId ==> !db.executions[k].status.ExUnknown?
  }

  predicate GivenBy(k: Consent, customer: nat, kind: ConsentType) {
    k.customer == customer && k.kind == kind && k.status == Granted
  }

  /** Of the customer's granted consents to recurring billing the first on file counts, and it is
      neither revoked nor past its expiry. */
  predicate MandateHolds(db: Database, customer: nat, now: int) {
    exists k :: 0 <= k < |db.consents| && IsMandate(db, customer, k)
      && db.consents[k].revokedAt == None && (db.consents[k].expiresAt.Some? ==> now <= db.consents[k].expiresAt.value)
  }

  predicate IsMandate(db: Database, customer: nat, k: nat)
    requires k < |db.consents|
  {
    GivenBy(db.consents[k], customer, RecurringBilling)
    && forall j :: 0 <= j < k ==> !GivenBy(db.consents[j], customer, RecurringBilling)
  }

  predicate RetryIsDue(db: Database, caseId: nat, now: int) {
    MayAct(db, caseId) && |db.cases[caseId].attempts| < 4 && MandateHolds(db, db.cases[caseId].customer, now)
  }

  predicate ReminderIsDue(db: Database, caseId: nat) {
    MayAct(db, caseId)
    && exists k :: 0 <= k < |db.consents| && IsContact(db.consents[k], db.cases[caseId].customer)
  }

  predicate IsContact(k: Consent, customer: nat) {
    GivenBy(k, customer, EmailContact) || GivenBy(k, customer, SmsContact)
  }

  /** What the action needs before it may go out. */
  predicate IsDue(db: Database, caseId: nat, action: ActionType, now: int) {
    match action
    case RetryPayment => RetryIsDue(db, caseId, now)
    case SendReminder => ReminderIsDue(db, caseId)
    case OperatorReview => MayAct(db, caseId)
    case StopRecovery => MayAct(db, caseId)
    case NoAction => MayAct(db, caseId)
  }

  /** Revalidation allows an action exactly when it is due. */
  lemma AllowedExactly(db: Database, caseId: nat, action: ActionType, now: int)
    ensures Revalidate(db, caseId, action, now).Allowed? <==> IsDue(db, caseId, action, now)
  {
    if caseId < |db.cases| {
      var c := db.cases[caseId];
      assert (exists k :: 0 <= k < |db.executions| && IsUnknownFor(db.executions[k], caseId)) <==>
             !forall k :: 0 <= k < |db.executions| && db.executions[k].caseId == caseId ==> !db.executions[k].status.ExUnknown?;
      MandateIsFirstFound(db, c.customer, now);
      ContactsAreGranted(db, c.customer);
    }
  }

  lemma MandateIsFirstFound(db: Database, customer: nat, now: int)
    ensures var found := FindFirst(db.consents, (k: Consent) => IsGranted(k, customer, RecurringBilling));
      MandateHolds(db, customer, now) <==>
        && found.Some? && db.consents[found.value].revokedAt.None?
        && !(db.consents[found.value].expiresAt.Some? && db.consents[found.value].expiresAt.value < now)
  {
    var found := FindFirst(db.consents, (k: Consent) => IsGranted(k, customer, RecurringBilling));
    assert forall k :: 0 <= k < |db.consents| ==>
        (GivenBy(db.consents[k], customer, RecurringBilling) <==> IsGranted(db.consents[k], customer, RecurringBilling));
    if found.Some? {
      assert IsMandate(db, customer, found.value);
    }
  }

  lemma ContactsAreGranted(db: Database, customer: nat)
    ensures (exists k :: 0 <= k < |db.consents|
               && (IsGranted(db.consents[k], customer, EmailContact) || IsGranted(db.consents[k], customer, SmsContact)))
       <==> exists k :: 0 <= k < |db.consents| && IsContact(db.consents[k], customer)
  {
    if k :| 0 <= k < |db.consents| && IsContact(db.consents[k], customer) {
      assert IsGranted(db.consents[k], customer, EmailContact) || IsGranted(db.consents[k], customer, SmsContact);
    }
  }

  // ------------------------------------------------------------------- dispatch

  predicate Waits(step: WorkflowStep) {
    step.status == StPending || step.status == StScheduled
  }

  /** Step `k` is the next of a workflow that has not ended. */
  predicate IsNext(db: Database, id: nat, k: nat) {
    && id < |db.workflows| && k < |db.workflows[id].steps| && db.workflows[id].caseId < |db.cases|
    && db.workflows[id].status !in {WfCompleted, WfFailed, WfCancelled}
    && Waits(db.workflows[id].steps[k]) && forall j :: 0 <= j < k ==> !Waits(db.workflows[id].steps[j])
  }

  /** The payment step is next, the retry is due, and the payment and its customer are on file. */
  predicate PaymentIsDue(db: Database, id: nat, k: nat, now: int) {
    && IsNext(db, id, k) && db.workflows[id].steps[k].kind == DispatchPaymentRetry
    && RetryIsDue(db, db.workflows[id].caseId, now) && HasParties(db, db.workflows[id].caseId)
  }

  predicate HasParties(db: Database, caseId: nat) {
    caseId < |db.cases| && db.cases[caseId].trigger < |db.transactions| && db.cases[caseId].customer < |db.customers|
  }

  lemma NextIsFirstReady(db: Database, id: nat, k: nat)
    requires id < |db.workflows| && k < |db.workflows[id].steps|
    ensures (FirstReady(db.workflows[id].steps) == Some(k)) <==>
              Waits(db.workflows[id].steps[k]) && forall j :: 0 <= j < k ==> !Waits(db.workflows[id].steps[j])
  {
    assert forall s: WorkflowStep :: Ready(s) <==> Waits(s);
  }

  /** The gateway receives exactly one request when a payment is due at the next step, and none
      otherwise; the request shows the rows as they were, with the attempt on file as started. */
  lemma GatewayReceivesExactly(db: Database, gateway: seq<Submission>, id: nat, x: Circumstances)
    ensures var log := AfterNextStep(db, gateway, id, x).gateway;
      if exists k :: PaymentIsDue(db, id, k, x.now) then
        && |log| == |gateway| + 1 && gateway <= log
        && log[|gateway|].workflow == id && PaymentIsDue(db, id, log[|gateway|].step, x.now)
        && log[|gateway|].reply == x.reply && log[|gateway|].at == x.now
        && ShowsAttempt(db, log[|gateway|])
      else log == gateway
  {
    if k :| PaymentIsDue(db, id, k, x.now) {
      DueIsReached(db, id, k, x.now);
      GatewayCall(db, gateway, id, x);
    } else {
      if ReachesGateway(db, id, x.now) {
        var k := FirstReady(db.workflows[id].steps).value;
        NextIsFirstReady(db, id, k);
        AllowedExactly(db, db.workflows[id].caseId, RetryPayment, x.now);
        assert PaymentIsDue(db, id, k, x.now);
      }
      GatewayCall(db, gateway, id, x);
    }
  }

  predicate ShowsAttempt(db: Database, s: Submission) {
    && s.workflow < |db.workflows| && s.caseId == db.workflows[s.workflow].caseId
    && s.caseId < |db.cases| && |s.seen.cases| == |db.cases|
    && var c := db.cases[s.caseId];
    && s.seen.cases == db.cases[s.caseId := c.(attempts := c.attempts +
         [Attempt(|c.attempts| + 1, Started, RetryPayment, Some(s.at), None, RetryKey(s.caseId, |c.attempts| + 1))])]
    && s.seen.transactions == db.transactions && s.seen.consents == db.consents && s.seen.executions == db.executions
  }

  lemma DueIsReached(db: Database, id: nat, k: nat, now: int)
    requires PaymentIsDue(db, id, k, now)
    ensures ReachesGateway(db, id, now) && FirstReady(db.workflows[id].steps) == Some(k)
  {
    NextIsFirstReady(db, id, k);
    AllowedExactly(db, db.workflows[id].caseId, RetryPayment, now);
  }

  /** The loop, too: after any run it calls the gateway for a workflow exactly when its payment step
      is next or still to come behind the first two, and the retry is due. */
  lemma LoopReceivesExactly(steps: seq<Step>, id: nat, x: Circumstances)
    ensures var w := Run(START, steps);
      var log := AfterAllSteps(w.db, w.gateway, id, x).ran.gateway;
      if LoopIsDue(w.db, id, x.now) then |log| == |w.gateway| + 1 && w.gateway <= log && log[|w.gateway|].workflow == id
      else log == w.gateway
  {
    hide Apply, AfterAllSteps;
    var w := Run(START, steps);
    RunKeepsDispatchable(steps);
    if id < |w.db.workflows| {
      LostDispatches.AllStepsArrive(w, id, x);
      LoopIsDueExactly(w.db, id, x.now);
    } else {
      UnknownWorkflowIsQuiet(w, id, x);
    }
  }

  lemma RunKeepsDispatchable(steps: seq<Step>)
    ensures DispatchOk(Run(START, steps).db) && AllLogged(Run(START, steps).db)
  {
    hide Apply;
    RunKeepsGateway(START, steps);
    LogsStayNumbered(START, steps);
  }

  lemma UnknownWorkflowIsQuiet(w: World, id: nat, x: Circumstances)
    requires id >= |w.db.workflows|
    ensures AfterAllSteps(w.db, w.gateway, id, x).ran.gateway == w.gateway
  {
  }

  predicate LoopIsDue(db: Database, id: nat, now: int) {
    && id < |db.workflows|
    && db.workflows[id].status !in {WfCompleted, WfFailed, WfCancelled, WfWaiting, WfRequiresReview}
    && var rows := db.workflows[id].steps;
    && |rows| > 2 && rows[2].kind == DispatchPaymentRetry && (exists k :: 0 <= k <= 2 && Waits(rows[k]))
    && RetryIsDue(db, db.workflows[id].caseId, now) && HasParties(db, db.workflows[id].caseId)
  }

  lemma LoopIsDueExactly(db: Database, id: nat, now: int)
    requires id < |db.workflows|
    ensures LoopIsDue(db, id, now) <==> LostDispatches.LoopReachesGateway(db, id, now)
  {
    AllowedExactly(db, db.workflows[id].caseId, RetryPayment, now);
    assert forall s: WorkflowStep :: Ready(s) <==> Waits(s);
  }

  // ---------------------------------------------------------------- what it leaves

  /** What a dispatch that commits leaves, reply by reply and to the last row: the step, the
      workflow, the attempt, the execution and the state of the case, which a refusal stops exactly
      when the attempts counted have reached four. */
  lemma PaymentEndsExactly(db: Database, gateway: seq<Submission>, id: nat, k: nat, x: Circumstances)
    requires PaymentIsDue(db, id, k, x.now) && AfterNextStep(db, gateway, id, x).result.Ok?
    ensures var after, w := AfterNextStep(db, gateway, id, x).result.value, db.workflows[id];
      && |after.workflows| == |db.workflows| && |after.cases| == |db.cases| && |after.workflows[id].steps| == |w.steps|
      && after.executions == db.executions + [Execution(id, k, w.caseId, x.reply.status, x.reply.reference, x.now)]
      && var c, d, v := db.cases[w.caseId], after.cases[w.caseId], after.workflows[id];
      && |d.attempts| == |c.attempts| + 1 && d.attempts[..|c.attempts|] == c.attempts
      && var a := d.attempts[|c.attempts|];
      && a.number == |c.attempts| + 1 && a.action == RetryPayment && a.startedAt == Some(x.now)
      && match x.reply.status
         case ExSubmitted =>
           v.steps[k].status == StCompleted && v.status == WfRunning && a.status == Started && d.state == VerificationPending
         case ExSucceeded =>
           v.steps[k].status == StCompleted && v.status == WfRunning && a.status == AttemptSucceeded && d.state == VerificationPending
         case ExUnknown =>
           v.steps[k].status == StFailed && v.status == WfRequiresReview && a.status == Uncertain && d.state == Escalated
         case ExFailed =>
           v.steps[k].status == StFailed && v.status == WfFailed && a.status == AttemptFailed
           && d.state == if |c.attempts| + (if x.reloaded then 1 else 0) >= 4 then Stopped else ActionPending
  {
    hide Revalidate;
    DueIsReached(db, id, k, x.now);
    var w := db.workflows[id];
    SameEvidence(db, Running(db, id, k), w.caseId, x.now);
    NextStepIsOnlyStep(db, gateway, id, x, k);
    DispatchStepLeaves(db, gateway, id, x, k);
  }

  /** A due payment raises exactly when its reply moves the case and the case's logs are uneven. */
  lemma PaymentCommitsExactly(db: Database, gateway: seq<Submission>, id: nat, k: nat, x: Circumstances)
    requires PaymentIsDue(db, id, k, x.now) && LogsOk(db.cases[db.workflows[id].caseId])
    ensures var c := db.cases[db.workflows[id].caseId];
      AfterNextStep(db, gateway, id, x).result.Ok? <==>
        |c.audits| == |c.transitions|
        || (x.reply.status == ExFailed && |c.attempts| + (if x.reloaded then 1 else 0) < 4)
    ensures AfterNextStep(db, gateway, id, x).result.Raised? ==> AfterNextStep(db, gateway, id, x).result.error == AuditNumberTaken
  {
    hide Apply, Revalidate;
    DueIsReached(db, id, k, x.now);
    ReachedDispatchEnds(World(db, gateway), id, x);
  }

  /** A payment step that is next and not due fails with its workflow; nothing else changes. */
  lemma PaymentNotDueFails(db: Database, gateway: seq<Submission>, id: nat, k: nat, x: Circumstances)
    requires IsNext(db, id, k) && db.workflows[id].steps[k].kind == DispatchPaymentRetry && !PaymentIsDue(db, id, k, x.now)
    ensures var ran := AfterNextStep(db, gateway, id, x);
      && ran.gateway == gateway && ran.result.Ok?
      && StepEnds(db, ran.result.value, id, k, StFailed, WfFailed) && ran.result.value.cases == db.cases
  {
    hide Revalidate;
    var running := Running(db, id, k);
    NextIsFirstReady(db, id, k);
    AllowedExactly(db, db.workflows[id].caseId, RetryPayment, x.now);
    SameEvidence(db, running, db.workflows[id].caseId, x.now);
    MarkEnds(db, id, k, StFailed, WfFailed);
  }

  /** Of the workflows only this one changed: its status and that of step `k`. */
  predicate StepEnds(a: Database, b: Database, id: nat, k: nat, step: StepStatus, status: WorkflowStatus)
    requires id < |a.workflows| && k < |a.workflows[id].steps|
  {
    var w := a.workflows[id];
    && b.workflows == a.workflows[id := w.(status := status, steps := w.steps[k := w.steps[k].(status := step)])]
    && b.executions == a.executions && b.transactions == a.transactions && |b.cases| == |a.cases|
  }

  lemma MarkEnds(db: Database, id: nat, k: nat, step: StepStatus, status: WorkflowStatus)
    requires id < |db.workflows| && k < |db.workflows[id].steps|
    ensures StepEnds(db, Mark(Running(db, id, k), id, k, step, status), id, k, step, status)
  {
    var w := db.workflows[id];
    assert w.steps[k := w.steps[k].(status := StRunning)][k := w.steps[k].(status := step)] == w.steps[k := w.steps[k].(status := step)];
    assert db.workflows[id := Running(db, id, k).workflows[id]][id := Marked(w, k, step, status)] == db.workflows[id := Marked(w, k, step, status)];
  }

  /** A validation step that is next completes when its action is due. Otherwise the step and the
      workflow fail and the case is escalated over an unknown outcome, or stopped. */
  lemma ValidationEndsExactly(db: Database, gateway: seq<Submission>, id: nat, k: nat, x: Circumstances)
    requires IsNext(db, id, k) && db.workflows[id].steps[k].kind == ValidateAuthorization
    ensures var ran, w := AfterNextStep(db, gateway, id, x), db.workflows[id];
      && ran.gateway == gateway
      && (IsDue(db, w.caseId, w.steps[k].action, x.now) ==>
            ran.result.Ok? && StepEnds(db, ran.result.value, id, k, StCompleted, WfRunning) && ran.result.value.cases == db.cases)
      && (!IsDue(db, w.caseId, w.steps[k].action, x.now) && ran.result.Ok? ==>
            && StepEnds(db, ran.result.value, id, k, StFailed, WfFailed)
            && ran.result.value.cases[w.caseId].state == if OverUnknown(db, w.caseId) then Escalated else Stopped)
      && (!IsDue(db, w.caseId, w.steps[k].action, x.now) && LogsOk(db.cases[w.caseId]) ==>
            (ran.result.Ok? <==> |db.cases[w.caseId].audits| == |db.cases[w.caseId].transitions|
                                 && db.cases[w.caseId].state in {Detected, AwaitingDecision, ActionPending, RetryEligible}))
  {
    hide Apply;
    var running, w := Running(db, id, k), db.workflows[id];
    NextIsFirstReady(db, id, k);
    AllowedExactly(running, w.caseId, w.steps[k].action, x.now);
    SameDues(db, running, w.caseId, w.steps[k].action, x.now);
    UnknownIsReason(running, w.caseId, w.steps[k].action, x.now);
    if LogsOk(db.cases[w.caseId]) {
      TableTransitionCommits(db.cases[w.caseId], if OverUnknown(db, w.caseId) then Escalated else Stopped);
    }
    MarkEnds(db, id, k, StCompleted, WfRunning);
    MarkEnds(db, id, k, StFailed, WfFailed);
  }

  /** An unpaid case that is pending action has an execution of unknown outcome. */
  predicate OverUnknown(db: Database, caseId: nat) {
    && caseId < |db.cases| && db.cases[caseId].state.ActionPending?
    && (db.cases[caseId].trigger < |db.transactions| ==> !db.transactions[db.cases[caseId].trigger].status.TxSucceeded?)
    && exists k :: 0 <= k < |db.executions| && db.executions[k].caseId == caseId && db.executions[k].status.ExUnknown?
  }

  lemma UnknownIsReason(db: Database, caseId: nat, action: ActionType, now: int)
    ensures Revalidate(db, caseId, action, now).UnresolvedUnknownOutcome? <==> OverUnknown(db, caseId)
  {
    assert (exists k :: 0 <= k < |db.executions| && IsUnknownFor(db.executions[k], caseId)) <==>
           exists k :: 0 <= k < |db.executions| && db.executions[k].caseId == caseId && db.executions[k].status.ExUnknown?;
  }

  lemma SameDues(a: Database, b: Database, caseId: nat, action: ActionType, now: int)
    requires b == a.(workflows := b.workflows)
    ensures IsDue(b, caseId, action, now) == IsDue(a, caseId, action, now) && OverUnknown(b, caseId) == OverUnknown(a, caseId)
  {
    if caseId < |a.cases| {
      var customer := a.cases[caseId].customer;
      assert forall k :: 0 <= k < |a.consents| ==> IsMandate(b, customer, k) == IsMandate(a, customer, k);
    }
  }

  /** The other steps only settle: the cooldown, a communication and a support task complete, and the
      wait for verification waits. */
  lemma OtherStepsSettle(db: Database, gateway: seq<Submission>, id: nat, k: nat, x: Circumstances)
    requires IsNext(db, id, k) && db.workflows[id].steps[k].kind !in {ValidateAuthorization, DispatchPaymentRetry}
    ensures var ran, waits := AfterNextStep(db, gateway, id, x), db.workflows[id].steps[k].kind == AwaitVerification;
      && ran.gateway == gateway && ran.result.Ok? && ran.result.value.cases == db.cases
      && StepEnds(db, ran.result.value, id, k, if waits then StWaiting else StCompleted, if waits then WfWaiting else WfRunning)
  {
    NextIsFirstReady(db, id, k);
    MarkEnds(db, id, k, StCompleted, WfRunning);
    MarkEnds(db, id, k, StWaiting, WfWaiting);
  }

  /** With no step left to run a workflow that has not ended is completed; one that has ended, or is
      not on file or about no case, raises. */
  lemma LastStepCompletes(db: Database, gateway: seq<Submission>, id: nat, x: Circumstances)
    requires !exists k :: IsNext(db, id, k)
    ensures var ran := AfterNextStep(db, gateway, id, x);
      && ran.gateway == gateway
      && (ran.result.Ok? <==> id < |db.workflows| && db.workflows[id].caseId < |db.cases|
                              && db.workflows[id].status !in {WfCompleted, WfFailed, WfCancelled})
      && (ran.result.Ok? ==>
            ran.result.value == db.(workflows := db.workflows[id := db.workflows[id].(status := WfCompleted)]))
      && (ran.result.Raised? ==>
            ran.result.error ==
              if id < |db.workflows| && db.workflows[id].status in {WfCompleted, WfFailed, WfCancelled} then WorkflowFinished
              else NotFound)
  {
    if id < |db.workflows| && FirstReady(db.workflows[id].steps).Some? {
      var k := FirstReady(db.workflows[id].steps).value;
      NextIsFirstReady(db, id, k);
      assert !IsNext(db, id, k);
    }
  }

  /** The loop does not touch a workflow that has ended, waits or is under review. */
  lemma LoopLeavesHalted(db: Database, gateway: seq<Submission>, id: nat, x: Circumstances)
    requires id < |db.workflows|
    requires db.workflows[id].status in {WfCompleted, WfFailed, WfCancelled, WfWaiting, WfRequiresReview}
    ensures AfterAllSteps(db, gateway, id, x).ran == Ran(Ok(db), gateway)
  {
  }

  // ------------------------------------------------------------------- creation

  /** The steps each action is carried out by. */
  function StepsFor(action: ActionType): seq<StepKind> {
    if action == RetryPayment then [ValidateAuthorization, WaitCooldown, DispatchPaymentRetry, AwaitVerification]
    else if action == SendReminder then [ValidateAuthorization, DispatchCommunication]
    else if action == OperatorReview then [CreateSupportTask]
    else []
  }

  predicate IsOpen(s: WorkflowStatus) {
    s in {WfPending, WfScheduled, WfRunning, WfWaiting}
  }

  /** A workflow is created exactly for an approved decision about a case that is pending action and
      has no open workflow; it holds the steps of the decision's action, all pending. */
  lemma CreationCommitsExactly(db: Database, decision: nat)
    ensures var made := AfterCreateWorkflow(db, decision);
      && (made.Ok? <==>
            && decision < |db.decisions| && db.decisions[decision].status == Approved
            && var caseId := db.decisions[decision].caseId;
            && caseId < |db.cases| && db.cases[caseId].state == ActionPending
            && forall j :: 0 <= j < |db.workflows| && db.workflows[j].caseId == caseId ==> !IsOpen(db.workflows[j].status))
      && (made.Raised? ==>
            made.error ==
              if decision >= |db.decisions| then NotFound
              else if db.decisions[decision].status != Approved then NotApproved
              else if db.decisions[decision].caseId >= |db.cases| then NotFound
              else if db.cases[db.decisions[decision].caseId].state != ActionPending then NotActionable
              else WorkflowActive)
      && (made.Ok? ==>
            && made.value == db.(workflows := made.value.workflows) && |made.value.workflows| == |db.workflows| + 1
            && made.value.workflows[..|db.workflows|] == db.workflows
            && var w, d := made.value.workflows[|db.workflows|], db.decisions[decision];
            && w.caseId == d.caseId && w.decision == decision && w.status == WfPending
            && |w.steps| == |StepsFor(d.action)|
            && forall k :: 0 <= k < |w.steps| ==> w.steps[k] == WorkflowStep(StepsFor(d.action)[k], d.action, StPending))
  {
    if decision < |db.decisions| {
      assert forall j :: 0 <= j < |db.workflows| ==>
          (IsActiveFor(db.workflows[j], db.decisions[decision].caseId) <==>
             db.workflows[j].caseId == db.decisions[decision].caseId && IsOpen(db.workflows[j].status));
    }
  }

  // ------------------------------------------------------------------ reminders

  const REMINDER := [WorkflowStep(ValidateAuthorization, SendReminder, StPending),
                     WorkflowStep(DispatchCommunication, SendReminder, StPending)]

  /** Run by the loop, a new reminder goes out exactly when it is due: with a granted contact consent
      on file. Otherwise its validation fails and it stays unsent. */
  lemma ReminderGoesOutExactly(db: Database, gateway: seq<Submission>, id: nat, x: Circumstances)
    requires id < |db.workflows| && db.workflows[id].status == WfPending && db.workflows[id].steps == REMINDER
    requires db.workflows[id].caseId < |db.cases|
    ensures var ran := AfterAllSteps(db, gateway, id, x).ran;
      && ran.gateway == gateway
      && (ReminderIsDue(db, db.workflows[id].caseId) ==> ran.result.Ok?)
      && (ran.result.Ok? ==>
            && |ran.result.value.workflows| == |db.workflows|
            && var w := ran.result.value.workflows[id];
            && |w.steps| == 2
            && if ReminderIsDue(db, db.workflows[id].caseId) then
                 w.steps[0].status == StCompleted && w.steps[1].status == StCompleted && w.status == WfCompleted
               else
                 w.steps[0].status == StFailed && w.steps[1].status == StPending && w.status == WfFailed)
  {
    hide AfterNextStep;
    assert IsNext(db, id, 0);
    ValidationEndsExactly(db, gateway, id, 0, x);
    NextIsFirstReady(db, id, 0);
    RoundFollowsStep(db, gateway, id, 0, x);
    LoopUnfolds(RoundOf(id, x), db, gateway, 3);
    if ReminderIsDue(db, db.workflows[id].caseId) {
      var a := AfterNextStep(db, gateway, id, x).result.value;
      assert IsNext(a, id, 1);
      OtherStepsSettle(a, gateway, id, 1, x);
      RoundFollowsStep(a, gateway, id, 1, x);
      LoopUnfolds(RoundOf(id, x), a, gateway, 2);
      var b := AfterNextStep(a, gateway, id, x).result.value;
      NothingIsReady(b.workflows[id].steps);
      LoopUnfolds(RoundOf(id, x), b, gateway, 1);
    }
  }

  lemma NothingIsReady(steps: seq<WorkflowStep>)
    requires forall k :: 0 <= k < |steps| ==> !Waits(steps[k])
    ensures FirstReady(steps).None?
  {
  }

  lemma RoundFollowsStep(db: Database, gateway: seq<Submission>, id: nat, k: nat, x: Circumstances)
    requires IsNext(db, id, k) && db.workflows[id].status in {WfPending, WfRunning}
    ensures var ran := AfterNextStep(db, gateway, id, x);
      && (ran.result.Ok? ==> id < |ran.result.value.workflows| && k < |ran.result.value.workflows[id].steps|)
      && match AfterRound(db, gateway, id, x)
         case Ends(all) => all.ran == ran && (ran.result.Ok? ==> ran.result.value.workflows[id].steps[k].status in {StWaiting, StFailed})
         case Continues(after, log) =>
           ran == Ran(Ok(after), log) && after.workflows[id].steps[k].status !in {StWaiting, StFailed}
  {
    NextIsFirstReady(db, id, k);
    if AfterNextStep(db, gateway, id, x).result.Ok? {
      StepKeepsWorkflows(db, gateway, id, x);
    }
  }

  /** In every run a communication that went out is the second step of the plan of an approved
      reminder, behind a validation that completed. */
  lemma RemindersAreValidated(steps: seq<Step>, id: nat, k: nat)
    requires var db := Run(START, steps).db;
      && id < |db.workflows| && k < |db.workflows[id].steps|
      && db.workflows[id].steps[k].kind == DispatchCommunication && !Waits(db.workflows[id].steps[k])
    ensures var db := Run(START, steps).db;
      var w := db.workflows[id];
      && w.decision < |db.decisions| && db.decisions[w.decision].status == Approved
      && db.decisions[w.decision].action == SendReminder && db.decisions[w.decision].caseId == w.caseId
      && k == 1 && w.steps[0].kind == ValidateAuthorization && w.steps[0].status == StCompleted
  {
    hide Apply;
    var db := Run(START, steps).db;
    RunKeepsDispatchable(steps);
    LockRuns.WorkflowsStayInOrder(steps);
    assert WorkflowOk(db, db.workflows[id]) && WorkflowRuns.Orderly(db.workflows[id]);
    assert StepSettled(db.workflows[id].steps[k], db.workflows[id].status);
  }
}
