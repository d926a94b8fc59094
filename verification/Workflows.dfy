/** Bounded recovery workflows: creation from an approved decision, revalidation before every
    dispatch, step execution and the loop that runs the available steps. */
module Workflows {
  import opened Domain
  import opened CaseLog
  import opened Store

  const MAX_ATTEMPTS := 4

  /** What the gateway may answer to a retry. */
  type SubmitStatus = s: ExecutionStatus | s.ExSubmitted? || s.ExSucceeded? || s.ExFailed? || s.ExUnknown?
    witness ExSubmitted

  datatype Reply = Reply(status: SubmitStatus, reference: Option<string>)

  /** One request the gateway received, with the database as the caller saw it then. The
      gateway's log is no part of the database: a rollback does not take a request back. */
  datatype Submission = Submission(workflow: nat, step: nat, caseId: nat, at: int, seen: Database, reply: Reply)

  // ----------------------------------------------------------------- creation

  function Plan(action: ActionType): seq<StepKind> {
    match action
    case RetryPayment => [ValidateAuthorization, WaitCooldown, DispatchPaymentRetry, AwaitVerification]
    case SendReminder => [ValidateAuthorization, DispatchCommunication]
    case OperatorReview => [CreateSupportTask]
    case StopRecovery => []
    case NoAction => []
  }

  function PlannedSteps(kinds: seq<StepKind>, action: ActionType): (r: seq<WorkflowStep>)
    ensures |r| == |kinds|
    ensures forall k :: 0 <= k < |r| ==> r[k] == WorkflowStep(kinds[k], action, StPending)
  {
    if kinds == [] then []
    else PlannedSteps(kinds[..|kinds| - 1], action) + [WorkflowStep(kinds[|kinds| - 1], action, StPending)]
  }

  predicate Active(s: WorkflowStatus) {
    s.WfRunning? || s.WfScheduled? || s.WfPending? || s.WfWaiting?
  }

  predicate IsActiveFor(w: Workflow, caseId: nat) {
    w.caseId == caseId && Active(w.status)
  }

  function FindActive(db: Database, caseId: nat): (r: Option<nat>)
    ensures r.Some? ==> r.value < |db.workflows| && IsActiveFor(db.workflows[r.value], caseId)
    ensures r.None? ==> forall j :: 0 <= j < |db.workflows| ==> !IsActiveFor(db.workflows[j], caseId)
  {
    FindFirst(db.workflows, (w: Workflow) => IsActiveFor(w, caseId))
  }

  function AfterCreateWorkflow(db: Database, decision: nat): Result<Database, Error> {
    if decision >= |db.decisions| then Raised(NotFound)
    else
      var d := db.decisions[decision];
      if !d.status.Approved? then Raised(NotApproved)
      else if d.caseId >= |db.cases| then Raised(NotFound)
      else if !db.cases[d.caseId].state.ActionPending? then Raised(NotActionable)
      else if FindActive(db, d.caseId).Some? then Raised(WorkflowActive)
      else
        Ok(db.(workflows := db.workflows +
                 [Workflow(d.caseId, decision, WfPending, PlannedSteps(Plan(d.action), d.action))]))
  }

  class WorkflowCreationService {
    const session: Session

    constructor (session: Session)
      ensures this.session == session
    {
      this.session := session;
    }

    method CreateWorkflowForDecision(decision: nat) returns (done: Result<nat, Error>)
      requires session.Clean()
      modifies session
      ensures session.Clean()
      ensures match AfterCreateWorkflow(old(session.committed), decision)
              case Ok(db) => done == Ok(|old(session.committed).workflows|) && session.committed == db
              case Raised(error) => done == Raised(error) && session.committed == old(session.committed)
    {
      if decision >= |session.db.decisions| {
        return Raised(NotFound);
      }
      var d := session.db.decisions[decision];
      if !d.status.Approved? {
        return Raised(NotApproved);
      }
      if d.caseId >= |session.db.cases| {
        return Raised(NotFound);
      }
      if !session.db.cases[d.caseId].state.ActionPending? {
        return Raised(NotActionable);
      }
      var existing := FindActive(session.db, d.caseId);
      if existing.Some? {
        return Raised(WorkflowActive);
      }
      var w := Workflow(d.caseId, decision, WfPending, []);
      var kinds := Plan(d.action);
      for k := 0 to |kinds|
        invariant w == Workflow(d.caseId, decision, WfPending, PlannedSteps(kinds[..k], d.action))
      {
        assert kinds[..k + 1][..k] == kinds[..k];
        w := w.(steps := w.steps + [WorkflowStep(kinds[k], d.action, StPending)]);
      }
      assert kinds[..|kinds|] == kinds;
      done := Ok(|session.db.workflows|);
      session.db := session.db.(workflows := session.db.workflows + [w]);
      session.Commit();
    }
  }

  // ------------------------------------------------------------- revalidation

  datatype Revalidation =
    | Allowed
    | MissingCase
    | NotPendingAction
    | PaymentAlreadySucceeded
    | UnresolvedUnknownOutcome
    | LimitExceeded
    | MissingRecurringConsent
    | RecurringConsentExpired
    | RecurringConsentRevoked
    | MissingContactConsent

  predicate IsUnknownFor(e: Execution, caseId: nat) {
    e.caseId == caseId && e.status.ExUnknown?
  }

  predicate IsGranted(k: Consent, customer: nat, kind: ConsentType) {
    k.customer == customer && k.kind == kind && k.status.Granted?
  }

  function Revalidate(db: Database, caseId: nat, action: ActionType, now: int): Revalidation {
    if caseId >= |db.cases| then MissingCase
    else
      var c := db.cases[caseId];
      if !c.state.ActionPending? then NotPendingAction
      else if TriggerHas(db, c, TxSucceeded) then PaymentAlreadySucceeded
      else if exists k :: 0 <= k < |db.executions| && IsUnknownFor(db.executions[k], caseId) then UnresolvedUnknownOutcome
      else if action.RetryPayment? then
        if |c.attempts| >= MAX_ATTEMPTS then LimitExceeded
        else
          var found := FindFirst(db.consents, (k: Consent) => IsGranted(k, c.customer, RecurringBilling));
          if found.None? then MissingRecurringConsent
          else
            var consent := db.consents[found.value];
            if consent.expiresAt.Some? && consent.expiresAt.value < now then RecurringConsentExpired
            else if consent.revokedAt.Some? then RecurringConsentRevoked
            else Allowed
      else if action.SendReminder? then
        if exists k :: 0 <= k < |db.consents|
             && (IsGranted(db.consents[k], c.customer, EmailContact) || IsGranted(db.consents[k], c.customer, SmsContact))
        then Allowed else MissingContactConsent
      else Allowed
  }

  /** Where a failed authorization sends the case. */
  function RefusalTarget(r: Revalidation): CaseState {
    if r.UnresolvedUnknownOutcome? then Escalated else Stopped
  }

  // ---------------------------------------------------------------- execution

  predicate Ready(s: WorkflowStep) {
    s.status.StPending? || s.status.StScheduled?
  }

  function FirstReady(steps: seq<WorkflowStep>): (r: Option<nat>)
    ensures r.Some? ==> r.value < |steps| && Ready(steps[r.value])
    ensures r.Some? ==> forall j :: 0 <= j < r.value ==> !Ready(steps[j])
    ensures r.None? ==> forall j :: 0 <= j < |steps| ==> !Ready(steps[j])
  {
    FindFirst(steps, Ready)
  }

  function SetWorkflow(db: Database, id: nat, w: Workflow): Database
    requires id < |db.workflows|
  {
    db.(workflows := db.workflows[id := w])
  }

  /** A workflow whose step `k` and whose own status are overwritten. */
  function Marked(w: Workflow, k: nat, step: StepStatus, status: WorkflowStatus): Workflow
    requires k < |w.steps|
  {
    w.(status := status, steps := w.steps[k := w.steps[k].(status := step)])
  }

  function Mark(db: Database, id: nat, k: nat, step: StepStatus, status: WorkflowStatus): Database
    requires id < |db.workflows| && k < |db.workflows[id].steps|
  {
    SetWorkflow(db, id, Marked(db.workflows[id], k, step, status))
  }

  function StatusAfterReply(reply: SubmitStatus): (StepStatus, WorkflowStatus) {
    match reply
    case ExSubmitted => (StCompleted, WfRunning)
    case ExSucceeded => (StCompleted, WfRunning)
    case ExUnknown => (StFailed, WfRequiresReview)
    case ExFailed => (StFailed, WfFailed)
  }

  function AttemptAfterReply(reply: SubmitStatus): AttemptStatus {
    match reply
    case ExSubmitted => Started
    case ExSucceeded => AttemptSucceeded
    case ExUnknown => Uncertain
    case ExFailed => AttemptFailed
  }

  /** The lifecycle move a reply asks for. On a failed payment the code compares a collection
      that may or may not hold the new attempt yet: `reloaded` says which. */
  function MoveAfterReply(reply: SubmitStatus, attemptsBefore: nat, reloaded: bool): Option<CaseState> {
    match reply
    case ExSubmitted => Some(VerificationPending)
    case ExSucceeded => Some(VerificationPending)
    case ExUnknown => Some(Escalated)
    case ExFailed => if (if reloaded then attemptsBefore + 1 else attemptsBefore) >= MAX_ATTEMPTS then Some(Stopped) else None
  }

  /** What a step execution was told by the outside world. */
  datatype Circumstances = Circumstances(now: int, reply: Reply, reloaded: bool)

  function RetryAttempt(caseId: nat, number: nat, status: AttemptStatus, now: int): Attempt {
    Attempt(number, status, RetryPayment, Some(now), None, RetryKey(caseId, number))
  }

  function WithAttempt(c: Case, caseId: nat, status: AttemptStatus, now: int): Case {
    c.(attempts := c.attempts + [RetryAttempt(caseId, |c.attempts| + 1, status, now)])
  }

  /** The database the gateway call is made on: the attempt is on file, started. */
  function BeforeSubmit(db: Database, caseId: nat, now: int): Database
    requires caseId < |db.cases|
  {
    SetCase(db, caseId, WithAttempt(db.cases[caseId], caseId, Started, now))
  }

  /** A call ends with a database or an exception; either way the gateway keeps its log. */
  datatype Ran = Ran(result: Result<Database, Error>, gateway: seq<Submission>)

  predicate PartiesPresent(db: Database, c: Case) {
    c.trigger < |db.transactions| && c.customer < |db.customers|
  }

  function MoveCase(db: Database, caseId: nat, to: CaseState): Result<Database, Error>
    requires caseId < |db.cases|
  {
    match TableTransition(db.cases[caseId], to)
    case Ok(c) => Ok(SetCase(db, caseId, c))
    case Raised(error) => Raised(error)
  }

  function AfterValidate(db: Database, id: nat, k: nat, x: Circumstances): Result<Database, Error>
    requires id < |db.workflows| && k < |db.workflows[id].steps| && db.workflows[id].caseId < |db.cases|
  {
    var w := db.workflows[id];
    var verdict := Revalidate(db, w.caseId, w.steps[k].action, x.now);
    if verdict.Allowed? then Ok(Mark(db, id, k, StCompleted, w.status))
    else MoveCase(Mark(db, id, k, StFailed, WfFailed), w.caseId, RefusalTarget(verdict))
  }

  /** The rows a gateway reply leaves behind, before the lifecycle move. */
  function AfterReply(db: Database, id: nat, k: nat, x: Circumstances): Database
    requires id < |db.workflows| && k < |db.workflows[id].steps| && db.workflows[id].caseId < |db.cases|
  {
    var w := db.workflows[id];
    var (step, status) := StatusAfterReply(x.reply.status);
    Mark(db, id, k, step, status).(
      cases := db.cases[w.caseId := WithAttempt(db.cases[w.caseId], w.caseId, AttemptAfterReply(x.reply.status), x.now)],
      executions := db.executions + [Execution(id, k, w.caseId, x.reply.status, x.reply.reference, x.now)])
  }

  function AfterDispatch(db: Database, gateway: seq<Submission>, id: nat, k: nat, x: Circumstances): Ran
    requires id < |db.workflows| && k < |db.workflows[id].steps| && db.workflows[id].caseId < |db.cases|
  {
    var w := db.workflows[id];
    var c := db.cases[w.caseId];
    if !Revalidate(db, w.caseId, RetryPayment, x.now).Allowed? || !PartiesPresent(db, c) then
      Ran(Ok(Mark(db, id, k, StFailed, WfFailed)), gateway)
    else
      var log := gateway + [Submission(id, k, w.caseId, x.now, BeforeSubmit(db, w.caseId, x.now), x.reply)];
      var recorded := AfterReply(db, id, k, x);
      var move := MoveAfterReply(x.reply.status, |c.attempts|, x.reloaded);
      if move.None? then Ran(Ok(recorded), log)
      else Ran(MoveCase(recorded, w.caseId, move.value), log)
  }

  /** Executes a step that was just marked running, by its kind. */
  function AfterStep(db: Database, gateway: seq<Submission>, id: nat, k: nat, x: Circumstances): Ran
    requires id < |db.workflows| && k < |db.workflows[id].steps| && db.workflows[id].caseId < |db.cases|
  {
    match db.workflows[id].steps[k].kind
    case ValidateAuthorization => Ran(AfterValidate(db, id, k, x), gateway)
    case DispatchPaymentRetry => AfterDispatch(db, gateway, id, k, x)
    case AwaitVerification => Ran(Ok(Mark(db, id, k, StWaiting, WfWaiting)), gateway)
    case WaitCooldown => Ran(Ok(Mark(db, id, k, StCompleted, WfRunning)), gateway)
    case DispatchCommunication => Ran(Ok(Mark(db, id, k, StCompleted, WfRunning)), gateway)
    case CreateSupportTask => Ran(Ok(Mark(db, id, k, StCompleted, WfRunning)), gateway)
  }

  predicate Finished(s: WorkflowStatus) {
    s.WfCompleted? || s.WfFailed? || s.WfCancelled?
  }

  /** Runs the first ready step of a workflow, or completes a workflow that has none. */
  function AfterNextStep(db: Database, gateway: seq<Submission>, id: nat, x: Circumstances): Ran {
    if id >= |db.workflows| then Ran(Raised(NotFound), gateway)
    else
      var w := db.workflows[id];
      if Finished(w.status) then Ran(Raised(WorkflowFinished), gateway)
      else if w.caseId >= |db.cases| then Ran(Raised(NotFound), gateway)
      else
        var next := FirstReady(w.steps);
        if next.None? then Ran(Ok(SetWorkflow(db, id, w.(status := WfCompleted))), gateway)
        else
          var running := Mark(db, id, next.value, StRunning, WfRunning);
          AfterStep(running, gateway, id, next.value, x)
  }

  predicate Halts(s: WorkflowStatus) {
    s.WfCompleted? || s.WfFailed? || s.WfCancelled? || s.WfWaiting? || s.WfRequiresReview?
  }

  /** Why the loop over the available steps ended. */
  datatype Stop = HaltedWorkflow | NothingReady | HaltedStep | Exception | CapReached

  datatype RanAll = RanAll(ran: Ran, stop: Stop)

  /** One round of the loop: it ends the run, or hands a database to the next round. */
  datatype Round = Ends(all: RanAll) | Continues(db: Database, gateway: seq<Submission>)

  function AfterRound(db: Database, gateway: seq<Submission>, id: nat, x: Circumstances): (r: Round)
    ensures r.Continues? ==> id < |db.workflows| && |r.db.workflows| == |db.workflows|
    ensures r.Ends? ==> !r.all.stop.CapReached?
  {
    if id >= |db.workflows| then Ends(RanAll(Ran(Raised(NotFound), gateway), Exception))
    else
      var w := db.workflows[id];
      if Halts(w.status) then Ends(RanAll(Ran(Ok(db), gateway), HaltedWorkflow))
      else if FirstReady(w.steps).None? then
        Ends(RanAll(Ran(Ok(SetWorkflow(db, id, w.(status := WfCompleted))), gateway), NothingReady))
      else
        var ran := AfterNextStep(db, gateway, id, x);
        if ran.result.Raised? then Ends(RanAll(ran, Exception))
        else
          StepKeepsWorkflows(db, gateway, id, x);
          var step := ran.result.value.workflows[id].steps[FirstReady(w.steps).value];
          if step.status.StWaiting? || step.status.StFailed? then Ends(RanAll(ran, HaltedStep))
          else Continues(ran.result.value, ran.gateway)
  }

  /** At most `iterations` rounds. */
  function Loop(round: (Database, seq<Submission>) -> Round, db: Database, gateway: seq<Submission>, iterations: nat): RanAll
    decreases iterations
  {
    if iterations == 0 then RanAll(Ran(Ok(db), gateway), CapReached)
    else match round(db, gateway)
      case Ends(all) => all
      case Continues(after, log) => Loop(round, after, log, iterations - 1)
  }

  function RoundOf(id: nat, x: Circumstances): (Database, seq<Submission>) -> Round {
    (db, gateway) => AfterRound(db, gateway, id, x)
  }

  lemma StepKeepsWorkflows(db: Database, gateway: seq<Submission>, id: nat, x: Circumstances)
    requires id < |db.workflows| && AfterNextStep(db, gateway, id, x).result.Ok?
    ensures var after := AfterNextStep(db, gateway, id, x).result.value;
      |after.workflows| == |db.workflows| && |after.workflows[id].steps| == |db.workflows[id].steps|
  {
  }

  function AfterAllSteps(db: Database, gateway: seq<Submission>, id: nat, x: Circumstances): RanAll {
    if id >= |db.workflows| then RanAll(Ran(Raised(NotFound), gateway), Exception)
    else Loop(RoundOf(id, x), db, gateway, |db.workflows[id].steps| + 2)
  }
}
