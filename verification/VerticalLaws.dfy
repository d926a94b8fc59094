/** What the safety policy answers, and what a vertical run comes to, said on fields and rows. */
module VerticalLaws {
  import opened Domain
  import opened CaseLog
  import opened Safety
  import opened Store
  import opened Lifecycle

  // --------------------------------------------------------------------- safety

  /** The case has ended or its payment has succeeded. */
  predicate Over(state: CaseState, payment: TransactionStatus) {
    state in {Recovered, Stopped, Closed} || payment == TxSucceeded
  }

  /** An operator has to decide: a retry that may be made has no attempt left, or one is in doubt. */
  predicate BeyondRetry<K>(c: SafetyContext<K>, config: SafetyConfig) {
    && c.action == RetryPayment && c.action in config.allowedActions && c.state in {AwaitingDecision, RetryEligible}
    && (c.retries >= config.maxRetryAttempts || c.uncertain)
  }

  /** The request itself is out of order: its action, the moment for it, or its key. */
  predicate OutOfOrder<K>(c: SafetyContext<K>, config: SafetyConfig) {
    || c.action !in config.allowedActions
    || (c.action == RetryPayment && (c.state !in {AwaitingDecision, RetryEligible} || c.key == None))
    || (c.key.Some? && c.key.value in c.priorKeys)
  }

  /** Which of the four verdicts is given: to stop when all is over, otherwise to escalate beyond the
      retries, otherwise to reject what is out of order, and to allow the rest. */
  lemma SafetyExactly<K>(c: SafetyContext<K>, config: SafetyConfig)
    ensures SafetyOf(c, config) == StopCase <==> Over(c.state, c.transaction)
    ensures SafetyOf(c, config) == EscalateCase <==> !Over(c.state, c.transaction) && BeyondRetry(c, config)
    ensures SafetyOf(c, config) == Reject <==>
              !Over(c.state, c.transaction) && !BeyondRetry(c, config) && OutOfOrder(c, config)
    ensures SafetyOf(c, config) == Allow <==>
              !Over(c.state, c.transaction) && !BeyondRetry(c, config) && !OutOfOrder(c, config)
  {
  }

  lemma DefaultLimits()
    ensures DEFAULT_CONFIG.maxRetryAttempts == 2
    ensures forall a: ActionType :: a in DEFAULT_CONFIG.allowedActions <==> a != NoAction
  {
  }

  // --------------------------------------------------------------- vertical run

  /** What the agent's action comes to: on a succeeded payment, or when it is not allowed, the case is
      stopped; a retry with no attempt left is escalated; anything else is planned. */
  function EndOf(db: Database, r: VerticalRequest): CaseState
    requires r.caseId < |db.cases| && r.transaction < |db.transactions|
  {
    if db.transactions[r.transaction].status == TxSucceeded || r.action !in r.config.allowedActions then Stopped
    else if r.action == RetryPayment && |db.cases[r.caseId].attempts| >= r.config.maxRetryAttempts then Escalated
    else VerificationPending
  }

  /** A vertical run commits exactly for a detected case with even logs whose rows exist. It files one
      decision, adds an attempt exactly when the case goes on to verification, and logs each move. */
  lemma VerticalRunExactly(db: Database, r: VerticalRequest)
    requires r.caseId < |db.cases| ==> LogsOk(db.cases[r.caseId])
    ensures AfterVerticalRun(db, r).Ok? <==>
              && r.caseId < |db.cases| && r.transaction < |db.transactions|
              && db.cases[r.caseId].state == Detected && |db.cases[r.caseId].audits| == |db.cases[r.caseId].transitions|
    ensures AfterVerticalRun(db, r).Raised? ==>
              AfterVerticalRun(db, r).error ==
                if r.caseId >= |db.cases| || r.transaction >= |db.transactions| then NotFound
                else if db.cases[r.caseId].state != Detected then InvalidTransition
                else AuditNumberTaken
    ensures AfterVerticalRun(db, r).Ok? ==>
              var after, c := AfterVerticalRun(db, r).value, db.cases[r.caseId];
              && after == db.(cases := after.cases, recommendations := after.recommendations)
              && |after.cases| == |db.cases| && after.cases == db.cases[r.caseId := after.cases[r.caseId]]
              && CaseRan(c, after.cases[r.caseId], r, EndOf(db, r))
              && |after.recommendations| == |db.recommendations| + 1
              && after.recommendations[..|db.recommendations|] == db.recommendations
              && var d := after.recommendations[|db.recommendations|];
              d.caseId == r.caseId && d.action == r.action && d.confidence == Some(r.confidence) && d.validation == Valid
  {
    if r.caseId < |db.cases| && r.transaction < |db.transactions| {
      var c := db.cases[r.caseId];
      AwaitingExactly(c);
      if AwaitingAgent(c).Ok? {
        var ready := AwaitingAgent(c).value;
        var context := AgentContext(ready, r.caseId, db.transactions[r.transaction].status, r.action);
        SafetyExactly(context, r.config);
        JudgementExactly(ready, r.caseId, SafetyOf(context, r.config), r.action, r.now);
      }
    }
  }

  predicate CaseRan(c: Case, d: Case, r: VerticalRequest, end: CaseState) {
    && d.state == end
    && d.attempts == c.attempts + (if end != VerificationPending then [] else [
         Attempt(|c.attempts| + 1, Planned, r.action, Some(r.now), None, PlanKey(r.caseId, |c.attempts| + 1))])
    && |d.transitions| == |c.transitions| + (if end == VerificationPending then 4 else 3)
    && |d.audits| == |c.audits| + (if end == VerificationPending then 4 else 3)
    && d.version == c.version + (if end == VerificationPending then 4 else 3)
  }

  lemma AwaitingExactly(c: Case)
    requires LogsOk(c)
    ensures AwaitingAgent(c).Ok? <==> c.state == Detected && |c.audits| == |c.transitions|
    ensures AwaitingAgent(c).Raised? ==> AwaitingAgent(c).error == if c.state != Detected then InvalidTransition else AuditNumberTaken
    ensures AwaitingAgent(c).Ok? ==>
              var d := AwaitingAgent(c).value;
              && d.state == AwaitingDecision && LogsOk(d) && |d.audits| == |d.transitions| == |c.transitions| + 2
              && d.attempts == c.attempts && d.version == c.version + 2
  {
    TableTransitionCommits(c, ContextReady);
    if TableTransition(c, ContextReady).Ok? {
      TableTransitionCommits(TableTransition(c, ContextReady).value, AwaitingDecision);
    }
  }

  lemma JudgementExactly(c: Case, id: nat, verdict: SafetyOutcome, action: ActionType, now: int)
    requires LogsOk(c) && c.state == AwaitingDecision && |c.audits| == |c.transitions|
    ensures AfterJudgement(c, id, verdict, action, now).Ok?
    ensures var d, more := AfterJudgement(c, id, verdict, action, now).value, if verdict == Allow then 2 else 1;
      && d.state == (if verdict == Allow then VerificationPending else if verdict == EscalateCase then Escalated else Stopped)
      && d.attempts == c.attempts + (if verdict != Allow then [] else [
           Attempt(|c.attempts| + 1, Planned, action, Some(now), None, PlanKey(id, |c.attempts| + 1))])
      && |d.transitions| == |c.transitions| + more && |d.audits| == |c.audits| + more && d.version == c.version + more
  {
    assert c.attempts + [] == c.attempts;
    TableTransitionCommits(c, Escalated);
    TableTransitionCommits(c, Stopped);
    TableTransitionCommits(c, ActionPending);
    var pending := TableTransition(c, ActionPending).value;
    var planned := pending.(attempts := pending.attempts + [PlannedAttempt(id, |c.attempts| + 1, action, now)]);
    TableTransitionCommits(planned, VerificationPending);
  }
}
