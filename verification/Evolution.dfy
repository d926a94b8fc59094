/** What no call ever undoes: the relation every commit, and so every run, stands in to the
    database it started from. */
module Evolution {
  import opened Domain
  import opened CaseLog
  import opened Safety
  import opened Store
  import opened System
  import opened EventEngine
  import opened Workflows
  import opened WorkflowSteps
  import Ingestion
  import CaseService
  import PolicyEngine
  import PolicyRules
  import Recommendations
  import Reconciliation
  import Lifecycle

  // ---------------------------------------------------------------- relations

  /** A success is final, and only a pending payment is ever set to failed. */
  predicate PaymentEvolves(s: Transaction, t: Transaction) {
    && t == s.(status := t.status)
    && (t.status == s.status || t.status.TxSucceeded? || (s.status.TxPending? && t.status.TxFailed?))
  }

  /** Executed steps and finished workflows stay as they are. */
  predicate WorkflowEvolves(v: Workflow, w: Workflow) {
    && w.caseId == v.caseId && w.decision == v.decision && |w.steps| == |v.steps|
    && (Finished(v.status) ==> w == v)
    && forall k :: 0 <= k < |v.steps| ==>
         && w.steps[k] == v.steps[k].(status := w.steps[k].status)
         && (!Ready(v.steps[k]) ==> w.steps[k] == v.steps[k])
  }

  predicate TablesEvolve(a: Database, b: Database) {
    && (forall key <- a.ledger :: key in b.ledger && b.ledger[key] == a.ledger[key])
    && a.customers <= b.customers
    && |a.transactions| <= |b.transactions|
    && (forall j :: 0 <= j < |a.transactions| ==> PaymentEvolves(a.transactions[j], b.transactions[j]))
    && |a.consents| <= |b.consents|
    && a.decisions <= b.decisions
    && |a.workflows| <= |b.workflows|
    && (forall j :: 0 <= j < |a.workflows| ==> WorkflowEvolves(a.workflows[j], b.workflows[j]))
    && a.executions <= b.executions
  }

  predicate CasesEvolve(a: Database, b: Database) {
    && |a.cases| <= |b.cases|
    && forall j :: 0 <= j < |a.cases| ==> CaseEvolves(a.cases[j], b.cases[j])
  }

  predicate CasesFollow(a: Database, b: Database) {
    && |a.cases| <= |b.cases|
    && forall j :: 0 <= j < |a.cases| ==> CaseFollows(a.cases[j], b.cases[j])
  }

  /** What a case is when it is opened. */
  predicate JustOpened(c: Case) {
    && c.state.Detected? && c.attempts == [] && c.version == 1
    && LogsOk(c) && Replays(c) && |c.audits| == 1
  }

  predicate NewCasesAreOpened(a: Database, b: Database) {
    forall j :: |a.cases| <= j < |b.cases| ==> JustOpened(b.cases[j])
  }

  predicate Evolves(a: Database, b: Database) {
    TablesEvolve(a, b) && CasesEvolve(a, b)
  }

  /** One commit whose case changes are logged moves along the lifecycle. */
  predicate Follows(a: Database, b: Database) {
    TablesEvolve(a, b) && CasesFollow(a, b) && NewCasesAreOpened(a, b)
  }

  lemma EvolvesTransitively(a: Database, b: Database, c: Database)
    requires Evolves(a, b) && Evolves(b, c)
    ensures Evolves(a, c)
  {
    forall j | 0 <= j < |a.workflows| ensures WorkflowEvolves(a.workflows[j], c.workflows[j]) {
      assert WorkflowEvolves(a.workflows[j], b.workflows[j]) && WorkflowEvolves(b.workflows[j], c.workflows[j]);
    }
    forall j | 0 <= j < |a.transactions| ensures PaymentEvolves(a.transactions[j], c.transactions[j]) {
      assert PaymentEvolves(a.transactions[j], b.transactions[j]) && PaymentEvolves(b.transactions[j], c.transactions[j]);
    }
    forall j | 0 <= j < |a.cases| ensures CaseEvolves(a.cases[j], c.cases[j]) {
      assert CaseEvolves(a.cases[j], b.cases[j]) && CaseEvolves(b.cases[j], c.cases[j]);
    }
  }

  // ------------------------------------------------------------ row by row

  lemma CaseSetFollows(db: Database, id: nat, c: Case)
    requires id < |db.cases| && CaseFollows(db.cases[id], c)
    ensures Follows(db, SetCase(db, id, c))
  {
  }

  lemma UnchangedFollows(db: Database)
    ensures Follows(db, db)
  {
  }

  // -------------------------------------------------------- service by service

  lemma ProvisionFollows(db: Database, e: Event)
    ensures Follows(db, Provision(db, e).0)
  {
  }

  lemma SuccessFollows(db: Database, existing: Option<nat>, transaction: nat)
    requires existing.Some? ==> existing.value < |db.cases|
    requires transaction < |db.transactions|
    ensures Follows(db, AfterSuccess(db, existing, transaction).0)
  {
    if existing.Some? && !Terminal(db.cases[existing.value].state) {
      MoveFollows(db.cases[existing.value], Recovered, CaseRecovered);
    }
  }

  lemma FailureFollows(db: Database, id: nat, priority: int)
    requires id < |db.cases|
    ensures Follows(db, AfterFailure(db, id, priority).0)
  {
    var c := db.cases[id];
    var counted := c.(failureCount := Some(FailureCount(c) + 1), priority := priority, version := c.version + 1);
    AuditFollows(counted, CaseUpdated, Some(c.state), Some(c.state));
    FollowsTransitive(c, counted, Refailed(c, priority));
  }

  lemma NewCaseIsOpened(customer: nat, trigger: nat, key: string, priority: int)
    ensures JustOpened(NewCase(customer, trigger, key, priority))
  {
    var c := NewCase(customer, trigger, key, priority);
    assert c.transitions[..0] == [];
    assert Replay(c.transitions[..0]) == Some(Detected);
    assert Replay(c.transitions) == Some(Detected);
  }

  lemma CreationFollows(db: Database, customer: nat, transaction: nat, key: string, priority: int)
    ensures Follows(db, AfterCreation(db, customer, transaction, key, priority).0)
  {
    var byKey := FindCaseByKey(db, key);
    if byKey.Some? {
      FailureFollows(db, byKey.value, priority);
    } else {
      NewCaseIsOpened(customer, transaction, key, priority);
    }
  }

  lemma FollowsTransitively(a: Database, b: Database, c: Database)
    requires Follows(a, b) && Follows(b, c) && |b.cases| == |a.cases|
    ensures Follows(a, c)
  {
    EvolvesTransitively(a, b, c);
    forall j | 0 <= j < |a.cases| ensures CaseFollows(a.cases[j], c.cases[j]) {
      assert CaseFollows(a.cases[j], b.cases[j]) && CaseFollows(b.cases[j], c.cases[j]);
    }
  }

  lemma EventFollows(db: Database, e: Event, priority: int)
    ensures Follows(db, AfterEvent(db, e, priority).0)
  {
    if !(Creates(e) || Resolves(e)) {
      UnchangedFollows(db);
    } else {
      var (ready, customer, transaction) := Provision(db, e);
      var key := DeriveCaseKey(e);
      var existing := MatchCase(ready, key, transaction);
      ProvisionFollows(db, e);
      if Resolves(e) {
        SuccessFollows(ready, existing, transaction);
        FollowsTransitively(db, ready, AfterSuccess(ready, existing, transaction).0);
      } else if existing.Some? {
        FailureFollows(ready, existing.value, priority);
        FollowsTransitively(db, ready, AfterFailure(ready, existing.value, priority).0);
      } else {
        CreationFollows(ready, customer, transaction, key, priority);
        FollowsTransitively(db, ready, AfterCreation(ready, customer, transaction, key, priority).0);
      }
    }
  }

  lemma LedgerEntryFollows(a: Database, b: Database, key: (string, string), row: LedgerRow, last: LedgerRow)
    requires key !in a.ledger && Follows(a.(ledger := a.ledger[key := row]), b) && b.ledger.Keys == a.ledger.Keys + {key}
    ensures Follows(a, b.(ledger := b.ledger[key := last]))
  {
    var start, end := a.(ledger := a.ledger[key := row]), b.(ledger := b.ledger[key := last]);
    forall k <- a.ledger ensures k in end.ledger && end.ledger[k] == a.ledger[k] {
      assert k in start.ledger && b.ledger[k] == start.ledger[k];
    }
  }

  lemma DeliverFollows(db: Database, d: Ingestion.Delivery)
    ensures Follows(db, Ingestion.Ingest(db, d))
  {
    var key := Ingestion.EventKey(d.event);
    if Ingestion.ValidEvent(d.event, d.now) && key !in db.ledger {
      var received := Ingestion.Received(db, d.event);
      var worked := AfterEvent(received, d.event, d.priority).0;
      EventFollows(received, d.event, d.priority);
      Ingestion.EventKeepsLedger(received, d.event, d.priority);
      LedgerEntryFollows(db, worked, key, received.ledger[key], worked.ledger[key].(processed := true));
      assert Ingestion.Ingest(db, d) == worked.(ledger := worked.ledger[key := worked.ledger[key].(processed := true)]);
    } else {
      UnchangedFollows(db);
    }
  }

  lemma OpenFollows(db: Database, r: CaseService.OpenRequest)
    requires CaseService.AfterOpen(db, r).Ok?
    ensures Follows(db, CaseService.AfterOpen(db, r).value)
  {
  }

  lemma OperatorMoveEvolves(db: Database, id: nat, to: CaseState)
    requires CaseService.AfterOperatorMove(db, id, to).Ok?
    ensures var after := CaseService.AfterOperatorMove(db, id, to).value;
      && Evolves(db, after)
      && after == SetCase(db, id, after.cases[id]) && |after.cases| == |db.cases|
      && (Replays(db.cases[id]) ==> Replays(after.cases[id]))
  {
    MoveEvolves(db.cases[id], to, StateTransition);
    if Replays(db.cases[id]) {
      MoveKeepsReplay(db.cases[id], to, StateTransition);
    }
  }

  lemma EditFollows(db: Database, id: nat, priority: Option<int>, metadata: Option<CaseService.MetadataEdit>)
    requires CaseService.AfterEdit(db, id, priority, metadata).Ok?
    ensures Follows(db, CaseService.AfterEdit(db, id, priority, metadata).value)
  {
    UnchangedFollows(db);
    EditedFollows(db.cases[id], priority, metadata);
    CaseSetFollows(db, id, CaseService.Edited(db.cases[id], priority, metadata));
  }

  lemma EditedFollows(c: Case, priority: Option<int>, metadata: Option<CaseService.MetadataEdit>)
    ensures CaseFollows(c, CaseService.Edited(c, priority, metadata))
  {
    var d := CaseService.Edited(c, priority, metadata);
    var before := d.(audits := c.audits);
    AuditFollows(before, CaseUpdated, Some(c.state), Some(c.state));
    FollowsTransitive(c, before, d);
  }

  lemma RecommendFollows(db: Database, id: nat, action: ActionType, confidence: real, autoflush: bool)
    requires Recommendations.AfterRecommend(db, id, action, confidence, autoflush).Ok?
    ensures Follows(db, Recommendations.AfterRecommend(db, id, action, confidence, autoflush).value)
  {
    AdvisedFollows(db.cases[id]);
    CaseSetFollows(db, id, Recommendations.Advised(db.cases[id]));
  }

  lemma AdvisedFollows(c: Case)
    ensures CaseFollows(c, Recommendations.Advised(c))
  {
    var recorded := RecordAudit(c, RecommendationGenerated, Some(c.state), Some(c.state));
    AuditFollows(c, RecommendationGenerated, Some(c.state), Some(c.state));
    if c.state.Detected? {
      MoveFollows(recorded, AwaitingDecision, StateTransition);
      FollowsTransitive(c, recorded, Recommendations.Advised(c));
    }
  }

  lemma EvaluationFollows(db: Database, request: PolicyEngine.PolicyRequest, config: PolicyRules.PolicyConfig, now: int)
    ensures Follows(db, PolicyEngine.AfterEvaluation(db, request, config, now).0)
  {
    if PolicyEngine.Fresh(db, request) {
      var c := db.cases[request.caseId];
      var (status, reasons) := PolicyRules.Aggregate(PolicyEngine.RunRules(db, request, config, now));
      var after := PolicyEngine.AfterEvaluation(db, request, config, now).0;
      JudgedFollows(c, status, reasons);
      CaseSetFollows(db.(decisions := after.decisions, recommendations := after.recommendations),
                     request.caseId, after.cases[request.caseId]);
    } else {
      UnchangedFollows(db);
    }
  }

  lemma JudgedFollows(c: Case, status: DecisionStatus, reasons: seq<Reason>)
    ensures CaseFollows(c, PolicyEngine.Judged(c, PolicyEngine.Target(status, c.state, reasons)))
  {
    var target := PolicyEngine.Target(status, c.state, reasons);
    if target.Some? && target.value != c.state {
      MoveFollows(c, target.value, PolicyEvaluated);
    } else {
      AuditFollows(c, PolicyEvaluated, Some(c.state), Some(c.state));
    }
  }

  lemma TransitionFollows(db: Database, id: nat, to: CaseState)
    requires Lifecycle.AfterTransition(db, id, to).Ok?
    ensures var after := Lifecycle.AfterTransition(db, id, to).value;
      && Evolves(db, after)
      && after == SetCase(db, id, after.cases[id]) && |after.cases| == |db.cases|
      && (if to.RetryEligible? then CaseReopens(db.cases[id], after.cases[id]) else Follows(db, after))
  {
    TableFollows(db.cases[id], to);
  }

  lemma AwaitingAgentFollows(c: Case)
    requires Lifecycle.AwaitingAgent(c).Ok?
    ensures CaseFollows(c, Lifecycle.AwaitingAgent(c).value)
  {
    var ready := TableTransition(c, ContextReady).value;
    TableFollows(c, ContextReady);
    TableFollows(ready, AwaitingDecision);
    FollowsTransitive(c, ready, Lifecycle.AwaitingAgent(c).value);
  }

  lemma AttemptAddedFollows(c: Case, attempt: Attempt)
    requires attempt.number == |c.attempts| + 1
    ensures CaseFollows(c, c.(attempts := c.attempts + [attempt]))
  {
  }

  lemma JudgementFollows(c: Case, id: nat, verdict: SafetyOutcome, action: ActionType, now: int)
    requires Lifecycle.AfterJudgement(c, id, verdict, action, now).Ok?
    ensures CaseFollows(c, Lifecycle.AfterJudgement(c, id, verdict, action, now).value)
  {
    if verdict.Allow? {
      var pending := TableTransition(c, ActionPending).value;
      var attempt := Lifecycle.PlannedAttempt(id, |c.attempts| + 1, action, now);
      var planned := pending.(attempts := pending.attempts + [attempt]);
      TableFollows(c, ActionPending);
      AttemptAddedFollows(pending, attempt);
      TableFollows(planned, VerificationPending);
      FollowsTransitive(c, pending, planned);
      FollowsTransitive(c, planned, TableTransition(planned, VerificationPending).value);
    } else {
      TableFollows(c, if verdict.EscalateCase? then Escalated else Stopped);
    }
  }

  lemma VerticalRunFollows(db: Database, r: Lifecycle.VerticalRequest)
    requires Lifecycle.AfterVerticalRun(db, r).Ok?
    ensures Follows(db, Lifecycle.AfterVerticalRun(db, r).value)
  {
    var c := Lifecycle.AwaitingAgent(db.cases[r.caseId]).value;
    var context := Lifecycle.AgentContext(c, r.caseId, db.transactions[r.transaction].status, r.action);
    var done := Lifecycle.AfterJudgement(c, r.caseId, SafetyOf(context, r.config), r.action, r.now).value;
    AwaitingAgentFollows(db.cases[r.caseId]);
    JudgementFollows(c, r.caseId, SafetyOf(context, r.config), r.action, r.now);
    FollowsTransitive(db.cases[r.caseId], c, done);
    CaseSetFollows(db, r.caseId, done);
  }

  // ----------------------------------------------------------- reconciliation

  /** The branch of reconciliation that assigns the state without logging it. */
  predicate SettlesDirectly(db: Database, id: nat, q: Reconciliation.Inquiry) {
    && id < |db.cases| && db.cases[id].trigger < |db.transactions|
    && q.autoResolve
    && Reconciliation.ProviderSettled(db, db.cases[id], Reconciliation.ProviderStatus(db, db.cases[id], id, q))
    && !db.cases[id].state.Recovered? && !db.cases[id].state.Closed? && !db.cases[id].state.VerificationPending?
  }

  /** The branch that takes a case back from verification, when the pending payment failed. */
  predicate ReopensByRefusal(db: Database, id: nat, q: Reconciliation.Inquiry) {
    && id < |db.cases| && db.cases[id].trigger < |db.transactions|
    && q.autoResolve
    && Reconciliation.ProviderRefused(db, db.cases[id], Reconciliation.ProviderStatus(db, db.cases[id], id, q))
    && db.cases[id].state.VerificationPending?
  }

  lemma NotedFollows(c: Case)
    requires Reconciliation.Noted(c).Ok?
    ensures CaseFollows(c, Reconciliation.Noted(c).value)
  {
  }

  lemma ResolvedFollows(c: Case, resolution: Option<Reconciliation.Resolution>)
    requires Reconciliation.Resolved(c, resolution).Ok?
    requires resolution == Some(Reconciliation.ResolvedToSucceeded) ==>
               c.state.Recovered? || c.state.Closed? || c.state.VerificationPending?
    ensures var moved := Reconciliation.Resolved(c, resolution).value;
      if resolution == Some(Reconciliation.ResolvedToFailed) && c.state.VerificationPending? then CaseReopens(c, moved)
      else CaseFollows(c, moved)
  {
    match resolution {
      case None =>
      case Some(ResolvedToSucceeded) => if c.state.VerificationPending? { TableFollows(c, Recovered); }
      case Some(ResolvedToFailed) => if c.state.VerificationPending? { TableFollows(c, RetryEligible); }
      case Some(EscalatedForReview) => if !c.state.Escalated? && !c.state.Closed? { TableFollows(c, Escalated); }
    }
  }

  /** The row a reconciliation leaves: by a direct assignment, a reopening or logged moves. */
  lemma ReconciledCase(c: Case, resolution: Option<Reconciliation.Resolution>, direct: bool, reopened: bool)
    requires Reconciliation.Resolved(c, resolution).Ok?
    requires Reconciliation.Noted(Reconciliation.Resolved(c, resolution).value).Ok?
    requires direct <==> resolution == Some(Reconciliation.ResolvedToSucceeded)
                         && !c.state.Recovered? && !c.state.Closed? && !c.state.VerificationPending?
    requires reopened <==> resolution == Some(Reconciliation.ResolvedToFailed) && c.state.VerificationPending?
    ensures var after := Reconciliation.Noted(Reconciliation.Resolved(c, resolution).value).value;
      && CaseEvolves(c, after)
      && (if direct then after.state.Recovered? && after.transitions == c.transitions
          else if reopened then CaseReopens(c, after)
          else CaseFollows(c, after))
  {
    var moved := Reconciliation.Resolved(c, resolution).value;
    var noted := Reconciliation.Noted(moved).value;
    NotedFollows(moved);
    if !direct {
      ResolvedFollows(c, resolution);
    }
    EvolvesTransitive(c, moved, noted);
    if !direct && !reopened {
      FollowsTransitive(c, moved, noted);
    }
  }

  lemma TriggerAfterFollows(db: Database, id: nat, provider: ExecutionStatus, q: Reconciliation.Inquiry)
    requires id < |db.cases| && db.cases[id].trigger < |db.transactions|
    ensures var settled := Reconciliation.TriggerAfter(db, db.cases[id], Reconciliation.ResolutionOf(db, db.cases[id], provider, q));
      Follows(db, settled) && settled.cases == db.cases
  {
  }

  lemma ReconcileEvolves(db: Database, id: nat, q: Reconciliation.Inquiry)
    requires Reconciliation.AfterReconcile(db, id, q).Ok?
    ensures var after := Reconciliation.AfterReconcile(db, id, q).value.0;
      && Evolves(db, after)
      && |after.cases| == |db.cases| && after.cases == db.cases[id := after.cases[id]]
      && (if SettlesDirectly(db, id, q) then
            after.cases[id].state.Recovered? && after.cases[id].transitions == db.cases[id].transitions
          else if ReopensByRefusal(db, id, q) then
            CaseReopens(db.cases[id], after.cases[id]) && !TriggerHas(after, after.cases[id], TxPending)
          else Follows(db, after))
  {
    var c := db.cases[id];
    var provider := Reconciliation.ProviderStatus(db, c, id, q);
    var resolution := Reconciliation.ResolutionOf(db, c, provider, q);
    var settled := Reconciliation.TriggerAfter(db, c, resolution);
    var noted := Reconciliation.Noted(Reconciliation.Resolved(c, resolution).value).value;
    ReconciledCase(c, resolution, SettlesDirectly(db, id, q), ReopensByRefusal(db, id, q));
    TriggerAfterFollows(db, id, provider, q);
    if !SettlesDirectly(db, id, q) && !ReopensByRefusal(db, id, q) {
      CaseSetFollows(settled, id, noted);
      FollowsTransitively(db, settled, SetCase(settled, id, noted));
    }
  }

  // ---------------------------------------------------------------- workflows

  lemma OnlyStepFollows(a: Database, b: Database, id: nat, k: nat)
    requires Located(a, id, k) && OnlyStep(a, b, id, k)
    requires Ready(a.workflows[id].steps[k]) && !Finished(a.workflows[id].status)
    ensures Follows(a, b)
  {
  }

  lemma GatewayOnlyGrows(db: Database, gateway: seq<Submission>, id: nat, x: Circumstances)
    ensures gateway <= AfterNextStep(db, gateway, id, x).gateway
  {
  }

  lemma NextStepFollows(db: Database, gateway: seq<Submission>, id: nat, x: Circumstances)
    requires AfterNextStep(db, gateway, id, x).result.Ok?
    ensures var after := AfterNextStep(db, gateway, id, x).result.value;
      Follows(db, after) && SameParties(db, after)
  {
    var next := FirstReady(db.workflows[id].steps);
    if next.Some? {
      NextStepIsOnlyStep(db, gateway, id, x, next.value);
      OnlyStepFollows(db, AfterNextStep(db, gateway, id, x).result.value, id, next.value);
    } else {
      CompletedFollows(db, id);
    }
  }

  lemma CompletedFollows(db: Database, id: nat)
    requires id < |db.workflows| && !Finished(db.workflows[id].status)
    ensures Follows(db, SetWorkflow(db, id, db.workflows[id].(status := WfCompleted)))
  {
  }

  /** No customer, payment or case came or went, and no recommendation or decision changed. */
  predicate SameParties(a: Database, b: Database) {
    && b.customers == a.customers && b.transactions == a.transactions && |b.cases| == |a.cases|
    && b.recommendations == a.recommendations && b.decisions == a.decisions
  }

  /** What execution has done since `a`: only moves that follow, and nothing struck from the log. */
  predicate Carried(a: Database, log: seq<Submission>, b: Database, g: seq<Submission>) {
    Follows(a, b) && SameParties(a, b) && log <= g
  }

  lemma RoundCarries(a: Database, log: seq<Submission>, db: Database, gateway: seq<Submission>, id: nat, x: Circumstances)
    requires Carried(a, log, db, gateway)
    ensures match AfterRound(db, gateway, id, x)
            case Continues(after, g) => Carried(a, log, after, g)
            case Ends(all) => log <= all.ran.gateway && (all.ran.result.Ok? ==> Carried(a, log, all.ran.result.value, all.ran.gateway))
  {
    hide AfterNextStep;
    GatewayOnlyGrows(db, gateway, id, x);
    match AfterRound(db, gateway, id, x) {
      case Continues(after, _) =>
        NextStepFollows(db, gateway, id, x);
        FollowsTransitively(a, db, after);
      case Ends(all) =>
        LastRoundFollows(db, gateway, id, x);
        if all.ran.result.Ok? {
          FollowsTransitively(a, db, all.ran.result.value);
        }
    }
  }

  lemma AllStepsFollow(db: Database, gateway: seq<Submission>, id: nat, x: Circumstances)
    ensures var ran := AfterAllSteps(db, gateway, id, x).ran;
      && gateway <= ran.gateway
      && (ran.result.Ok? ==> Follows(db, ran.result.value) && SameParties(db, ran.result.value))
  {
    hide AfterRound;
    if id < |db.workflows| {
      var round := RoundOf(id, x);
      var inv := (d: Database, g: seq<Submission>) => Carried(db, gateway, d, g);
      UnchangedFollows(db);
      forall d, g | inv(d, g) && round(d, g).Continues? ensures inv(round(d, g).db, round(d, g).gateway) {
        RoundCarries(db, gateway, d, g, id, x);
      }
      var d, g := LoopKeeps(round, inv, db, gateway, |db.workflows[id].steps| + 2);
      RoundCarries(db, gateway, d, g, id, x);
    }
  }

  lemma LastRoundFollows(db: Database, gateway: seq<Submission>, id: nat, x: Circumstances)
    ensures var round := AfterRound(db, gateway, id, x);
      round.Ends? ==>
        && gateway <= round.all.ran.gateway
        && (round.all.ran.result.Ok? ==>
              Follows(db, round.all.ran.result.value) && SameParties(db, round.all.ran.result.value))
  {
    GatewayOnlyGrows(db, gateway, id, x);
    UnchangedFollows(db);
    if id < |db.workflows| && !Halts(db.workflows[id].status) {
      if FirstReady(db.workflows[id].steps).None? {
        CompletedFollows(db, id);
      } else if AfterNextStep(db, gateway, id, x).result.Ok? {
        NextStepFollows(db, gateway, id, x);
      }
    }
  }
}
