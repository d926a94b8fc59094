/** The policy gate: runs the five rules on a case and a recommendation, stores the decision
    and moves the case. It never calls a gateway. */
module PolicyEngine {
  import opened Domain
  import opened CaseLog
  import opened Lists
  import opened Store
  import opened PolicyRules

  datatype PolicyRequest = PolicyRequest(
    caseId: nat,
    recommendation: nat,
    action: Option<ActionType>,
    key: Option<Key>,
    sms: bool)

  datatype Evaluation = Evaluation(status: DecisionStatus, reasons: seq<Reason>, checks: seq<RuleCheck>)

  function GivenKey(request: PolicyRequest): Option<Key> {
    if request.key == Some(Text("")) then None else request.key
  }

  function FindDecision(db: Database, caseId: nat, key: Key): (r: Option<nat>)
    ensures r.Some? ==> r.value < |db.decisions| && IsKeyed(db.decisions[r.value], caseId, key)
    ensures r.None? ==> forall j :: 0 <= j < |db.decisions| ==> !IsKeyed(db.decisions[j], caseId, key)
  {
    FindFirst(db.decisions, (d: PolicyDecision) => IsKeyed(d, caseId, key))
  }

  predicate IsKeyed(d: PolicyDecision, caseId: nat, key: Key) {
    d.caseId == caseId && d.key == Some(key)
  }

  // ------------------------------------------------------------ specification

  predicate IsRetry(a: Attempt) {
    a.action.RetryPayment?
  }

  predicate IsUncertain(a: Attempt) {
    a.status.Uncertain?
  }

  function ProposedAction(db: Database, request: PolicyRequest): ActionType
    requires request.recommendation < |db.recommendations|
  {
    if request.action.Some? then request.action.value else db.recommendations[request.recommendation].action
  }

  function Trigger(db: Database, c: Case): Option<Transaction> {
    if c.trigger < |db.transactions| then Some(db.transactions[c.trigger]) else None
  }

  function CustomerOf(db: Database, c: Case): Option<Customer> {
    if c.customer < |db.customers| then Some(db.customers[c.customer]) else None
  }

  /** The verdicts of the five rules, in the order the engine runs them. */
  function RunRules(db: Database, request: PolicyRequest, config: PolicyConfig, now: int): (r: seq<RuleCheck>)
    requires request.caseId < |db.cases| && request.recommendation < |db.recommendations|
    ensures |r| == 5
    ensures r[0] == Eligibility(Some(db.cases[request.caseId]), request.caseId,
                                Some(db.recommendations[request.recommendation]),
                                Some(db.cases[request.caseId].customer), Some(db.cases[request.caseId].trigger))
  {
    var c := db.cases[request.caseId];
    var rec := db.recommendations[request.recommendation];
    var action := ProposedAction(db, request);
    var trigger := Trigger(db, c);
    var customer := CustomerOf(db, c);
    var failure := if trigger.Some? then trigger.value.failure else None;
    [ Eligibility(Some(c), request.caseId, Some(rec), Some(c.customer), Some(c.trigger)),
      ConsentCheck(action, c.customer, Filter(db.consents, (k: Consent) => k.customer == c.customer),
                   if customer.Some? then customer.value.merchantId else None, request.sms, now),
      RetryLimit(action, c.attempts, config, now, GivenKey(request), failure),
      Strategy(action, failure, c.state, customer.Some? && customer.value.hasEmail),
      Escalation(if trigger.Some? then trigger.value.amountMinor else 0,
                 if trigger.Some? then trigger.value.currency else "INR",
                 config, rec.confidence, failure,
                 !config.CanRetry(|Filter(c.attempts, IsRetry)|),
                 exists k :: 0 <= k < |c.attempts| && IsUncertain(c.attempts[k])) ]
  }

  predicate EndsCase(r: Reason) {
    r.RetryLimitExceeded? || r.CaseAlreadyRecovered? || r.CaseCancelled? || r.CaseClosed? || r.RetryNotSupported?
  }

  /** The state a verdict moves a case to, if any. */
  function Target(status: DecisionStatus, state: CaseState, reasons: seq<Reason>): Option<CaseState> {
    match status
    case Approved => if Actionable(state) then Some(ActionPending) else None
    case RequiresReview => if !Terminal(state) && !state.Escalated? then Some(Escalated) else None
    case Rejected =>
      if (exists k :: 0 <= k < |reasons| && EndsCase(reasons[k])) && !Terminal(state) then Some(Stopped) else None
    case InsufficientInformation => None
  }

  function ValidationFor(status: DecisionStatus): ValidationStatus {
    match status
    case Approved => Valid
    case Rejected => RejectedByPolicy
    case RequiresReview => NotValidated
    case InsufficientInformation => Invalid
  }

  function Judged(c: Case, target: Option<CaseState>): Case {
    if target.Some? && target.value != c.state then MoveLogged(c, target.value, PolicyEvaluated)
    else RecordAudit(c, PolicyEvaluated, Some(c.state), Some(c.state))
  }

  /** A request that is not a replay: evaluates, stores the decision, moves the case. */
  function AfterFreshEvaluation(db: Database, request: PolicyRequest, config: PolicyConfig, now: int): (Database, Evaluation)
    requires request.caseId < |db.cases| && request.recommendation < |db.recommendations|
  {
    var c := db.cases[request.caseId];
    var checks := RunRules(db, request, config, now);
    var (status, reasons) := Aggregate(checks);
    var decision := PolicyDecision(request.caseId, request.recommendation, ProposedAction(db, request),
                                   status, checks, reasons, request.key, c.version);
    var rec := db.recommendations[request.recommendation].(validation := ValidationFor(status));
    (db.(decisions := db.decisions + [decision],
         recommendations := db.recommendations[request.recommendation := rec],
         cases := db.cases[request.caseId := Judged(c, Target(status, c.state, reasons))]),
     Evaluation(status, reasons, checks))
  }

  predicate Replayed(db: Database, request: PolicyRequest) {
    GivenKey(request).Some? && FindDecision(db, request.caseId, GivenKey(request).value).Some?
  }

  predicate Fresh(db: Database, request: PolicyRequest) {
    !Replayed(db, request) && request.caseId < |db.cases| && request.recommendation < |db.recommendations|
  }

  function AfterEvaluation(db: Database, request: PolicyRequest, config: PolicyConfig, now: int): (Database, Evaluation) {
    if Replayed(db, request) then
      var d := db.decisions[FindDecision(db, request.caseId, GivenKey(request).value).value];
      (db, Evaluation(d.status, d.reasons, d.checks))
    else if request.caseId >= |db.cases| then
      (db, Evaluation(InsufficientInformation, [CaseNotFound], [RuleCheck(DataRule, MissingInfo, CaseNotFound)]))
    else if request.recommendation >= |db.recommendations| then
      (db, Evaluation(InsufficientInformation, [RecommendationMissing], [RuleCheck(DataRule, MissingInfo, RecommendationMissing)]))
    else AfterFreshEvaluation(db, request, config, now)
  }

  // ------------------------------------------------------------------ service

  class PolicyEngineService {
    const session: Session
    const config: PolicyConfig

    constructor (session: Session, config: PolicyConfig)
      ensures this.session == session && this.config == config
    {
      this.session := session;
      this.config := config;
    }

    method Evaluate(request: PolicyRequest, now: int) returns (result: Evaluation)
      requires session.Clean()
      modifies session
      ensures session.Clean()
      ensures (session.committed, result) == AfterEvaluation(old(session.committed), request, config, now)
    {
      var key := GivenKey(request);
      if key.Some? {
        var existing := FindDecision(session.db, request.caseId, key.value);
        if existing.Some? {
          var stored := session.db.decisions[existing.value];
          return Evaluation(stored.status, stored.reasons, stored.checks);
        }
      }
      if request.caseId >= |session.db.cases| {
        return Evaluation(InsufficientInformation, [CaseNotFound], [RuleCheck(DataRule, MissingInfo, CaseNotFound)]);
      }
      if request.recommendation >= |session.db.recommendations| {
        return Evaluation(InsufficientInformation, [RecommendationMissing],
                          [RuleCheck(DataRule, MissingInfo, RecommendationMissing)]);
      }
      var c := session.db.cases[request.caseId];
      var rec := session.db.recommendations[request.recommendation];
      var checks := RunRules(session.db, request, config, now);
      var (status, reasons) := Aggregate(checks);
      var decision := PolicyDecision(request.caseId, request.recommendation, ProposedAction(session.db, request),
                                     status, checks, reasons, request.key, c.version);
      session.db := session.db.(decisions := session.db.decisions + [decision]);
      rec := rec.(validation := ValidationFor(status));
      session.db := session.db.(recommendations := session.db.recommendations[request.recommendation := rec]);
      var from := c.state;
      var target := Target(status, c.state, reasons);
      if target.Some? && target.value != c.state {
        c := c.(state := target.value);
        c := c.(version := c.version + 1);
        c := LogTransition(c, Some(from), target.value);
      }
      c := RecordAudit(c, PolicyEvaluated, Some(from), Some(c.state));
      session.db := SetCase(session.db, request.caseId, c);
      session.Commit();
      result := Evaluation(status, reasons, checks);
    }
  }

  // --------------------------------------------------------------- properties

  /** A fresh verdict decides where the case stands: approval leaves it ready for action,
      a review request leaves it with an operator. */
  lemma VerdictPlacesCase(db: Database, request: PolicyRequest, config: PolicyConfig, now: int)
    requires Fresh(db, request)
    ensures var (after, result) := AfterEvaluation(db, request, config, now);
      && (result.status.Approved? ==>
            Actionable(db.cases[request.caseId].state) && after.cases[request.caseId].state.ActionPending?)
      && (result.status.RequiresReview? ==>
            Actionable(db.cases[request.caseId].state) && after.cases[request.caseId].state.Escalated?)
      && (result.status.InsufficientInformation? ==> after.cases[request.caseId].state == db.cases[request.caseId].state)
      && (result.status.Rejected? ==>
            after.cases[request.caseId].state ==
              if !Terminal(db.cases[request.caseId].state) && exists r :: r in result.reasons && EndsCase(r) then Stopped
              else db.cases[request.caseId].state)
      && (after.recommendations[request.recommendation].validation.Valid? <==> result.status.Approved?)
  {
    var checks := RunRules(db, request, config, now);
    AggregatePrecedence(checks);
    assert checks[0].status.Passed? || checks[0].status.Failed? || checks[0].status.MissingInfo?;
    assert checks[0].status.Failed? ==> HasStatus(checks, Failed);
    assert checks[0].status.MissingInfo? ==> HasStatus(checks, MissingInfo);
  }

  /** When every rule passes, the verdict is an approval on file and the case ready for action. */
  lemma PassingRulesApprove(db: Database, request: PolicyRequest, config: PolicyConfig, now: int)
    requires Fresh(db, request)
    requires forall k :: 0 <= k < 5 ==> RunRules(db, request, config, now)[k].status.Passed?
    ensures var after := AfterEvaluation(db, request, config, now).0;
      && after == db.(cases := after.cases, decisions := after.decisions, recommendations := after.recommendations)
      && after.cases == db.cases[request.caseId := MoveLogged(db.cases[request.caseId], ActionPending, PolicyEvaluated)]
      && |after.decisions| == |db.decisions| + 1
      && var d := after.decisions[|db.decisions|];
         d.status.Approved? && d.caseId == request.caseId && d.action == ProposedAction(db, request)
  {
    AggregatePrecedence(RunRules(db, request, config, now));
  }

  /** An approved retry passed every rule on the rows it was evaluated on. */
  lemma ApprovedRetryIsGuarded(db: Database, request: PolicyRequest, config: PolicyConfig, now: int)
    requires Fresh(db, request)
    requires AfterEvaluation(db, request, config, now).1.status.Approved?
    requires ProposedAction(db, request).RetryPayment?
    ensures var c := db.cases[request.caseId];
      && db.recommendations[request.recommendation].caseId == request.caseId
      && (forall a :: a in c.attempts ==> !a.status.AttemptSucceeded? && !a.status.Started? && !a.status.Uncertain?)
      && |Filter(c.attempts, ConsumesQuota)| < config.maxRetryAttempts
      && (forall a :: a in c.attempts && ConsumesQuota(a) && AttemptTime(a).Some? ==>
            now - AttemptTime(a).value >= config.retryCooldownHours * 3600)
      && (exists k :: k in db.consents && k.customer == c.customer && k.kind.RecurringBilling? && ConsentIsValid(k, now))
  {
    var c := db.cases[request.caseId];
    var checks := RunRules(db, request, config, now);
    AggregatePrecedence(checks);
    var failure := if Trigger(db, c).Some? then Trigger(db, c).value.failure else None;
    var merchant := if CustomerOf(db, c).Some? then CustomerOf(db, c).value.merchantId else None;
    var own := Filter(db.consents, (k: Consent) => k.customer == c.customer);
    assert checks[0].status.Passed? && checks[1].status.Passed? && checks[2].status.Passed?;
    RetryRulePassesExactly(c.attempts, config, now, GivenKey(request), failure);
    ConsentRulePassesExactly(RetryPayment, c.customer, own, merchant, request.sms, now);
    NewestMatchingIsNewest(own, c.customer, RecurringBilling, merchant);
  }

  /** Asking again under the same key gives the same verdict and changes nothing. */
  lemma KeyedRequestReplays(db: Database, request: PolicyRequest, config: PolicyConfig, now: int,
                            again: PolicyRequest, config': PolicyConfig, later: int)
    requires GivenKey(request).Some? && GivenKey(again) == GivenKey(request) && again.caseId == request.caseId
    requires Replayed(db, request) || Fresh(db, request)
    ensures var (after, first) := AfterEvaluation(db, request, config, now);
      AfterEvaluation(after, again, config', later) == (after, first)
  {
    var (after, first) := AfterEvaluation(db, request, config, now);
    var key := GivenKey(request).value;
    if Fresh(db, request) {
      assert after.decisions == db.decisions + [after.decisions[|db.decisions|]];
      assert IsKeyed(after.decisions[|db.decisions|], request.caseId, key);
      var found := FindDecision(after, request.caseId, key);
      assert found.Some? && found.value == |db.decisions|;
    }
  }

  /** Whatever requests follow, a case that is waiting for its action gets no second approval,
      and no evaluation moves it anywhere but to Stopped. */
  lemma {:induction false} NoSecondApproval(db: Database, requests: seq<(PolicyRequest, PolicyConfig, int)>, id: nat)
    requires id < |db.cases| && (db.cases[id].state.ActionPending? || db.cases[id].state.Stopped?)
    ensures var after := EvaluateAll(db, requests);
      && |after.cases| == |db.cases|
      && (after.cases[id].state.ActionPending? || after.cases[id].state.Stopped?)
      && db.decisions <= after.decisions
      && forall k :: |db.decisions| <= k < |after.decisions| && after.decisions[k].caseId == id ==>
           !after.decisions[k].status.Approved?
    decreases requests
  {
    if requests != [] {
      var (request, config, now) := requests[0];
      var (next, result) := AfterEvaluation(db, request, config, now);
      if Fresh(db, request) && request.caseId == id {
        VerdictPlacesCase(db, request, config, now);
        assert next.decisions == db.decisions + [next.decisions[|db.decisions|]];
      }
      NoSecondApproval(next, requests[1..], id);
    }
  }

  function EvaluateAll(db: Database, requests: seq<(PolicyRequest, PolicyConfig, int)>): Database
    decreases requests
  {
    if requests == [] then db
    else EvaluateAll(AfterEvaluation(db, requests[0].0, requests[0].1, requests[0].2).0, requests[1..])
  }
}
