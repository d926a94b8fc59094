/** The five policy rules and the precedence that aggregates them. */
module PolicyRules {
  import opened Domain
  import opened Lists
  import opened Store

  datatype PolicyConfig = PolicyConfig(
    maxRetryAttempts: int,
    retryCooldownHours: int,
    fallbackThresholdMinor: int,
    thresholdsMinor: map<string, int>)
  {
    predicate CanRetry(priorRetries: int) {
      priorRetries < maxRetryAttempts
    }

    predicate CooldownElapsed(lastAttemptAt: int, now: int) {
      now - lastAttemptAt >= retryCooldownHours * 3600
    }

    function HighValueThreshold(currency: string): int {
      if currency in thresholdsMinor then thresholdsMinor[currency] else fallbackThresholdMinor
    }

    predicate HighValue(amountMinor: int, currency: string) {
      amountMinor >= HighValueThreshold(currency)
    }
  }

  // -------------------------------------------------------------- eligibility

  predicate Actionable(s: CaseState) {
    s.AwaitingDecision? || s.RetryEligible? || s.Detected?
  }

  function Eligibility(c: Option<Case>, caseId: nat, rec: Option<Recommendation>,
                       customer: Option<nat>, transaction: Option<nat>): (r: RuleCheck)
    ensures r.status.Passed? ==> c.Some? && rec.Some? && rec.value.caseId == caseId && Actionable(c.value.state)
    ensures !r.status.NeedsReview?
  {
    if c.None? then RuleCheck(EligibilityRule, MissingInfo, CaseNotFound)
    else if rec.None? then RuleCheck(EligibilityRule, MissingInfo, RecommendationMissing)
    else if customer.Some? && customer.value != c.value.customer then RuleCheck(EligibilityRule, Failed, CustomerMismatch)
    else if transaction.Some? && transaction.value != c.value.trigger then RuleCheck(EligibilityRule, Failed, TransactionMismatch)
    else if rec.value.caseId != caseId then RuleCheck(EligibilityRule, Failed, RecommendationMismatch)
    else if rec.value.validation.Invalid? || rec.value.validation.RejectedByPolicy? then
      RuleCheck(EligibilityRule, Failed, RecommendationStale)
    else if rec.value.version < c.value.version - 2 then RuleCheck(EligibilityRule, Failed, RecommendationStale)
    else match c.value.state
      case Recovered => RuleCheck(EligibilityRule, Failed, CaseAlreadyRecovered)
      case Closed => RuleCheck(EligibilityRule, Failed, CaseClosed)
      case Stopped => RuleCheck(EligibilityRule, Failed, CaseCancelled)
      case ActionPending => RuleCheck(EligibilityRule, Failed, WorkflowAlreadyActive)
      case VerificationPending => RuleCheck(EligibilityRule, Failed, WorkflowAlreadyActive)
      case AwaitingDecision => RuleCheck(EligibilityRule, Passed, EligibilityPassed)
      case RetryEligible => RuleCheck(EligibilityRule, Passed, EligibilityPassed)
      case Detected => RuleCheck(EligibilityRule, Passed, EligibilityPassed)
      case ContextReady => RuleCheck(EligibilityRule, Failed, CaseNotActionable)
      case Escalated => RuleCheck(EligibilityRule, Failed, CaseNotActionable)
  }

  // ------------------------------------------------------------------ consent

  /** Whether a consent is active at a moment: granted, not yet revoked, not yet expired. */
  predicate ConsentIsValid(c: Consent, now: int) {
    && c.status.Granted?
    && (c.revokedAt.Some? ==> now < c.revokedAt.value)
    && (c.expiresAt.Some? ==> now < c.expiresAt.value)
  }

  function RequiredConsent(action: ActionType, sms: bool): Option<ConsentType> {
    match action
    case RetryPayment => Some(RecurringBilling)
    case SendReminder => Some(if sms then SmsContact else EmailContact)
    case NoAction => None
    case OperatorReview => None
    case StopRecovery => None
  }

  /** `a` is granted no earlier than `b`; a missing time is the earliest. */
  predicate GrantedNoEarlier(a: Consent, b: Consent) {
    b.grantedAt.None? || (a.grantedAt.Some? && a.grantedAt.value >= b.grantedAt.value)
  }

  /** Stable insertion into a newest-first list. */
  function InsertNewest(c: Consent, sorted: seq<Consent>): seq<Consent> {
    if sorted == [] then [c]
    else if GrantedNoEarlier(c, sorted[0]) then [c] + sorted
    else [sorted[0]] + InsertNewest(c, sorted[1..])
  }

  /** Newest grant first, ties in their original order. */
  function NewestFirst(rows: seq<Consent>): seq<Consent> {
    if rows == [] then [] else InsertNewest(rows[0], NewestFirst(rows[1..]))
  }

  /** The scan over the sorted candidates; it ends at the first one. */
  function ScanConsents(candidates: seq<Consent>, now: int): RuleCheck {
    if candidates == [] then RuleCheck(ConsentRule, Failed, ConsentMissing)
    else
      var c := candidates[0];
      if c.grantedAt.None? then RuleCheck(ConsentRule, Failed, ConsentInvalid)
      else if (c.status.Revoked? || c.revokedAt.Some?)
              && now >= (if c.revokedAt.Some? then c.revokedAt.value else c.grantedAt.value) then
        RuleCheck(ConsentRule, Failed, ConsentRevoked)
      else if c.expiresAt.Some? && now >= c.expiresAt.value then RuleCheck(ConsentRule, Failed, ConsentExpired)
      else if !c.status.Granted? then RuleCheck(ConsentRule, Failed, ConsentNotGranted)
      else RuleCheck(ConsentRule, Passed, ConsentValid)
  }

  predicate Matches(c: Consent, customer: nat, kind: ConsentType, merchant: Option<string>) {
    c.customer == customer && c.kind == kind
    && (merchant.Some? ==> c.merchantId.None? || c.merchantId == merchant)
  }

  function ConsentCheck(action: ActionType, customer: nat, consents: seq<Consent>, merchant: Option<string>,
                        sms: bool, now: int): RuleCheck {
    var required := RequiredConsent(action, sms);
    if required.None? then RuleCheck(ConsentRule, Passed, NoConsentRequired)
    else
      var own := Filter(consents, (c: Consent) => c.customer == customer);
      if own == [] && consents != [] then RuleCheck(ConsentRule, Failed, ConsentCustomerMismatch)
      else
        var typed := Filter(own, (c: Consent) => c.kind == required.value);
        if typed == [] then RuleCheck(ConsentRule, Failed, ConsentMissing)
        else
          var scoped := Filter(typed, (c: Consent) => merchant.Some? ==> c.merchantId.None? || c.merchantId == merchant);
          if scoped == [] then RuleCheck(ConsentRule, Failed, ConsentMerchantMismatch)
          else ScanConsents(NewestFirst(scoped), now)
  }

  // -------------------------------------------------------------- retry limit

  predicate NonRetryable(f: FailureCategory) {
    f.FraudSuspected? || f.StolenCard? || f.LostCard? || f.AccountClosed? || f.PickupCard? || f.RestrictedCard?
  }

  predicate ConsumesQuota(a: Attempt) {
    a.action.RetryPayment? && !a.status.Cancelled?
  }

  function AttemptTime(a: Attempt): Option<int> {
    if a.finishedAt.Some? then a.finishedAt else a.startedAt
  }

  /** The latest time any of the attempts carries. */
  function LatestTime(attempts: seq<Attempt>): Option<int> {
    if attempts == [] then None
    else
      var t := AttemptTime(attempts[0]);
      var rest := LatestTime(attempts[1..]);
      if rest.None? then t
      else if t.None? then rest
      else if t.value >= rest.value then t
      else rest
  }

  function RetryLimit(action: ActionType, attempts: seq<Attempt>, config: PolicyConfig, now: int,
                      key: Option<Key>, failure: Option<FailureCategory>): RuleCheck {
    if !action.RetryPayment? then RuleCheck(RetryRule, Passed, NotARetryAction)
    else if failure.Some? && NonRetryable(failure.value) then RuleCheck(RetryRule, Failed, RetryNotSupported)
    else if key.Some? && exists k :: 0 <= k < |attempts| && attempts[k].key == key.value then
      RuleCheck(RetryRule, Failed, DuplicateRetryRequest)
    else if exists k :: 0 <= k < |attempts| && attempts[k].status.AttemptSucceeded? then
      RuleCheck(RetryRule, Failed, PreviousAttemptSucceeded)
    else if exists k :: 0 <= k < |attempts| && attempts[k].status.Started? then
      RuleCheck(RetryRule, Failed, RetryAlreadyInProgress)
    else if exists k :: 0 <= k < |attempts| && attempts[k].status.Uncertain? then
      RuleCheck(RetryRule, NeedsReview, PreviousOutcomeUnknown)
    else
      var consumed := Filter(attempts, ConsumesQuota);
      if !config.CanRetry(|consumed|) then RuleCheck(RetryRule, Failed, RetryLimitExceeded)
      else
        var latest := LatestTime(consumed);
        if latest.Some? && !config.CooldownElapsed(latest.value, now) then
          RuleCheck(RetryRule, Failed, RetryCooldownActive)
        else RuleCheck(RetryRule, Passed, RetryLimitOk)
  }

  // ----------------------------------------------------------------- strategy

  function Strategy(action: ActionType, failure: Option<FailureCategory>, state: CaseState, hasContact: bool): RuleCheck {
    if Terminal(state) && !(action.StopRecovery? || action.NoAction?) then
      RuleCheck(StrategyRule, Failed, StrategyCaseStateMismatch)
    else match action
      case NoAction => RuleCheck(StrategyRule, Passed, StrategyValid)
      case StopRecovery => RuleCheck(StrategyRule, Passed, StrategyValid)
      case OperatorReview => RuleCheck(StrategyRule, Passed, StrategyValid)
      case RetryPayment => RuleCheck(StrategyRule, Passed, StrategyValid)
      case SendReminder =>
        if !hasContact then RuleCheck(StrategyRule, Failed, StrategyPrerequisiteMissing)
        else if failure.Some? && (failure.value.ProviderTimeout? || failure.value.NetworkError?) then
          RuleCheck(StrategyRule, Failed, StrategyFailureMismatch)
        else RuleCheck(StrategyRule, Passed, StrategyValid)
  }

  // --------------------------------------------------------------- escalation

  predicate FraudLike(f: FailureCategory) {
    f.FraudSuspected? || f.StolenCard? || f.LostCard? || f.PickupCard? || f.RestrictedCard? || f.SecurityViolation?
  }

  function Escalation(amountMinor: int, currency: string, config: PolicyConfig, confidence: Option<real>,
                      failure: Option<FailureCategory>, retriesExhausted: bool, uncertain: bool): RuleCheck {
    if failure.Some? && FraudLike(failure.value) then RuleCheck(EscalationRule, NeedsReview, FraudRestriction)
    else if config.HighValue(amountMinor, currency) then RuleCheck(EscalationRule, NeedsReview, HighValueReviewRequired)
    else if retriesExhausted then RuleCheck(EscalationRule, NeedsReview, RetryExhausted)
    else if uncertain then RuleCheck(EscalationRule, NeedsReview, PaymentOutcomeUncertain)
    else if failure.None? || failure.value.UnknownFailure? then RuleCheck(EscalationRule, NeedsReview, UnknownFailureCategory)
    else if confidence.None? then RuleCheck(EscalationRule, MissingInfo, ConfidenceMissing)
    else if confidence.value < 0.6 then RuleCheck(EscalationRule, NeedsReview, LowConfidence)
    else RuleCheck(EscalationRule, Passed, NoEscalationRequired)
  }

  // -------------------------------------------------------------- aggregation

  function ReasonsOf(checks: seq<RuleCheck>, status: RuleStatus): seq<Reason> {
    if checks == [] then []
    else (if checks[0].status == status then [checks[0].reason] else []) + ReasonsOf(checks[1..], status)
  }

  function Aggregate(checks: seq<RuleCheck>): (DecisionStatus, seq<Reason>) {
    if ReasonsOf(checks, Failed) != [] then (Rejected, ReasonsOf(checks, Failed))
    else if ReasonsOf(checks, MissingInfo) != [] then (InsufficientInformation, ReasonsOf(checks, MissingInfo))
    else if ReasonsOf(checks, NeedsReview) != [] then (RequiresReview, ReasonsOf(checks, NeedsReview))
    else (Approved, [AllGuardrailsPassed])
  }

  function Strictness(s: DecisionStatus): nat {
    match s
    case Approved => 0
    case RequiresReview => 1
    case InsufficientInformation => 2
    case Rejected => 3
  }

  function Stricter(a: DecisionStatus, b: DecisionStatus): DecisionStatus {
    if Strictness(a) >= Strictness(b) then a else b
  }

  predicate HasStatus(checks: seq<RuleCheck>, status: RuleStatus) {
    exists k :: 0 <= k < |checks| && checks[k].status == status
  }

  // --------------------------------------------------------------- properties

  lemma {:induction false} ReasonsPresent(checks: seq<RuleCheck>, status: RuleStatus)
    ensures ReasonsOf(checks, status) != [] <==> HasStatus(checks, status)
  {
    if checks != [] {
      ReasonsPresent(checks[1..], status);
      if HasStatus(checks, status) && checks[0].status != status {
        var k :| 0 <= k < |checks| && checks[k].status == status;
        assert checks[1..][k - 1].status == status;
      }
      if HasStatus(checks[1..], status) {
        var k :| 0 <= k < |checks[1..]| && checks[1..][k].status == status;
        assert checks[k + 1].status == status;
      }
    }
  }

  /** The aggregate is decided by the statuses present: failure first, then missing
      information, then review; approval needs every rule to pass. */
  lemma AggregatePrecedence(checks: seq<RuleCheck>)
    ensures Aggregate(checks).0.Rejected? <==> HasStatus(checks, Failed)
    ensures Aggregate(checks).0.InsufficientInformation? <==> !HasStatus(checks, Failed) && HasStatus(checks, MissingInfo)
    ensures Aggregate(checks).0.RequiresReview? <==>
              !HasStatus(checks, Failed) && !HasStatus(checks, MissingInfo) && HasStatus(checks, NeedsReview)
    ensures Aggregate(checks).0.Approved? <==> forall k :: 0 <= k < |checks| ==> checks[k].status.Passed?
  {
    ReasonsPresent(checks, Failed);
    ReasonsPresent(checks, MissingInfo);
    ReasonsPresent(checks, NeedsReview);
  }

  lemma ReasonsCons(check: RuleCheck, rest: seq<RuleCheck>, status: RuleStatus)
    ensures ReasonsOf([check] + rest, status) == (if check.status == status then [check.reason] else []) + ReasonsOf(rest, status)
  {
    assert ([check] + rest)[1..] == rest;
  }

  lemma {:induction false} ReasonsConcat(a: seq<RuleCheck>, b: seq<RuleCheck>, status: RuleStatus)
    ensures ReasonsOf(a + b, status) == ReasonsOf(a, status) + ReasonsOf(b, status)
    decreases |a|
  {
    if a == [] {
      assert a + b == b;
    } else {
      var rest := a[1..];
      assert a == [a[0]] + rest;
      assert a + b == [a[0]] + (rest + b);
      ReasonsCons(a[0], rest, status);
      ReasonsCons(a[0], rest + b, status);
      ReasonsConcat(rest, b, status);
    }
  }

  /** Joining two rule lists decides as the stricter of the two lists does. */
  lemma AggregateOfJoin(a: seq<RuleCheck>, b: seq<RuleCheck>)
    ensures Aggregate(a + b).0 == Stricter(Aggregate(a).0, Aggregate(b).0)
  {
    ReasonsConcat(a, b, Failed);
    ReasonsConcat(a, b, MissingInfo);
    ReasonsConcat(a, b, NeedsReview);
  }

  lemma {:induction false} LatestTimeIsLatest(attempts: seq<Attempt>)
    ensures LatestTime(attempts).None? <==> forall a :: a in attempts ==> AttemptTime(a).None?
    ensures LatestTime(attempts).Some? ==> exists a :: a in attempts && AttemptTime(a) == LatestTime(attempts)
    ensures LatestTime(attempts).Some? ==>
              forall a :: a in attempts && AttemptTime(a).Some? ==> AttemptTime(a).value <= LatestTime(attempts).value
  {
    if attempts != [] {
      LatestTimeIsLatest(attempts[1..]);
      assert attempts[0] in attempts;
    }
  }

  /** The retry rule passes a retry exactly when nothing blocks it: a retryable failure, a fresh
      key, no attempt succeeded, running or uncertain, quota left, and every timestamped
      retry at least a full cooldown old. */
  lemma RetryRulePassesExactly(attempts: seq<Attempt>, config: PolicyConfig, now: int,
                               key: Option<Key>, failure: Option<FailureCategory>)
    ensures RetryLimit(RetryPayment, attempts, config, now, key, failure).status.Passed? <==>
      && (failure.Some? ==> !NonRetryable(failure.value))
      && (forall a :: a in attempts ==>
            && (key.Some? ==> a.key != key.value)
            && !a.status.AttemptSucceeded? && !a.status.Started? && !a.status.Uncertain?)
      && |Filter(attempts, ConsumesQuota)| < config.maxRetryAttempts
      && (forall a :: a in attempts && ConsumesQuota(a) && AttemptTime(a).Some? ==>
            now - AttemptTime(a).value >= config.retryCooldownHours * 3600)
  {
    var consumed := Filter(attempts, ConsumesQuota);
    LatestTimeIsLatest(consumed);
    assert forall k :: 0 <= k < |attempts| ==> attempts[k] in attempts;
  }

  /** The matching consent granted last; of equally recent ones, the first listed. */
  function NewestMatching(rows: seq<Consent>, customer: nat, kind: ConsentType, merchant: Option<string>): Option<Consent> {
    if rows == [] then None
    else
      var rest := NewestMatching(rows[1..], customer, kind, merchant);
      if Matches(rows[0], customer, kind, merchant) && (rest.None? || GrantedNoEarlier(rows[0], rest.value)) then Some(rows[0])
      else rest
  }

  /** What makes it the newest: it is listed and matches, and no matching consent is newer. */
  lemma {:induction false} NewestMatchingIsNewest(rows: seq<Consent>, customer: nat, kind: ConsentType, merchant: Option<string>)
    ensures var newest := NewestMatching(rows, customer, kind, merchant);
      && (newest.None? <==> forall x :: x in rows ==> !Matches(x, customer, kind, merchant))
      && (newest.Some? ==> newest.value in rows && Matches(newest.value, customer, kind, merchant))
      && (newest.Some? ==> forall x :: x in rows && Matches(x, customer, kind, merchant) ==> GrantedNoEarlier(newest.value, x))
  {
    if rows != [] {
      NewestMatchingIsNewest(rows[1..], customer, kind, merchant);
      assert forall x :: x in rows <==> x == rows[0] || x in rows[1..];
    }
  }

  /** Filtering three times and sorting puts the newest matching consent first. */
  lemma {:induction false} SortedHeadIsNewest(rows: seq<Consent>, p: Consent -> bool, q: Consent -> bool, r: Consent -> bool,
                                              customer: nat, kind: ConsentType, merchant: Option<string>)
    requires forall c :: p(c) && q(c) && r(c) <==> Matches(c, customer, kind, merchant)
    ensures var sorted := NewestFirst(Filter(Filter(Filter(rows, p), q), r));
      && (sorted == [] <==> NewestMatching(rows, customer, kind, merchant).None?)
      && (sorted != [] ==> NewestMatching(rows, customer, kind, merchant) == Some(sorted[0]))
  {
    if rows != [] {
      SortedHeadIsNewest(rows[1..], p, q, r, customer, kind, merchant);
      if p(rows[0]) {
        var own := Filter(rows[1..], p);
        assert Filter(rows, p)[1..] == own;
        if q(rows[0]) {
          assert Filter(Filter(rows, p), q)[1..] == Filter(own, q);
          if r(rows[0]) {
            assert Filter(Filter(Filter(rows, p), q), r)[1..] == Filter(Filter(own, q), r);
          }
        }
      }
    }
  }

  /** The consent rule passes an action that needs consent exactly when the newest matching
      consent has a grant time and is active. */
  lemma ConsentRulePassesExactly(action: ActionType, customer: nat, consents: seq<Consent>,
                                 merchant: Option<string>, sms: bool, now: int)
    requires RequiredConsent(action, sms).Some?
    ensures var newest := NewestMatching(consents, customer, RequiredConsent(action, sms).value, merchant);
      ConsentCheck(action, customer, consents, merchant, sms, now).status.Passed? <==>
        newest.Some? && newest.value.grantedAt.Some? && ConsentIsValid(newest.value, now)
  {
    var kind := RequiredConsent(action, sms).value;
    SortedHeadIsNewest(consents,
                       (c: Consent) => c.customer == customer,
                       (c: Consent) => c.kind == kind,
                       (c: Consent) => merchant.Some? ==> c.merchantId.None? || c.merchantId == merchant,
                       customer, kind, merchant);
  }
}
