/** What the five policy rules and the verdict come to, said on the rows alone. */
module PolicyLaws {
  import opened Domain
  import opened CaseLog
  import opened Lists
  import opened Store
  import opened PolicyRules
  import opened PolicyEngine

  // ----------------------------------------------------------------- escalation

  const FRAUD_CODES := {FraudSuspected, StolenCard, LostCard, PickupCard, RestrictedCard, SecurityViolation}

  function ThresholdFor(config: PolicyConfig, currency: string): int {
    if currency in config.thresholdsMinor.Keys then config.thresholdsMinor[currency] else config.fallbackThresholdMinor
  }

  /** Something an operator has to look at, whatever the confidence. */
  predicate Alarming(amountMinor: int, currency: string, config: PolicyConfig,
                     failure: Option<FailureCategory>, retriesExhausted: bool, uncertain: bool) {
    || failure.None? || failure.value == UnknownFailure || failure.value in FRAUD_CODES
    || amountMinor >= ThresholdFor(config, currency) || retriesExhausted || uncertain
  }

  /** The escalation rule passes exactly when nothing is alarming and the confidence is at least 0.6,
      asks for review when something is or the confidence is lower, and lacks information when only
      the confidence is missing. It never fails. */
  lemma EscalationExactly(amountMinor: int, currency: string, config: PolicyConfig, confidence: Option<real>,
                          failure: Option<FailureCategory>, retriesExhausted: bool, uncertain: bool)
    ensures var status := Escalation(amountMinor, currency, config, confidence, failure, retriesExhausted, uncertain).status;
      var alarming := Alarming(amountMinor, currency, config, failure, retriesExhausted, uncertain);
      && (status == Passed <==> !alarming && confidence.Some? && confidence.value >= 0.6)
      && (status == MissingInfo <==> !alarming && confidence.None?)
      && (status == NeedsReview <==> alarming || (confidence.Some? && confidence.value < 0.6))
  {
  }

  // ---------------------------------------------------------------- eligibility

  /** The recommendation is about the case, neither invalidated nor more than two versions behind,
      and the case is one that a decision is awaited for. */
  predicate MayProceed(c: Case, caseId: nat, rec: Recommendation) {
    && rec.caseId == caseId && rec.validation in {NotValidated, Valid} && rec.version + 2 >= c.version
    && c.state in {Detected, AwaitingDecision, RetryEligible}
  }

  /** The eligibility rule passes exactly those, and fails the others when both rows are there. */
  lemma EligibilityExactly(c: Case, caseId: nat, rec: Recommendation, customer: Option<nat>, transaction: Option<nat>)
    ensures var status := Eligibility(Some(c), caseId, Some(rec), customer, transaction).status;
      && (status == Passed <==> MayProceed(c, caseId, rec) && customer in {None, Some(c.customer)} && transaction in {None, Some(c.trigger)})
      && (status == Passed || status == Failed)
  {
  }

  // -------------------------------------------------------------------- consent

  predicate Covers(k: Consent, customer: nat, kind: ConsentType, merchant: Option<string>) {
    k.customer == customer && k.kind == kind && (merchant.None? || k.merchantId.None? || k.merchantId == merchant)
  }

  predicate GrantedBefore(a: Consent, b: Consent) {
    b.grantedAt.Some? && (a.grantedAt.Some? ==> a.grantedAt.value < b.grantedAt.value)
  }

  predicate InForce(k: Consent, now: int) {
    && k.status == Granted && k.grantedAt.Some?
    && (k.revokedAt.Some? ==> now < k.revokedAt.value) && (k.expiresAt.Some? ==> now < k.expiresAt.value)
  }

  /** Row `k` covers and none granted later does; of several granted last, it is the first on file. */
  predicate IsLatestCover(rows: seq<Consent>, k: nat, customer: nat, kind: ConsentType, merchant: Option<string>)
    requires k < |rows|
  {
    && Covers(rows[k], customer, kind, merchant)
    && (forall j :: 0 <= j < |rows| && Covers(rows[j], customer, kind, merchant) ==> !GrantedBefore(rows[k], rows[j]))
    && (forall j :: 0 <= j < k && Covers(rows[j], customer, kind, merchant) ==> GrantedBefore(rows[j], rows[k]))
  }

  predicate Consented(rows: seq<Consent>, customer: nat, kind: ConsentType, merchant: Option<string>, now: int) {
    exists k :: 0 <= k < |rows| && IsLatestCover(rows, k, customer, kind, merchant) && InForce(rows[k], now)
  }

  /** A retry needs consent to recurring billing, a reminder consent to the channel it goes by; the
      other actions need none. */
  predicate HasConsent(rows: seq<Consent>, action: ActionType, customer: nat, merchant: Option<string>, sms: bool, now: int) {
    match action
    case RetryPayment => Consented(rows, customer, RecurringBilling, merchant, now)
    case SendReminder => Consented(rows, customer, if sms then SmsContact else EmailContact, merchant, now)
    case OperatorReview => true
    case StopRecovery => true
    case NoAction => true
  }

  /** The consent rule passes exactly when that consent is in force, and fails otherwise. */
  lemma ConsentExactly(rows: seq<Consent>, action: ActionType, customer: nat, merchant: Option<string>, sms: bool, now: int)
    ensures var status := ConsentCheck(action, customer, rows, merchant, sms, now).status;
      && (status == Passed <==> HasConsent(rows, action, customer, merchant, sms, now))
      && (status == Passed || status == Failed)
  {
    if RequiredConsent(action, sms).Some? {
      var kind := RequiredConsent(action, sms).value;
      ConsentRulePassesExactly(action, customer, rows, merchant, sms, now);
      NewestIsLatestCover(rows, customer, kind, merchant);
    }
  }

  lemma {:induction false} NewestIsLatestCover(rows: seq<Consent>, customer: nat, kind: ConsentType, merchant: Option<string>)
    ensures var newest := NewestMatching(rows, customer, kind, merchant);
      && (newest.None? ==> forall j :: 0 <= j < |rows| ==> !Covers(rows[j], customer, kind, merchant))
      && (newest.Some? ==> exists k :: 0 <= k < |rows| && IsLatestCover(rows, k, customer, kind, merchant) && rows[k] == newest.value)
      && (forall j, k :: 0 <= j < |rows| && 0 <= k < |rows| ==>
            IsLatestCover(rows, j, customer, kind, merchant) && IsLatestCover(rows, k, customer, kind, merchant) ==> j == k)
  {
    if rows != [] {
      var rest := rows[1..];
      var before := NewestMatching(rest, customer, kind, merchant);
      NewestIsLatestCover(rest, customer, kind, merchant);
      assert forall j :: 0 <= j < |rest| ==> rest[j] == rows[j + 1];
      if before.Some? {
        var k :| 0 <= k < |rest| && IsLatestCover(rest, k, customer, kind, merchant) && rest[k] == before.value;
        if NewestMatching(rows, customer, kind, merchant) == Some(rows[0]) && Covers(rows[0], customer, kind, merchant) && !GrantedBefore(rows[0], rest[k]) {
          assert IsLatestCover(rows, 0, customer, kind, merchant);
        } else {
          assert IsLatestCover(rows, k + 1, customer, kind, merchant);
        }
      } else if Covers(rows[0], customer, kind, merchant) {
        assert IsLatestCover(rows, 0, customer, kind, merchant);
      }
    }
  }

  /** The rule is asked about the customer's own consents only, which comes to the same. */
  lemma {:induction false} OwnConsentsSuffice(rows: seq<Consent>, customer: nat, kind: ConsentType, merchant: Option<string>)
    ensures NewestMatching(Filter(rows, (k: Consent) => k.customer == customer), customer, kind, merchant)
         == NewestMatching(rows, customer, kind, merchant)
  {
    if rows != [] {
      OwnConsentsSuffice(rows[1..], customer, kind, merchant);
      var p := (k: Consent) => k.customer == customer;
      if p(rows[0]) {
        assert Filter(rows, p)[1..] == Filter(rows[1..], p);
      }
    }
  }

  // ---------------------------------------------------------------------- retry

  const HOPELESS_CODES := {FraudSuspected, StolenCard, LostCard, AccountClosed, PickupCard, RestrictedCard}

  predicate CanSucceed(failure: Option<FailureCategory>) {
    failure.Some? ==> failure.value !in HOPELESS_CODES
  }

  /** No attempt used the key, succeeded or is still running. */
  predicate Unspent(attempts: seq<Attempt>, key: Option<Key>) {
    forall k :: 0 <= k < |attempts| ==>
      attempts[k].status !in {AttemptSucceeded, Started} && (key.Some? ==> attempts[k].key != key.value)
  }

  predicate InDoubt(attempts: seq<Attempt>) {
    exists k :: 0 <= k < |attempts| && attempts[k].status == Uncertain
  }

  function CountRetries(attempts: seq<Attempt>, cancelledToo: bool): nat {
    if attempts == [] then 0
    else
      (if attempts[0].action == RetryPayment && (cancelledToo || attempts[0].status != Cancelled) then 1 else 0)
      + CountRetries(attempts[1..], cancelledToo)
  }

  /** Since each retry that was not cancelled, by its end or else its start, a cooldown has passed. */
  predicate Rested(attempts: seq<Attempt>, config: PolicyConfig, now: int) {
    forall k :: 0 <= k < |attempts| && attempts[k].action == RetryPayment && attempts[k].status != Cancelled ==>
      var a := attempts[k];
      if a.finishedAt.Some? then now - a.finishedAt.value >= config.retryCooldownHours * 3600
      else a.startedAt.Some? ==> now - a.startedAt.value >= config.retryCooldownHours * 3600
  }

  /** What speaks against a retry outright; an attempt in doubt is for an operator instead. */
  predicate RetryBarred(attempts: seq<Attempt>, config: PolicyConfig, now: int, key: Option<Key>, failure: Option<FailureCategory>) {
    || !CanSucceed(failure) || !Unspent(attempts, key)
    || (!InDoubt(attempts) && (CountRetries(attempts, false) >= config.maxRetryAttempts || !Rested(attempts, config, now)))
  }

  /** The quota alone speaks against it. */
  predicate RetriesUsedUp(attempts: seq<Attempt>, config: PolicyConfig, key: Option<Key>) {
    Unspent(attempts, key) && !InDoubt(attempts) && CountRetries(attempts, false) >= config.maxRetryAttempts
  }

  /** The retry rule fails exactly a barred retry, asks for review of one whose earlier attempt is in
      doubt and passes everything else; two of its reasons are told apart as well. */
  lemma RetryExactly(action: ActionType, attempts: seq<Attempt>, config: PolicyConfig, now: int,
                     key: Option<Key>, failure: Option<FailureCategory>)
    ensures var check := RetryLimit(action, attempts, config, now, key, failure);
      && (check.status == Failed <==> action == RetryPayment && RetryBarred(attempts, config, now, key, failure))
      && (check.status == NeedsReview <==>
            action == RetryPayment && !RetryBarred(attempts, config, now, key, failure) && InDoubt(attempts))
      && check.status != MissingInfo
      && (check.status == Failed && EndsCase(check.reason) <==>
            action == RetryPayment && (!CanSucceed(failure) || RetriesUsedUp(attempts, config, key)))
  {
    RetriesAreFiltered(attempts);
    LatestTimeIsLatest(Filter(attempts, ConsumesQuota));
    RestedSinceLatest(attempts, config, now);
  }

  lemma RestedSinceLatest(attempts: seq<Attempt>, config: PolicyConfig, now: int)
    ensures var latest := LatestTime(Filter(attempts, ConsumesQuota));
      Rested(attempts, config, now) <==> latest.None? || now - latest.value >= config.retryCooldownHours * 3600
  {
    var consumed := Filter(attempts, ConsumesQuota);
    LatestTimeIsLatest(consumed);
    assert forall k :: 0 <= k < |attempts| ==> (attempts[k] in consumed <==> ConsumesQuota(attempts[k]));
    if Rested(attempts, config, now) && LatestTime(consumed).Some? {
      var a :| a in consumed && AttemptTime(a) == LatestTime(consumed);
      assert a in attempts;
    }
  }

  lemma {:induction false} RetriesAreFiltered(attempts: seq<Attempt>)
    ensures |Filter(attempts, ConsumesQuota)| == CountRetries(attempts, false)
    ensures |Filter(attempts, IsRetry)| == CountRetries(attempts, true)
  {
    if attempts != [] {
      RetriesAreFiltered(attempts[1..]);
    }
  }

  // ------------------------------------------------------------------- strategy

  /** An ended case takes no action but stopping, and a reminder needs an address and a failure that
      is the customer's. */
  predicate Suits(action: ActionType, failure: Option<FailureCategory>, state: CaseState, hasContact: bool) {
    && (state in {Recovered, Stopped, Closed} ==> action in {StopRecovery, NoAction})
    && (action == SendReminder ==> hasContact && failure !in {Some(ProviderTimeout), Some(NetworkError)})
  }

  lemma StrategyExactly(action: ActionType, failure: Option<FailureCategory>, state: CaseState, hasContact: bool)
    ensures Strategy(action, failure, state, hasContact).status == if Suits(action, failure, state, hasContact) then Passed else Failed
    ensures !EndsCase(Strategy(action, failure, state, hasContact).reason)
  {
  }

  // -------------------------------------------------------------------- reasons

  /** Which of several obstacles the eligibility rule names. */
  lemma EligibilityReasonExactly(c: Case, caseId: nat, rec: Recommendation, customer: Option<nat>, transaction: Option<nat>)
    ensures Eligibility(Some(c), caseId, Some(rec), customer, transaction).reason ==
              if customer !in {None, Some(c.customer)} then CustomerMismatch
              else if transaction !in {None, Some(c.trigger)} then TransactionMismatch
              else if rec.caseId != caseId then RecommendationMismatch
              else if rec.validation !in {NotValidated, Valid} || rec.version + 2 < c.version then RecommendationStale
              else if c.state == Recovered then CaseAlreadyRecovered
              else if c.state == Closed then CaseClosed
              else if c.state == Stopped then CaseCancelled
              else if c.state in {ActionPending, VerificationPending} then WorkflowAlreadyActive
              else if c.state in {ContextReady, Escalated} then CaseNotActionable
              else EligibilityPassed
  {
  }

  /** How the consent that counts stands. */
  function Standing(k: Consent, now: int): Reason {
    if k.grantedAt == None then ConsentInvalid
    else if k.revokedAt.Some? && k.revokedAt.value <= now then ConsentRevoked
    else if k.revokedAt == None && k.status == Revoked && k.grantedAt.value <= now then ConsentRevoked
    else if k.expiresAt.Some? && k.expiresAt.value <= now then ConsentExpired
    else if k.status != Granted then ConsentNotGranted
    else ConsentValid
  }

  lemma ConsentReasonExactly(rows: seq<Consent>, action: ActionType, customer: nat, merchant: Option<string>, sms: bool, now: int)
    ensures var reason := ConsentCheck(action, customer, rows, merchant, sms, now).reason;
      if action !in {RetryPayment, SendReminder} then reason == NoConsentRequired
      else
        var kind := if action == RetryPayment then RecurringBilling else if sms then SmsContact else EmailContact;
        if rows != [] && forall k :: 0 <= k < |rows| ==> rows[k].customer != customer then reason == ConsentCustomerMismatch
        else if forall k :: 0 <= k < |rows| ==> rows[k].customer != customer || rows[k].kind != kind then reason == ConsentMissing
        else if forall k :: 0 <= k < |rows| ==> !Covers(rows[k], customer, kind, merchant) then reason == ConsentMerchantMismatch
        else exists k :: 0 <= k < |rows| && IsLatestCover(rows, k, customer, kind, merchant) && reason == Standing(rows[k], now)
  {
    hide Filter, NewestFirst, NewestMatching, ScanConsents, Standing, IsLatestCover;
    if RequiredConsent(action, sms).Some? {
      var kind := RequiredConsent(action, sms).value;
      var p, q := (c: Consent) => c.customer == customer, (c: Consent) => c.kind == kind;
      var r := (c: Consent) => merchant.Some? ==> c.merchantId.None? || c.merchantId == merchant;
      var scoped := Filter(Filter(Filter(rows, p), q), r);
      FiltersAreEmpty(rows, customer, kind, merchant, p, q, r);
      if scoped != [] {
        NewestStands(rows, scoped, customer, kind, merchant, now, p, q, r);
      }
    }
  }

  lemma NewestStands(rows: seq<Consent>, scoped: seq<Consent>, customer: nat, kind: ConsentType, merchant: Option<string>, now: int,
                     p: Consent -> bool, q: Consent -> bool, r: Consent -> bool)
    requires forall c :: p(c) && q(c) && r(c) <==> Matches(c, customer, kind, merchant)
    requires scoped == Filter(Filter(Filter(rows, p), q), r) && scoped != []
    ensures exists k :: 0 <= k < |rows| && IsLatestCover(rows, k, customer, kind, merchant)
              && ScanConsents(NewestFirst(scoped), now).reason == Standing(rows[k], now)
  {
    hide Filter, NewestFirst, NewestMatching, ScanConsents, Standing, IsLatestCover, Matches;
    SortedHeadIsNewest(rows, p, q, r, customer, kind, merchant);
    NewestIsLatestCover(rows, customer, kind, merchant);
    SortingLosesNone(scoped);
    HeadStands(NewestFirst(scoped), now);
  }

  lemma SortingLosesNone(rows: seq<Consent>)
    requires rows != []
    ensures NewestFirst(rows) != []
  {
    assert InsertNewest(rows[0], NewestFirst(rows[1..])) != [];
  }

  lemma HeadStands(sorted: seq<Consent>, now: int)
    requires sorted != []
    ensures ScanConsents(sorted, now).reason == Standing(sorted[0], now)
  {
  }

  lemma FiltersAreEmpty(rows: seq<Consent>, customer: nat, kind: ConsentType, merchant: Option<string>,
                        p: Consent -> bool, q: Consent -> bool, r: Consent -> bool)
    requires forall c :: p(c) == (c.customer == customer) && q(c) == (c.kind == kind)
    requires forall c :: p(c) && q(c) && r(c) <==> Covers(c, customer, kind, merchant)
    ensures Filter(rows, p) == [] <==> forall k :: 0 <= k < |rows| ==> rows[k].customer != customer
    ensures Filter(Filter(rows, p), q) == [] <==> forall k :: 0 <= k < |rows| ==> rows[k].customer != customer || rows[k].kind != kind
    ensures Filter(Filter(Filter(rows, p), q), r) == [] <==> forall k :: 0 <= k < |rows| ==> !Covers(rows[k], customer, kind, merchant)
  {
    NoneIsFiltered(rows, p);
    NoneIsFiltered(Filter(rows, p), q);
    NoneIsFiltered(Filter(Filter(rows, p), q), r);
    assert forall k :: 0 <= k < |rows| ==> rows[k] in rows;
  }

  lemma NoneIsFiltered(rows: seq<Consent>, p: Consent -> bool)
    ensures Filter(rows, p) == [] <==> forall x :: x in rows ==> !p(x)
  {
    if Filter(rows, p) != [] {
      assert Filter(rows, p)[0] in Filter(rows, p);
    }
  }

  lemma RetryReasonExactly(attempts: seq<Attempt>, config: PolicyConfig, now: int, key: Option<Key>, failure: Option<FailureCategory>)
    ensures RetryLimit(RetryPayment, attempts, config, now, key, failure).reason ==
              if !CanSucceed(failure) then RetryNotSupported
              else if exists k :: 0 <= k < |attempts| && key == Some(attempts[k].key) then DuplicateRetryRequest
              else if exists k :: 0 <= k < |attempts| && attempts[k].status == AttemptSucceeded then PreviousAttemptSucceeded
              else if exists k :: 0 <= k < |attempts| && attempts[k].status == Started then RetryAlreadyInProgress
              else if InDoubt(attempts) then PreviousOutcomeUnknown
              else if CountRetries(attempts, false) >= config.maxRetryAttempts then RetryLimitExceeded
              else if !Rested(attempts, config, now) then RetryCooldownActive
              else RetryLimitOk
  {
    hide Filter, CountRetries, Rested, LatestTime, NonRetryable;
    RetriesAreFiltered(attempts);
    RestedSinceLatest(attempts, config, now);
    if failure.Some? {
      NonRetryableExactly(failure);
    }
    assert (exists k :: 0 <= k < |attempts| && key == Some(attempts[k].key)) <==>
           key.Some? && exists k :: 0 <= k < |attempts| && attempts[k].key == key.value;
  }

  lemma NonRetryableExactly(failure: Option<FailureCategory>)
    requires failure.Some?
    ensures NonRetryable(failure.value) <==> !CanSucceed(failure)
  {
  }

  lemma StrategyReasonExactly(action: ActionType, failure: Option<FailureCategory>, state: CaseState, hasContact: bool)
    ensures Strategy(action, failure, state, hasContact).reason ==
              if Suits(action, failure, state, hasContact) then StrategyValid
              else if state in {Recovered, Stopped, Closed} then StrategyCaseStateMismatch
              else if !hasContact then StrategyPrerequisiteMissing
              else StrategyFailureMismatch
  {
  }

  lemma EscalationReasonExactly(amountMinor: int, currency: string, config: PolicyConfig, confidence: Option<real>,
                                failure: Option<FailureCategory>, retriesExhausted: bool, uncertain: bool)
    ensures Escalation(amountMinor, currency, config, confidence, failure, retriesExhausted, uncertain).reason ==
              if failure.Some? && failure.value in FRAUD_CODES then FraudRestriction
              else if amountMinor >= ThresholdFor(config, currency) then HighValueReviewRequired
              else if retriesExhausted then RetryExhausted
              else if uncertain then PaymentOutcomeUncertain
              else if failure in {None, Some(UnknownFailure)} then UnknownFailureCategory
              else if confidence == None then ConfidenceMissing
              else if confidence.value < 0.6 then LowConfidence
              else NoEscalationRequired
  {
  }

  // -------------------------------------------------------------------- verdict

  /** What a request is about: the rows it names, and what they say of payment and customer. */
  datatype Matter = Matter(
    c: Case,
    rec: Recommendation,
    action: ActionType,
    amountMinor: int,
    currency: string,
    failure: Option<FailureCategory>,
    hasContact: bool,
    merchant: Option<string>)

  function MatterOf(db: Database, request: PolicyRequest): Matter
    requires request.caseId < |db.cases| && request.recommendation < |db.recommendations|
  {
    var c, rec := db.cases[request.caseId], db.recommendations[request.recommendation];
    var paid, known := c.trigger < |db.transactions|, c.customer < |db.customers|;
    Matter(c, rec,
           if request.action == None then rec.action else request.action.value,
           if paid then db.transactions[c.trigger].amountMinor else 0,
           if paid then db.transactions[c.trigger].currency else "INR",
           if paid then db.transactions[c.trigger].failure else None,
           known && db.customers[c.customer].hasEmail,
           if known then db.customers[c.customer].merchantId else None)
  }

  /** An empty key is no key. */
  function UsedKey(request: PolicyRequest): Option<Key> {
    if request.key == Some(Text("")) then None else request.key
  }

  /** Nothing bars the action. */
  predicate Permitted(db: Database, request: PolicyRequest, config: PolicyConfig, now: int)
    requires request.caseId < |db.cases| && request.recommendation < |db.recommendations|
  {
    var m := MatterOf(db, request);
    && MayProceed(m.c, request.caseId, m.rec)
    && HasConsent(db.consents, m.action, m.c.customer, m.merchant, request.sms, now)
    && (m.action == RetryPayment ==> !RetryBarred(m.c.attempts, config, now, UsedKey(request), m.failure))
    && Suits(m.action, m.failure, m.c.state, m.hasContact)
  }

  predicate Alarms(db: Database, request: PolicyRequest, config: PolicyConfig)
    requires request.caseId < |db.cases| && request.recommendation < |db.recommendations|
  {
    var m := MatterOf(db, request);
    Alarming(m.amountMinor, m.currency, config, m.failure,
             CountRetries(m.c.attempts, true) >= config.maxRetryAttempts, InDoubt(m.c.attempts))
  }

  lemma RulesExactly(db: Database, request: PolicyRequest, config: PolicyConfig, now: int)
    requires request.caseId < |db.cases| && request.recommendation < |db.recommendations|
    ensures var checks, m := RunRules(db, request, config, now), MatterOf(db, request);
      && (checks[0].status == Passed <==> MayProceed(m.c, request.caseId, m.rec)) && checks[0].status in {Passed, Failed}
      && (checks[1].status == Passed <==> HasConsent(db.consents, m.action, m.c.customer, m.merchant, request.sms, now))
      && checks[1].status in {Passed, Failed}
      && checks[2] == RetryLimit(m.action, m.c.attempts, config, now, UsedKey(request), m.failure)
      && checks[3].status == (if Suits(m.action, m.failure, m.c.state, m.hasContact) then Passed else Failed)
      && checks[4] == Escalation(m.amountMinor, m.currency, config, m.rec.confidence, m.failure,
                                 CountRetries(m.c.attempts, true) >= config.maxRetryAttempts, InDoubt(m.c.attempts))
      && !EndsCase(checks[3].reason)
  {
    hide Strategy, Escalation, RetryLimit, ConsentCheck, Eligibility;
    var m := MatterOf(db, request);
    var own := Filter(db.consents, (k: Consent) => k.customer == m.c.customer);
    EligibilityExactly(m.c, request.caseId, m.rec, Some(m.c.customer), Some(m.c.trigger));
    OwnConsentExactly(db.consents, m.action, m.c.customer, m.merchant, request.sms, now);
    StrategyExactly(m.action, m.failure, m.c.state, m.hasContact);
    RetriesAreFiltered(m.c.attempts);
    assert InDoubt(m.c.attempts) <==> exists k :: 0 <= k < |m.c.attempts| && IsUncertain(m.c.attempts[k]);
  }

  lemma OwnConsentExactly(rows: seq<Consent>, action: ActionType, customer: nat, merchant: Option<string>, sms: bool, now: int)
    ensures var status := ConsentCheck(action, customer, Filter(rows, (k: Consent) => k.customer == customer), merchant, sms, now).status;
      && (status == Passed <==> HasConsent(rows, action, customer, merchant, sms, now))
      && (status == Passed || status == Failed)
  {
    var own := Filter(rows, (k: Consent) => k.customer == customer);
    ConsentExactly(own, action, customer, merchant, sms, now);
    if RequiredConsent(action, sms).Some? {
      var kind := RequiredConsent(action, sms).value;
      OwnConsentsSuffice(rows, customer, kind, merchant);
      NewestIsLatestCover(rows, customer, kind, merchant);
      NewestIsLatestCover(own, customer, kind, merchant);
    }
  }

  /** The verdict on the rows: rejected exactly when something bars the action, then up to an operator
      exactly when something is alarming or the confidence low, short of information exactly when only
      the confidence is missing, and approved exactly when none of these holds. */
  lemma VerdictExactly(db: Database, request: PolicyRequest, config: PolicyConfig, now: int)
    requires Fresh(db, request)
    ensures var status, confidence := AfterEvaluation(db, request, config, now).1.status, MatterOf(db, request).rec.confidence;
      && (status == Rejected <==> !Permitted(db, request, config, now))
      && (status == RequiresReview <==>
            Permitted(db, request, config, now)
            && (Alarms(db, request, config) || (confidence.Some? && confidence.value < 0.6)))
      && (status == InsufficientInformation <==>
            Permitted(db, request, config, now) && !Alarms(db, request, config) && confidence.None?)
      && (status == Approved <==>
            Permitted(db, request, config, now) && !Alarms(db, request, config) && confidence.Some? && confidence.value >= 0.6)
  {
    hide RunRules, Aggregate, Escalation, RetryLimit;
    var m := MatterOf(db, request);
    var checks := RunRules(db, request, config, now);
    RulesExactly(db, request, config, now);
    RetryExactly(m.action, m.c.attempts, config, now, UsedKey(request), m.failure);
    EscalationExactly(m.amountMinor, m.currency, config, m.rec.confidence, m.failure,
                      CountRetries(m.c.attempts, true) >= config.maxRetryAttempts, InDoubt(m.c.attempts));
    AggregatePrecedence(checks);
    FiveStatuses(checks);
  }

  lemma FiveStatuses(checks: seq<RuleCheck>)
    requires |checks| == 5
    ensures forall status :: HasStatus(checks, status) <==>
              || checks[0].status == status || checks[1].status == status || checks[2].status == status
              || checks[3].status == status || checks[4].status == status
  {
  }

  // ------------------------------------------------------------ what it leaves

  lemma {:induction false} ReasonsAre(checks: seq<RuleCheck>, status: RuleStatus, r: Reason)
    ensures r in ReasonsOf(checks, status) <==> exists k :: 0 <= k < |checks| && checks[k].status == status && checks[k].reason == r
  {
    if checks != [] {
      ReasonsAre(checks[1..], status, r);
      assert forall k :: 0 <= k < |checks[1..]| ==> checks[1..][k] == checks[k + 1];
      assert forall k :: 0 < k < |checks| ==> checks[k] == checks[1..][k - 1];
    }
  }

  /** The reasons given are those of the rules that decided. */
  lemma ReasonsExactly(checks: seq<RuleCheck>, r: Reason)
    ensures var (verdict, reasons) := Aggregate(checks);
      r in reasons <==>
        match verdict
        case Approved => r == AllGuardrailsPassed
        case RequiresReview => exists k :: 0 <= k < |checks| && checks[k].status == NeedsReview && checks[k].reason == r
        case InsufficientInformation => exists k :: 0 <= k < |checks| && checks[k].status == MissingInfo && checks[k].reason == r
        case Rejected => exists k :: 0 <= k < |checks| && checks[k].status == Failed && checks[k].reason == r
  {
    ReasonsAre(checks, Failed, r);
    ReasonsAre(checks, MissingInfo, r);
    ReasonsAre(checks, NeedsReview, r);
  }

  /** A rejection of this kind ends the case. */
  predicate Hopeless(db: Database, request: PolicyRequest, config: PolicyConfig)
    requires request.caseId < |db.cases| && request.recommendation < |db.recommendations|
  {
    var m := MatterOf(db, request);
    && m.c.state !in {Recovered, Stopped, Closed} && m.action == RetryPayment
    && (!CanSucceed(m.failure) || RetriesUsedUp(m.c.attempts, config, UsedKey(request)))
  }

  /** Where each verdict leaves the case, the recommendation and the decision: approval makes the case
      ready for action, review hands it to an operator, a rejection stops an open case exactly when its
      payment can never succeed or its retries are used up, and nothing else moves it. */
  lemma VerdictLeavesExactly(db: Database, request: PolicyRequest, config: PolicyConfig, now: int)
    requires Fresh(db, request)
    ensures var (after, result) := AfterEvaluation(db, request, config, now);
      && |after.cases| == |db.cases| && after.cases == db.cases[request.caseId := after.cases[request.caseId]]
      && after.cases[request.caseId].state ==
           (if result.status == Approved then ActionPending
            else if result.status == RequiresReview then Escalated
            else if result.status == Rejected && Hopeless(db, request, config) then Stopped
            else db.cases[request.caseId].state)
      && OneNoteMore(db.cases[request.caseId].audits, after.cases[request.caseId].audits, PolicyEvaluated,
                     Some(db.cases[request.caseId].state), Some(after.cases[request.caseId].state))
      && after.recommendations == db.recommendations[request.recommendation := MatterOf(db, request).rec.(validation :=
           match result.status
           case Approved => Valid
           case Rejected => RejectedByPolicy
           case RequiresReview => NotValidated
           case InsufficientInformation => Invalid)]
      && |after.decisions| == |db.decisions| + 1 && after.decisions[..|db.decisions|] == db.decisions
      && var d := after.decisions[|db.decisions|];
      && d.caseId == request.caseId && d.recommendation == request.recommendation && d.action == MatterOf(db, request).action
      && d.status == result.status && d.reasons == result.reasons && d.checks == result.checks && d.key == request.key
      && d.caseVersion == db.cases[request.caseId].version
  {
    hide RunRules, Aggregate, RetryLimit, Judged;
    var m := MatterOf(db, request);
    var checks := RunRules(db, request, config, now);
    RulesExactly(db, request, config, now);
    RetryExactly(m.action, m.c.attempts, config, now, UsedKey(request), m.failure);
    VerdictPlacesCase(db, request, config, now);
    JudgedIsNoted(m.c, Target(AfterEvaluation(db, request, config, now).1.status, m.c.state, AfterEvaluation(db, request, config, now).1.reasons));
    if AfterEvaluation(db, request, config, now).1.status == Rejected {
      EndingReasons(db, request, config, now);
    }
  }

  lemma JudgedIsNoted(c: Case, target: Option<CaseState>)
    ensures OneNoteMore(c.audits, Judged(c, target).audits, PolicyEvaluated, Some(c.state), Some(Judged(c, target).state))
  {
    NoteIsOneMore(c, PolicyEvaluated, Some(c.state), Some(c.state));
    if target.Some? {
      MoveIsOneMore(c, target.value, PolicyEvaluated);
    }
  }

  lemma EndingReasons(db: Database, request: PolicyRequest, config: PolicyConfig, now: int)
    requires Fresh(db, request)
    requires AfterEvaluation(db, request, config, now).1.status == Rejected
    ensures var result, state := AfterEvaluation(db, request, config, now).1, db.cases[request.caseId].state;
      !Terminal(state) && (exists r :: r in result.reasons && EndsCase(r)) <==> Hopeless(db, request, config)
  {
    hide RunRules, RetryLimit, Judged, Aggregate, HasConsent, Suits, MayProceed, RetryBarred, Escalation;
    var m := MatterOf(db, request);
    RulesExactly(db, request, config, now);
    RetryExactly(m.action, m.c.attempts, config, now, UsedKey(request), m.failure);
    NoOtherRuleEnds(db, request, config, now);
    EndingRules(RunRules(db, request, config, now));
  }

  lemma EndingRules(checks: seq<RuleCheck>)
    requires |checks| == 5 && Aggregate(checks).0 == Rejected
    ensures (exists r :: r in Aggregate(checks).1 && EndsCase(r)) <==>
              || Ends(checks[0]) || Ends(checks[1]) || Ends(checks[2]) || Ends(checks[3]) || Ends(checks[4])
  {
    forall r ensures r in Aggregate(checks).1 <==> exists k :: 0 <= k < |checks| && checks[k].status == Failed && checks[k].reason == r {
      ReasonsExactly(checks, r);
    }
    if k :| 0 <= k < |checks| && Ends(checks[k]) {
      assert checks[k].reason in Aggregate(checks).1;
    }
  }

  predicate Ends(check: RuleCheck) {
    check.status == Failed && EndsCase(check.reason)
  }

  /** Eligibility ends no open case, and no rule but eligibility and the retry rule ends any. */
  lemma NoOtherRuleEnds(db: Database, request: PolicyRequest, config: PolicyConfig, now: int)
    requires request.caseId < |db.cases| && request.recommendation < |db.recommendations|
    ensures var checks := RunRules(db, request, config, now);
      && (EndsCase(checks[0].reason) && checks[0].status.Failed? ==> Terminal(db.cases[request.caseId].state))
      && !EndsCase(checks[1].reason) && !EndsCase(checks[3].reason) && !EndsCase(checks[4].reason)
  {
    hide Filter;
    var m := MatterOf(db, request);
    ConsentNeverEnds(m.action, m.c.customer, Filter(db.consents, (k: Consent) => k.customer == m.c.customer), m.merchant,
                     request.sms, now);
    StrategyExactly(m.action, m.failure, m.c.state, m.hasContact);
  }

  lemma ConsentNeverEnds(action: ActionType, customer: nat, rows: seq<Consent>, merchant: Option<string>, sms: bool, now: int)
    ensures !EndsCase(ConsentCheck(action, customer, rows, merchant, sms, now).reason)
  {
    hide Filter;
  }

  /** A request is answered from file exactly when it carries a key that is not empty and a decision
      on the case carries the same. */
  lemma ReplaysExactly(db: Database, request: PolicyRequest)
    ensures Replayed(db, request) <==>
              request.key.Some? && request.key.value != Text("")
              && exists k :: 0 <= k < |db.decisions| && db.decisions[k].caseId == request.caseId && db.decisions[k].key == request.key
  {
    if request.key.Some? && request.key.value != Text("") {
      assert forall k :: 0 <= k < |db.decisions| ==>
          IsKeyed(db.decisions[k], request.caseId, request.key.value)
          == (db.decisions[k].caseId == request.caseId && db.decisions[k].key == request.key);
    }
  }

  /** A new request whose case or recommendation is missing is short of information, for the case first,
      and changes nothing; every other new request is fresh. */
  lemma MissingRowsExactly(db: Database, request: PolicyRequest, config: PolicyConfig, now: int)
    requires !Replayed(db, request)
    ensures var (after, result) := AfterEvaluation(db, request, config, now);
      if request.caseId >= |db.cases| || request.recommendation >= |db.recommendations| then
        && after == db && result.status == InsufficientInformation
        && result.reasons == [if request.caseId >= |db.cases| then CaseNotFound else RecommendationMissing]
      else Fresh(db, request)
  {
  }
}
