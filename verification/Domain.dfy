/** The recovery domain: enumerations and rows shared by every service. */
module Domain {

  datatype Option<+T> = None | Some(value: T)

  datatype Result<+T, +E> = Ok(value: T) | Raised(error: E)

  /** The exceptions a service call can end with. */
  datatype Error =
    | NotFound
    | AlreadyExists
    | InvalidEvent
    | ConflictingEvent
    | InvalidTransition
    | AuditNumberTaken
    | NotApproved
    | NotActionable
    | WorkflowActive
    | WorkflowFinished

  datatype CaseState =
    | Detected
    | ContextReady
    | AwaitingDecision
    | ActionPending
    | VerificationPending
    | Recovered
    | RetryEligible
    | Escalated
    | Stopped
    | Closed

  datatype TransactionStatus =
    | TxCreated
    | TxAuthorized
    | TxSucceeded
    | TxFailed
    | TxPending
    | TxCancelled
    | TxRefunded
    | TxUnknown

  datatype ActionType = NoAction | RetryPayment | SendReminder | OperatorReview | StopRecovery

  datatype AttemptStatus = Planned | Started | AttemptSucceeded | AttemptFailed | Uncertain | Cancelled

  datatype ValidationStatus = NotValidated | Valid | Invalid | RejectedByPolicy

  datatype ConsentType = RecurringBilling | EmailContact | SmsContact

  datatype ConsentStatus = Granted | Revoked | Expired

  datatype DecisionStatus = Approved | Rejected | RequiresReview | InsufficientInformation

  datatype WorkflowStatus =
    | WfCreated
    | WfPending
    | WfScheduled
    | WfRunning
    | WfWaiting
    | WfCompleted
    | WfFailed
    | WfCancelled
    | WfExpired
    | WfRequiresReview

  datatype StepKind =
    | ValidateAuthorization
    | WaitCooldown
    | DispatchPaymentRetry
    | DispatchCommunication
    | CreateSupportTask
    | AwaitVerification

  datatype StepStatus =
    | StPending
    | StScheduled
    | StRunning
    | StWaiting
    | StCompleted
    | StFailed
    | StCancelled
    | StSkipped

  datatype ExecutionStatus =
    | ExSubmitted
    | ExSucceeded
    | ExFailed
    | ExPending
    | ExUnknown
    | ExCancelled

  /** Failure codes after normalisation; the ones no rule names are `OtherFailure`. */
  datatype FailureCategory =
    | FraudSuspected
    | StolenCard
    | LostCard
    | AccountClosed
    | PickupCard
    | RestrictedCard
    | SecurityViolation
    | UnknownFailure
    | ProviderTimeout
    | NetworkError
    | OtherFailure(name: string)

  /** Idempotency keys; the two derived forms are injective in case and number. */
  datatype Key =
    | Text(text: string)
    | RetryKey(caseId: nat, number: nat)
    | PlanKey(caseId: nat, number: nat)

  datatype Customer = Customer(
    provider: string,
    externalId: string,
    hasEmail: bool,
    merchantId: Option<string>)

  datatype Transaction = Transaction(
    customer: nat,
    provider: string,
    externalId: string,
    amountMinor: int,
    currency: string,
    status: TransactionStatus,
    failure: Option<FailureCategory>)

  datatype Consent = Consent(
    customer: nat,
    kind: ConsentType,
    status: ConsentStatus,
    merchantId: Option<string>,
    grantedAt: Option<int>,
    revokedAt: Option<int>,
    expiresAt: Option<int>)

  datatype Attempt = Attempt(
    number: nat,
    status: AttemptStatus,
    action: ActionType,
    startedAt: Option<int>,
    finishedAt: Option<int>,
    key: Key)

  datatype TransitionRow = TransitionRow(number: nat, from: Option<CaseState>, to: CaseState)

  datatype AuditKind =
    | CaseOpened
    | CaseUpdated
    | CaseRecovered
    | StateTransition
    | Lifecycle
    | RecommendationGenerated
    | PolicyEvaluated
    | PaymentReconciled

  datatype AuditRow = AuditRow(
    number: nat,
    kind: AuditKind,
    from: Option<CaseState>,
    to: Option<CaseState>)

  datatype Case = Case(
    customer: nat,
    trigger: nat,
    key: string,
    state: CaseState,
    priority: int,
    version: int,
    failureCount: Option<int>,
    attempts: seq<Attempt>,
    transitions: seq<TransitionRow>,
    audits: seq<AuditRow>)

  datatype Recommendation = Recommendation(
    caseId: nat,
    version: int,
    action: ActionType,
    confidence: Option<real>,
    validation: ValidationStatus)

  datatype RuleName = DataRule | EligibilityRule | ConsentRule | RetryRule | StrategyRule | EscalationRule

  datatype RuleStatus = Passed | Failed | NeedsReview | MissingInfo

  datatype Reason =
    | AllGuardrailsPassed
    | CaseNotFound | RecommendationMissing | CustomerMismatch | TransactionMismatch
    | RecommendationMismatch | RecommendationStale
    | CaseAlreadyRecovered | CaseClosed | CaseCancelled
    | WorkflowAlreadyActive | CaseNotActionable | EligibilityPassed
    | NoConsentRequired | ConsentCustomerMismatch | ConsentMissing | ConsentMerchantMismatch
    | ConsentInvalid | ConsentRevoked | ConsentExpired | ConsentNotGranted | ConsentValid
    | NotARetryAction | RetryNotSupported | DuplicateRetryRequest | PreviousAttemptSucceeded
    | RetryAlreadyInProgress | PreviousOutcomeUnknown | RetryLimitExceeded | RetryCooldownActive
    | RetryLimitOk
    | StrategyCaseStateMismatch | StrategyPrerequisiteMissing | StrategyFailureMismatch | StrategyValid
    | FraudRestriction | HighValueReviewRequired | RetryExhausted | PaymentEventConflict
    | PaymentOutcomeUncertain | UnknownFailureCategory | ConfidenceMissing | LowConfidence
    | NoEscalationRequired

  datatype RuleCheck = RuleCheck(rule: RuleName, status: RuleStatus, reason: Reason)

  datatype PolicyDecision = PolicyDecision(
    caseId: nat,
    recommendation: nat,
    action: ActionType,
    status: DecisionStatus,
    checks: seq<RuleCheck>,
    reasons: seq<Reason>,
    key: Option<Key>,
    caseVersion: int)

  datatype WorkflowStep = WorkflowStep(kind: StepKind, action: ActionType, status: StepStatus)

  datatype Workflow = Workflow(caseId: nat, decision: nat, status: WorkflowStatus, steps: seq<WorkflowStep>)

  datatype Execution = Execution(
    workflow: nat,
    step: nat,
    caseId: nat,
    status: ExecutionStatus,
    reference: Option<string>,
    executedAt: int)

  predicate Terminal(s: CaseState) {
    s.Recovered? || s.Stopped? || s.Closed?
  }
}
