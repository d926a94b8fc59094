/** The safety policy: a fail-closed verdict on one proposed action. */
module Safety {
  import opened Domain

  datatype SafetyConfig = SafetyConfig(maxRetryAttempts: int, allowedActions: set<ActionType>)

  const DEFAULT_CONFIG := SafetyConfig(2, {RetryPayment, SendReminder, OperatorReview, StopRecovery})

  datatype SafetyOutcome = Allow | Reject | StopCase | EscalateCase

  /** `key` is None when it is missing or empty. */
  datatype SafetyContext<K> = SafetyContext(
    state: CaseState,
    transaction: TransactionStatus,
    action: ActionType,
    retries: int,
    priorKeys: set<K>,
    key: Option<K>,
    uncertain: bool)

  function SafetyOf<K>(c: SafetyContext<K>, config: SafetyConfig): SafetyOutcome {
    if Terminal(c.state) then StopCase
    else if c.transaction.TxSucceeded? then StopCase
    else if c.action !in config.allowedActions then Reject
    else if c.action.RetryPayment? && !(c.state.AwaitingDecision? || c.state.RetryEligible?) then Reject
    else if c.action.RetryPayment? && c.retries >= config.maxRetryAttempts then EscalateCase
    else if c.action.RetryPayment? && c.uncertain then EscalateCase
    else if c.action.RetryPayment? && c.key.None? then Reject
    else if c.key.Some? && c.key.value in c.priorKeys then Reject
    else Allow
  }
}
