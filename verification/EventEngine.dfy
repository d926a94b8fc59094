/** Turns canonical revenue-risk events into recovery cases: provisions the customer and the
    transaction, matches a case, then opens, updates or resolves it. */
module EventEngine {
  import opened Domain
  import opened CaseLog
  import opened Store

  datatype Event = Event(
    id: string,
    kind: EventKind,
    provider: string,
    occurredAt: int,
    customerRef: string,
    paymentRef: Option<string>,
    subscriptionRef: Option<string>,
    invoiceRef: Option<string>,
    checkoutId: Option<string>,
    occurredMonth: string,
    amountMinor: int,
    currency: string,
    failure: Option<FailureCategory>,
    failureMessage: Option<string>,
    metadata: map<string, string>)

  datatype Outcome = CaseCreated(caseId: nat) | CaseReported(caseId: nat) | CaseResolved(caseId: nat) | Ignored

  /** A reference counts as given when it is present and not empty. */
  predicate Given(ref: Option<string>) {
    ref.Some? && ref.value != ""
  }

  predicate Tagged(e: Event, tag: string) {
    tag in e.metadata && e.metadata[tag] != ""
  }

  function BillingPeriod(e: Event): string {
    if Tagged(e, "billing_period") then e.metadata["billing_period"] else e.occurredMonth
  }

  function DeriveCaseKey(e: Event): string {
    if Given(e.subscriptionRef) then "CASE-SUB-" + e.subscriptionRef.value + "-" + BillingPeriod(e)
    else if Given(e.invoiceRef) then "CASE-INV-" + e.invoiceRef.value
    else if Given(e.checkoutId) then "CASE-CHK-" + e.checkoutId.value
    else if Given(e.paymentRef) then "CASE-TX-" + e.provider + "-" + e.paymentRef.value
    else "CASE-EVT-" + e.provider + "-" + e.id
  }

  function TransactionRef(e: Event): string {
    if Given(e.paymentRef) then e.paymentRef.value
    else if Given(e.invoiceRef) then e.invoiceRef.value
    else if Given(e.checkoutId) then e.checkoutId.value
    else "tx_" + e.id
  }

  predicate Creates(e: Event) {
    e.kind.PaymentFailedEvent? || e.kind.SubscriptionFailedEvent? ||
    e.kind.CheckoutAbandonedEvent? || e.kind.InvoiceOverdueEvent?
  }

  predicate Resolves(e: Event) {
    e.kind.PaymentSucceededEvent?
  }

  // -------------------------------------------------------------- row changes

  function Resolved(c: Case): Case {
    MoveLogged(c, Recovered, CaseRecovered)
  }

  function FailureCount(c: Case): int {
    if c.failureCount.Some? then c.failureCount.value else 1
  }

  function Refailed(c: Case, priority: int): Case {
    RecordAudit(c.(failureCount := Some(FailureCount(c) + 1), priority := priority, version := c.version + 1),
                CaseUpdated, Some(c.state), Some(c.state))
  }

  function NewCase(customer: nat, trigger: nat, key: string, priority: int): Case {
    Case(customer, trigger, key, Detected, priority, 1, Some(1), [],
         [TransitionRow(1, None, Detected)],
         [AuditRow(1, CaseOpened, None, Some(Detected))])
  }

  function NewCustomer(e: Event): Customer {
    Customer(e.provider, e.customerRef,
             Tagged(e, "customer_email") || Tagged(e, "email"),
             if "merchant_id" in e.metadata then Some(e.metadata["merchant_id"]) else None)
  }

  // ------------------------------------------------------------ specification

  /** The tables the engine never writes. */
  predicate EngineFrame(a: Database, b: Database) {
    && b.ledger == a.ledger && b.consents == a.consents
    && b.recommendations == a.recommendations && b.decisions == a.decisions
    && b.workflows == a.workflows && b.executions == a.executions
  }

  function WithCustomer(db: Database, e: Event): (Database, nat) {
    match FindCustomer(db, e.provider, e.customerRef)
    case Some(id) => (db, id)
    case None =>
      (db.(customers := db.customers + [NewCustomer(e)]), |db.customers|)
  }

  function WithTransaction(db: Database, e: Event, customer: nat): (Database, nat) {
    match FindTransaction(db, e.provider, TransactionRef(e))
    case Some(id) => (db, id)
    case None =>
      var t := Transaction(customer, e.provider, TransactionRef(e), e.amountMinor, e.currency,
                           if Resolves(e) then TxSucceeded else TxFailed, e.failure);
      (db.(transactions := db.transactions + [t]), |db.transactions|)
  }

  /** The case an event belongs to: by key first, then by its transaction. */
  function MatchCase(db: Database, key: string, transaction: nat): (r: Option<nat>)
    ensures r.Some? ==> r.value < |db.cases|
    ensures r.Some? ==> db.cases[r.value].key == key || db.cases[r.value].trigger == transaction
    ensures r.None? <==> forall j :: 0 <= j < |db.cases| ==> db.cases[j].key != key && db.cases[j].trigger != transaction
  {
    var byKey := FindCaseByKey(db, key);
    if byKey.Some? then byKey else FindCaseByTrigger(db, transaction)
  }

  function AfterSuccess(db: Database, existing: Option<nat>, transaction: nat): (Database, Outcome)
    requires existing.Some? ==> existing.value < |db.cases|
    requires transaction < |db.transactions|
    ensures EngineFrame(db, AfterSuccess(db, existing, transaction).0)
  {
    if existing.None? || Terminal(db.cases[existing.value].state) then (db, Ignored)
    else
      (SetCase(SetTransactionStatus(db, transaction, TxSucceeded), existing.value, Resolved(db.cases[existing.value])),
       CaseResolved(existing.value))
  }

  function AfterFailure(db: Database, id: nat, priority: int): (Database, Outcome)
    requires id < |db.cases|
    ensures EngineFrame(db, AfterFailure(db, id, priority).0)
  {
    var c := db.cases[id];
    if Terminal(c.state) || TriggerHas(db, c, TxSucceeded) then (db, Ignored)
    else (SetCase(db, id, Refailed(c, priority)), CaseReported(id))
  }

  /** Opening a case; a concurrent winner of the key constraint turns it into an update. */
  function AfterCreation(db: Database, customer: nat, transaction: nat, key: string, priority: int): (Database, Outcome)
    ensures EngineFrame(db, AfterCreation(db, customer, transaction, key, priority).0)
  {
    match FindCaseByKey(db, key)
    case Some(id) => AfterFailure(db, id, priority)
    case None =>
      (db.(cases := db.cases + [NewCase(customer, transaction, key, priority)]), CaseCreated(|db.cases|))
  }

  /** Everything before the case itself: the customer row, then the transaction row. */
  function Provision(db: Database, e: Event): (r: (Database, nat, nat))
    ensures r.1 < |r.0.customers| && r.2 < |r.0.transactions|
    ensures r.0.cases == db.cases && EngineFrame(db, r.0)
  {
    var (db1, customer) := WithCustomer(db, e);
    var (db2, transaction) := WithTransaction(db1, e, customer);
    (db2, customer, transaction)
  }

  function AfterEvent(db: Database, e: Event, priority: int): (Database, Outcome) {
    if !(Creates(e) || Resolves(e)) then (db, Ignored)
    else
      var (ready, customer, transaction) := Provision(db, e);
      var existing := MatchCase(ready, DeriveCaseKey(e), transaction);
      if Resolves(e) then AfterSuccess(ready, existing, transaction)
      else if existing.Some? then AfterFailure(ready, existing.value, priority)
      else AfterCreation(ready, customer, transaction, DeriveCaseKey(e), priority)
  }

  // -------------------------------------------------------- what outcomes mean

  /** The event's payment is on file with this status. */
  predicate PaymentIs(db: Database, e: Event, status: TransactionStatus) {
    exists k :: 0 <= k < |db.transactions|
      && IsTransaction(db.transactions[k], e.provider, TransactionRef(e)) && db.transactions[k].status == status
  }

  /** The case is about the event: it carries its key, or its payment is the trigger. */
  predicate IsAbout(db: Database, c: Case, e: Event) {
    c.key == DeriveCaseKey(e)
    || (c.trigger < |db.transactions| && IsTransaction(db.transactions[c.trigger], e.provider, TransactionRef(e)))
  }

  lemma ProvisionMeans(db: Database, e: Event)
    ensures var (ready, customer, transaction) := Provision(db, e);
      && IsCustomer(ready.customers[customer], e.provider, e.customerRef)
      && IsTransaction(ready.transactions[transaction], e.provider, TransactionRef(e))
  {
  }

  /** What each outcome says about the cases: a created case is new under the event's key and for
      its payment, a reported one is open, about the event and counted once more, a resolved one
      was open and is recovered with the payment succeeded, and an ignored event changes none. */
  lemma OutcomeMeans(db: Database, e: Event, priority: int)
    ensures var (after, outcome) := AfterEvent(db, e, priority);
      match outcome
      case CaseCreated(id) =>
        && Creates(e) && id == |db.cases| && after.cases[..id] == db.cases && |after.cases| == id + 1
        && (forall j :: 0 <= j < id ==> db.cases[j].key != DeriveCaseKey(e))
        && var c := after.cases[id];
        && c.key == DeriveCaseKey(e) && c.state.Detected? && FailureCount(c) == 1
        && c.customer < |after.customers| && IsCustomer(after.customers[c.customer], e.provider, e.customerRef)
        && c.trigger < |after.transactions| && IsTransaction(after.transactions[c.trigger], e.provider, TransactionRef(e))
      case CaseReported(id) =>
        && Creates(e) && id < |db.cases| && !Terminal(db.cases[id].state) && IsAbout(after, db.cases[id], e)
        && |after.cases| == |db.cases| && after.cases == db.cases[id := after.cases[id]]
        && after.cases[id].state == db.cases[id].state && after.cases[id].priority == priority
        && FailureCount(after.cases[id]) == FailureCount(db.cases[id]) + 1
      case CaseResolved(id) =>
        && Resolves(e) && id < |db.cases| && !Terminal(db.cases[id].state) && IsAbout(after, db.cases[id], e)
        && |after.cases| == |db.cases| && after.cases == db.cases[id := after.cases[id]]
        && after.cases[id].state.Recovered? && PaymentIs(after, e, TxSucceeded)
      case Ignored => after.cases == db.cases
  {
    if Creates(e) || Resolves(e) {
      var (ready, customer, transaction) := Provision(db, e);
      var existing := MatchCase(ready, DeriveCaseKey(e), transaction);
      ProvisionMeans(db, e);
      if Resolves(e) {
        SuccessMeans(ready, existing, transaction, e);
      } else if existing.Some? {
        FailureMeans(ready, existing.value, priority);
      } else {
        assert FindCaseByKey(ready, DeriveCaseKey(e)).None?;
      }
    }
  }

  lemma SuccessMeans(db: Database, existing: Option<nat>, transaction: nat, e: Event)
    requires existing.Some? ==> existing.value < |db.cases|
    requires transaction < |db.transactions| && IsTransaction(db.transactions[transaction], e.provider, TransactionRef(e))
    ensures var (after, outcome) := AfterSuccess(db, existing, transaction);
      match outcome
      case CaseResolved(id) =>
        && existing == Some(id) && !Terminal(db.cases[id].state)
        && |after.cases| == |db.cases| && after.cases == db.cases[id := after.cases[id]]
        && after.cases[id].state.Recovered? && PaymentIs(after, e, TxSucceeded)
        && |after.transactions| == |db.transactions|
        && forall k :: 0 <= k < |db.transactions| ==>
             after.transactions[k] == db.transactions[k].(status := after.transactions[k].status)
      case Ignored => after == db
      case _ => false
  {
    var (after, outcome) := AfterSuccess(db, existing, transaction);
    if outcome.CaseResolved? {
      assert IsTransaction(after.transactions[transaction], e.provider, TransactionRef(e));
    }
  }

  lemma FailureMeans(db: Database, id: nat, priority: int)
    requires id < |db.cases|
    ensures var (after, outcome) := AfterFailure(db, id, priority);
      match outcome
      case CaseReported(found) =>
        && found == id && !Terminal(db.cases[id].state)
        && after == SetCase(db, id, after.cases[id]) && |after.cases| == |db.cases|
        && after.cases[id].state == db.cases[id].state && after.cases[id].priority == priority
        && FailureCount(after.cases[id]) == FailureCount(db.cases[id]) + 1
      case Ignored => after == db
      case _ => false
  {
  }

  // ------------------------------------------------------------------- engine

  class EventToCaseEngine {
    const session: Session

    constructor (session: Session)
      ensures this.session == session
    {
      this.session := session;
    }

    method GetOrCreateCustomer(e: Event) returns (customer: nat)
      modifies session`db
      ensures (session.db, customer) == WithCustomer(old(session.db), e)
    {
      var found := FindCustomer(session.db, e.provider, e.customerRef);
      if found.Some? {
        return found.value;
      }
      customer := |session.db.customers|;
      session.db := session.db.(customers := session.db.customers + [NewCustomer(e)]);
    }

    method GetOrCreateTransaction(e: Event, customer: nat) returns (transaction: nat)
      modifies session`db
      ensures (session.db, transaction) == WithTransaction(old(session.db), e, customer)
    {
      var ref := TransactionRef(e);
      var found := FindTransaction(session.db, e.provider, ref);
      if found.Some? {
        return found.value;
      }
      var status := TxFailed;
      if Resolves(e) {
        status := TxSucceeded;
      }
      transaction := |session.db.transactions|;
      var row := Transaction(customer, e.provider, ref, e.amountMinor, e.currency, status, e.failure);
      session.db := session.db.(transactions := session.db.transactions + [row]);
    }

    method HandlePaymentSucceeded(existing: Option<nat>, transaction: nat) returns (outcome: Outcome)
      requires existing.Some? ==> existing.value < |session.db.cases|
      requires transaction < |session.db.transactions|
      modifies session`db
      ensures (session.db, outcome) == AfterSuccess(old(session.db), existing, transaction)
    {
      if existing.None? {
        return Ignored;
      }
      var c := session.db.cases[existing.value];
      if Terminal(c.state) {
        return Ignored;
      }
      var from := c.state;
      c := c.(state := Recovered, version := c.version + 1);
      session.db := SetTransactionStatus(session.db, transaction, TxSucceeded);
      c := LogTransition(c, Some(from), Recovered);
      c := RecordAudit(c, CaseRecovered, Some(from), Some(Recovered));
      session.db := SetCase(session.db, existing.value, c);
      outcome := CaseResolved(existing.value);
    }

    method HandleExistingCaseUpdate(id: nat, priority: int) returns (outcome: Outcome)
      requires id < |session.db.cases|
      modifies session`db
      ensures (session.db, outcome) == AfterFailure(old(session.db), id, priority)
    {
      var c := session.db.cases[id];
      if Terminal(c.state) || TriggerHas(session.db, c, TxSucceeded) {
        return Ignored;
      }
      var failures := FailureCount(c) + 1;
      c := c.(failureCount := Some(failures));
      c := c.(priority := priority);
      c := c.(version := c.version + 1);
      c := RecordAudit(c, CaseUpdated, Some(c.state), Some(c.state));
      session.db := SetCase(session.db, id, c);
      outcome := CaseReported(id);
    }

    method CreateNewCase(customer: nat, transaction: nat, key: string, priority: int) returns (outcome: Outcome)
      modifies session`db
      ensures (session.db, outcome) == AfterCreation(old(session.db), customer, transaction, key, priority)
    {
      var winner := FindCaseByKey(session.db, key);
      if winner.Some? {
        outcome := HandleExistingCaseUpdate(winner.value, priority);
        return;
      }
      var c := Case(customer, transaction, key, Detected, priority, 1, Some(1), [], [], []);
      c := c.(transitions := c.transitions + [TransitionRow(1, None, Detected)]);
      c := RecordAudit(c, CaseOpened, None, Some(Detected));
      assert c == NewCase(customer, transaction, key, priority);
      outcome := CaseCreated(|session.db.cases|);
      session.db := session.db.(cases := session.db.cases + [c]);
    }

    method ProcessEvent(e: Event, priority: int) returns (outcome: Outcome)
      modifies session`db
      ensures (session.db, outcome) == AfterEvent(old(session.db), e, priority)
    {
      if !(Creates(e) || Resolves(e)) {
        return Ignored;
      }
      var customer := GetOrCreateCustomer(e);
      var transaction := GetOrCreateTransaction(e, customer);
      var key := DeriveCaseKey(e);
      var existing := MatchCase(session.db, key, transaction);
      if Resolves(e) {
        outcome := HandlePaymentSucceeded(existing, transaction);
      } else if existing.Some? {
        outcome := HandleExistingCaseUpdate(existing.value, priority);
      } else {
        outcome := CreateNewCase(customer, transaction, key, priority);
      }
    }
  }
}
