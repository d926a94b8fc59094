/** The relational store: its tables, the queries the repositories run, and the session
    that commits or rolls back. Row ids are positions; rows are never deleted. */
module Store {
  import opened Domain

  datatype LedgerRow = LedgerRow(fingerprint: Fingerprint, processed: bool)

  /** The normalised payload a receipt is fingerprinted by; the event time is not part of it. */
  datatype Fingerprint = Fingerprint(
    kind: EventKind,
    customerRef: string,
    paymentRef: Option<string>,
    subscriptionRef: Option<string>,
    invoiceRef: Option<string>,
    checkoutId: Option<string>,
    amountMinor: int,
    currency: string,
    failure: Option<FailureCategory>,
    failureMessage: Option<string>,
    metadata: map<string, string>)

  datatype EventKind =
    | PaymentFailedEvent
    | PaymentSucceededEvent
    | SubscriptionFailedEvent
    | CheckoutAbandonedEvent
    | InvoiceOverdueEvent
    | UnsupportedEvent(name: string)

  datatype Database = Database(
    ledger: map<(string, string), LedgerRow>,
    customers: seq<Customer>,
    transactions: seq<Transaction>,
    consents: seq<Consent>,
    cases: seq<Case>,
    recommendations: seq<Recommendation>,
    decisions: seq<PolicyDecision>,
    workflows: seq<Workflow>,
    executions: seq<Execution>)

  const EMPTY := Database(map[], [], [], [], [], [], [], [], [])

  // ------------------------------------------------------------------ queries

  function FindFirst<T>(rows: seq<T>, p: T -> bool): (r: Option<nat>)
    ensures r.Some? ==> r.value < |rows| && p(rows[r.value])
    ensures r.Some? ==> forall j :: 0 <= j < r.value ==> !p(rows[j])
    ensures r.None? ==> forall j :: 0 <= j < |rows| ==> !p(rows[j])
  {
    FindFrom(rows, p, 0)
  }

  function FindFrom<T>(rows: seq<T>, p: T -> bool, from: nat): (r: Option<nat>)
    requires from <= |rows|
    ensures r.Some? ==> from <= r.value < |rows| && p(rows[r.value])
    ensures r.Some? ==> forall j :: from <= j < r.value ==> !p(rows[j])
    ensures r.None? ==> forall j :: from <= j < |rows| ==> !p(rows[j])
    decreases |rows| - from
  {
    if from == |rows| then None
    else if p(rows[from]) then Some(from)
    else FindFrom(rows, p, from + 1)
  }

  function FindCustomer(db: Database, provider: string, externalId: string): (r: Option<nat>)
    ensures r.Some? ==> r.value < |db.customers| && IsCustomer(db.customers[r.value], provider, externalId)
    ensures r.None? ==> forall j :: 0 <= j < |db.customers| ==> !IsCustomer(db.customers[j], provider, externalId)
  {
    FindFirst(db.customers, (c: Customer) => IsCustomer(c, provider, externalId))
  }

  predicate IsCustomer(c: Customer, provider: string, externalId: string) {
    c.provider == provider && c.externalId == externalId
  }

  function FindTransaction(db: Database, provider: string, externalId: string): (r: Option<nat>)
    ensures r.Some? ==> r.value < |db.transactions| && IsTransaction(db.transactions[r.value], provider, externalId)
    ensures r.None? ==> forall j :: 0 <= j < |db.transactions| ==> !IsTransaction(db.transactions[j], provider, externalId)
  {
    FindFirst(db.transactions, (t: Transaction) => IsTransaction(t, provider, externalId))
  }

  predicate IsTransaction(t: Transaction, provider: string, externalId: string) {
    t.provider == provider && t.externalId == externalId
  }

  function FindCaseByKey(db: Database, key: string): (r: Option<nat>)
    ensures r.Some? ==> r.value < |db.cases| && db.cases[r.value].key == key
    ensures r.None? ==> forall j :: 0 <= j < |db.cases| ==> db.cases[j].key != key
  {
    FindFirst(db.cases, (c: Case) => c.key == key)
  }

  function FindCaseByTrigger(db: Database, transaction: nat): (r: Option<nat>)
    ensures r.Some? ==> r.value < |db.cases| && db.cases[r.value].trigger == transaction
    ensures r.None? ==> forall j :: 0 <= j < |db.cases| ==> db.cases[j].trigger != transaction
  {
    FindFirst(db.cases, (c: Case) => c.trigger == transaction)
  }

  predicate TriggerHas(db: Database, c: Case, status: TransactionStatus) {
    c.trigger < |db.transactions| && db.transactions[c.trigger].status == status
  }

  function SetCase(db: Database, id: nat, c: Case): Database
    requires id < |db.cases|
  {
    db.(cases := db.cases[id := c])
  }

  function SetTransactionStatus(db: Database, id: nat, status: TransactionStatus): Database
    requires id < |db.transactions|
  {
    db.(transactions := db.transactions[id := db.transactions[id].(status := status)])
  }

  // ------------------------------------------------------------------ session

  /** A unit of work: `db` is what queries see, `committed` is what survives. */
  class Session {
    var db: Database
    var committed: Database

    constructor (stored: Database)
      ensures db == committed == stored
    {
      db := stored;
      committed := stored;
    }

    predicate Clean()
      reads this
    {
      db == committed
    }

    method Commit()
      modifies this
      ensures Clean() && committed == old(db)
    {
      committed := db;
    }

    method Rollback()
      modifies this
      ensures Clean() && committed == old(committed)
    {
      db := committed;
    }
  }
}
