/** Which problem an event is about and what it comes to, said on the fields of events and rows. */
module EventLaws {
  import opened Domain
  import opened CaseLog
  import opened Store
  import opened EventEngine

  // ------------------------------------------------------------------ case keys

  predicate Has(ref: Option<string>) {
    ref.Some? && ref.value != ""
  }

  predicate HasTag(e: Event, tag: string) {
    tag in e.metadata.Keys && e.metadata[tag] != ""
  }

  datatype Family = Subscription | Invoice | Checkout | Payment | Lone

  /** The first reference an event gives, in this order, tells the family of its problem. */
  function FamilyOf(e: Event): Family {
    if Has(e.subscriptionRef) then Subscription
    else if Has(e.invoiceRef) then Invoice
    else if Has(e.checkoutId) then Checkout
    else if Has(e.paymentRef) then Payment
    else Lone
  }

  /** The billing period the metadata names, or else the month of the event. */
  function PeriodOf(e: Event): string {
    if HasTag(e, "billing_period") then e.metadata["billing_period"] else e.occurredMonth
  }

  /** What tells problems of one family apart; two of the parts are joined by a dash. */
  function MarkOf(e: Event): string {
    match FamilyOf(e)
    case Subscription => e.subscriptionRef.value + "-" + PeriodOf(e)
    case Invoice => e.invoiceRef.value
    case Checkout => e.checkoutId.value
    case Payment => e.provider + "-" + e.paymentRef.value
    case Lone => e.provider + "-" + e.id
  }

  function Prefix(f: Family): string {
    match f
    case Subscription => "CASE-SUB-"
    case Invoice => "CASE-INV-"
    case Checkout => "CASE-CHK-"
    case Payment => "CASE-TX-"
    case Lone => "CASE-EVT-"
  }

  lemma KeyHasParts(e: Event)
    ensures DeriveCaseKey(e) == Prefix(FamilyOf(e)) + MarkOf(e)
  {
    match FamilyOf(e) {
      case Subscription => assert "CASE-SUB-" + e.subscriptionRef.value + "-" + PeriodOf(e) == "CASE-SUB-" + (e.subscriptionRef.value + "-" + PeriodOf(e));
      case Invoice =>
      case Checkout =>
      case Payment => assert "CASE-TX-" + e.provider + "-" + e.paymentRef.value == "CASE-TX-" + (e.provider + "-" + e.paymentRef.value);
      case Lone => assert "CASE-EVT-" + e.provider + "-" + e.id == "CASE-EVT-" + (e.provider + "-" + e.id);
    }
  }

  lemma PrefixesDiffer(f: Family, g: Family, s: string, t: string)
    requires Prefix(f) + s == Prefix(g) + t
    ensures f == g && s == t
  {
    assert (Prefix(f) + s)[5] == Prefix(f)[5] && (Prefix(g) + t)[5] == Prefix(g)[5];
    assert (Prefix(f) + s)[|Prefix(f)|..] == s && (Prefix(g) + t)[|Prefix(g)|..] == t;
  }

  /** Two events get one key exactly when they are of one family and their marks agree. */
  lemma SameKeyExactly(a: Event, b: Event)
    ensures DeriveCaseKey(a) == DeriveCaseKey(b) <==> FamilyOf(a) == FamilyOf(b) && MarkOf(a) == MarkOf(b)
  {
    KeyHasParts(a);
    KeyHasParts(b);
    if DeriveCaseKey(a) == DeriveCaseKey(b) {
      PrefixesDiffer(FamilyOf(a), FamilyOf(b), MarkOf(a), MarkOf(b));
    }
  }

  predicate NoDash(s: string) {
    forall k :: 0 <= k < |s| ==> s[k] != '-'
  }

  /** With one subscription the period alone decides; with periods that hold no dash, subscription
      and period do. */
  lemma SameSubscriptionExactly(a: Event, b: Event)
    requires Has(a.subscriptionRef) && Has(b.subscriptionRef)
    ensures a.subscriptionRef == b.subscriptionRef ==> (DeriveCaseKey(a) == DeriveCaseKey(b) <==> PeriodOf(a) == PeriodOf(b))
    ensures NoDash(PeriodOf(a)) && NoDash(PeriodOf(b)) ==>
              (DeriveCaseKey(a) == DeriveCaseKey(b) <==> a.subscriptionRef == b.subscriptionRef && PeriodOf(a) == PeriodOf(b))
  {
    SameKeyExactly(a, b);
    var s, t, p, q := a.subscriptionRef.value, b.subscriptionRef.value, PeriodOf(a), PeriodOf(b);
    if s + "-" + p == t + "-" + q {
      if s == t {
        assert (s + "-" + p)[|s| + 1..] == p && (t + "-" + q)[|t| + 1..] == q;
      }
      if NoDash(p) && NoDash(q) {
        LastDashSplits(s, p, t, q);
      }
    }
  }

  lemma LastDashSplits(s: string, p: string, t: string, q: string)
    requires s + "-" + p == t + "-" + q && NoDash(p) && NoDash(q)
    ensures s == t && p == q
  {
    var whole := s + "-" + p;
    assert whole[|s|] == '-' && whole[|t|] == '-' by {
      assert (s + "-" + p)[|s|] == '-' && (t + "-" + q)[|t|] == '-';
    }
    assert forall k :: |s| < k < |whole| ==> whole[k] == p[k - |s| - 1];
    assert forall k :: |t| < k < |whole| ==> whole[k] == q[k - |t| - 1];
    assert |s| == |t|;
    assert whole[..|s|] == s && (t + "-" + q)[..|t|] == t;
    assert whole[|s| + 1..] == p && (t + "-" + q)[|t| + 1..] == q;
  }

  lemma FirstDashSplits(s: string, p: string, t: string, q: string)
    requires s + "-" + p == t + "-" + q && NoDash(s) && NoDash(t)
    ensures s == t && p == q
  {
    var whole := s + "-" + p;
    assert whole[|s|] == '-' && whole[|t|] == '-' by {
      assert (s + "-" + p)[|s|] == '-' && (t + "-" + q)[|t|] == '-';
    }
    assert forall k :: 0 <= k < |s| ==> whole[k] == s[k];
    assert forall k :: 0 <= k < |t| ==> whole[k] == t[k];
    assert |s| == |t|;
    assert whole[..|s|] == s && (t + "-" + q)[..|t|] == t;
    assert whole[|s| + 1..] == p && (t + "-" + q)[|t| + 1..] == q;
  }

  /** Problems known by one payment or one event alone are told apart by provider and reference, when
      the providers' names hold no dash. */
  lemma SameProviderExactly(a: Event, b: Event)
    requires FamilyOf(a) == FamilyOf(b) && FamilyOf(a) in {Payment, Lone} && NoDash(a.provider) && NoDash(b.provider)
    ensures DeriveCaseKey(a) == DeriveCaseKey(b) <==>
              a.provider == b.provider && (if FamilyOf(a) == Payment then a.paymentRef == b.paymentRef else a.id == b.id)
  {
    SameKeyExactly(a, b);
    var p := if FamilyOf(a) == Payment then a.paymentRef.value else a.id;
    var q := if FamilyOf(b) == Payment then b.paymentRef.value else b.id;
    if a.provider + "-" + p == b.provider + "-" + q {
      FirstDashSplits(a.provider, p, b.provider, q);
    }
  }

  /** The dash is what the exact condition has to allow for: subscription "a-1" in period "2" and
      subscription "a" in period "1-2" are one problem to the engine. */
  lemma DashesCollide(a: Event, b: Event)
    requires a.subscriptionRef == Some("a-1") && PeriodOf(a) == "2"
    requires b.subscriptionRef == Some("a") && PeriodOf(b) == "1-2"
    ensures DeriveCaseKey(a) == DeriveCaseKey(b)
  {
    SameKeyExactly(a, b);
    assert "a-1" + "-" + "2" == "a-1-2" == "a" + "-" + "1-2";
  }

  // ------------------------------------------------------- customer and payment

  const FAILURES := {PaymentFailedEvent, SubscriptionFailedEvent, CheckoutAbandonedEvent, InvoiceOverdueEvent}

  /** The reference of the payment an event is about. */
  function PaymentOf(e: Event): string {
    if Has(e.paymentRef) then e.paymentRef.value
    else if Has(e.invoiceRef) then e.invoiceRef.value
    else if Has(e.checkoutId) then e.checkoutId.value
    else "tx_" + e.id
  }

  /** The customer row of the event: the first on file under its provider and reference, or else the
      next row. */
  predicate IsCustomerAt(db: Database, e: Event, at: nat) {
    && at <= |db.customers|
    && (forall j :: 0 <= j < at ==> !(db.customers[j].provider == e.provider && db.customers[j].externalId == e.customerRef))
    && (at < |db.customers| ==> db.customers[at].provider == e.provider && db.customers[at].externalId == e.customerRef)
  }

  predicate IsPaymentAt(db: Database, e: Event, at: nat) {
    && at <= |db.transactions|
    && (forall j :: 0 <= j < at ==> !(db.transactions[j].provider == e.provider && db.transactions[j].externalId == PaymentOf(e)))
    && (at < |db.transactions| ==> db.transactions[at].provider == e.provider && db.transactions[at].externalId == PaymentOf(e))
  }

  lemma ProvisionExactly(db: Database, e: Event) returns (customer: nat, payment: nat)
    ensures IsCustomerAt(db, e, customer) && IsPaymentAt(db, e, payment)
    ensures Provision(db, e).1 == customer && Provision(db, e).2 == payment
    ensures Provision(db, e).0 == db.(
              customers := db.customers + (if customer < |db.customers| then [] else [
                Customer(e.provider, e.customerRef, HasTag(e, "customer_email") || HasTag(e, "email"),
                         if "merchant_id" in e.metadata.Keys then Some(e.metadata["merchant_id"]) else None)]),
              transactions := db.transactions + (if payment < |db.transactions| then [] else [
                Transaction(customer, e.provider, PaymentOf(e), e.amountMinor, e.currency,
                            if e.kind == PaymentSucceededEvent then TxSucceeded else TxFailed, e.failure)]))
  {
    customer := Provision(db, e).1;
    payment := Provision(db, e).2;
    assert forall c: Customer :: IsCustomer(c, e.provider, e.customerRef) <==> c.provider == e.provider && c.externalId == e.customerRef;
    assert forall t: Transaction :: IsTransaction(t, e.provider, PaymentOf(e)) <==> t.provider == e.provider && t.externalId == PaymentOf(e);
    assert db.customers + [] == db.customers && db.transactions + [] == db.transactions;
  }

  // -------------------------------------------------------------------- outcome

  /** The case an event belongs to: the first under its key, or, with none, the first its payment
      triggered. */
  predicate BelongsTo(db: Database, e: Event, payment: nat, id: nat) {
    && id < |db.cases|
    && if exists j :: 0 <= j < |db.cases| && db.cases[j].key == DeriveCaseKey(e) then
         db.cases[id].key == DeriveCaseKey(e) && forall j :: 0 <= j < id ==> db.cases[j].key != DeriveCaseKey(e)
       else db.cases[id].trigger == payment && forall j :: 0 <= j < id ==> db.cases[j].trigger != payment
  }

  predicate IsOpen(c: Case) {
    c.state !in {Recovered, Stopped, Closed}
  }

  predicate Paid(db: Database, c: Case) {
    c.trigger < |db.transactions| && db.transactions[c.trigger].status == TxSucceeded
  }

  lemma MatchExactly(db: Database, e: Event, payment: nat)
    ensures var found := MatchCase(db, DeriveCaseKey(e), payment);
      && (found.Some? ==> BelongsTo(db, e, payment, found.value))
      && (found.None? ==> forall id :: !BelongsTo(db, e, payment, id))
      && forall i, j :: BelongsTo(db, e, payment, i) && BelongsTo(db, e, payment, j) ==> i == j
  {
    var byKey := FindFirst(db.cases, (c: Case) => c.key == DeriveCaseKey(e));
    var byTrigger := FindFirst(db.cases, (c: Case) => c.trigger == payment);
  }

  /** What becomes of the case an event belongs to. */
  predicate CaseBecomes(db: Database, e: Event, priority: int, id: nat, after: Database, outcome: Outcome)
    requires id < |db.cases| && id < |after.cases|
  {
    var c, d := db.cases[id], after.cases[id];
    if !IsOpen(c) then outcome == Ignored && d == c
    else if e.kind == PaymentSucceededEvent then
      && outcome == CaseResolved(id)
      && d == c.(state := Recovered, version := c.version + 1, transitions := d.transitions, audits := d.audits)
      && OneMoveMore(c.transitions, d.transitions, c.state, Recovered)
      && OneNoteMore(c.audits, d.audits, CaseRecovered, Some(c.state), Some(Recovered))
    else if Paid(db, c) then outcome == Ignored && d == c
    else
      && outcome == CaseReported(id)
      && d == c.(failureCount := Some((if c.failureCount.Some? then c.failureCount.value else 1) + 1),
                 priority := priority, version := c.version + 1, audits := d.audits)
      && OneNoteMore(c.audits, d.audits, CaseUpdated, Some(c.state), Some(c.state))
  }

  /** What an event of these kinds comes to, given the rows it finds. */
  predicate Becomes(db: Database, e: Event, priority: int, customer: nat, payment: nat, found: Option<nat>,
                    after: Database, outcome: Outcome) {
    match found
    case None =>
      if e.kind == PaymentSucceededEvent then outcome == Ignored && after.cases == db.cases
      else
        && outcome == CaseCreated(|db.cases|)
        && after.cases == db.cases + [
             Case(customer, payment, DeriveCaseKey(e), Detected, priority, 1, Some(1), [],
                  [TransitionRow(1, None, Detected)], [AuditRow(1, CaseOpened, None, Some(Detected))])]
    case Some(id) =>
      && id < |db.cases| && |after.cases| == |db.cases| && after.cases == db.cases[id := after.cases[id]]
      && CaseBecomes(db, e, priority, id, after, outcome)
  }

  /** The transactions an event leaves: those provisioned, and its payment succeeded if it resolved. */
  predicate PaymentBecomes(db: Database, e: Event, payment: nat, after: Database, outcome: Outcome) {
    var ready := Provision(db, e).0;
    payment < |ready.transactions| &&
    after.transactions ==
      if outcome.CaseResolved? then ready.transactions[payment := ready.transactions[payment].(status := TxSucceeded)]
      else ready.transactions
  }

  /** What an event comes to, and the rows it leaves, decided by its kind, the case it belongs to,
      whether that case is open and whether its payment has succeeded. */
  lemma OutcomeExactly(db: Database, e: Event, priority: int) returns (customer: nat, payment: nat, found: Option<nat>)
    requires e.kind in FAILURES || e.kind == PaymentSucceededEvent
    ensures IsCustomerAt(db, e, customer) && IsPaymentAt(db, e, payment)
    ensures if found.Some? then BelongsTo(db, e, payment, found.value) else forall id :: !BelongsTo(db, e, payment, id)
    ensures Becomes(db, e, priority, customer, payment, found, AfterEvent(db, e, priority).0, AfterEvent(db, e, priority).1)
    ensures PaymentBecomes(db, e, payment, AfterEvent(db, e, priority).0, AfterEvent(db, e, priority).1)
  {
    customer, payment := ProvisionExactly(db, e);
    MatchExactly(db, e, payment);
    found := MatchCase(db, DeriveCaseKey(e), payment);
    FoundOnReady(db, e, payment);
    if found.Some? {
      MatchedBecomes(db, e, priority, payment, found.value);
    } else {
      UnmatchedBecomes(db, e, priority, customer, payment);
    }
  }

  lemma FoundOnReady(db: Database, e: Event, payment: nat)
    ensures MatchCase(Provision(db, e).0, DeriveCaseKey(e), payment) == MatchCase(db, DeriveCaseKey(e), payment)
  {
    hide DeriveCaseKey;
    assert Provision(db, e).0.cases == db.cases;
  }

  lemma MatchedBecomes(db: Database, e: Event, priority: int, payment: nat, id: nat)
    requires e.kind in FAILURES || e.kind == PaymentSucceededEvent
    requires IsPaymentAt(db, e, payment) && Provision(db, e).2 == payment
    requires MatchCase(Provision(db, e).0, DeriveCaseKey(e), payment) == Some(id) && id < |db.cases|
    ensures Becomes(db, e, priority, 0, payment, Some(id), AfterEvent(db, e, priority).0, AfterEvent(db, e, priority).1)
    ensures PaymentBecomes(db, e, payment, AfterEvent(db, e, priority).0, AfterEvent(db, e, priority).1)
  {
    hide DeriveCaseKey, MatchCase, Provision;
    var c := db.cases[id];
    PaidAfterwards(db, e, c, payment);
    MoveIsOneMore(c, Recovered, CaseRecovered);
    NoteIsOneMore(c.(failureCount := Some(FailureCount(c) + 1), priority := priority, version := c.version + 1), CaseUpdated,
                  Some(c.state), Some(c.state));
  }

  lemma UnmatchedBecomes(db: Database, e: Event, priority: int, customer: nat, payment: nat)
    requires e.kind in FAILURES || e.kind == PaymentSucceededEvent
    requires Provision(db, e).1 == customer && Provision(db, e).2 == payment
    requires MatchCase(Provision(db, e).0, DeriveCaseKey(e), payment).None?
    ensures Becomes(db, e, priority, customer, payment, None, AfterEvent(db, e, priority).0, AfterEvent(db, e, priority).1)
    ensures PaymentBecomes(db, e, payment, AfterEvent(db, e, priority).0, AfterEvent(db, e, priority).1)
  {
    hide DeriveCaseKey, Provision;
  }

  /** Provisioning makes no payment of a case a succeeded one unless a success event names it. */
  lemma PaidAfterwards(db: Database, e: Event, c: Case, payment: nat)
    requires IsPaymentAt(db, e, payment)
    ensures e.kind != PaymentSucceededEvent ==> (TriggerHas(Provision(db, e).0, c, TxSucceeded) <==> Paid(db, c))
  {
    var customer, paid := ProvisionExactly(db, e);
  }

  lemma OthersAreIgnored(db: Database, e: Event, priority: int)
    requires e.kind !in FAILURES && e.kind != PaymentSucceededEvent
    ensures AfterEvent(db, e, priority) == (db, Ignored)
  {
  }

  // -------------------------------------------------------- subscription periods

  /** Once a failure of a subscription has opened a case: another failure of it in the same period is
      reported on that case, unless its payment has succeeded meanwhile; one in a different period, for
      a payment and under a key no earlier case is about, opens a case of its own. */
  lemma PeriodsAreProblems(db: Database, a: Event, b: Event, p: int, q: int, paymentOfB: nat)
    requires a.kind == b.kind == SubscriptionFailedEvent && Has(a.subscriptionRef) && b.subscriptionRef == a.subscriptionRef
    requires AfterEvent(db, a, p).1.CaseCreated?
    requires IsPaymentAt(AfterEvent(db, a, p).0, b, paymentOfB)
    ensures var (first, i) := (AfterEvent(db, a, p).0, |db.cases|);
      && AfterEvent(db, a, p).1 == CaseCreated(i) && |first.cases| == i + 1
      && (PeriodOf(b) == PeriodOf(a) ==>
            AfterEvent(first, b, q).1 == if Paid(first, first.cases[i]) then Ignored else CaseReported(i))
      && (PeriodOf(b) != PeriodOf(a) && (b.provider, PaymentOf(b)) != (a.provider, PaymentOf(a))
          && (forall j :: 0 <= j < i ==> db.cases[j].key != DeriveCaseKey(b) && db.cases[j].trigger != paymentOfB) ==>
            AfterEvent(first, b, q).1 == CaseCreated(i + 1))
  {
    hide AfterEvent, DeriveCaseKey, Provision, PeriodOf;
    var first, i := AfterEvent(db, a, p).0, |db.cases|;
    var customerA, paymentA, foundA := OutcomeExactly(db, a, p);
    var customerB, paymentB, foundB := OutcomeExactly(first, b, q);
    SameSubscriptionExactly(a, b);
    assert foundA.None? && paymentB == paymentOfB;
    if PeriodOf(b) == PeriodOf(a) {
      NewCaseHasNewKey(db, a, p);
      assert BelongsTo(first, b, paymentB, i);
      OnlyOne(first, b, paymentB, i);
    } else if (b.provider, PaymentOf(b)) != (a.provider, PaymentOf(a)) {
      PaymentIsNamed(db, a, p, paymentA);
    }
  }

  lemma OnlyOne(db: Database, e: Event, payment: nat, id: nat)
    requires BelongsTo(db, e, payment, id)
    ensures forall j :: BelongsTo(db, e, payment, j) ==> j == id
  {
  }

  lemma NewCaseHasNewKey(db: Database, e: Event, priority: int)
    requires AfterEvent(db, e, priority).1.CaseCreated?
    ensures forall j :: 0 <= j < |db.cases| ==> db.cases[j].key != DeriveCaseKey(e)
  {
    OutcomeMeans(db, e, priority);
  }

  lemma PaymentIsNamed(db: Database, e: Event, priority: int, payment: nat)
    requires e.kind in FAILURES && IsPaymentAt(db, e, payment) && !AfterEvent(db, e, priority).1.CaseResolved?
    ensures var after := AfterEvent(db, e, priority).0;
      payment < |after.transactions| && after.transactions[payment].provider == e.provider
      && after.transactions[payment].externalId == PaymentOf(e)
  {
    var customer, at, found := OutcomeExactly(db, e, priority);
    var customer', at' := ProvisionExactly(db, e);
  }
}
