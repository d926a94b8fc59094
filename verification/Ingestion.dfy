/** Idempotent ingestion: validate, record the receipt under its unique (provider, event id),
    and hand the event to the case engine only when the receipt is new. */
module Ingestion {
  import opened Domain
  import opened Store
  import opened EventEngine

  const CLOCK_SKEW_SECONDS := 900

  /** One delivery of an event: when it arrived, and the priority computed for it then. */
  datatype Delivery = Delivery(event: Event, now: int, priority: int)

  datatype Receipt = Accepted(outcome: Outcome) | Duplicate

  function EventKey(e: Event): (string, string) {
    (e.provider, e.id)
  }

  function FingerprintOf(e: Event): Fingerprint {
    Fingerprint(e.kind, e.customerRef, e.paymentRef, e.subscriptionRef, e.invoiceRef, e.checkoutId,
                e.amountMinor, e.currency, e.failure, e.failureMessage, e.metadata)
  }

  predicate NoLowerCase(s: string) {
    forall k :: 0 <= k < |s| ==> !('a' <= s[k] <= 'z')
  }

  predicate ValidForKind(e: Event) {
    match e.kind
    case PaymentFailedEvent => Given(e.paymentRef) && e.failure.Some?
    case PaymentSucceededEvent => Given(e.paymentRef)
    case SubscriptionFailedEvent => (Given(e.subscriptionRef) || Given(e.paymentRef)) && e.failure.Some?
    case CheckoutAbandonedEvent => Given(e.checkoutId) || Tagged(e, "checkout_id")
    case InvoiceOverdueEvent => Given(e.invoiceRef) || Tagged(e, "invoice_id")
    case UnsupportedEvent(_) => false
  }

  predicate ValidEvent(e: Event, now: int) {
    && 0 < |e.id| <= 200
    && 0 < |e.provider| <= 64
    && 0 < |e.customerRef| <= 128
    && 0 <= e.amountMinor
    && |e.currency| == 3 && NoLowerCase(e.currency)
    && e.occurredAt <= now + CLOCK_SKEW_SECONDS
    && ValidForKind(e)
  }

  // ------------------------------------------------------------ specification

  function Received(db: Database, e: Event): Database {
    db.(ledger := db.ledger[EventKey(e) := LedgerRow(FingerprintOf(e), false)])
  }

  function MarkedProcessed(db: Database, key: (string, string)): Database
    requires key in db.ledger
  {
    db.(ledger := db.ledger[key := db.ledger[key].(processed := true)])
  }

  lemma EventKeepsLedger(db: Database, e: Event, priority: int)
    ensures AfterEvent(db, e, priority).0.ledger == db.ledger
  {
  }

  function AfterIngest(db: Database, d: Delivery): Result<(Database, Receipt), Error> {
    if !ValidEvent(d.event, d.now) then Raised(InvalidEvent)
    else if EventKey(d.event) in db.ledger then
      if db.ledger[EventKey(d.event)].fingerprint != FingerprintOf(d.event) then Raised(ConflictingEvent)
      else Ok((db, Duplicate))
    else
      var (worked, outcome) := AfterEvent(Received(db, d.event), d.event, d.priority);
      EventKeepsLedger(Received(db, d.event), d.event, d.priority);
      Ok((MarkedProcessed(worked, EventKey(d.event)), Accepted(outcome)))
  }

  /** The database after a delivery; a raised exception leaves it as it was. */
  function Ingest(db: Database, d: Delivery): Database {
    match AfterIngest(db, d)
    case Ok(r) => r.0
    case Raised(_) => db
  }

  function IngestAll(db: Database, stream: seq<Delivery>): Database
    decreases stream
  {
    if stream == [] then db else IngestAll(Ingest(db, stream[0]), stream[1..])
  }

  /** The valid deliveries of a stream whose key is neither in `seen` nor earlier in the stream. */
  function FirstDeliveries(stream: seq<Delivery>, seen: set<(string, string)>): seq<Delivery> {
    if stream == [] then []
    else
      var d := stream[0];
      if ValidEvent(d.event, d.now) && EventKey(d.event) !in seen then
        [d] + FirstDeliveries(stream[1..], seen + {EventKey(d.event)})
      else FirstDeliveries(stream[1..], seen)
  }

  // ------------------------------------------------------------------ service

  datatype RecordResult = RecordResult(accepted: bool, duplicate: bool, conflict: bool)

  class WebhookEventRepository {
    const session: Session

    constructor (session: Session)
      ensures this.session == session
    {
      this.session := session;
    }

    /** Looks the receipt up and inserts it only when it is absent. */
    method Record(e: Event) returns (r: RecordResult)
      modifies session`db
      ensures r.accepted == !r.duplicate == (EventKey(e) !in old(session.db).ledger)
      ensures r.conflict == (r.duplicate && old(session.db).ledger[EventKey(e)].fingerprint != FingerprintOf(e))
      ensures session.db == if r.accepted then Received(old(session.db), e) else old(session.db)
    {
      var key := EventKey(e);
      if key in session.db.ledger {
        var existing := session.db.ledger[key];
        if existing.fingerprint != FingerprintOf(e) {
          return RecordResult(false, true, true);
        }
        return RecordResult(false, true, false);
      }
      session.db := session.db.(ledger := session.db.ledger[key := LedgerRow(FingerprintOf(e), false)]);
      r := RecordResult(true, false, false);
    }

    method MarkProcessed(key: (string, string))
      requires key in session.db.ledger
      modifies session`db
      ensures session.db == MarkedProcessed(old(session.db), key)
    {
      var row := session.db.ledger[key];
      row := row.(processed := true);
      session.db := session.db.(ledger := session.db.ledger[key := row]);
    }
  }

  class EventService {
    const session: Session

    constructor (session: Session)
      ensures this.session == session
    {
      this.session := session;
    }

    method IngestCanonicalEvent(d: Delivery) returns (r: Result<Receipt, Error>)
      requires session.Clean()
      modifies session
      ensures session.Clean() && session.committed == Ingest(old(session.committed), d)
      ensures match AfterIngest(old(session.committed), d)
              case Ok(done) => r == Ok(done.1)
              case Raised(error) => r == Raised(error)
    {
      if !ValidEvent(d.event, d.now) {
        return Raised(InvalidEvent);
      }
      var repo := new WebhookEventRepository(session);
      var recorded := repo.Record(d.event);
      if recorded.conflict {
        session.Rollback();
        return Raised(ConflictingEvent);
      }
      if recorded.duplicate {
        session.Commit();
        return Ok(Duplicate);
      }
      var engine := new EventToCaseEngine(session);
      EventKeepsLedger(session.db, d.event, d.priority);
      var outcome := engine.ProcessEvent(d.event, d.priority);
      repo.MarkProcessed(EventKey(d.event));
      session.Commit();
      r := Ok(Accepted(outcome));
    }
  }

  // ------------------------------------------------------- what a delivery comes to

  /** What the kind of an event asks of its references and its failure. */
  predicate Complete(e: Event) {
    && (e.kind in {PaymentFailedEvent, PaymentSucceededEvent} ==> Present(e.paymentRef))
    && (e.kind == SubscriptionFailedEvent ==> Present(e.subscriptionRef) || Present(e.paymentRef))
    && (e.kind in {PaymentFailedEvent, SubscriptionFailedEvent} ==> e.failure != None)
    && (e.kind == CheckoutAbandonedEvent ==> Present(e.checkoutId) || Labelled(e, "checkout_id"))
    && (e.kind == InvoiceOverdueEvent ==> Present(e.invoiceRef) || Labelled(e, "invoice_id"))
    && !e.kind.UnsupportedEvent?
  }

  predicate Present(ref: Option<string>) {
    ref.Some? && |ref.value| > 0
  }

  predicate Labelled(e: Event, tag: string) {
    tag in e.metadata.Keys && e.metadata[tag] != ""
  }

  /** Lengths, amount and currency are in bounds, the event is at most a quarter of an hour ahead of
      the clock, and it has what its kind asks for. */
  predicate Acceptable(e: Event, now: int) {
    && 1 <= |e.id| <= 200 && 1 <= |e.provider| <= 64 && 1 <= |e.customerRef| <= 128
    && e.amountMinor >= 0 && |e.currency| == 3 && (forall c <- e.currency :: c < 'a' || c > 'z')
    && e.occurredAt - now <= 15 * 60 && Complete(e)
  }

  /** The payload, without the time it is about. */
  predicate SamePayload(f: Fingerprint, e: Event) {
    && f.kind == e.kind && f.customerRef == e.customerRef && f.paymentRef == e.paymentRef
    && f.subscriptionRef == e.subscriptionRef && f.invoiceRef == e.invoiceRef && f.checkoutId == e.checkoutId
    && f.amountMinor == e.amountMinor && f.currency == e.currency && f.failure == e.failure
    && f.failureMessage == e.failureMessage && f.metadata == e.metadata
  }

  /** A delivery is refused exactly when it is not acceptable, conflicts exactly when the receipt on
      file under its provider and id has another payload, is a duplicate exactly when it has the same,
      and is accepted exactly when there is no receipt. */
  lemma DeliveryExactly(db: Database, d: Delivery)
    ensures var e, r := d.event, AfterIngest(db, d);
      var known := (e.provider, e.id) in db.ledger.Keys;
      && (r == Raised(InvalidEvent) <==> !Acceptable(e, d.now))
      && (r == Raised(ConflictingEvent) <==>
            Acceptable(e, d.now) && known && !SamePayload(db.ledger[(e.provider, e.id)].fingerprint, e))
      && (r == Ok((db, Duplicate)) <==>
            Acceptable(e, d.now) && known && SamePayload(db.ledger[(e.provider, e.id)].fingerprint, e))
      && (r.Ok? && r.value.1.Accepted? <==> Acceptable(e, d.now) && !known)
  {
    hide ValidEvent, Acceptable, AfterEvent, FingerprintOf, SamePayload;
    AcceptableExactly(d.event, d.now);
    if EventKey(d.event) in db.ledger {
      SamePayloadExactly(db.ledger[EventKey(d.event)].fingerprint, d.event);
    }
  }

  lemma AcceptableExactly(e: Event, now: int)
    ensures ValidEvent(e, now) <==> Acceptable(e, now)
  {
    assert forall k :: 0 <= k < |e.currency| ==> e.currency[k] in e.currency;
  }

  lemma SamePayloadExactly(f: Fingerprint, e: Event)
    ensures f == FingerprintOf(e) <==> SamePayload(f, e)
  {
  }

  /** After an accepted delivery, another valid one under its provider and id conflicts exactly when
      one of the eleven fields of the payload differs, whenever either happened. */
  lemma RedeliveryConflictsExactly(db: Database, first: Delivery, again: Delivery)
    requires AfterIngest(db, first).Ok? && AfterIngest(db, first).value.1.Accepted?
    requires again.event.provider == first.event.provider && again.event.id == first.event.id
    requires Acceptable(again.event, again.now)
    ensures var e, f, r := first.event, again.event, AfterIngest(Ingest(db, first), again);
      && (r == Raised(ConflictingEvent) <==>
            || f.kind != e.kind || f.customerRef != e.customerRef || f.paymentRef != e.paymentRef
            || f.subscriptionRef != e.subscriptionRef || f.invoiceRef != e.invoiceRef || f.checkoutId != e.checkoutId
            || f.amountMinor != e.amountMinor || f.currency != e.currency || f.failure != e.failure
            || f.failureMessage != e.failureMessage || f.metadata != e.metadata)
      && (r != Raised(ConflictingEvent) ==> r == Ok((Ingest(db, first), Duplicate)))
  {
    hide AfterEvent;
    DeliveryExactly(db, first);
    DeliveryExactly(Ingest(db, first), again);
    IngestRecords(db, first);
  }

  // --------------------------------------------------------------- properties

  /** A valid delivery is on the ledger, processed, once it did not raise. */
  lemma IngestRecords(db: Database, d: Delivery)
    requires ValidEvent(d.event, d.now)
    ensures Ingest(db, d).ledger.Keys == db.ledger.Keys + {EventKey(d.event)}
    ensures EventKey(d.event) !in db.ledger ==>
              Ingest(db, d).ledger[EventKey(d.event)] == LedgerRow(FingerprintOf(d.event), true)
    ensures forall k :: k in db.ledger ==> Ingest(db, d).ledger[k] == db.ledger[k]
  {
    EventKeepsLedger(Received(db, d.event), d.event, d.priority);
  }

  /** A repeat changes nothing, whether its payload agrees with the receipt or conflicts. */
  lemma RepeatChangesNothing(db: Database, d: Delivery)
    requires EventKey(d.event) in db.ledger
    ensures Ingest(db, d) == db
  {
  }

  /** Every stream, with repeats, conflicting repeats and invalid events in any position,
      leaves the database its first valid deliveries leave. */
  lemma {:induction false} StreamEqualsItsFirstDeliveries(db: Database, stream: seq<Delivery>)
    ensures IngestAll(db, stream) == IngestAll(db, FirstDeliveries(stream, db.ledger.Keys))
    decreases stream
  {
    if stream != [] {
      var d := stream[0];
      var firsts := FirstDeliveries(stream, db.ledger.Keys);
      var next := Ingest(db, d);
      StreamEqualsItsFirstDeliveries(next, stream[1..]);
      if ValidEvent(d.event, d.now) && EventKey(d.event) !in db.ledger {
        IngestRecords(db, d);
        assert firsts[0] == d && firsts[1..] == FirstDeliveries(stream[1..], next.ledger.Keys);
      }
    }
  }

  predicate KeysOutside(stream: seq<Delivery>, seen: set<(string, string)>) {
    forall d :: d in stream ==> EventKey(d.event) !in seen
  }

  predicate KeysDistinct(stream: seq<Delivery>) {
    stream == [] || (KeysOutside(stream[1..], {EventKey(stream[0].event)}) && KeysDistinct(stream[1..]))
  }

  /** The reduced stream is part of the stream, holds each key once and only new keys. */
  lemma {:induction false} FirstDeliveriesAreDistinct(stream: seq<Delivery>, seen: set<(string, string)>)
    ensures forall d :: d in FirstDeliveries(stream, seen) ==> d in stream
    ensures KeysOutside(FirstDeliveries(stream, seen), seen)
    ensures KeysDistinct(FirstDeliveries(stream, seen))
  {
    if stream != [] {
      var d := stream[0];
      if ValidEvent(d.event, d.now) && EventKey(d.event) !in seen {
        var rest := FirstDeliveries(stream[1..], seen + {EventKey(d.event)});
        FirstDeliveriesAreDistinct(stream[1..], seen + {EventKey(d.event)});
        assert FirstDeliveries(stream, seen)[1..] == rest;
      } else {
        FirstDeliveriesAreDistinct(stream[1..], seen);
      }
    }
  }

  lemma {:induction false} StreamRecords(db: Database, stream: seq<Delivery>)
    ensures db.ledger.Keys <= IngestAll(db, stream).ledger.Keys
    ensures forall d :: d in stream && ValidEvent(d.event, d.now) ==> EventKey(d.event) in IngestAll(db, stream).ledger
    decreases stream
  {
    if stream != [] {
      if ValidEvent(stream[0].event, stream[0].now) {
        IngestRecords(db, stream[0]);
      }
      StreamRecords(Ingest(db, stream[0]), stream[1..]);
    }
  }

  lemma {:induction false} RepeatsChangeNothing(db: Database, stream: seq<Delivery>)
    requires forall d :: d in stream && ValidEvent(d.event, d.now) ==> EventKey(d.event) in db.ledger
    ensures IngestAll(db, stream) == db
    decreases stream
  {
    if stream != [] {
      assert stream[0] in stream;
      RepeatsChangeNothing(db, stream[1..]);
    }
  }

  /** Ingesting a stream twice over is ingesting it once. */
  lemma ReplayedStreamChangesNothing(db: Database, stream: seq<Delivery>)
    ensures IngestAll(IngestAll(db, stream), stream) == IngestAll(db, stream)
  {
    StreamRecords(db, stream);
    RepeatsChangeNothing(IngestAll(db, stream), stream);
  }
}
