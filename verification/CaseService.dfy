/** The operator's case service: opening, moving and editing cases, and the registry of
    customers, transactions and consents the other services read. */
module CaseService {
  import opened Domain
  import opened CaseLog
  import opened Store

  // -------------------------------------------------------------- row changes

  function OpenedCase(customer: nat, trigger: nat, key: string, priority: int, failureCount: Option<int>): Case {
    Case(customer, trigger, key, Detected, priority, 1, failureCount, [], [],
         [AuditRow(1, CaseOpened, None, Some(Detected))])
  }

  function OperatorMoved(c: Case, to: CaseState): Case {
    MoveLogged(c, to, StateTransition)
  }

  /** An edit of the metadata; `failureCount` is what it sets that entry to, if it does. */
  datatype MetadataEdit = MetadataEdit(failureCount: Option<int>)

  function Edited(c: Case, priority: Option<int>, metadata: Option<MetadataEdit>): Case {
    var c1 := if priority.Some? then c.(priority := priority.value) else c;
    var c2 := if metadata.Some? && metadata.value.failureCount.Some?
              then c1.(failureCount := metadata.value.failureCount) else c1;
    RecordAudit(c2.(version := c.version + 1), CaseUpdated, Some(c.state), Some(c.state))
  }

  // ------------------------------------------------------------ specification

  datatype OpenRequest = OpenRequest(
    customer: nat,
    transaction: nat,
    key: Option<string>,
    generatedKey: string,
    priority: int,
    failureCount: Option<int>)

  /** A key that is missing or empty is generated. */
  function RequestedKey(r: OpenRequest): string {
    if r.key.Some? && r.key.value != "" then r.key.value else r.generatedKey
  }

  function AfterOpen(db: Database, r: OpenRequest): Result<Database, Error> {
    if r.customer >= |db.customers| || r.transaction >= |db.transactions| then Raised(NotFound)
    else if FindCaseByTrigger(db, r.transaction).Some? then Raised(AlreadyExists)
    else if FindCaseByKey(db, RequestedKey(r)).Some? then Raised(AlreadyExists)
    else
      Ok(db.(cases := db.cases +
               [OpenedCase(r.customer, r.transaction, RequestedKey(r), r.priority, r.failureCount)]))
  }

  function AfterOperatorMove(db: Database, id: nat, to: CaseState): Result<Database, Error> {
    if id >= |db.cases| then Raised(NotFound)
    else if Terminal(db.cases[id].state) || db.cases[id].state == to then Raised(InvalidTransition)
    else Ok(SetCase(db, id, OperatorMoved(db.cases[id], to)))
  }

  function AfterEdit(db: Database, id: nat, priority: Option<int>, metadata: Option<MetadataEdit>): Result<Database, Error> {
    if id >= |db.cases| then Raised(NotFound)
    else if Terminal(db.cases[id].state) then Raised(InvalidTransition)
    else if metadata.None? && (priority.None? || priority.value == db.cases[id].priority) then Ok(db)
    else Ok(SetCase(db, id, Edited(db.cases[id], priority, metadata)))
  }

  function AfterRegisterCustomer(db: Database, row: Customer): Result<Database, Error> {
    if FindCustomer(db, row.provider, row.externalId).Some? then Raised(AlreadyExists)
    else Ok(db.(customers := db.customers + [row]))
  }

  function AfterRecordTransaction(db: Database, row: Transaction): Result<Database, Error> {
    if row.customer >= |db.customers| then Raised(NotFound)
    else if FindTransaction(db, row.provider, row.externalId).Some? then Raised(AlreadyExists)
    else Ok(db.(transactions := db.transactions + [row]))
  }

  function AfterRegisterConsent(db: Database, row: Consent): Result<Database, Error> {
    Ok(db.(consents := db.consents + [row]))
  }

  function AfterRevokeConsent(db: Database, id: nat, now: int): Result<Database, Error> {
    if id >= |db.consents| then Raised(NotFound)
    else Ok(db.(consents := db.consents[id := db.consents[id].(status := Revoked, revokedAt := Some(now))]))
  }

  // ---------------------------------------------------- what the calls come to

  /** A case is opened exactly for parties on file whose payment triggered no case yet, under a key no
      case has: the requested one, or the generated one if that is missing or empty. It starts
      detected, with an audit row and no transition. */
  lemma OpensExactly(db: Database, r: OpenRequest)
    ensures var made, key := AfterOpen(db, r), if r.key.None? || |r.key.value| == 0 then r.generatedKey else r.key.value;
      && (made.Ok? <==>
            && r.customer < |db.customers| && r.transaction < |db.transactions|
            && forall c <- db.cases :: c.trigger != r.transaction && c.key != key)
      && (made == Raised(NotFound) <==> r.customer >= |db.customers| || r.transaction >= |db.transactions|)
      && (made.Raised? ==> made.error in {NotFound, AlreadyExists})
      && (made.Ok? ==>
            made.value == db.(cases := db.cases + [
              Case(r.customer, r.transaction, key, Detected, r.priority, 1, r.failureCount, [], [],
                   [AuditRow(1, CaseOpened, None, Some(Detected))])]))
  {
    var key := RequestedKey(r);
    assert forall j :: 0 <= j < |db.cases| ==> db.cases[j] in db.cases;
  }

  /** An operator moves a case exactly if it has not ended, to any other state, with a row in both logs. */
  lemma MovesExactly(db: Database, id: nat, to: CaseState)
    ensures var made := AfterOperatorMove(db, id, to);
      && (made.Ok? <==> id < |db.cases| && db.cases[id].state !in {Recovered, Stopped, Closed, to})
      && (made.Ok? ==>
            && |made.value.cases| == |db.cases| && made.value == db.(cases := db.cases[id := made.value.cases[id]])
            && var c, d := db.cases[id], made.value.cases[id];
            && d == c.(state := to, version := c.version + 1, transitions := d.transitions, audits := d.audits)
            && OneMoveMore(c.transitions, d.transitions, c.state, to)
            && OneNoteMore(c.audits, d.audits, StateTransition, Some(c.state), Some(to)))
      && (made.Raised? ==> made.error == if id >= |db.cases| then NotFound else InvalidTransition)
  {
    if id < |db.cases| {
      MoveIsOneMore(db.cases[id], to, StateTransition);
    }
  }

  /** An edit is refused exactly of a missing or an ended case. It changes nothing when it names no
      metadata and no other priority; otherwise it sets what it names, once in the audit log. */
  lemma EditsExactly(db: Database, id: nat, priority: Option<int>, metadata: Option<MetadataEdit>)
    ensures var made := AfterEdit(db, id, priority, metadata);
      && (made.Ok? <==> id < |db.cases| && db.cases[id].state !in {Recovered, Stopped, Closed})
      && (made.Ok? && metadata == None && priority in {None, Some(db.cases[id].priority)} ==> made.value == db)
      && (made.Ok? && !(metadata == None && priority in {None, Some(db.cases[id].priority)}) ==>
            && |made.value.cases| == |db.cases| && made.value == db.(cases := db.cases[id := made.value.cases[id]])
            && var c, d := db.cases[id], made.value.cases[id];
            && d == c.(priority := if priority == None then c.priority else priority.value,
                       failureCount := if metadata.Some? && metadata.value.failureCount.Some? then metadata.value.failureCount
                                       else c.failureCount,
                       version := c.version + 1, audits := d.audits)
            && OneNoteMore(c.audits, d.audits, CaseUpdated, Some(c.state), Some(c.state)))
      && (made.Raised? ==> made.error == if id >= |db.cases| then NotFound else InvalidTransition)
  {
    if id < |db.cases| {
      MaxIsUnused(db.cases[id].audits);
    }
  }

  /** Customers and payments are registered exactly once for a provider and an external id, a payment
      only for a customer on file. */
  lemma RegistersExactly(db: Database, customer: Customer, payment: Transaction)
    ensures var made := AfterRegisterCustomer(db, customer);
      && (made.Ok? <==> forall c <- db.customers :: c.provider != customer.provider || c.externalId != customer.externalId)
      && (made.Ok? ==> made.value == db.(customers := db.customers + [customer]))
    ensures var made := AfterRecordTransaction(db, payment);
      && (made.Ok? <==>
            payment.customer < |db.customers|
            && forall t <- db.transactions :: t.provider != payment.provider || t.externalId != payment.externalId)
      && (made.Ok? ==> made.value == db.(transactions := db.transactions + [payment]))
      && (made.Raised? ==> made.error == if payment.customer >= |db.customers| then NotFound else AlreadyExists)
  {
    assert forall c: Customer :: IsCustomer(c, customer.provider, customer.externalId)
             <==> c.provider == customer.provider && c.externalId == customer.externalId;
    assert forall t: Transaction :: IsTransaction(t, payment.provider, payment.externalId)
             <==> t.provider == payment.provider && t.externalId == payment.externalId;
    assert forall j :: 0 <= j < |db.customers| ==> db.customers[j] in db.customers;
    assert forall j :: 0 <= j < |db.transactions| ==> db.transactions[j] in db.transactions;
  }

  /** A consent on file is revoked as of now, whatever it was before. */
  lemma RevocationStands(db: Database, id: nat, now: int)
    ensures AfterRevokeConsent(db, id, now).Ok? <==> id < |db.consents|
    ensures AfterRevokeConsent(db, id, now).Ok? ==>
              var after := AfterRevokeConsent(db, id, now).value;
              && after == db.(consents := after.consents) && |after.consents| == |db.consents|
              && after.consents == db.consents[id := db.consents[id].(status := Revoked, revokedAt := Some(now))]
  {
  }

  // ------------------------------------------------------------------ service

  class RecoveryCaseService {
    const session: Session

    constructor (session: Session)
      ensures this.session == session
    {
      this.session := session;
    }

    method CreateCase(r: OpenRequest) returns (done: Result<nat, Error>)
      requires session.Clean()
      modifies session
      ensures session.Clean()
      ensures match AfterOpen(old(session.committed), r)
              case Ok(db) => done == Ok(|old(session.committed).cases|) && session.committed == db
              case Raised(error) => done == Raised(error) && session.committed == old(session.committed)
    {
      if r.customer >= |session.db.customers| {
        return Raised(NotFound);
      }
      if r.transaction >= |session.db.transactions| {
        return Raised(NotFound);
      }
      var existing := FindCaseByTrigger(session.db, r.transaction);
      if existing.Some? {
        return Raised(AlreadyExists);
      }
      var key := r.generatedKey;
      if r.key.Some? && r.key.value != "" {
        key := r.key.value;
      }
      var sameKey := FindCaseByKey(session.db, key);
      if sameKey.Some? {
        return Raised(AlreadyExists);
      }
      var c := Case(r.customer, r.transaction, key, Detected, r.priority, 1, r.failureCount, [], [], []);
      c := RecordAudit(c, CaseOpened, None, Some(Detected));
      assert c == OpenedCase(r.customer, r.transaction, key, r.priority, r.failureCount);
      done := Ok(|session.db.cases|);
      session.db := session.db.(cases := session.db.cases + [c]);
      session.Commit();
    }

    method TransitionState(id: nat, to: CaseState) returns (done: Result<(), Error>)
      requires session.Clean()
      modifies session
      ensures session.Clean()
      ensures match AfterOperatorMove(old(session.committed), id, to)
              case Ok(db) => done == Ok(()) && session.committed == db
              case Raised(error) => done == Raised(error) && session.committed == old(session.committed)
    {
      if id >= |session.db.cases| {
        return Raised(NotFound);
      }
      var c := session.db.cases[id];
      if Terminal(c.state) || c.state == to {
        return Raised(InvalidTransition);
      }
      var from := c.state;
      c := c.(state := to);
      c := c.(version := c.version + 1);
      c := LogTransition(c, Some(from), to);
      c := RecordAudit(c, StateTransition, Some(from), Some(to));
      session.db := SetCase(session.db, id, c);
      session.Commit();
      done := Ok(());
    }

    method UpdateCase(id: nat, priority: Option<int>, metadata: Option<MetadataEdit>) returns (done: Result<(), Error>)
      requires session.Clean()
      modifies session
      ensures session.Clean()
      ensures match AfterEdit(old(session.committed), id, priority, metadata)
              case Ok(db) => done == Ok(()) && session.committed == db
              case Raised(error) => done == Raised(error) && session.committed == old(session.committed)
    {
      if id >= |session.db.cases| {
        return Raised(NotFound);
      }
      var c := session.db.cases[id];
      if Terminal(c.state) {
        return Raised(InvalidTransition);
      }
      var changed := false;
      if priority.Some? && priority.value != c.priority {
        changed := true;
        c := c.(priority := priority.value);
      }
      if metadata.Some? {
        changed := true;
        if metadata.value.failureCount.Some? {
          c := c.(failureCount := metadata.value.failureCount);
        }
      }
      if !changed {
        return Ok(());
      }
      c := c.(version := c.version + 1);
      c := RecordAudit(c, CaseUpdated, Some(c.state), Some(c.state));
      session.db := SetCase(session.db, id, c);
      session.Commit();
      done := Ok(());
    }
  }
}
