/** Reconciliation of a case with the gateway's record of its payment. */
module Reconciliation {
  import opened Domain
  import opened CaseLog
  import opened Store

  datatype Discrepancy =
    | MissingReference
    | ConflictingWebhooks
    | UnresolvedButSucceeded
    | PendingButFailed
    | StatusUnknown

  datatype Resolution = ResolvedToSucceeded | ResolvedToFailed | EscalatedForReview

  datatype Classification = Matched | DiscrepancyDetected | ResolvedDiscrepancy | EscalatedDiscrepancy

  datatype Report = Report(
    classification: Classification,
    provider: ExecutionStatus,
    discrepancies: seq<Discrepancy>,
    resolution: Option<Resolution>)

  /** The outside of one reconciliation: the gateway's answer, whether the webhook history holds
      both a success and a failure, and whether discrepancies are to be resolved. */
  datatype Inquiry = Inquiry(answer: ExecutionStatus, conflictingWebhooks: bool, autoResolve: bool)

  /** The execution of a case that was executed last; of equally late ones, the later row. */
  function LatestExecution(rows: seq<Execution>, caseId: nat): (r: Option<Execution>)
    ensures r.None? <==> forall e :: e in rows ==> e.caseId != caseId
    ensures r.Some? ==> r.value in rows && r.value.caseId == caseId
    ensures r.Some? ==> forall e :: e in rows && e.caseId == caseId ==> e.executedAt <= r.value.executedAt
  {
    if rows == [] then None
    else
      var e := rows[|rows| - 1];
      var before := LatestExecution(rows[..|rows| - 1], caseId);
      assert rows == rows[..|rows| - 1] + [e];
      if e.caseId == caseId && (before.None? || before.value.executedAt <= e.executedAt) then Some(e) else before
  }

  predicate StartsWith(s: string, prefix: string) {
    prefix <= s
  }

  /** Whether there is a reference to ask the gateway about. */
  predicate HasReference(db: Database, c: Case, caseId: nat)
    requires c.trigger < |db.transactions|
  {
    var latest := LatestExecution(db.executions, caseId);
    (latest.Some? && latest.value.reference.Some? && latest.value.reference.value != "")
    || (db.transactions[c.trigger].externalId != "" && !StartsWith(db.transactions[c.trigger].externalId, "tx_"))
  }

  function ProviderStatus(db: Database, c: Case, caseId: nat, q: Inquiry): ExecutionStatus
    requires c.trigger < |db.transactions|
  {
    if HasReference(db, c, caseId) then q.answer else ExUnknown
  }

  predicate ProviderSettled(db: Database, c: Case, provider: ExecutionStatus) {
    (TriggerHas(db, c, TxFailed) || TriggerHas(db, c, TxPending)) && provider.ExSucceeded?
  }

  predicate ProviderRefused(db: Database, c: Case, provider: ExecutionStatus) {
    TriggerHas(db, c, TxPending) && provider.ExFailed?
  }

  /** A settled payment recovers the case: through the lifecycle table when it is being
      verified, otherwise by assigning the state, with no transition row. */
  function Settled(c: Case): Result<Case, Error> {
    if c.state.Recovered? || c.state.Closed? then Ok(c)
    else if c.state.VerificationPending? then TableTransition(c, Recovered)
    else Ok(c.(state := Recovered))
  }

  function Refused(c: Case): Result<Case, Error> {
    if c.state.VerificationPending? then TableTransition(c, RetryEligible) else Ok(c)
  }

  function Unconfirmed(c: Case): Result<Case, Error> {
    if c.state.Escalated? || c.state.Closed? then Ok(c) else TableTransition(c, Escalated)
  }

  /** The audit row is numbered by the length of the audit log. */
  function Noted(c: Case): Result<Case, Error> {
    if AuditNumberUsed(c.audits, |c.audits| + 1) then Raised(AuditNumberTaken)
    else Ok(c.(audits := c.audits + [AuditRow(|c.audits| + 1, PaymentReconciled, Some(c.state), Some(c.state))]))
  }

  function Classify(discrepancies: seq<Discrepancy>, resolution: Option<Resolution>): Classification {
    if discrepancies == [] then Matched
    else if resolution == Some(EscalatedForReview) then EscalatedDiscrepancy
    else if resolution.Some? then ResolvedDiscrepancy
    else DiscrepancyDetected
  }

  function StatusDiscrepancy(db: Database, c: Case, provider: ExecutionStatus): seq<Discrepancy> {
    if ProviderSettled(db, c, provider) then [UnresolvedButSucceeded]
    else if ProviderRefused(db, c, provider) then [PendingButFailed]
    else if provider.ExUnknown? then [StatusUnknown]
    else []
  }

  function Discrepancies(db: Database, c: Case, caseId: nat, q: Inquiry): seq<Discrepancy>
    requires c.trigger < |db.transactions|
  {
    (if HasReference(db, c, caseId) then [] else [MissingReference])
    + (if q.conflictingWebhooks then [ConflictingWebhooks] else [])
    + StatusDiscrepancy(db, c, ProviderStatus(db, c, caseId, q))
  }

  function ResolutionOf(db: Database, c: Case, provider: ExecutionStatus, q: Inquiry): Option<Resolution> {
    if !q.autoResolve then None
    else if ProviderSettled(db, c, provider) then Some(ResolvedToSucceeded)
    else if ProviderRefused(db, c, provider) then Some(ResolvedToFailed)
    else if provider.ExUnknown? && !c.state.Escalated? && !c.state.Closed? then Some(EscalatedForReview)
    else None
  }

  /** The case row before its audit note. */
  function Resolved(c: Case, resolution: Option<Resolution>): Result<Case, Error> {
    match resolution
    case None => Ok(c)
    case Some(ResolvedToSucceeded) => Settled(c)
    case Some(ResolvedToFailed) => Refused(c)
    case Some(EscalatedForReview) => Unconfirmed(c)
  }

  function TriggerAfter(db: Database, c: Case, resolution: Option<Resolution>): Database
    requires c.trigger < |db.transactions|
  {
    match resolution
    case Some(ResolvedToSucceeded) => SetTransactionStatus(db, c.trigger, TxSucceeded)
    case Some(ResolvedToFailed) => SetTransactionStatus(db, c.trigger, TxFailed)
    case Some(EscalatedForReview) => db
    case None => db
  }

  function AfterReconcile(db: Database, id: nat, q: Inquiry): Result<(Database, Report), Error> {
    if id >= |db.cases| || db.cases[id].trigger >= |db.transactions| then Raised(NotFound)
    else
      var c := db.cases[id];
      var provider := ProviderStatus(db, c, id, q);
      var resolution := ResolutionOf(db, c, provider, q);
      match Resolved(c, resolution)
      case Raised(error) => Raised(error)
      case Ok(moved) =>
        match Noted(moved)
        case Raised(error) => Raised(error)
        case Ok(noted) =>
          var found := Discrepancies(db, c, id, q);
          Ok((SetCase(TriggerAfter(db, c, resolution), id, noted),
              Report(Classify(found, resolution), provider, found, resolution)))
  }

  class PaymentReconciliationService {
    const session: Session

    constructor (session: Session)
      ensures this.session == session
    {
      this.session := session;
    }

    /** Compares the two statuses and, when asked to, settles the transaction and the case. */
    method ResolveDiscrepancy(c: Case, provider: ExecutionStatus, q: Inquiry)
      returns (found: seq<Discrepancy>, resolution: Option<Resolution>, moved: Result<Case, Error>)
      requires c.trigger < |session.db.transactions|
      modifies session`db
      ensures found == StatusDiscrepancy(old(session.db), c, provider)
      ensures resolution == ResolutionOf(old(session.db), c, provider, q)
      ensures moved == Resolved(c, resolution)
      ensures session.db == TriggerAfter(old(session.db), c, resolution)
    {
      found, resolution, moved := [], None, Ok(c);
      var status := session.db.transactions[c.trigger].status;
      if (status.TxFailed? || status.TxPending?) && provider.ExSucceeded? {
        found := found + [UnresolvedButSucceeded];
        if q.autoResolve {
          resolution := Some(ResolvedToSucceeded);
          session.db := SetTransactionStatus(session.db, c.trigger, TxSucceeded);
          if !c.state.Recovered? && !c.state.Closed? {
            if c.state.VerificationPending? {
              moved := TableTransition(c, Recovered);
            } else {
              moved := Ok(c.(state := Recovered));
            }
          }
        }
      } else if status.TxPending? && provider.ExFailed? {
        found := found + [PendingButFailed];
        if q.autoResolve {
          resolution := Some(ResolvedToFailed);
          session.db := SetTransactionStatus(session.db, c.trigger, TxFailed);
          if c.state.VerificationPending? {
            moved := TableTransition(c, RetryEligible);
          }
        }
      } else if provider.ExUnknown? {
        found := found + [StatusUnknown];
        if q.autoResolve && !c.state.Escalated? && !c.state.Closed? {
          resolution := Some(EscalatedForReview);
          moved := TableTransition(c, Escalated);
        }
      }
    }

    method ReconcileCase(id: nat, q: Inquiry) returns (r: Result<Report, Error>)
      requires session.Clean()
      modifies session
      ensures session.Clean()
      ensures match AfterReconcile(old(session.committed), id, q)
              case Ok(done) => session.committed == done.0 && r == Ok(done.1)
              case Raised(error) => session.committed == old(session.committed) && r == Raised(error)
    {
      if id >= |session.db.cases| || session.db.cases[id].trigger >= |session.db.transactions| {
        return Raised(NotFound);
      }
      var c := session.db.cases[id];
      var discrepancies: seq<Discrepancy> := [];
      var provider := ExUnknown;
      if HasReference(session.db, c, id) {
        provider := q.answer;
      } else {
        discrepancies := discrepancies + [MissingReference];
      }
      if q.conflictingWebhooks {
        discrepancies := discrepancies + [ConflictingWebhooks];
      }
      ghost var expected := Discrepancies(session.db, c, id, q);
      var found, resolution, moved := ResolveDiscrepancy(c, provider, q);
      discrepancies := discrepancies + found;
      assert discrepancies == expected;
      if moved.Raised? {
        session.Rollback();
        return Raised(moved.error);
      }
      var noted := Noted(moved.value);
      if noted.Raised? {
        session.Rollback();
        return Raised(noted.error);
      }
      session.db := SetCase(session.db, id, noted.value);
      session.Commit();
      r := Ok(Report(Classify(discrepancies, resolution), provider, discrepancies, resolution));
    }

    /** Reconciles the `limit` cases that have awaited verification longest, one commit each, and
        stops at the first exception; every inquiry is answered by the list handed in. */
    method ReconcilePendingCases(limit: nat, changedAt: nat -> int, answers: seq<Inquiry>)
      returns (reports: seq<Report>, error: Option<Error>)
      requires session.Clean()
      requires |answers| == |PendingCases(session.committed, limit, changedAt)|
      modifies session
      ensures session.Clean()
      ensures |reports| <= |answers| && (error.None? <==> |reports| == |answers|)
      ensures var ids := PendingCases(old(session.committed), limit, changedAt);
        && session.committed == ReconcileEach(old(session.committed), ids[..|reports|], answers[..|reports|])
        && (error.Some? ==>
              AfterReconcile(session.committed, ids[|reports|], answers[|reports|]) == Raised(error.value))
    {
      var ids := PendingCases(session.db, limit, changedAt);
      reports, error := [], None;
      for k := 0 to |ids|
        invariant session.Clean() && |reports| == k
        invariant session.committed == ReconcileEach(old(session.committed), ids[..k], answers[..k])
      {
        var r := ReconcileCase(ids[k], answers[k]);
        if r.Raised? {
          return reports, Some(r.error);
        }
        reports := reports + [r.value];
        assert ids[..k + 1][..k] == ids[..k] && answers[..k + 1][..k] == answers[..k];
      }
    }
  }

  function Reconcile(db: Database, id: nat, q: Inquiry): Database {
    match AfterReconcile(db, id, q)
    case Ok(done) => done.0
    case Raised(_) => db
  }

  /** Reconciling the listed cases one after the other. */
  function ReconcileEach(db: Database, ids: seq<nat>, answers: seq<Inquiry>): Database
    requires |ids| == |answers|
  {
    if ids == [] then db
    else
      var last := |ids| - 1;
      Reconcile(ReconcileEach(db, ids[..last], answers[..last]), ids[last], answers[last])
  }

  /** Every case that awaits verification, in the order of its row. */
  function AllPending(cases: seq<Case>): (ids: seq<nat>)
    ensures forall k :: 0 <= k < |ids| ==> ids[k] < |cases| && cases[ids[k]].state.VerificationPending?
    ensures forall j :: 0 <= j < |cases| && cases[j].state.VerificationPending? ==> j in ids
    ensures forall j, k :: 0 <= j < k < |ids| ==> ids[j] < ids[k]
  {
    if cases == [] then []
    else
      var last := |cases| - 1;
      var before := AllPending(cases[..last]);
      if cases[last].state.VerificationPending? then before + [last] else before
  }

  /** Inserts an id behind those whose state changed no later. */
  function InsertByChange(sorted: seq<nat>, id: nat, changedAt: nat -> int): (ids: seq<nat>)
    ensures multiset(ids) == multiset(sorted) + multiset{id}
  {
    if sorted == [] || changedAt(sorted[|sorted| - 1]) <= changedAt(id) then sorted + [id]
    else
      var last := |sorted| - 1;
      assert sorted == sorted[..last] + [sorted[last]];
      InsertByChange(sorted[..last], id, changedAt) + [sorted[last]]
  }

  /** The ids, the longest unchanged first. */
  function ByChange(ids: seq<nat>, changedAt: nat -> int): (sorted: seq<nat>)
    ensures multiset(sorted) == multiset(ids)
  {
    if ids == [] then []
    else
      var last := |ids| - 1;
      assert ids == ids[..last] + [ids[last]];
      InsertByChange(ByChange(ids[..last], changedAt), ids[last], changedAt)
  }

  /** The cases a batch takes up: of those that await verification, the `limit` whose state changed
      longest ago. */
  function PendingCases(db: Database, limit: nat, changedAt: nat -> int): seq<nat> {
    var sorted := ByChange(AllPending(db.cases), changedAt);
    if |sorted| <= limit then sorted else sorted[..limit]
  }

  predicate Ascending(ids: seq<nat>, changedAt: nat -> int) {
    forall j, k :: 0 <= j < k < |ids| ==> changedAt(ids[j]) <= changedAt(ids[k])
  }

  lemma {:induction false} InsertionAscends(sorted: seq<nat>, id: nat, changedAt: nat -> int)
    requires Ascending(sorted, changedAt)
    ensures Ascending(InsertByChange(sorted, id, changedAt), changedAt)
  {
    if sorted != [] && changedAt(sorted[|sorted| - 1]) > changedAt(id) {
      var front := sorted[..|sorted| - 1];
      var inserted := InsertByChange(front, id, changedAt);
      InsertionAscends(front, id, changedAt);
      forall j | 0 <= j < |inserted| ensures changedAt(inserted[j]) <= changedAt(sorted[|sorted| - 1]) {
        assert inserted[j] in multiset(inserted);
        assert inserted[j] in front || inserted[j] == id;
      }
    }
  }

  lemma {:induction false} SortingAscends(ids: seq<nat>, changedAt: nat -> int)
    ensures Ascending(ByChange(ids, changedAt), changedAt)
  {
    if ids != [] {
      SortingAscends(ids[..|ids| - 1], changedAt);
      InsertionAscends(ByChange(ids[..|ids| - 1], changedAt), ids[|ids| - 1], changedAt);
    }
  }

  lemma {:induction false} IncreasingIdsAreSingle(ids: seq<nat>)
    requires forall j, k :: 0 <= j < k < |ids| ==> ids[j] < ids[k]
    ensures forall id :: multiset(ids)[id] <= 1
  {
    if ids != [] {
      var front, last := ids[..|ids| - 1], ids[|ids| - 1];
      assert ids == front + [last];
      IncreasingIdsAreSingle(front);
      assert last !in front;
    }
  }

  lemma SingleIdsAreDistinct(ids: seq<nat>)
    requires forall id :: multiset(ids)[id] <= 1
    ensures forall j, k :: 0 <= j < k < |ids| ==> ids[j] != ids[k]
  {
    forall j, k | 0 <= j < k < |ids| ensures ids[j] != ids[k] {
      assert ids == ids[..k] + ids[k..];
      assert ids[..k][j] in multiset(ids[..k]) && ids[k..][0] in multiset(ids[k..]);
      assert multiset(ids)[ids[j]] == multiset(ids[..k])[ids[j]] + multiset(ids[k..])[ids[j]];
    }
  }

  /** The batch: cases that await verification, in the order their states changed, at most `limit`
      of them, and none left behind that changed before one taken up. */
  lemma BatchTakesTheOldest(db: Database, limit: nat, changedAt: nat -> int)
    ensures var ids := PendingCases(db, limit, changedAt);
      && |ids| <= limit && Ascending(ids, changedAt)
      && (forall j, k :: 0 <= j < k < |ids| ==> ids[j] != ids[k])
      && (forall id <- ids :: id < |db.cases| && db.cases[id].state.VerificationPending?)
      && (forall j :: 0 <= j < |db.cases| && db.cases[j].state.VerificationPending? && j !in ids ==>
            |ids| == limit && forall id <- ids :: changedAt(id) <= changedAt(j))
  {
    hide AllPending, ByChange;
    PendingInOrder(db.cases, changedAt);
    OldestAreTaken(ByChange(AllPending(db.cases), changedAt), limit, changedAt);
  }

  lemma OldestAreTaken(sorted: seq<nat>, limit: nat, changedAt: nat -> int)
    requires Ascending(sorted, changedAt) && forall j, k :: 0 <= j < k < |sorted| ==> sorted[j] != sorted[k]
    ensures var ids := if |sorted| <= limit then sorted else sorted[..limit];
      && Ascending(ids, changedAt) && (forall j, k :: 0 <= j < k < |ids| ==> ids[j] != ids[k])
      && (forall id <- ids :: id in sorted)
      && forall id <- sorted :: id !in ids ==> |ids| == limit && forall taken <- ids :: changedAt(taken) <= changedAt(id)
  {
    var ids := if |sorted| <= limit then sorted else sorted[..limit];
    forall id <- sorted | id !in ids ensures |ids| == limit && forall taken <- ids :: changedAt(taken) <= changedAt(id) {
      var k :| 0 <= k < |sorted| && sorted[k] == id;
      assert k >= |ids|;
    }
  }

  lemma PendingInOrder(cases: seq<Case>, changedAt: nat -> int)
    ensures var sorted := ByChange(AllPending(cases), changedAt);
      && Ascending(sorted, changedAt)
      && (forall j, k :: 0 <= j < k < |sorted| ==> sorted[j] != sorted[k])
      && (forall id <- sorted :: id < |cases| && cases[id].state.VerificationPending?)
      && (forall j :: 0 <= j < |cases| && cases[j].state.VerificationPending? ==> j in sorted)
  {
    hide AllPending, ByChange;
    var pending := AllPending(cases);
    var sorted := ByChange(pending, changedAt);
    SortingAscends(pending, changedAt);
    IncreasingIdsAreSingle(pending);
    SingleIdsAreDistinct(sorted);
    assert forall id :: id in sorted <==> id in multiset(sorted);
    assert forall id :: id in pending <==> id in multiset(pending);
  }

  /** What a committed reconciliation means: a settled payment is succeeded and its case recovered
      or closed, a refused one failed and its case no longer in verification, an unconfirmed one
      leaves the case escalated; without a resolution neither state nor payment moves. */
  lemma ReportMeans(db: Database, id: nat, q: Inquiry)
    requires AfterReconcile(db, id, q).Ok?
    ensures var (after, report) := AfterReconcile(db, id, q).value;
      && id < |db.cases| && |after.cases| == |db.cases| && after.cases == db.cases[id := after.cases[id]]
      && var c, d := db.cases[id], after.cases[id];
      && c.audits < d.audits && d.audits[|d.audits| - 1].kind.PaymentReconciled?
      && (report.classification.Matched? <==> report.discrepancies == [])
      && match report.resolution
         case None => d.state == c.state && after.transactions == db.transactions
         case Some(ResolvedToSucceeded) =>
           TriggerHas(after, c, TxSucceeded) && !TriggerHas(db, c, TxSucceeded) && (d.state.Recovered? || d.state.Closed?)
         case Some(ResolvedToFailed) =>
           && TriggerHas(db, c, TxPending) && TriggerHas(after, c, TxFailed)
           && d.state == if c.state.VerificationPending? then RetryEligible else c.state
         case Some(EscalatedForReview) => d.state.Escalated? && !c.state.Escalated? && after.transactions == db.transactions
  {
    var c := db.cases[id];
    var resolution := ResolutionOf(db, c, ProviderStatus(db, c, id, q), q);
    ResolvedMeans(c, resolution);
  }

  lemma ResolvedMeans(c: Case, resolution: Option<Resolution>)
    requires Resolved(c, resolution).Ok?
    requires resolution == Some(EscalatedForReview) ==> !c.state.Escalated? && !c.state.Closed?
    ensures var d := Resolved(c, resolution).value;
      && c.audits <= d.audits
      && match resolution
         case None => d.state == c.state
         case Some(ResolvedToSucceeded) => d.state.Recovered? || d.state.Closed?
         case Some(ResolvedToFailed) => d.state == if c.state.VerificationPending? then RetryEligible else c.state
         case Some(EscalatedForReview) => d.state.Escalated?
  {
  }
}
