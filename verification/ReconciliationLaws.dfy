/** When a reconciliation finds what, resolves how and commits, said on the rows and the inquiry. */
module ReconciliationLaws {
  import opened Domain
  import opened CaseLog
  import opened Store
  import opened Reconciliation

  /** Row `k` is the case's execution executed last, of equally late ones the last on file. */
  predicate IsLast(rows: seq<Execution>, caseId: nat, k: nat)
    requires k < |rows|
  {
    && rows[k].caseId == caseId
    && (forall j :: 0 <= j < |rows| && rows[j].caseId == caseId ==> rows[j].executedAt <= rows[k].executedAt)
    && (forall j :: k < j < |rows| && rows[j].caseId == caseId ==> rows[j].executedAt < rows[k].executedAt)
  }

  /** The gateway can be asked: the last execution carries a reference, or the payment has an id of
      the provider's, which do not start with "tx_". */
  predicate CanAsk(db: Database, id: nat)
    requires id < |db.cases| && db.cases[id].trigger < |db.transactions|
  {
    var paymentId := db.transactions[db.cases[id].trigger].externalId;
    || (exists k :: 0 <= k < |db.executions| && IsLast(db.executions, id, k)
                    && db.executions[k].reference.Some? && |db.executions[k].reference.value| > 0)
    || (paymentId != "" && !(|paymentId| >= 3 && paymentId[0] == 't' && paymentId[1] == 'x' && paymentId[2] == '_'))
  }

  lemma LastOfMore(front: seq<Execution>, e: Execution, caseId: nat, k: nat)
    requires k < |front| && IsLast(front, caseId, k)
    ensures IsLast(front + [e], caseId, if e.caseId == caseId && front[k].executedAt <= e.executedAt then |front| else k)
  {
  }

  lemma FirstOfCase(front: seq<Execution>, e: Execution, caseId: nat)
    requires e.caseId == caseId && forall x <- front :: x.caseId != caseId
    ensures IsLast(front + [e], caseId, |front|)
  {
  }

  lemma {:induction false} LastIsLatest(rows: seq<Execution>, caseId: nat) returns (k: nat)
    ensures var latest := LatestExecution(rows, caseId);
      latest.Some? ==> k < |rows| && IsLast(rows, caseId, k) && rows[k] == latest.value
  {
    k := 0;
    if rows != [] {
      var front, e := rows[..|rows| - 1], rows[|rows| - 1];
      assert rows == front + [e];
      k := LastIsLatest(front, caseId);
      var before := LatestExecution(front, caseId);
      if before.Some? {
        LastOfMore(front, e, caseId, k);
        k := if e.caseId == caseId && before.value.executedAt <= e.executedAt then |front| else k;
      } else if e.caseId == caseId {
        FirstOfCase(front, e, caseId);
        k := |front|;
      }
    }
  }

  lemma OneIsLast(rows: seq<Execution>, caseId: nat, j: nat, k: nat)
    requires j < |rows| && k < |rows| && IsLast(rows, caseId, j) && IsLast(rows, caseId, k)
    ensures j == k
  {
  }

  lemma InternalIds(s: string)
    ensures StartsWith(s, "tx_") <==> |s| >= 3 && s[0] == 't' && s[1] == 'x' && s[2] == '_'
  {
    if |s| >= 3 && s[0] == 't' && s[1] == 'x' && s[2] == '_' {
      assert s[..3] == "tx_";
    }
  }

  lemma CanAskExactly(db: Database, id: nat)
    requires id < |db.cases| && db.cases[id].trigger < |db.transactions|
    ensures HasReference(db, db.cases[id], id) <==> CanAsk(db, id)
  {
    InternalIds(db.transactions[db.cases[id].trigger].externalId);
    var latest := LatestExecution(db.executions, id);
    var last := LastIsLatest(db.executions, id);
    forall k | 0 <= k < |db.executions| && IsLast(db.executions, id, k) ensures latest.Some? && k == last {
      assert db.executions[k] in db.executions;
      OneIsLast(db.executions, id, k, last);
    }
  }

  /** What the gateway is taken to say; without a reference to ask about, that it does not know. */
  function Answer(db: Database, id: nat, q: Inquiry): ExecutionStatus
    requires id < |db.cases| && db.cases[id].trigger < |db.transactions|
  {
    if CanAsk(db, id) then q.answer else ExUnknown
  }

  function PaymentStatus(db: Database, id: nat): TransactionStatus
    requires id < |db.cases| && db.cases[id].trigger < |db.transactions|
  {
    db.transactions[db.cases[id].trigger].status
  }

  predicate FoundSettled(db: Database, id: nat, q: Inquiry)
    requires id < |db.cases| && db.cases[id].trigger < |db.transactions|
  {
    PaymentStatus(db, id) in {TxFailed, TxPending} && Answer(db, id, q) == ExSucceeded
  }

  predicate FoundRefused(db: Database, id: nat, q: Inquiry)
    requires id < |db.cases| && db.cases[id].trigger < |db.transactions|
  {
    PaymentStatus(db, id) == TxPending && Answer(db, id, q) == ExFailed
  }

  predicate FoundUnconfirmed(db: Database, id: nat, q: Inquiry)
    requires id < |db.cases| && db.cases[id].trigger < |db.transactions|
  {
    Answer(db, id, q) == ExUnknown
  }

  /** When each resolution is taken, and when none is; and what the report says besides. */
  lemma ReportExactly(db: Database, id: nat, q: Inquiry)
    requires AfterReconcile(db, id, q).Ok?
    ensures id < |db.cases| && db.cases[id].trigger < |db.transactions|
    ensures var report, state := AfterReconcile(db, id, q).value.1, db.cases[id].state;
      && (report.resolution == Some(ResolvedToSucceeded) <==> q.autoResolve && FoundSettled(db, id, q))
      && (report.resolution == Some(ResolvedToFailed) <==> q.autoResolve && FoundRefused(db, id, q))
      && (report.resolution == Some(EscalatedForReview) <==>
            q.autoResolve && FoundUnconfirmed(db, id, q) && state !in {Escalated, Closed})
      && report.provider == Answer(db, id, q)
      && (MissingReference in report.discrepancies <==> !CanAsk(db, id))
      && (ConflictingWebhooks in report.discrepancies <==> q.conflictingWebhooks)
      && (UnresolvedButSucceeded in report.discrepancies <==> FoundSettled(db, id, q))
      && (PendingButFailed in report.discrepancies <==> FoundRefused(db, id, q))
      && (StatusUnknown in report.discrepancies <==> FoundUnconfirmed(db, id, q))
      && (report.classification == Matched <==>
            CanAsk(db, id) && !q.conflictingWebhooks && !FoundSettled(db, id, q) && !FoundRefused(db, id, q) && !FoundUnconfirmed(db, id, q))
      && (report.classification == EscalatedDiscrepancy <==> report.resolution == Some(EscalatedForReview))
      && (report.classification == ResolvedDiscrepancy <==> report.resolution in {Some(ResolvedToSucceeded), Some(ResolvedToFailed)})
  {
    hide CanAsk, HasReference, Resolved, Noted;
    CanAskExactly(db, id);
  }

  /** The state a reconciliation takes the case to, if it commits. */
  function StateAfter(db: Database, id: nat, q: Inquiry): CaseState
    requires id < |db.cases| && db.cases[id].trigger < |db.transactions|
  {
    var state := db.cases[id].state;
    if !q.autoResolve then state
    else if FoundSettled(db, id, q) then (if state == Closed then Closed else Recovered)
    else if FoundRefused(db, id, q) then (if state == VerificationPending then RetryEligible else state)
    else if FoundUnconfirmed(db, id, q) then (if state == Closed then Closed else Escalated)
    else state
  }

  /** Whether that takes a move by the transition table: always to escalate, and out of verification. */
  predicate TakesMove(db: Database, id: nat, q: Inquiry)
    requires id < |db.cases| && db.cases[id].trigger < |db.transactions|
  {
    StateAfter(db, id, q) != db.cases[id].state && (db.cases[id].state == VerificationPending || !FoundSettled(db, id, q))
  }

  /** A reconciliation commits exactly when both rows exist and, if the state has to move by the
      table, the case has not ended and its logs are even; then case and payment end like this. */
  lemma ReconcileExactly(db: Database, id: nat, q: Inquiry)
    requires id < |db.cases| ==> LogsOk(db.cases[id])
    ensures AfterReconcile(db, id, q).Ok? <==>
              && id < |db.cases| && db.cases[id].trigger < |db.transactions|
              && (TakesMove(db, id, q) ==>
                    db.cases[id].state !in {Recovered, Stopped, Closed} && |db.cases[id].audits| == |db.cases[id].transitions|)
    ensures AfterReconcile(db, id, q).Raised? ==>
              AfterReconcile(db, id, q).error ==
                if id >= |db.cases| || db.cases[id].trigger >= |db.transactions| then NotFound
                else if db.cases[id].state in {Recovered, Stopped, Closed} then InvalidTransition
                else AuditNumberTaken
    ensures AfterReconcile(db, id, q).Ok? ==>
              var after := AfterReconcile(db, id, q).value.0;
              && |after.cases| == |db.cases| && after.cases == db.cases[id := after.cases[id]]
              && after.cases[id].state == StateAfter(db, id, q)
              && after.transactions ==
                   (if q.autoResolve && (FoundSettled(db, id, q) || FoundRefused(db, id, q)) then
                      db.transactions[db.cases[id].trigger := db.transactions[db.cases[id].trigger].(
                        status := if FoundSettled(db, id, q) then TxSucceeded else TxFailed)]
                    else db.transactions)
              && |after.cases[id].transitions| == |db.cases[id].transitions| + (if TakesMove(db, id, q) then 1 else 0)
              && |after.cases[id].audits| == |db.cases[id].audits| + (if TakesMove(db, id, q) then 2 else 1)
              && after.cases[id].audits[|after.cases[id].audits| - 1] ==
                   AuditRow(|after.cases[id].audits|, PaymentReconciled, Some(StateAfter(db, id, q)), Some(StateAfter(db, id, q)))
  {
    if id < |db.cases| && db.cases[id].trigger < |db.transactions| {
      var c := db.cases[id];
      CanAskExactly(db, id);
      TableTransitionCommits(c, Recovered);
      TableTransitionCommits(c, RetryEligible);
      TableTransitionCommits(c, Escalated);
      ResolvedIsNoted(db, id, q);
      StateExactly(db, id, q);
    }
  }

  lemma ResolvedIsNoted(db: Database, id: nat, q: Inquiry)
    requires id < |db.cases| && db.cases[id].trigger < |db.transactions| && LogsOk(db.cases[id])
    ensures var moved := Resolved(db.cases[id], ResolutionOf(db, db.cases[id], ProviderStatus(db, db.cases[id], id, q), q));
      && (moved.Ok? ==> Noted(moved.value).Ok?)
      && (AfterReconcile(db, id, q).Ok? <==> moved.Ok?)
      && (moved.Raised? ==> AfterReconcile(db, id, q) == Raised(moved.error))
  {
    hide ResolutionOf, ProviderStatus, HasReference;
    var c := db.cases[id];
    TableTransitionCommits(c, Recovered);
    TableTransitionCommits(c, RetryEligible);
    TableTransitionCommits(c, Escalated);
  }

  lemma StateExactly(db: Database, id: nat, q: Inquiry)
    requires id < |db.cases| && db.cases[id].trigger < |db.transactions| && LogsOk(db.cases[id])
    ensures var c := db.cases[id];
      var moved := Resolved(c, ResolutionOf(db, c, ProviderStatus(db, c, id, q), q));
      && (moved.Ok? <==> (TakesMove(db, id, q) ==> c.state !in {Recovered, Stopped, Closed} && |c.audits| == |c.transitions|))
      && (moved.Raised? ==> moved.error == if c.state in {Recovered, Stopped, Closed} then InvalidTransition else AuditNumberTaken)
      && (moved.Ok? ==>
            && moved.value.state == StateAfter(db, id, q)
            && |moved.value.transitions| == |c.transitions| + (if TakesMove(db, id, q) then 1 else 0)
            && |moved.value.audits| == |c.audits| + (if TakesMove(db, id, q) then 1 else 0))
  {
    hide CanAsk, HasReference;
    var c := db.cases[id];
    CanAskExactly(db, id);
    TableTransitionCommits(c, Recovered);
    TableTransitionCommits(c, RetryEligible);
    TableTransitionCommits(c, Escalated);
  }

  /** So with auto-resolution an unconfirmed payment takes a case out of verification to an operator,
      as long as its logs are even. */
  lemma UnconfirmedVerificationEscalates(db: Database, id: nat, q: Inquiry)
    requires id < |db.cases| && db.cases[id].trigger < |db.transactions| && LogsOk(db.cases[id])
    requires q.autoResolve && db.cases[id].state == VerificationPending && (q.answer == ExUnknown || !CanAsk(db, id))
    ensures AfterReconcile(db, id, q).Ok? <==> |db.cases[id].audits| == |db.cases[id].transitions|
    ensures AfterReconcile(db, id, q).Ok? ==>
              var (after, report) := AfterReconcile(db, id, q).value;
              && |after.cases| == |db.cases| && after.cases[id].state == Escalated
              && report.resolution == Some(EscalatedForReview) && report.classification == EscalatedDiscrepancy
  {
    hide AfterReconcile, CanAsk;
    ReconcileExactly(db, id, q);
    if AfterReconcile(db, id, q).Ok? {
      ReportExactly(db, id, q);
    }
  }
}
