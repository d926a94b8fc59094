/** The orchestrator's state step: store a versioned recommendation, record it, and take a
    newly detected case to the point where a decision is awaited. */
module Recommendations {
  import opened Domain
  import opened CaseLog
  import opened Store

  /** The highest version already recommended for a case, 0 when there is none. */
  function LatestVersion(rows: seq<Recommendation>, caseId: nat): int {
    if rows == [] then 0
    else
      var rest := LatestVersion(rows[..|rows| - 1], caseId);
      var last := rows[|rows| - 1];
      if last.caseId == caseId && last.version > rest then last.version else rest
  }

  function Advised(c: Case): Case {
    var recorded := RecordAudit(c, RecommendationGenerated, Some(c.state), Some(c.state));
    if c.state.Detected? then MoveLogged(recorded, AwaitingDecision, StateTransition) else recorded
  }

  /** For a detected case two audit rows are numbered in one call. A session without autoflush
      does not show the first to the query that numbers the second, and the commit fails. */
  function AfterRecommend(db: Database, id: nat, action: ActionType, confidence: real, autoflush: bool): Result<Database, Error> {
    if id >= |db.cases| then Raised(NotFound)
    else if db.cases[id].state.Detected? && !autoflush then Raised(AuditNumberTaken)
    else
      var row := Recommendation(id, LatestVersion(db.recommendations, id) + 1, action, Some(confidence), NotValidated);
      Ok(db.(recommendations := db.recommendations + [row], cases := db.cases[id := Advised(db.cases[id])]))
  }

  class IntelligenceOrchestrator {
    const session: Session

    constructor (session: Session)
      ensures this.session == session
    {
      this.session := session;
    }

    /** `action` and `confidence` are what the analysis pipeline selected; `autoflush` is the
        session's setting. */
    method GenerateRecommendation(id: nat, action: ActionType, confidence: real, autoflush: bool) returns (done: Result<nat, Error>)
      requires session.Clean()
      modifies session
      ensures session.Clean()
      ensures match AfterRecommend(old(session.committed), id, action, confidence, autoflush)
              case Ok(db) => done == Ok(|old(session.committed).recommendations|) && session.committed == db
              case Raised(error) => done == Raised(error) && session.committed == old(session.committed)
    {
      if id >= |session.db.cases| {
        return Raised(NotFound);
      }
      var version := LatestVersion(session.db.recommendations, id) + 1;
      var row := Recommendation(id, version, action, Some(confidence), NotValidated);
      var advised := Advise(session.db.cases[id], autoflush);
      if advised.Raised? {
        return Raised(advised.error);
      }
      done := Ok(|session.db.recommendations|);
      session.db := session.db.(recommendations := session.db.recommendations + [row]);
      session.db := SetCase(session.db, id, advised.value);
      session.Commit();
    }

    /** Audits the recommendation and moves a detected case on; the commit refuses an audit number
        that is given twice. */
    static method Advise(found: Case, autoflush: bool) returns (r: Result<Case, Error>)
      ensures r == if found.state.Detected? && !autoflush then Raised(AuditNumberTaken) else Ok(Advised(found))
    {
      var c := found;
      var visible := c.audits;
      c := RecordAudit(c, RecommendationGenerated, Some(c.state), Some(c.state));
      if autoflush {
        visible := c.audits;
      }
      if c.state.Detected? {
        var number := MaxAudit(visible) + 1;
        c := c.(state := AwaitingDecision);
        c := c.(version := c.version + 1);
        c := LogTransition(c, Some(Detected), AwaitingDecision);
        MaxIsUnused(visible);
        if !autoflush {
          assert c.audits[|found.audits|].number == number;
        }
        if AuditNumberUsed(c.audits, number) {
          return Raised(AuditNumberTaken);
        }
        c := c.(audits := c.audits + [AuditRow(number, StateTransition, Some(Detected), Some(AwaitingDecision))]);
      }
      r := Ok(c);
    }
  }

  /** The versions a case's recommendations carry, oldest first. */
  function VersionsOf(rows: seq<Recommendation>, caseId: nat): seq<int> {
    if rows == [] then []
    else
      var rest := VersionsOf(rows[..|rows| - 1], caseId);
      if rows[|rows| - 1].caseId == caseId then rest + [rows[|rows| - 1].version] else rest
  }

  predicate CountsUp(versions: seq<int>) {
    forall k :: 0 <= k < |versions| ==> versions[k] == k + 1
  }

  lemma {:induction false} LatestOfCounted(rows: seq<Recommendation>, caseId: nat)
    requires CountsUp(VersionsOf(rows, caseId))
    ensures LatestVersion(rows, caseId) == |VersionsOf(rows, caseId)|
  {
    if rows != [] {
      var rest := VersionsOf(rows[..|rows| - 1], caseId);
      assert rest <= VersionsOf(rows, caseId);
      assert CountsUp(rest) by {
        forall k | 0 <= k < |rest| ensures rest[k] == k + 1 {
          assert VersionsOf(rows, caseId)[k] == k + 1;
        }
      }
      LatestOfCounted(rows[..|rows| - 1], caseId);
      if rows[|rows| - 1].caseId == caseId {
        assert VersionsOf(rows, caseId)[|rest|] == |rest| + 1;
      }
    }
  }

  /** One more recommendation takes the next version. */
  lemma VersionAppends(rows: seq<Recommendation>, row: Recommendation, other: nat)
    requires CountsUp(VersionsOf(rows, other))
    requires row.caseId == other ==> row.version == |VersionsOf(rows, other)| + 1
    ensures CountsUp(VersionsOf(rows + [row], other))
  {
    assert (rows + [row])[..|rows|] == rows;
  }

  /** A recommendation is stored exactly for a case on file, and for a detected one only if the session
      autoflushes. It is the case's newest, not validated yet, and leaves a detected case awaiting the
      decision; every other case stays as it was. */
  lemma RecommendsExactly(db: Database, id: nat, action: ActionType, confidence: real, autoflush: bool)
    ensures var made := AfterRecommend(db, id, action, confidence, autoflush);
      && (made.Ok? <==> id < |db.cases| && (db.cases[id].state == Detected ==> autoflush))
      && (made.Ok? ==>
            && made.value == db.(cases := made.value.cases, recommendations := made.value.recommendations)
            && |made.value.cases| == |db.cases| && made.value.cases == db.cases[id := made.value.cases[id]]
            && |made.value.recommendations| == |db.recommendations| + 1
            && made.value.recommendations[..|db.recommendations|] == db.recommendations
            && var c, d, rec := db.cases[id], made.value.cases[id], made.value.recommendations[|db.recommendations|];
            && rec == Recommendation(id, rec.version, action, Some(confidence), NotValidated)
            && (forall r <- db.recommendations :: r.caseId == id ==> r.version < rec.version)
            && var moves := if c.state == Detected then 1 else 0;
            && d == c.(state := if c.state == Detected then AwaitingDecision else c.state, version := c.version + moves,
                       transitions := d.transitions, audits := d.audits)
            && |d.audits| == |c.audits| + 1 + moves
            && OneNoteMore(c.audits, d.audits[..|c.audits| + 1], RecommendationGenerated, Some(c.state), Some(c.state))
            && if moves == 0 then d.transitions == c.transitions
               else
                 && OneMoveMore(c.transitions, d.transitions, Detected, AwaitingDecision)
                 && OneNoteMore(d.audits[..|c.audits| + 1], d.audits, StateTransition, Some(Detected), Some(AwaitingDecision)))
      && (made.Raised? ==> made.error == if id >= |db.cases| then NotFound else AuditNumberTaken)
  {
    if id < |db.cases| {
      AdviceExactly(db.cases[id]);
      LatestIsNewest(db.recommendations, id);
    }
  }

  lemma AdviceExactly(c: Case)
    ensures var recorded, d := RecordAudit(c, RecommendationGenerated, Some(c.state), Some(c.state)), Advised(c);
      && d.audits[..|c.audits| + 1] == recorded.audits
      && OneNoteMore(c.audits, recorded.audits, RecommendationGenerated, Some(c.state), Some(c.state))
      && (c.state.Detected? ==>
            && OneMoveMore(c.transitions, d.transitions, Detected, AwaitingDecision)
            && OneNoteMore(recorded.audits, d.audits, StateTransition, Some(Detected), Some(AwaitingDecision)))
  {
    var recorded := RecordAudit(c, RecommendationGenerated, Some(c.state), Some(c.state));
    NoteIsOneMore(c, RecommendationGenerated, Some(c.state), Some(c.state));
    MoveIsOneMore(recorded, AwaitingDecision, StateTransition);
  }

  lemma {:induction false} LatestIsNewest(rows: seq<Recommendation>, caseId: nat)
    ensures forall r <- rows :: r.caseId == caseId ==> r.version <= LatestVersion(rows, caseId)
  {
    if rows != [] {
      assert rows == rows[..|rows| - 1] + [rows[|rows| - 1]];
      LatestIsNewest(rows[..|rows| - 1], caseId);
    }
  }
}
