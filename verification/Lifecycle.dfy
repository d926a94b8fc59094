/** The lifecycle service on a stored case, and the vertical workflow that drives it: an agent's
    decision, judged by the safety policy, becomes a planned attempt. */
module Lifecycle {
  import opened Domain
  import opened CaseLog
  import opened Safety
  import opened Store

  function AfterTransition(db: Database, id: nat, to: CaseState): Result<Database, Error> {
    if id >= |db.cases| then Raised(NotFound)
    else match TableTransition(db.cases[id], to)
      case Ok(c) => Ok(SetCase(db, id, c))
      case Raised(error) => Raised(error)
  }

  // ------------------------------------------------------------- vertical run

  /** The decisions on file for a case. */
  function DecisionCount(rows: seq<Recommendation>, id: nat): nat {
    if rows == [] then 0
    else DecisionCount(rows[..|rows| - 1], id) + (if rows[|rows| - 1].caseId == id then 1 else 0)
  }

  /** The case once its context is collected and a decision is awaited. */
  function AwaitingAgent(c: Case): Result<Case, Error> {
    match TableTransition(c, ContextReady)
    case Raised(error) => Raised(error)
    case Ok(ready) => TableTransition(ready, AwaitingDecision)
  }

  function PlannedAttempt(id: nat, number: nat, action: ActionType, now: int): Attempt {
    Attempt(number, Planned, action, Some(now), None, PlanKey(id, number))
  }

  /** The case once the safety policy has judged the agent's action. */
  function AfterJudgement(c: Case, id: nat, verdict: SafetyOutcome, action: ActionType, now: int): Result<Case, Error> {
    if !verdict.Allow? then TableTransition(c, if verdict.EscalateCase? then Escalated else Stopped)
    else match TableTransition(c, ActionPending)
      case Raised(error) => Raised(error)
      case Ok(pending) =>
        var attempt := PlannedAttempt(id, |c.attempts| + 1, action, now);
        TableTransition(pending.(attempts := pending.attempts + [attempt]), VerificationPending)
  }

  function AgentContext(c: Case, id: nat, payment: TransactionStatus, action: ActionType): SafetyContext<Key> {
    SafetyContext(c.state, payment, action, |c.attempts|, {}, Some(PlanKey(id, |c.attempts| + 1)), false)
  }

  /** The agent's question to its answer and back to the lifecycle: context, decision, safety
      verdict, planned attempt. `action` and `confidence` are what the agent answers. */
  datatype VerticalRequest = VerticalRequest(
    caseId: nat,
    transaction: nat,
    action: ActionType,
    confidence: real,
    config: SafetyConfig,
    now: int)

  function AfterVerticalRun(db: Database, r: VerticalRequest): Result<Database, Error> {
    if r.caseId >= |db.cases| || r.transaction >= |db.transactions| then Raised(NotFound)
    else match AwaitingAgent(db.cases[r.caseId])
      case Raised(error) => Raised(error)
      case Ok(c) =>
        var verdict := SafetyOf(AgentContext(c, r.caseId, db.transactions[r.transaction].status, r.action), r.config);
        match AfterJudgement(c, r.caseId, verdict, r.action, r.now)
        case Raised(error) => Raised(error)
        case Ok(done) => Ok(SetCase(db.(recommendations := db.recommendations + [Drafted(db, r)]), r.caseId, done))
  }

  /** The decision the agent leaves on file. */
  function Drafted(db: Database, r: VerticalRequest): Recommendation {
    Recommendation(r.caseId, DecisionCount(db.recommendations, r.caseId) + 1, r.action, Some(r.confidence), Valid)
  }

  class CaseTransitionService {
    const session: Session

    constructor (session: Session)
      ensures this.session == session
    {
      this.session := session;
    }

    /** Moves a case by the transition table; when it raises, nothing was written. */
    method Transition(id: nat, to: CaseState) returns (done: Result<nat, Error>)
      requires id < |session.db.cases|
      modifies session`db
      ensures match TableTransition(old(session.db).cases[id], to)
              case Ok(c) => session.db == SetCase(old(session.db), id, c)
                && done == Ok(MaxTransition(old(session.db).cases[id].transitions) + 1)
              case Raised(error) => session.db == old(session.db) && done == Raised(error)
    {
      var c := session.db.cases[id];
      var from := c.state;
      if to !in AllowedTransitions(from) {
        return Raised(InvalidTransition);
      }
      var sequence := MaxTransition(c.transitions) + 1;
      c := c.(state := to);
      c := c.(version := c.version + 1);
      c := c.(transitions := c.transitions + [TransitionRow(sequence, Some(from), to)]);
      if AuditNumberUsed(c.audits, sequence) {
        return Raised(AuditNumberTaken);
      }
      c := c.(audits := c.audits + [AuditRow(sequence, CaseLog.Domain.Lifecycle, Some(from), Some(to))]);
      session.db := SetCase(session.db, id, c);
      done := Ok(sequence);
    }
  }

  class VerticalRecoveryWorkflow {
    const session: Session
    const transitions: CaseTransitionService

    constructor (session: Session)
      ensures this.session == session && transitions.session == session
    {
      this.session := session;
      var lifecycle := new CaseTransitionService(session);
      transitions := lifecycle;
    }

    /** Moves the case to the point where the agent is asked. */
    method AwaitAgent(id: nat) returns (done: Result<(), Error>)
      requires transitions.session == session && id < |session.db.cases|
      modifies session`db
      ensures match AwaitingAgent(old(session.db).cases[id])
              case Ok(c) => session.db == SetCase(old(session.db), id, c) && done == Ok(())
              case Raised(error) => done == Raised(error)
    {
      var ready := transitions.Transition(id, ContextReady);
      if ready.Raised? {
        return Raised(ready.error);
      }
      var awaiting := transitions.Transition(id, AwaitingDecision);
      if awaiting.Raised? {
        return Raised(awaiting.error);
      }
      done := Ok(());
    }

    /** Refuses the action, or plans it and hands the case to verification. */
    method Conclude(id: nat, verdict: SafetyOutcome, action: ActionType, now: int) returns (done: Result<(), Error>)
      requires transitions.session == session && id < |session.db.cases|
      modifies session`db
      ensures match AfterJudgement(old(session.db).cases[id], id, verdict, action, now)
              case Ok(c) => session.db == SetCase(old(session.db), id, c) && done == Ok(())
              case Raised(error) => done == Raised(error)
    {
      if !verdict.Allow? {
        var target := Stopped;
        if verdict.EscalateCase? {
          target := Escalated;
        }
        var refused := transitions.Transition(id, target);
        if refused.Raised? {
          return Raised(refused.error);
        }
        return Ok(());
      }
      var number := |session.db.cases[id].attempts| + 1;
      var pending := transitions.Transition(id, ActionPending);
      if pending.Raised? {
        return Raised(pending.error);
      }
      var c := session.db.cases[id];
      c := c.(attempts := c.attempts + [Attempt(number, Planned, action, Some(now), None, PlanKey(id, number))]);
      session.db := SetCase(session.db, id, c);
      var verifying := transitions.Transition(id, VerificationPending);
      if verifying.Raised? {
        return Raised(verifying.error);
      }
      done := Ok(());
    }

    method Run(r: VerticalRequest) returns (done: Result<(), Error>)
      requires transitions.session == session
      modifies session`db
      ensures match AfterVerticalRun(old(session.db), r)
              case Ok(db) => session.db == db && done == Ok(())
              case Raised(error) => done == Raised(error)
    {
      hide AwaitingAgent, AfterJudgement, SafetyOf;
      if r.caseId >= |session.db.cases| || r.transaction >= |session.db.transactions| {
        return Raised(NotFound);
      }
      var awaiting := AwaitAgent(r.caseId);
      if awaiting.Raised? {
        return Raised(awaiting.error);
      }
      var c := session.db.cases[r.caseId];
      var version := DecisionCount(session.db.recommendations, r.caseId) + 1;
      session.db := session.db.(recommendations := session.db.recommendations
                                  + [Recommendation(r.caseId, version, r.action, Some(r.confidence), Valid)]);
      var verdict := SafetyOf(AgentContext(c, r.caseId, session.db.transactions[r.transaction].status, r.action), r.config);
      done := Conclude(r.caseId, verdict, r.action, r.now);
    }
  }
}
