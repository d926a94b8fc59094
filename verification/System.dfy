/** The whole system: one database and one gateway log, changed by any interleaving of the
    services' calls. A call that raises leaves the database as it was, not the gateway's log. */
module System {
  import opened Domain
  import opened Store
  import EventEngine
  import Ingestion
  import CaseService
  import PolicyRules
  import PolicyEngine
  import Recommendations
  import Workflows
  import Reconciliation
  import Lifecycle

  datatype World = World(db: Database, gateway: seq<Workflows.Submission>)

  const START := World(EMPTY, [])

  datatype Step =
    | RegisterCustomer(customer: Customer)
    | RecordTransaction(transaction: Transaction)
    | RegisterConsent(consent: Consent)
    | RevokeConsent(consentId: nat, now: int)
    | Deliver(delivery: Ingestion.Delivery)
    | OpenCase(opening: CaseService.OpenRequest)
    | OperatorMove(caseId: nat, to: CaseState)
    | EditCase(caseId: nat, priority: Option<int>, metadata: Option<CaseService.MetadataEdit>)
    | Recommend(caseId: nat, action: ActionType, score: real, autoflush: bool)
    | Evaluate(policy: PolicyEngine.PolicyRequest, config: PolicyRules.PolicyConfig, now: int)
    | Transition(caseId: nat, to: CaseState)
    | VerticalRun(request: Lifecycle.VerticalRequest)
    | CreateWorkflow(decisionId: nat)
    | ExecuteNext(workflowId: nat, x: Workflows.Circumstances)
    | ExecuteAll(workflowId: nat, x: Workflows.Circumstances)
    | ReconcileCase(caseId: nat, inquiry: Reconciliation.Inquiry)

  /** The database a call commits: its result, or the old one when it raised. */
  function OrKeep(db: Database, r: Result<Database, Error>): Database {
    match r
    case Ok(after) => after
    case Raised(_) => db
  }

  /** What a call that does not reach the gateway commits. */
  function Commit(db: Database, step: Step): Database
    requires !step.ExecuteNext? && !step.ExecuteAll?
  {
    match step
    case RegisterCustomer(row) => OrKeep(db, CaseService.AfterRegisterCustomer(db, row))
    case RecordTransaction(row) => OrKeep(db, CaseService.AfterRecordTransaction(db, row))
    case RegisterConsent(row) => OrKeep(db, CaseService.AfterRegisterConsent(db, row))
    case RevokeConsent(id, now) => OrKeep(db, CaseService.AfterRevokeConsent(db, id, now))
    case Deliver(d) => Ingestion.Ingest(db, d)
    case OpenCase(r) => OrKeep(db, CaseService.AfterOpen(db, r))
    case OperatorMove(id, to) => OrKeep(db, CaseService.AfterOperatorMove(db, id, to))
    case EditCase(id, priority, metadata) => OrKeep(db, CaseService.AfterEdit(db, id, priority, metadata))
    case Recommend(id, action, score, autoflush) =>
      OrKeep(db, Recommendations.AfterRecommend(db, id, action, score, autoflush))
    case Evaluate(request, config, now) => PolicyEngine.AfterEvaluation(db, request, config, now).0
    case Transition(id, to) => OrKeep(db, Lifecycle.AfterTransition(db, id, to))
    case VerticalRun(r) => OrKeep(db, Lifecycle.AfterVerticalRun(db, r))
    case CreateWorkflow(decision) => OrKeep(db, Workflows.AfterCreateWorkflow(db, decision))
    case ReconcileCase(id, q) => Reconciliation.Reconcile(db, id, q)
  }

  function Execution(w: World, ran: Workflows.Ran): World {
    World(OrKeep(w.db, ran.result), ran.gateway)
  }

  function Apply(w: World, step: Step): World {
    match step
    case ExecuteNext(id, x) => Execution(w, Workflows.AfterNextStep(w.db, w.gateway, id, x))
    case ExecuteAll(id, x) => Execution(w, Workflows.AfterAllSteps(w.db, w.gateway, id, x).ran)
    case _ => w.(db := Commit(w.db, step))
  }

  function Run(w: World, steps: seq<Step>): World
    decreases steps
  {
    if steps == [] then w else Run(Apply(w, steps[0]), steps[1..])
  }

  lemma {:induction false} RunAppend(w: World, a: seq<Step>, b: seq<Step>)
    ensures Run(w, a + b) == Run(Run(w, a), b)
    decreases a
  {
    hide Apply;
    if a == [] {
      assert a + b == b;
    } else {
      assert (a + b)[1..] == a[1..] + b;
      RunAppend(Apply(w, a[0]), a[1..], b);
    }
  }

  lemma RunFirst(w: World, step: Step, rest: seq<Step>)
    ensures Run(w, [step] + rest) == Run(Apply(w, step), rest)
  {
    hide Apply;
    assert ([step] + rest)[1..] == rest;
  }
}
