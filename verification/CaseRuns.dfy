/** Theorems about one case over whole runs: its terminal states, its logs, how many state
    changes it can see, and when its log still tells its state. */
module CaseRuns {
  import opened Domain
  import opened CaseLog
  import opened Store
  import opened System
  import opened Evolution
  import opened Workflows
  import CaseService
  import PolicyEngine
  import Recommendations
  import Reconciliation
  import Lifecycle

  // ----------------------------------------------------------------- one step

  /** Every call but an operator's move, a table transition and a reconciliation. */
  lemma OtherStepsFollow(w: World, step: Step)
    requires !step.OperatorMove? && !step.Transition? && !step.ReconcileCase?
    ensures Follows(w.db, Apply(w, step).db) && w.gateway <= Apply(w, step).gateway
  {
    hide Follows, Ingestion.Ingest, PolicyEngine.AfterEvaluation, Reconciliation.Reconcile;
    hide CaseService.AfterOpen, CaseService.AfterEdit, Recommendations.AfterRecommend, Lifecycle.AfterVerticalRun;
    var db := w.db;
    UnchangedFollows(db);
    match step {
      case Deliver(d) => DeliverFollows(db, d);
      case OpenCase(r) => if CaseService.AfterOpen(db, r).Ok? { OpenFollows(db, r); }
      case EditCase(id, priority, metadata) =>
        if CaseService.AfterEdit(db, id, priority, metadata).Ok? { EditFollows(db, id, priority, metadata); }
      case Recommend(id, action, score, autoflush) =>
        if Recommendations.AfterRecommend(db, id, action, score, autoflush).Ok? {
          RecommendFollows(db, id, action, score, autoflush);
        }
      case Evaluate(request, config, now) => EvaluationFollows(db, request, config, now);
      case VerticalRun(r) => if Lifecycle.AfterVerticalRun(db, r).Ok? { VerticalRunFollows(db, r); }
      case CreateWorkflow(decision) =>
        if AfterCreateWorkflow(db, decision).Ok? { WorkflowAddedFollows(db, AfterCreateWorkflow(db, decision).value); }
      case RegisterCustomer(_) => RegistryFollows(db, Apply(w, step).db);
      case RecordTransaction(_) => RegistryFollows(db, Apply(w, step).db);
      case RegisterConsent(_) => RegistryFollows(db, Apply(w, step).db);
      case RevokeConsent(_, _) => RegistryFollows(db, Apply(w, step).db);
      case ExecuteNext(_, _) => ExecutionFollows(w, step);
      case ExecuteAll(_, _) => ExecutionFollows(w, step);
    }
  }

  lemma ExecutionFollows(w: World, step: Step)
    requires step.ExecuteNext? || step.ExecuteAll?
    ensures Follows(w.db, Apply(w, step).db) && w.gateway <= Apply(w, step).gateway
  {
    hide Follows, AfterNextStep, AfterAllSteps;
    UnchangedFollows(w.db);
    if step.ExecuteNext? {
      GatewayOnlyGrows(w.db, w.gateway, step.workflowId, step.x);
      if AfterNextStep(w.db, w.gateway, step.workflowId, step.x).result.Ok? {
        NextStepFollows(w.db, w.gateway, step.workflowId, step.x);
      }
    } else {
      AllStepsFollow(w.db, w.gateway, step.workflowId, step.x);
    }
  }

  lemma RegistryFollows(a: Database, b: Database)
    requires a.customers <= b.customers && a.transactions <= b.transactions && |a.consents| <= |b.consents|
    requires b == a.(customers := b.customers, transactions := b.transactions, consents := b.consents,
                     recommendations := b.recommendations)
    ensures Follows(a, b)
  {
  }

  lemma WorkflowAddedFollows(a: Database, b: Database)
    requires a.workflows <= b.workflows && b == a.(workflows := b.workflows)
    ensures Follows(a, b)
  {
  }

  /** Every call leaves a database that evolved from the one it found, and opens cases properly. */
  lemma StepEvolves(w: World, step: Step)
    ensures Evolves(w.db, Apply(w, step).db) && NewCasesAreOpened(w.db, Apply(w, step).db)
    ensures w.gateway <= Apply(w, step).gateway
  {
    hide CaseService.AfterOperatorMove, Lifecycle.AfterTransition, Reconciliation.AfterReconcile;
    hide AfterNextStep, AfterAllSteps, Ingestion.Ingest, PolicyEngine.AfterEvaluation, Lifecycle.AfterVerticalRun;
    UnchangedFollows(w.db);
    match step {
      case OperatorMove(id, to) =>
        if CaseService.AfterOperatorMove(w.db, id, to).Ok? { OperatorMoveEvolves(w.db, id, to); }
      case Transition(id, to) =>
        if Lifecycle.AfterTransition(w.db, id, to).Ok? { TransitionFollows(w.db, id, to); }
      case ReconcileCase(id, q) =>
        if Reconciliation.AfterReconcile(w.db, id, q).Ok? { ReconcileEvolves(w.db, id, q); }
      case _ => OtherStepsFollow(w, step);
    }
  }

  predicate MovedByOperator(db: Database, step: Step, j: nat) {
    step.OperatorMove? && step.caseId == j && CaseService.AfterOperatorMove(db, j, step.to).Ok?
  }

  predicate SettledDirectly(db: Database, step: Step, j: nat) {
    step.ReconcileCase? && step.caseId == j && SettlesDirectly(db, j, step.inquiry)
  }

  predicate ReopenedByTable(db: Database, step: Step, j: nat) {
    step.Transition? && step.caseId == j && step.to.RetryEligible? && Lifecycle.AfterTransition(db, j, step.to).Ok?
  }

  predicate ReopenedByRefusal(db: Database, step: Step, j: nat) {
    && step.ReconcileCase? && step.caseId == j && ReopensByRefusal(db, j, step.inquiry)
    && Reconciliation.AfterReconcile(db, j, step.inquiry).Ok?
  }

  /** What one call can do to one case: assign Recovered directly, move it by hand, reopen it,
      or follow the lifecycle. */
  lemma StepOnCase(w: World, step: Step, j: nat)
    requires j < |w.db.cases| && LogsOk(w.db.cases[j])
    ensures j < |Apply(w, step).db.cases|
    ensures var c, d := w.db.cases[j], Apply(w, step).db.cases[j];
      && CaseEvolves(c, d)
      && (if SettledDirectly(w.db, step, j) then
            d.state.Recovered? && d.transitions == c.transitions
          else if MovedByOperator(w.db, step, j) then
            !Terminal(c.state) && (Replays(c) ==> Replays(d))
          else if ReopenedByTable(w.db, step, j) then CaseReopens(c, d)
          else if ReopenedByRefusal(w.db, step, j) then
            CaseReopens(c, d) && TriggerHas(w.db, c, TxPending) && !TriggerHas(Apply(w, step).db, d, TxPending)
          else CaseFollows(c, d))
  {
    hide CaseEvolves, Replays, AfterNextStep, AfterAllSteps, Ingestion.Ingest, PolicyEngine.AfterEvaluation;
    hide Reconciliation.AfterReconcile, CaseService.AfterOperatorMove, Lifecycle.AfterTransition;
    if step.ReconcileCase? {
      ReconcileOnCase(w.db, step.caseId, step.inquiry, j);
    } else if step.OperatorMove? || step.Transition? {
      MoveOnCase(w.db, step, j);
    } else {
      OtherStepsFollow(w, step);
    }
  }

  lemma MoveOnCase(db: Database, step: Step, j: nat)
    requires j < |db.cases| && (step.OperatorMove? || step.Transition?)
    ensures var after := Commit(db, step);
      && |after.cases| == |db.cases| && CaseEvolves(db.cases[j], after.cases[j])
      && (if MovedByOperator(db, step, j) then
            !Terminal(db.cases[j].state) && (Replays(db.cases[j]) ==> Replays(after.cases[j]))
          else if ReopenedByTable(db, step, j) then CaseReopens(db.cases[j], after.cases[j])
          else CaseFollows(db.cases[j], after.cases[j]))
  {
    hide Replays, Ingestion.Ingest, PolicyEngine.AfterEvaluation, Reconciliation.Reconcile, Lifecycle.AfterVerticalRun;
    hide Apply;
    UnchangedFollows(db);
    match step {
      case OperatorMove(id, to) =>
        if CaseService.AfterOperatorMove(db, id, to).Ok? { OperatorMoveEvolves(db, id, to); }
      case Transition(id, to) =>
        if Lifecycle.AfterTransition(db, id, to).Ok? { TransitionFollows(db, id, to); }
    }
  }

  lemma ReconcileOnCase(db: Database, id: nat, q: Reconciliation.Inquiry, j: nat)
    requires j < |db.cases| && LogsOk(db.cases[j])
    ensures var after := Reconciliation.Reconcile(db, id, q);
      && |after.cases| == |db.cases| && CaseEvolves(db.cases[j], after.cases[j])
      && (if id == j && SettlesDirectly(db, j, q) then
            after.cases[j].state.Recovered? && after.cases[j].transitions == db.cases[j].transitions
          else if id == j && ReopensByRefusal(db, j, q) && Reconciliation.AfterReconcile(db, j, q).Ok? then
            CaseReopens(db.cases[j], after.cases[j])
            && TriggerHas(db, db.cases[j], TxPending) && !TriggerHas(after, after.cases[j], TxPending)
          else CaseFollows(db.cases[j], after.cases[j]))
  {
    UnchangedFollows(db);
    if Reconciliation.AfterReconcile(db, id, q).Ok? {
      ReconcileEvolves(db, id, q);
    }
  }

  // -------------------------------------------------------------- whole runs

  /** Every run leaves a database that evolved from the one it started on. */
  lemma {:induction false} RunEvolves(w: World, steps: seq<Step>)
    ensures Evolves(w.db, Run(w, steps).db) && w.gateway <= Run(w, steps).gateway
    decreases steps
  {
    hide Apply;
    if steps == [] {
      UnchangedFollows(w.db);
    } else {
      StepEvolves(w, steps[0]);
      RunEvolves(Apply(w, steps[0]), steps[1..]);
      EvolvesTransitively(w.db, Apply(w, steps[0]).db, Run(w, steps).db);
    }
  }

  /** Terminal states absorb: whatever the services do, a recovered case ends recovered or
      closed, a closed one closed, and a stopped one recovered, stopped or closed. */
  lemma TerminalStatesAbsorb(w: World, steps: seq<Step>, id: nat)
    requires id < |w.db.cases|
    ensures id < |Run(w, steps).db.cases|
    ensures var s, t := w.db.cases[id].state, Run(w, steps).db.cases[id].state;
      && (Terminal(s) ==> Terminal(t))
      && (s.Recovered? ==> t.Recovered? || t.Closed?)
      && (s.Closed? ==> t.Closed?)
  {
    hide Apply;
    RunEvolves(w, steps);
  }

  predicate AllLogged(db: Database) {
    forall j :: 0 <= j < |db.cases| ==> LogsOk(db.cases[j]) && AttemptsNumbered(db.cases[j].attempts)
  }

  lemma StepKeepsLogged(w: World, step: Step)
    requires AllLogged(w.db)
    ensures AllLogged(Apply(w, step).db)
  {
    hide Apply;
    StepEvolves(w, step);
    EvolvingKeepsLogged(w.db, Apply(w, step).db);
  }

  lemma EvolvingKeepsLogged(a: Database, b: Database)
    requires AllLogged(a) && Evolves(a, b) && NewCasesAreOpened(a, b)
    ensures AllLogged(b)
  {
    forall j | 0 <= j < |b.cases| ensures LogsOk(b.cases[j]) && AttemptsNumbered(b.cases[j].attempts) {
      if j < |a.cases| {
        assert CaseEvolves(a.cases[j], b.cases[j]);
      } else {
        assert JustOpened(b.cases[j]);
      }
    }
  }

  /** In every run both logs of every case are numbered 1..n, the attempts too, and no
      transition lacks its audit row. */
  lemma {:induction false} LogsStayNumbered(w: World, steps: seq<Step>)
    requires AllLogged(w.db)
    ensures AllLogged(Run(w, steps).db)
    decreases steps
  {
    hide Apply;
    if steps != [] {
      StepKeepsLogged(w, steps[0]);
      LogsStayNumbered(Apply(w, steps[0]), steps[1..]);
    }
  }

  /** After any run, a table transition commits exactly when the table allows the move and the
      case's two logs are equally long. */
  lemma TransitionCommitsExactly(steps: seq<Step>, id: nat, to: CaseState)
    ensures var db := Run(START, steps).db;
      Lifecycle.AfterTransition(db, id, to).Ok? <==>
        id < |db.cases| && to in AllowedTransitions(db.cases[id].state) && Gap(db.cases[id]) == 0
  {
    hide Apply;
    LogsStayNumbered(START, steps);
    var db := Run(START, steps).db;
    if id < |db.cases| {
      TableTransitionCommits(db.cases[id], to);
    }
  }

  /** Once a case has an audit row without a transition, no table transition of it ever commits
      again, in any continuation of any run. */
  lemma UnevenLogsLockTheTable(before: seq<Step>, later: seq<Step>, id: nat, to: CaseState)
    requires id < |Run(START, before).db.cases| && Gap(Run(START, before).db.cases[id]) != 0
    ensures Lifecycle.AfterTransition(Run(START, before + later).db, id, to).Raised?
  {
    hide Apply;
    RunAppend(START, before, later);
    LogsStayNumbered(START, before);
    RunEvolves(Run(START, before), later);
    TransitionCommitsExactly(before + later, id, to);
  }

  lemma UnevenLogsBlock(db: Database, id: nat, to: CaseState)
    requires id < |db.cases| && LogsOk(db.cases[id]) && Gap(db.cases[id]) != 0
    ensures Lifecycle.AfterTransition(db, id, to).Raised?
  {
    TableTransitionCommits(db.cases[id], to);
  }

  lemma UnevenLogsBlockFromHere(w: World, later: seq<Step>, id: nat, to: CaseState)
    requires AllLogged(w.db) && id < |w.db.cases| && Gap(w.db.cases[id]) != 0
    ensures Lifecycle.AfterTransition(Run(w, later).db, id, to).Raised?
  {
    hide Apply, Run;
    LogsStayNumbered(w, later);
    RunEvolves(w, later);
    UnevenLogsBlock(Run(w, later).db, id, to);
  }

  /** A recommendation that commits is such an audit row: it locks the table for its case. */
  lemma RecommendationLocksTheTable(before: seq<Step>, later: seq<Step>, id: nat, action: ActionType, score: real,
                                    autoflush: bool, to: CaseState)
    requires Recommendations.AfterRecommend(Run(START, before).db, id, action, score, autoflush).Ok?
    ensures var advise := Recommend(id, action, score, autoflush);
      Lifecycle.AfterTransition(Run(START, before + ([advise] + later)).db, id, to).Raised?
  {
    hide Run, Lifecycle.AfterTransition;
    var w := Run(START, before);
    LogsStayNumbered(START, before);
    RunAppend(START, before, [Recommend(id, action, score, autoflush)] + later);
    RunFirst(w, Recommend(id, action, score, autoflush), later);
    StepKeepsLogged(w, Recommend(id, action, score, autoflush));
    UnevenLogsBlockFromHere(Apply(w, Recommend(id, action, score, autoflush)), later, id, to);
  }

  // ------------------------------------------------------------------- replay

  /** Whether some step of the run settles the case by a direct assignment. */
  predicate SettledInRun(w: World, steps: seq<Step>, id: nat)
    decreases steps
  {
    steps != [] && (SettledDirectly(w.db, steps[0], id) || SettledInRun(Apply(w, steps[0]), steps[1..], id))
  }

  lemma {:induction false} UnloggedStays(w: World, steps: seq<Step>, id: nat)
    requires id < |w.db.cases| && LogsOk(w.db.cases[id]) && Unlogged(w.db.cases[id])
    ensures id < |Run(w, steps).db.cases| && Unlogged(Run(w, steps).db.cases[id])
    decreases steps
  {
    hide Apply;
    if steps != [] {
      StepOnCase(w, steps[0], id);
      UnloggedStays(Apply(w, steps[0]), steps[1..], id);
    }
  }

  lemma {:induction false} LogReplaysUnlessSettled(w: World, steps: seq<Step>, id: nat)
    requires id < |w.db.cases| ==> LogsOk(w.db.cases[id]) && Replays(w.db.cases[id])
    requires id < |Run(w, steps).db.cases|
    ensures Replays(Run(w, steps).db.cases[id]) <==> !SettledInRun(w, steps, id)
    decreases steps
  {
    hide Apply;
    if steps != [] {
      var next := Apply(w, steps[0]);
      StepEvolves(w, steps[0]);
      if id < |w.db.cases| {
        StepOnCase(w, steps[0], id);
      }
      if SettledDirectly(w.db, steps[0], id) {
        UnloggedStays(next, steps[1..], id);
      } else {
        LogReplaysUnlessSettled(next, steps[1..], id);
      }
    }
  }

  /** In every run of all the services, a case's transition log, chained from Detected, leads to
      its current state exactly when no reconciliation settled it by direct assignment. */
  lemma LogReplaysExactly(steps: seq<Step>, id: nat)
    requires id < |Run(START, steps).db.cases|
    ensures Replays(Run(START, steps).db.cases[id]) <==> !SettledInRun(START, steps, id)
  {
    hide Apply;
    LogReplaysUnlessSettled(START, steps, id);
  }
}
