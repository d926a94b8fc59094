/** What one executed step can change: its own status, its workflow's status and its case. */
module WorkflowSteps {
  import opened Domain
  import opened CaseLog
  import opened Store
  import opened Workflows

  /** The tables workflow execution never writes. */
  predicate ExecutionFrame(a: Database, b: Database) {
    && b.ledger == a.ledger && b.customers == a.customers && b.transactions == a.transactions
    && b.consents == a.consents && b.recommendations == a.recommendations && b.decisions == a.decisions
    && a.executions <= b.executions
  }

  predicate Located(db: Database, id: nat, k: nat) {
    id < |db.workflows| && k < |db.workflows[id].steps| && db.workflows[id].caseId < |db.cases|
  }

  /** From `a` to `b` only step `k` of workflow `id` and that workflow's case changed. */
  predicate OnlyStep(a: Database, b: Database, id: nat, k: nat)
    requires Located(a, id, k)
  {
    var w := a.workflows[id];
    && ExecutionFrame(a, b)
    && |b.workflows| == |a.workflows| && |b.workflows[id].steps| == |w.steps|
    && b.workflows == a.workflows[id := Marked(w, k, b.workflows[id].steps[k].status, b.workflows[id].status)]
    && |b.cases| == |a.cases|
    && b.cases == a.cases[w.caseId := b.cases[w.caseId]]
    && CaseFollows(a.cases[w.caseId], b.cases[w.caseId])
    && b.cases[w.caseId].failureCount == a.cases[w.caseId].failureCount
    && (Audited(a.cases[w.caseId]) ==> Audited(b.cases[w.caseId]))
  }

  lemma OnlyStepTransitive(a: Database, b: Database, c: Database, id: nat, k: nat)
    requires Located(a, id, k) && OnlyStep(a, b, id, k) && OnlyStep(b, c, id, k)
    ensures OnlyStep(a, c, id, k)
  {
    var w, v := a.workflows[id], b.workflows[id];
    var u := Marked(v, k, c.workflows[id].steps[k].status, c.workflows[id].status);
    assert u.steps == w.steps[k := w.steps[k].(status := c.workflows[id].steps[k].status)];
    assert b.workflows[id := u] == a.workflows[id := u];
  }

  lemma MarkIsOnlyStep(db: Database, id: nat, k: nat, step: StepStatus, status: WorkflowStatus)
    requires Located(db, id, k)
    ensures OnlyStep(db, Mark(db, id, k, step, status), id, k)
  {
  }

  lemma MoveIsOnlyStep(db: Database, id: nat, k: nat, to: CaseState)
    requires Located(db, id, k) && MoveCase(db, db.workflows[id].caseId, to).Ok? && !to.RetryEligible?
    ensures OnlyStep(db, MoveCase(db, db.workflows[id].caseId, to).value, id, k)
    ensures MoveCase(db, db.workflows[id].caseId, to).value.workflows == db.workflows
    ensures MoveCase(db, db.workflows[id].caseId, to).value.executions == db.executions
  {
    TableFollows(db.cases[db.workflows[id].caseId], to);
    TableTells(db.cases[db.workflows[id].caseId], to);
    var w := db.workflows[id];
    assert w.steps == w.steps[k := w.steps[k].(status := w.steps[k].status)];
    assert db.workflows == db.workflows[id := Marked(w, k, w.steps[k].status, w.status)];
  }

  lemma ReplyIsOnlyStep(db: Database, id: nat, k: nat, x: Circumstances)
    requires Located(db, id, k)
    ensures OnlyStep(db, AfterReply(db, id, k, x), id, k)
  {
  }

  lemma ValidateIsOnlyStep(db: Database, id: nat, k: nat, x: Circumstances)
    requires Located(db, id, k) && AfterValidate(db, id, k, x).Ok?
    ensures var after := AfterValidate(db, id, k, x).value;
      && OnlyStep(db, after, id, k)
      && after.executions == db.executions
      && (if Revalidate(db, db.workflows[id].caseId, db.workflows[id].steps[k].action, x.now).Allowed? then
            after == Mark(db, id, k, StCompleted, db.workflows[id].status)
          else
            after.workflows == Mark(db, id, k, StFailed, WfFailed).workflows)
  {
    var w := db.workflows[id];
    if !Revalidate(db, w.caseId, w.steps[k].action, x.now).Allowed? {
      var marked := Mark(db, id, k, StFailed, WfFailed);
      MarkIsOnlyStep(db, id, k, StFailed, WfFailed);
      MoveIsOnlyStep(marked, id, k, RefusalTarget(Revalidate(db, w.caseId, w.steps[k].action, x.now)));
      OnlyStepTransitive(db, marked, AfterValidate(db, id, k, x).value, id, k);
    } else {
      MarkIsOnlyStep(db, id, k, StCompleted, w.status);
    }
  }

  /** Whether a dispatch gets as far as the gateway. */
  predicate Dispatches(db: Database, caseId: nat, now: int) {
    Revalidate(db, caseId, RetryPayment, now).Allowed? && PartiesPresent(db, db.cases[caseId])
  }

  lemma DispatchIsOnlyStep(db: Database, gateway: seq<Submission>, id: nat, k: nat, x: Circumstances)
    requires Located(db, id, k) && AfterDispatch(db, gateway, id, k, x).result.Ok?
    ensures var after := AfterDispatch(db, gateway, id, k, x).result.value;
      && OnlyStep(db, after, id, k)
      && (if Dispatches(db, db.workflows[id].caseId, x.now) then
            after.workflows == AfterReply(db, id, k, x).workflows && after.executions == AfterReply(db, id, k, x).executions
          else
            after == Mark(db, id, k, StFailed, WfFailed))
  {
    var w := db.workflows[id];
    var c := db.cases[w.caseId];
    if Dispatches(db, w.caseId, x.now) {
      var recorded := AfterReply(db, id, k, x);
      var move := MoveAfterReply(x.reply.status, |c.attempts|, x.reloaded);
      ReplyIsOnlyStep(db, id, k, x);
      if move.Some? {
        MoveIsOnlyStep(recorded, id, k, move.value);
        OnlyStepTransitive(db, recorded, MoveCase(recorded, w.caseId, move.value).value, id, k);
      }
    } else {
      MarkIsOnlyStep(db, id, k, StFailed, WfFailed);
    }
  }

  /** A step that ran changed nothing beyond itself, its workflow's status and its case, and is
      not ready any more. */
  lemma NextStepIsOnlyStep(db: Database, gateway: seq<Submission>, id: nat, x: Circumstances, k: nat)
    requires id < |db.workflows| && FirstReady(db.workflows[id].steps) == Some(k)
    requires AfterNextStep(db, gateway, id, x).result.Ok?
    ensures var after := AfterNextStep(db, gateway, id, x).result.value;
      Located(db, id, k) && OnlyStep(db, after, id, k) && !Ready(after.workflows[id].steps[k])
  {
    hide Audited;
    var running := Mark(db, id, k, StRunning, WfRunning);
    MarkIsOnlyStep(db, id, k, StRunning, WfRunning);
    var after := AfterNextStep(db, gateway, id, x).result.value;
    match db.workflows[id].steps[k].kind {
      case ValidateAuthorization => ValidateIsOnlyStep(running, id, k, x);
      case DispatchPaymentRetry => DispatchIsOnlyStep(running, gateway, id, k, x);
      case AwaitVerification => MarkIsOnlyStep(running, id, k, StWaiting, WfWaiting);
      case WaitCooldown => MarkIsOnlyStep(running, id, k, StCompleted, WfRunning);
      case DispatchCommunication => MarkIsOnlyStep(running, id, k, StCompleted, WfRunning);
      case CreateSupportTask => MarkIsOnlyStep(running, id, k, StCompleted, WfRunning);
    }
    OnlyStepTransitive(db, running, after, id, k);
  }

  // ------------------------------------------------------- the loop's measure

  function ReadyCount(steps: seq<WorkflowStep>): nat {
    if steps == [] then 0
    else ReadyCount(steps[..|steps| - 1]) + (if Ready(steps[|steps| - 1]) then 1 else 0)
  }

  lemma {:induction false} ReadyCountDrops(steps: seq<WorkflowStep>, k: nat, step: WorkflowStep)
    requires k < |steps| && Ready(steps[k]) && !Ready(step)
    ensures ReadyCount(steps[k := step]) == ReadyCount(steps) - 1
  {
    var last := |steps| - 1;
    if k < last {
      ReadyCountDrops(steps[..last], k, step);
      assert steps[k := step][..last] == steps[..last][k := step];
    } else {
      assert steps[k := step][..last] == steps[..last];
    }
  }

  lemma {:induction false} ReadyCountBound(steps: seq<WorkflowStep>)
    ensures ReadyCount(steps) <= |steps|
  {
    if steps != [] {
      ReadyCountBound(steps[..|steps| - 1]);
    }
  }

  /** A round that asks for another has one ready step fewer to offer it. */
  lemma RoundConsumesAStep(db: Database, gateway: seq<Submission>, id: nat, x: Circumstances)
    requires AfterRound(db, gateway, id, x).Continues?
    ensures ReadyCount(AfterRound(db, gateway, id, x).db.workflows[id].steps) == ReadyCount(db.workflows[id].steps) - 1
  {
    var steps := db.workflows[id].steps;
    var k := FirstReady(steps).value;
    NextStepIsOnlyStep(db, gateway, id, x, k);
    ReadyCountDrops(steps, k, AfterRound(db, gateway, id, x).db.workflows[id].steps[k]);
  }

  function ReadyIn(id: nat): Database -> nat {
    (db: Database) => if id < |db.workflows| then ReadyCount(db.workflows[id].steps) else 0
  }

  /** A loop whose rounds consume a measure, given more iterations than it has left, stops by
      its own conditions, and how many more does not matter. */
  lemma {:induction false} LoopStopsByItself(round: (Database, seq<Submission>) -> Round, measure: Database -> nat,
                                             db: Database, gateway: seq<Submission>, m: nat, n: nat)
    requires m > measure(db) && n > measure(db)
    requires forall d, g :: round(d, g).Continues? ==> measure(round(d, g).db) < measure(d)
    requires forall d, g :: round(d, g).Ends? ==> !round(d, g).all.stop.CapReached?
    ensures !Loop(round, db, gateway, m).stop.CapReached?
    ensures Loop(round, db, gateway, m) == Loop(round, db, gateway, n)
    decreases m
  {
    var next := round(db, gateway);
    if next.Continues? {
      LoopStopsByItself(round, measure, next.db, next.gateway, m - 1, n - 1);
    }
  }

  lemma LoopUnfolds(round: (Database, seq<Submission>) -> Round, db: Database, gateway: seq<Submission>, n: nat)
    ensures Loop(round, db, gateway, n + 1) ==
              if round(db, gateway).Ends? then round(db, gateway).all
              else Loop(round, round(db, gateway).db, round(db, gateway).gateway, n)
  {
  }

  lemma RoundsConsumeSteps(id: nat, x: Circumstances)
    ensures forall d, g :: RoundOf(id, x)(d, g).Continues? ==> ReadyIn(id)(RoundOf(id, x)(d, g).db) < ReadyIn(id)(d)
    ensures forall d, g :: RoundOf(id, x)(d, g).Ends? ==> !RoundOf(id, x)(d, g).all.stop.CapReached?
  {
    forall d, g | RoundOf(id, x)(d, g).Continues? ensures ReadyIn(id)(RoundOf(id, x)(d, g).db) < ReadyIn(id)(d) {
      RoundConsumesAStep(d, g, id, x);
    }
  }

  /** The iteration cap of two more than the number of steps never ends a run, and no larger
      cap would change what a run does. */
  lemma CapIsNeverReached(db: Database, gateway: seq<Submission>, id: nat, x: Circumstances, cap: nat)
    requires id < |db.workflows| ==> cap >= |db.workflows[id].steps| + 2
    ensures !AfterAllSteps(db, gateway, id, x).stop.CapReached?
    ensures id < |db.workflows| ==> AfterAllSteps(db, gateway, id, x) == Loop(RoundOf(id, x), db, gateway, cap)
  {
    if id < |db.workflows| {
      ReadyCountBound(db.workflows[id].steps);
      RoundsConsumeSteps(id, x);
      LoopStopsByItself(RoundOf(id, x), ReadyIn(id), db, gateway, |db.workflows[id].steps| + 2, cap);
    }
  }

  /** The state a loop ends in is its last round's, and whatever the rounds keep holds there. */
  lemma {:induction false} LoopKeeps(round: (Database, seq<Submission>) -> Round, inv: (Database, seq<Submission>) -> bool,
                                     db: Database, gateway: seq<Submission>, n: nat)
    returns (d: Database, g: seq<Submission>)
    requires inv(db, gateway)
    requires forall d, g :: inv(d, g) && round(d, g).Continues? ==> inv(round(d, g).db, round(d, g).gateway)
    ensures inv(d, g)
    ensures var all := Loop(round, db, gateway, n);
      all == RanAll(Ran(Ok(d), g), CapReached) || round(d, g) == Ends(all)
    decreases n
  {
    if n > 0 && round(db, gateway).Continues? {
      d, g := LoopKeeps(round, inv, round(db, gateway).db, round(db, gateway).gateway, n - 1);
    } else {
      d, g := db, gateway;
    }
  }
}
