/** The execution service step by step: the payment adapter with its idempotency store, the
    executors of each kind of step, and the loop over the available steps. */
module Execution {
  import opened Domain
  import opened CaseLog
  import opened Store
  import opened Workflows
  import opened WorkflowSteps
  import Lifecycle

  /** The provider's side: the requests it received. No rollback reaches it. */
  class Gateway {
    var log: seq<Submission>

    constructor (log: seq<Submission>)
      ensures this.log == log
    {
      this.log := log;
    }
  }

  class PaymentAdapter {
    const gateway: Gateway
    var submissions: map<(nat, nat), Reply>

    constructor (gateway: Gateway)
      ensures this.gateway == gateway && submissions == map[]
    {
      this.gateway := gateway;
      submissions := map[];
    }

    /** A step's key reaches the gateway once; after that the stored reply is given again. */
    method SubmitRetry(request: Submission) returns (reply: Reply)
      modifies this`submissions, gateway
      ensures var key := (request.workflow, request.step);
        if key in old(submissions) then
          reply == old(submissions)[key] && submissions == old(submissions) && gateway.log == old(gateway.log)
        else
          && reply == request.reply
          && submissions == old(submissions)[key := reply]
          && gateway.log == old(gateway.log) + [request]
    {
      var key := (request.workflow, request.step);
      if key in submissions {
        return submissions[key];
      }
      gateway.log := gateway.log + [request];
      reply := request.reply;
      submissions := submissions[key := reply];
    }
  }

  /** Every step the adapter holds a reply for has been executed. */
  predicate Spent(submissions: map<(nat, nat), Reply>, workflows: seq<Workflow>) {
    forall key <- submissions ::
      key.0 < |workflows| && key.1 < |workflows[key.0].steps| && !Ready(workflows[key.0].steps[key.1])
  }

  /** The function is the round of this workflow under these circumstances. */
  ghost predicate Computes(round: (Database, seq<Submission>) -> Round, id: nat, x: Circumstances) {
    forall d, g {:trigger AfterRound(d, g, id, x)} :: round(d, g) == AfterRound(d, g, id, x)
  }

  /** What a round leaves behind: whether another is due, or the exception it raised. */
  predicate RoundRan(round: Round, db: Database, log: seq<Submission>, more: Result<bool, Error>) {
    match round
    case Continues(after, gateway) => log == gateway && db == after && more == Ok(true)
    case Ends(all) =>
      && log == all.ran.gateway
      && match all.ran.result
         case Ok(after) => db == after && more == Ok(false)
         case Raised(error) => more == Raised(error)
  }

  class WorkflowExecutionService {
    const session: Session
    const adapter: PaymentAdapter
    const transitions: Lifecycle.CaseTransitionService

    constructor (session: Session, adapter: PaymentAdapter)
      ensures this.session == session && this.adapter == adapter && transitions.session == session
    {
      this.session := session;
      this.adapter := adapter;
      var lifecycle := new Lifecycle.CaseTransitionService(session);
      transitions := lifecycle;
    }

    method ExecuteValidateAuthorization(id: nat, k: nat, x: Circumstances) returns (done: Result<(), Error>)
      requires transitions.session == session
      requires id < |session.db.workflows| && k < |session.db.workflows[id].steps|
      requires session.db.workflows[id].caseId < |session.db.cases|
      modifies session`db
      ensures match AfterValidate(old(session.db), id, k, x)
              case Ok(db) => done == Ok(()) && session.db == db
              case Raised(error) => done == Raised(error)
    {
      var w := session.db.workflows[id];
      var verdict := Revalidate(session.db, w.caseId, w.steps[k].action, x.now);
      if !verdict.Allowed? {
        session.db := Mark(session.db, id, k, StFailed, WfFailed);
        var target := Stopped;
        if verdict.UnresolvedUnknownOutcome? {
          target := Escalated;
        }
        var moved := transitions.Transition(w.caseId, target);
        if moved.Raised? {
          return Raised(moved.error);
        }
        return Ok(());
      }
      session.db := Mark(session.db, id, k, StCompleted, w.status);
      done := Ok(());
    }

    /** Writes what a reply means into the step, the workflow and the newest attempt. */
    method RecordOutcome(id: nat, k: nat, reply: Reply, x: Circumstances) returns (target: Option<CaseState>)
      requires id < |session.db.workflows| && k < |session.db.workflows[id].steps|
      requires session.db.workflows[id].status.WfRunning?
      requires session.db.workflows[id].caseId < |session.db.cases|
      requires session.db.cases[session.db.workflows[id].caseId].attempts != []
      modifies session`db
      ensures session.db == WithOutcome(old(session.db), id, k, reply.status)
      ensures var c := old(session.db).cases[old(session.db).workflows[id].caseId];
        target == MoveAfterReply(reply.status, |c.attempts| - 1, x.reloaded)
    {
      var w := session.db.workflows[id];
      var c := session.db.cases[w.caseId];
      var attempt := c.attempts[|c.attempts| - 1];
      target := None;
      match reply.status {
        case ExSubmitted =>
          w := Marked(w, k, StCompleted, w.status);
          attempt := attempt.(status := Started);
          target := Some(VerificationPending);
        case ExSucceeded =>
          w := Marked(w, k, StCompleted, w.status);
          attempt := attempt.(status := AttemptSucceeded);
          target := Some(VerificationPending);
        case ExUnknown =>
          w := Marked(w, k, StFailed, WfRequiresReview);
          attempt := attempt.(status := Uncertain);
          target := Some(Escalated);
        case ExFailed =>
          w := Marked(w, k, StFailed, WfFailed);
          attempt := attempt.(status := AttemptFailed);
          if (if x.reloaded then |c.attempts| else |c.attempts| - 1) >= MAX_ATTEMPTS {
            target := Some(Stopped);
          }
      }
      session.db := SetWorkflow(session.db, id, w);
      session.db := SetCase(session.db, w.caseId, c.(attempts := c.attempts[|c.attempts| - 1 := attempt]));
    }

    /** Files the attempt, calls the gateway and files the execution. */
    method SubmitAttempt(id: nat, k: nat, x: Circumstances) returns (reply: Reply)
      requires id < |session.db.workflows| && session.db.workflows[id].caseId < |session.db.cases|
      requires (id, k) !in adapter.submissions
      modifies session`db, adapter`submissions, adapter.gateway
      ensures reply == x.reply
      ensures var caseId := old(session.db).workflows[id].caseId;
        var sent := BeforeSubmit(old(session.db), caseId, x.now);
        && session.db == sent.(executions := sent.executions + [Execution(id, k, caseId, reply.status, reply.reference, x.now)])
        && adapter.gateway.log == old(adapter.gateway.log) + [Submission(id, k, caseId, x.now, sent, x.reply)]
      ensures adapter.submissions.Keys <= old(adapter.submissions).Keys + {(id, k)}
    {
      var caseId := session.db.workflows[id].caseId;
      var c := session.db.cases[caseId];
      var number := |c.attempts| + 1;
      var attempt := Attempt(number, Started, RetryPayment, Some(x.now), None, RetryKey(caseId, number));
      session.db := SetCase(session.db, caseId, c.(attempts := c.attempts + [attempt]));
      reply := adapter.SubmitRetry(Submission(id, k, caseId, x.now, session.db, x.reply));
      session.db := session.db.(executions := session.db.executions
                                              + [Execution(id, k, caseId, reply.status, reply.reference, x.now)]);
    }

    method ExecuteDispatchPaymentRetry(id: nat, k: nat, x: Circumstances) returns (done: Result<(), Error>)
      requires transitions.session == session
      requires id < |session.db.workflows| && k < |session.db.workflows[id].steps|
      requires session.db.workflows[id].caseId < |session.db.cases|
      requires session.db.workflows[id].status.WfRunning? && (id, k) !in adapter.submissions
      modifies session`db, adapter`submissions, adapter.gateway
      ensures var ran := AfterDispatch(old(session.db), old(adapter.gateway.log), id, k, x);
        && adapter.gateway.log == ran.gateway
        && match ran.result
           case Ok(db) => done == Ok(()) && session.db == db
           case Raised(error) => done == Raised(error)
      ensures adapter.submissions.Keys <= old(adapter.submissions).Keys + {(id, k)}
    {
      ghost var before := session.db;
      var w := session.db.workflows[id];
      var verdict := Revalidate(session.db, w.caseId, RetryPayment, x.now);
      var c := session.db.cases[w.caseId];
      if !verdict.Allowed? || c.trigger >= |session.db.transactions| || c.customer >= |session.db.customers| {
        session.db := Mark(session.db, id, k, StFailed, WfFailed);
        return Ok(());
      }
      var reply := SubmitAttempt(id, k, x);
      var target := RecordOutcome(id, k, reply, x);
      OutcomeIsReply(before, id, k, x);
      if target.Some? {
        var moved := transitions.Transition(w.caseId, target.value);
        if moved.Raised? {
          return Raised(moved.error);
        }
      }
      done := Ok(());
    }

    /** Executes the step that was just marked running, by its kind. */
    method ExecuteStep(id: nat, k: nat, x: Circumstances) returns (done: Result<(), Error>)
      requires transitions.session == session && Located(session.db, id, k)
      requires session.db.workflows[id].status.WfRunning? && (id, k) !in adapter.submissions
      modifies session`db, adapter`submissions, adapter.gateway
      ensures var ran := AfterStep(old(session.db), old(adapter.gateway.log), id, k, x);
        && adapter.gateway.log == ran.gateway
        && match ran.result
           case Ok(db) => done == Ok(()) && session.db == db
           case Raised(error) => done == Raised(error)
      ensures adapter.submissions.Keys <= old(adapter.submissions).Keys + {(id, k)}
    {
      done := Ok(());
      match session.db.workflows[id].steps[k].kind {
        case ValidateAuthorization =>
          done := ExecuteValidateAuthorization(id, k, x);
        case WaitCooldown =>
          session.db := Mark(session.db, id, k, StCompleted, WfRunning);
        case DispatchPaymentRetry =>
          done := ExecuteDispatchPaymentRetry(id, k, x);
        case AwaitVerification =>
          session.db := Mark(session.db, id, k, StWaiting, WfWaiting);
        case DispatchCommunication =>
          session.db := Mark(session.db, id, k, StCompleted, WfRunning);
        case CreateSupportTask =>
          session.db := Mark(session.db, id, k, StCompleted, WfRunning);
      }
    }

    /** Runs the first ready step; `done` is that step, if there was one. */
    method ExecuteNextStep(id: nat, x: Circumstances) returns (done: Result<Option<nat>, Error>)
      requires transitions.session == session && Spent(adapter.submissions, session.db.workflows)
      modifies session`db, adapter`submissions, adapter.gateway
      ensures var ran := AfterNextStep(old(session.db), old(adapter.gateway.log), id, x);
        && adapter.gateway.log == ran.gateway
        && match ran.result
           case Ok(db) => session.db == db && done == Ok(FirstReady(old(session.db).workflows[id].steps))
           case Raised(error) => done == Raised(error)
      ensures done.Ok? ==> Spent(adapter.submissions, session.db.workflows)
    {
      ghost var before, log := session.db, adapter.gateway.log;
      if id >= |session.db.workflows| {
        return Raised(NotFound);
      }
      var w := session.db.workflows[id];
      if w.status.WfCompleted? || w.status.WfFailed? || w.status.WfCancelled? {
        return Raised(WorkflowFinished);
      }
      if w.caseId >= |session.db.cases| {
        return Raised(NotFound);
      }
      var next := FirstReady(w.steps);
      if next.None? {
        session.db := SetWorkflow(session.db, id, w.(status := WfCompleted));
        return Ok(None);
      }
      session.db := Mark(session.db, id, next.value, StRunning, WfRunning);
      var ended := ExecuteStep(id, next.value, x);
      if ended.Raised? {
        return Raised(ended.error);
      }
      NextStepIsOnlyStep(before, log, id, x, next.value);
      done := Ok(next);
    }

    /** One round of the loop; it says whether another is due. */
    method RunRound(ghost round: (Database, seq<Submission>) -> Round, id: nat, x: Circumstances) returns (more: Result<bool, Error>)
      requires Computes(round, id, x)
      requires transitions.session == session && Spent(adapter.submissions, session.db.workflows)
      requires id < |session.db.workflows|
      modifies session`db, adapter`submissions, adapter.gateway
      ensures RoundRan(round(old(session.db), old(adapter.gateway.log)), session.db, adapter.gateway.log, more)
      ensures more == Ok(true) ==> id < |session.db.workflows|
      ensures more.Ok? ==> Spent(adapter.submissions, session.db.workflows)
    {
      ghost var before, log := session.db, adapter.gateway.log;
      assert round(before, log) == AfterRound(before, log, id, x);
      var w := session.db.workflows[id];
      if Halts(w.status) {
        return Ok(false);
      }
      if FirstReady(w.steps).None? {
        session.db := SetWorkflow(session.db, id, w.(status := WfCompleted));
        return Ok(false);
      }
      var step := ExecuteNextStep(id, x);
      if step.Raised? {
        return Raised(step.error);
      }
      StepKeepsWorkflows(before, log, id, x);
      var status := session.db.workflows[id].steps[step.value.value].status;
      more := Ok(!status.StWaiting? && !status.StFailed?);
    }

    /** The loop itself, over any number of iterations. */
    method RunRounds(ghost round: (Database, seq<Submission>) -> Round, id: nat, x: Circumstances, maxIterations: nat)
      returns (done: Result<(), Error>)
      requires Computes(round, id, x)
      requires transitions.session == session && Spent(adapter.submissions, session.db.workflows)
      requires id < |session.db.workflows|
      modifies session`db, adapter`submissions, adapter.gateway
      ensures var all := Loop(round, old(session.db), old(adapter.gateway.log), maxIterations);
        && adapter.gateway.log == all.ran.gateway
        && match all.ran.result
           case Ok(db) => session.db == db && done == Ok(())
           case Raised(error) => done == Raised(error)
    {
      ghost var expected := Loop(round, session.db, adapter.gateway.log, maxIterations);
      var iterations := 0;
      while iterations < maxIterations
        invariant iterations <= maxIterations && id < |session.db.workflows|
        invariant Spent(adapter.submissions, session.db.workflows)
        invariant Loop(round, session.db, adapter.gateway.log, maxIterations - iterations) == expected
      {
        iterations := iterations + 1;
        LoopUnfolds(round, session.db, adapter.gateway.log, maxIterations - iterations);
        var more := RunRound(round, id, x);
        if more.Raised? {
          return Raised(more.error);
        }
        if !more.value {
          break;
        }
      }
      done := Ok(());
    }

    /** Runs steps until the workflow or a step halts; never by running out of iterations. */
    method ExecuteAllAvailableSteps(id: nat, x: Circumstances) returns (done: Result<(), Error>)
      requires transitions.session == session && Spent(adapter.submissions, session.db.workflows)
      modifies session`db, adapter`submissions, adapter.gateway
      ensures var all := AfterAllSteps(old(session.db), old(adapter.gateway.log), id, x);
        && !all.stop.CapReached?
        && adapter.gateway.log == all.ran.gateway
        && match all.ran.result
           case Ok(db) => session.db == db && done == Ok(())
           case Raised(error) => done == Raised(error)
    {
      if id >= |session.db.workflows| {
        return Raised(NotFound);
      }
      CapIsNeverReached(session.db, adapter.gateway.log, id, x, |session.db.workflows[id].steps| + 2);
      done := RunRounds(RoundOf(id, x), id, x, |session.db.workflows[id].steps| + 2);
    }

    /** One request around the loop: an exception rolls the session back. */
    method HandleExecuteAll(id: nat, x: Circumstances) returns (done: Result<(), Error>)
      requires session.Clean() && transitions.session == session
      requires Spent(adapter.submissions, session.db.workflows)
      modifies session, adapter`submissions, adapter.gateway
      ensures session.Clean()
      ensures var ran := AfterAllSteps(old(session.committed), old(adapter.gateway.log), id, x).ran;
        && adapter.gateway.log == ran.gateway
        && match ran.result
           case Ok(db) => session.committed == db && done == Ok(())
           case Raised(error) => session.committed == old(session.committed) && done == Raised(error)
    {
      done := ExecuteAllAvailableSteps(id, x);
      if done.Raised? {
        session.Rollback();
      } else {
        session.Commit();
      }
    }
  }

  function WithOutcome(db: Database, id: nat, k: nat, reply: SubmitStatus): Database
    requires id < |db.workflows| && k < |db.workflows[id].steps|
    requires db.workflows[id].caseId < |db.cases| && db.cases[db.workflows[id].caseId].attempts != []
  {
    var w := db.workflows[id];
    var c := db.cases[w.caseId];
    var last := |c.attempts| - 1;
    var (step, status) := StatusAfterReply(reply);
    SetCase(Mark(db, id, k, step, status), w.caseId,
            c.(attempts := c.attempts[last := c.attempts[last].(status := AttemptAfterReply(reply))]))
  }

  /** Storing the attempt, then the execution, then the outcome is storing what the reply leaves. */
  lemma OutcomeIsReply(db: Database, id: nat, k: nat, x: Circumstances)
    requires id < |db.workflows| && k < |db.workflows[id].steps| && db.workflows[id].caseId < |db.cases|
    ensures var sent := BeforeSubmit(db, db.workflows[id].caseId, x.now);
      var recorded := sent.(executions := sent.executions
        + [Execution(id, k, db.workflows[id].caseId, x.reply.status, x.reply.reference, x.now)]);
      WithOutcome(recorded, id, k, x.reply.status) == AfterReply(db, id, k, x)
  {
    var caseId := db.workflows[id].caseId;
    var c := db.cases[caseId];
    var number := |c.attempts|;
    assert (c.attempts + [RetryAttempt(caseId, number + 1, Started, x.now)])
           [number := RetryAttempt(caseId, number + 1, AttemptAfterReply(x.reply.status), x.now)]
        == c.attempts + [RetryAttempt(caseId, number + 1, AttemptAfterReply(x.reply.status), x.now)];
    var sent := BeforeSubmit(db, caseId, x.now);
    assert sent.cases[caseId := WithAttempt(c, caseId, AttemptAfterReply(x.reply.status), x.now)]
        == db.cases[caseId := WithAttempt(c, caseId, AttemptAfterReply(x.reply.status), x.now)];
  }
}
