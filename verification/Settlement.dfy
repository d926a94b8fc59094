/** Every case settles: a measure the services' state changes pay from, the bound it gives on
    whole runs, and the operator's moves that have to be left out of it. */
module Settlement {
  import opened Domain
  import opened CaseLog
  import opened Store
  import opened System
  import opened Evolution
  import opened CaseRuns
  import opened IdentityRuns

  /** The state changes one call logs for a case, or makes without logging. */
  function Moves(w: World, step: Step, id: nat): int
    requires id < |w.db.cases| && id < |Apply(w, step).db.cases|
  {
    |Apply(w, step).db.cases[id].transitions| - |w.db.cases[id].transitions|
    + (if SettledDirectly(w.db, step, id) then 1 else 0)
  }

  /** A call that changes the state is counted. */
  lemma ChangesAreMoves(w: World, step: Step, id: nat)
    requires id < |w.db.cases| && LogsOk(w.db.cases[id])
    ensures id < |Apply(w, step).db.cases| && Moves(w, step, id) >= 0
    ensures Apply(w, step).db.cases[id].state != w.db.cases[id].state ==> Moves(w, step, id) >= 1
  {
    StepOnCase(w, step, id);
    if MovedByOperator(w.db, step, id) {
      assert |Apply(w, step).db.cases[id].transitions| == |w.db.cases[id].transitions| + 1;
    }
  }

  function MovesInRun(w: World, steps: seq<Step>, id: nat): int
    decreases steps
  {
    if steps == [] then 0
    else
      (if id < |w.db.cases| && id < |Apply(w, steps[0]).db.cases| then Moves(w, steps[0], id) else 0)
      + MovesInRun(Apply(w, steps[0]), steps[1..], id)
  }

  /** How often the transition table itself takes the case back to another retry. */
  function TableReopenings(w: World, steps: seq<Step>, id: nat): nat
    decreases steps
  {
    if steps == [] then 0
    else (if ReopenedByTable(w.db, steps[0], id) then 1 else 0) + TableReopenings(Apply(w, steps[0]), steps[1..], id)
  }

  predicate NoOperatorMoves(steps: seq<Step>, id: nat) {
    forall k :: 0 <= k < |steps| ==> !(steps[k].OperatorMove? && steps[k].caseId == id)
  }

  /** What is left to a case: the rank of its state, and one refusal of a pending payment. */
  function Potential(db: Database, id: nat): (p: nat)
    requires id < |db.cases|
    ensures p <= 11 && (!TriggerHas(db, db.cases[id], TxPending) ==> p <= 8)
  {
    Rank(db.cases[id].state) + (if TriggerHas(db, db.cases[id], TxPending) then 3 else 0)
  }

  lemma StepSpends(w: World, step: Step, id: nat)
    requires id < |w.db.cases| && LogsOk(w.db.cases[id]) && w.db.cases[id].trigger < |w.db.transactions|
    requires !(step.OperatorMove? && step.caseId == id)
    ensures id < |Apply(w, step).db.cases|
    ensures LogsOk(Apply(w, step).db.cases[id]) && Apply(w, step).db.cases[id].trigger < |Apply(w, step).db.transactions|
    ensures Moves(w, step, id) + Potential(Apply(w, step).db, id)
              <= Potential(w.db, id) + (if ReopenedByTable(w.db, step, id) then 3 else 0)
  {
    hide Apply;
    StepOnCase(w, step, id);
    StepEvolves(w, step);
    assert PaymentEvolves(w.db.transactions[w.db.cases[id].trigger], Apply(w, step).db.transactions[w.db.cases[id].trigger]);
  }

  /** Without operator moves every case runs down: its state changes in any run are paid for by
      its potential, and only a reopening through the table adds to it. */
  lemma {:induction false} MovesArePaidFor(w: World, steps: seq<Step>, id: nat)
    requires id < |w.db.cases| && LogsOk(w.db.cases[id]) && w.db.cases[id].trigger < |w.db.transactions|
    requires NoOperatorMoves(steps, id)
    ensures id < |Run(w, steps).db.cases|
    ensures MovesInRun(w, steps, id) + Potential(Run(w, steps).db, id)
              <= Potential(w.db, id) + 3 * TableReopenings(w, steps, id)
    decreases steps
  {
    hide Apply;
    if steps != [] {
      assert steps[0] == steps[0] && !(steps[0].OperatorMove? && steps[0].caseId == id);
      StepSpends(w, steps[0], id);
      MovesArePaidFor(Apply(w, steps[0]), steps[1..], id);
    }
  }

  /** So in every run, from any moment on, a case changes its state at most eleven times, plus
      three for each time the table reopens it; reconciliation reopens it at most once, when a
      pending payment is refused, and eight is the bound when none is pending. */
  lemma EveryCaseSettles(before: seq<Step>, later: seq<Step>, id: nat)
    requires id < |Run(START, before).db.cases| && NoOperatorMoves(later, id)
    ensures var w := Run(START, before);
      && MovesInRun(w, later, id) <= 11 + 3 * TableReopenings(w, later, id)
      && (!TriggerHas(w.db, w.db.cases[id], TxPending) ==> MovesInRun(w, later, id) <= 8 + 3 * TableReopenings(w, later, id))
  {
    hide Apply;
    LogsStayNumbered(START, before);
    OneCasePerProblem(START, before);
    MovesArePaidFor(Run(START, before), later, id);
  }

  function Toggling(id: nat, n: nat): seq<Step> {
    if n == 0 then [] else [OperatorMove(id, Escalated), OperatorMove(id, Detected)] + Toggling(id, n - 1)
  }

  /** The operator's free-form moves are what the bound has to leave out: they can move a
      detected case any number of times. */
  lemma {:induction false} OperatorMovesAreUnbounded(w: World, id: nat, n: nat)
    requires id < |w.db.cases| && w.db.cases[id].state.Detected?
    ensures MovesInRun(w, Toggling(id, n), id) == 2 * n
    decreases n
  {
    hide Apply;
    if n > 0 {
      var up := ToggleMoves(w, id, Escalated);
      var down := ToggleMoves(up, id, Detected);
      OperatorMovesAreUnbounded(down, id, n - 1);
      TwoMoves(w, OperatorMove(id, Escalated), OperatorMove(id, Detected), Toggling(id, n - 1), id);
    }
  }

  lemma TwoMoves(w: World, first: Step, second: Step, rest: seq<Step>, id: nat)
    requires id < |w.db.cases| && id < |Apply(w, first).db.cases| && id < |Apply(Apply(w, first), second).db.cases|
    ensures MovesInRun(w, [first, second] + rest, id)
         == Moves(w, first, id) + Moves(Apply(w, first), second, id) + MovesInRun(Apply(Apply(w, first), second), rest, id)
  {
    hide Apply;
    FirstMoves(w, first, [second] + rest, id);
    FirstMoves(Apply(w, first), second, rest, id);
    assert [first, second] + rest == [first] + ([second] + rest);
  }

  lemma FirstMoves(w: World, step: Step, rest: seq<Step>, id: nat)
    requires id < |w.db.cases| && id < |Apply(w, step).db.cases|
    ensures MovesInRun(w, [step] + rest, id) == Moves(w, step, id) + MovesInRun(Apply(w, step), rest, id)
  {
    hide Apply;
    assert ([step] + rest)[1..] == rest;
  }

  lemma ToggleMoves(w: World, id: nat, to: CaseState) returns (next: World)
    requires id < |w.db.cases| && !Terminal(w.db.cases[id].state) && w.db.cases[id].state != to
    ensures next == Apply(w, OperatorMove(id, to)) && id < |next.db.cases| && next.db.cases[id].state == to
    ensures Moves(w, OperatorMove(id, to), id) == 1
  {
    next := Apply(w, OperatorMove(id, to));
  }
}
