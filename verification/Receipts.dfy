/** Concurrent receipt of events: any number of workers look a receipt up, insert it under the
    unique (provider, event id), and fall back to a second lookup when the insert clashes. */
module Receipts {
  import opened Domain
  import opened Store

  type EventId = (string, string)

  /** A receipt row; `owner` is the worker that inserted it, none for rows from before. */
  datatype Row = Row(owner: Option<nat>, hash: Fingerprint)

  datatype Answer =
    | Recorded(accepted: bool, duplicate: bool, conflict: bool, row: Row)
    | Unrecorded

  /** Where a worker stands in `record`. */
  datatype Phase = Entered | SawNothing | InsertClashed | Returned(answer: Answer)

  datatype Worker = Worker(key: EventId, hash: Fingerprint, phase: Phase)

  datatype Shared = Shared(table: map<EventId, Row>, workers: seq<Worker>)

  function DuplicateOf(row: Row, hash: Fingerprint): Answer {
    Recorded(false, true, row.hash != hash, row)
  }

  /** One atomic statement of worker `i`; a worker that returned does nothing. */
  function Act(s: Shared, i: nat): Shared
    requires i < |s.workers|
  {
    var w := s.workers[i];
    match w.phase
    case Entered =>
      if w.key in s.table then At(s, i, Returned(DuplicateOf(s.table[w.key], w.hash))) else At(s, i, SawNothing)
    case SawNothing =>
      if w.key in s.table then At(s, i, InsertClashed)
      else
        var row := Row(Some(i), w.hash);
        At(s.(table := s.table[w.key := row]), i, Returned(Recorded(true, false, false, row)))
    case InsertClashed =>
      At(s, i, Returned(if w.key in s.table then DuplicateOf(s.table[w.key], w.hash) else Unrecorded))
    case Returned(_) => s
  }

  function At(s: Shared, i: nat, phase: Phase): Shared
    requires i < |s.workers|
  {
    s.(workers := s.workers[i := s.workers[i].(phase := phase)])
  }

  /** Any interleaving: the workers whose statement runs next, one after the other. */
  function Schedule(s: Shared, order: seq<nat>): Shared
    requires forall i <- order :: i < |s.workers|
    ensures |Schedule(s, order).workers| == |s.workers|
    decreases order
  {
    if order == [] then s
    else
      assert order[0] in order && forall i <- order[1..] :: i in order;
      Schedule(Act(s, order[0]), order[1..])
  }

  predicate Initial(s: Shared) {
    (forall key <- s.table :: s.table[key].owner.None?) && forall w <- s.workers :: w.phase.Entered?
  }

  // -------------------------------------------------------------- the invariant

  /** What a worker's phase says about the table. */
  predicate WorkerOk(s: Shared, i: nat)
    requires i < |s.workers|
  {
    var w := s.workers[i];
    match w.phase
    case Entered => true
    case SawNothing => true
    case InsertClashed => w.key in s.table && s.table[w.key].owner != Some(i)
    case Returned(answer) =>
      && answer.Recorded? && w.key in s.table && answer.row == s.table[w.key]
      && answer.duplicate == !answer.accepted
      && (answer.accepted <==> answer.row.owner == Some(i))
      && (answer.conflict <==> answer.row.hash != w.hash)
  }

  /** A row is its owner's: the worker that was accepted with it. */
  predicate RowOk(s: Shared, key: EventId)
    requires key in s.table
  {
    var row := s.table[key];
    row.owner.Some? ==>
      && row.owner.value < |s.workers|
      && var w := s.workers[row.owner.value];
         w.key == key && w.hash == row.hash && w.phase == Returned(Recorded(true, false, false, row))
  }

  predicate Consistent(s: Shared) {
    (forall i :: 0 <= i < |s.workers| ==> WorkerOk(s, i)) && forall key <- s.table :: RowOk(s, key)
  }

  lemma ActKeepsConsistent(s: Shared, i: nat)
    requires i < |s.workers| && Consistent(s)
    ensures Consistent(Act(s, i))
  {
    var t := Act(s, i);
    assert WorkerOk(s, i);
    forall j | 0 <= j < |t.workers| ensures WorkerOk(t, j) {
      assert WorkerOk(s, j);
      if s.workers[i].key in s.table {
        assert RowOk(s, s.workers[i].key);
      }
    }
    forall key <- t.table ensures RowOk(t, key) {
      assert key in s.table ==> RowOk(s, key);
    }
  }

  lemma {:induction false} ScheduleKeepsConsistent(s: Shared, order: seq<nat>)
    requires Consistent(s) && forall i <- order :: i < |s.workers|
    ensures Consistent(Schedule(s, order))
    decreases order
  {
    if order != [] {
      assert order[0] in order && forall i <- order[1..] :: i in order;
      ActKeepsConsistent(s, order[0]);
      ScheduleKeepsConsistent(Act(s, order[0]), order[1..]);
    }
  }

  // ----------------------------------------------------------------- theorems

  lemma {:induction false} ScheduleKeepsRequests(s: Shared, order: seq<nat>)
    requires forall i <- order :: i < |s.workers|
    ensures forall i :: 0 <= i < |s.workers| ==>
              var v, w := s.workers[i], Schedule(s, order).workers[i]; w.key == v.key && w.hash == v.hash
    ensures forall key <- s.table :: key in Schedule(s, order).table && Schedule(s, order).table[key] == s.table[key]
    decreases order
  {
    if order != [] {
      assert order[0] in order && forall i <- order[1..] :: i in order;
      ScheduleKeepsRequests(Act(s, order[0]), order[1..]);
    }
  }

  predicate Accepts(w: Worker) {
    w.phase.Returned? && w.phase.answer.Recorded? && w.phase.answer.accepted
  }

  /** A call that returned was told of the row on file under its key, as its own or as another's,
      and of a conflict exactly when the payloads differ. */
  predicate TellsOfRow(w: Worker, table: map<EventId, Row>) {
    w.phase.Returned? ==>
      && w.phase.answer.Recorded? && w.key in table && w.phase.answer.row == table[w.key]
      && w.phase.answer.accepted != w.phase.answer.duplicate
      && (w.phase.answer.conflict <==> w.phase.answer.row.hash != w.hash)
  }

  /** Under every interleaving each call that returned tells of the row on file, so the second
      lookup always finds one; two calls accepted under one key are the same call; and a key on
      file from before is never accepted. */
  lemma ReceiptsAreUnique(s: Shared, order: seq<nat>, i: nat, j: nat)
    requires Initial(s) && forall k <- order :: k < |s.workers|
    requires i < |s.workers| && j < |s.workers|
    ensures var t := Schedule(s, order);
      && TellsOfRow(t.workers[i], t.table)
      && (Accepts(t.workers[i]) && Accepts(t.workers[j]) && t.workers[i].key == t.workers[j].key ==> i == j)
      && (t.workers[i].key in s.table ==> !Accepts(t.workers[i]))
  {
    var t := Schedule(s, order);
    InitialIsConsistent(s);
    ScheduleKeepsConsistent(s, order);
    ScheduleKeepsRequests(s, order);
    assert WorkerOk(t, i) && WorkerOk(t, j);
  }

  lemma InitialIsConsistent(s: Shared)
    requires Initial(s)
    ensures Consistent(s)
  {
    forall i | 0 <= i < |s.workers| ensures WorkerOk(s, i) {
      assert s.workers[i] in s.workers;
    }
  }

  /** When every call under a new key has returned, exactly one was accepted, and every other one
      was given that winner's row. */
  lemma ExactlyOneIsAccepted(s: Shared, order: seq<nat>, key: EventId) returns (winner: nat)
    requires Initial(s) && forall i <- order :: i < |s.workers|
    requires key !in s.table && exists i :: 0 <= i < |s.workers| && s.workers[i].key == key
    requires forall i :: 0 <= i < |s.workers| && s.workers[i].key == key ==> Schedule(s, order).workers[i].phase.Returned?
    ensures var t := Schedule(s, order);
      && winner < |t.workers| && t.workers[winner].key == key && Accepts(t.workers[winner])
      && key in t.table && t.table[key] == Row(Some(winner), t.workers[winner].hash)
      && forall i :: 0 <= i < |t.workers| && t.workers[i].key == key ==>
           TellsOfRow(t.workers[i], t.table) && (Accepts(t.workers[i]) <==> i == winner)
  {
    var t := Schedule(s, order);
    InitialIsConsistent(s);
    ScheduleKeepsConsistent(s, order);
    ScheduleKeepsRequests(s, order);
    OwnedRows(s, order);
    var i :| 0 <= i < |s.workers| && s.workers[i].key == key;
    assert WorkerOk(t, i) && key in t.table && RowOk(t, key);
    winner := t.table[key].owner.value;
    forall j | 0 <= j < |t.workers| && t.workers[j].key == key
      ensures TellsOfRow(t.workers[j], t.table) && (Accepts(t.workers[j]) <==> j == winner)
    {
      assert WorkerOk(t, j);
    }
  }

  /** Rows that were not there at first have an owner. */
  lemma {:induction false} OwnedRows(s: Shared, order: seq<nat>)
    requires forall i <- order :: i < |s.workers|
    ensures forall key <- Schedule(s, order).table :: key !in s.table ==> Schedule(s, order).table[key].owner.Some?
    decreases order
  {
    if order != [] {
      assert order[0] in order && forall i <- order[1..] :: i in order;
      var next := Act(s, order[0]);
      OwnedRows(next, order[1..]);
      ScheduleKeepsRequests(next, order[1..]);
    }
  }

  // ----------------------------------------------------------------- progress

  function StatementsLeft(p: Phase): nat {
    match p
    case Entered => 3
    case SawNothing => 2
    case InsertClashed => 1
    case Returned(_) => 0
  }

  function Turns(order: seq<nat>, i: nat): nat {
    if order == [] then 0 else (if order[0] == i then 1 else 0) + Turns(order[1..], i)
  }

  /** No worker waits for another: after three turns of its own it has returned. */
  lemma {:induction false} EveryWorkerReturns(s: Shared, order: seq<nat>, i: nat)
    requires i < |s.workers| && forall j <- order :: j < |s.workers|
    requires Turns(order, i) >= StatementsLeft(s.workers[i].phase)
    ensures Schedule(s, order).workers[i].phase.Returned?
    decreases order
  {
    if order != [] {
      assert order[0] in order && forall j <- order[1..] :: j in order;
      EveryWorkerReturns(Act(s, order[0]), order[1..], i);
    }
  }
}
