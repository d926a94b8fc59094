/** The lifecycle of one case row: its transition table, its two numbered logs and
    the row changes the services share. */
module CaseLog {
  import opened Domain

  /** The transition table of the lifecycle service. */
  function AllowedTransitions(s: CaseState): set<CaseState> {
    match s
    case Detected => {ContextReady, Escalated, Stopped}
    case ContextReady => {AwaitingDecision, Escalated}
    case AwaitingDecision => {ActionPending, Escalated, Stopped}
    case ActionPending => {VerificationPending, Escalated, Stopped}
    case VerificationPending => {Recovered, RetryEligible, Escalated}
    case RetryEligible => {ActionPending, Escalated, Stopped}
    case Recovered => {Closed}
    case Escalated => {Closed}
    case Stopped => {Closed}
    case Closed => {}
  }

  /** The same table read from its other end: what leads to each state. Whatever has not ended can be
      escalated, and only what has ended or was escalated is closed. */
  lemma WhatLeadsTo(from: CaseState, to: CaseState)
    ensures to in AllowedTransitions(from) <==>
              match to
              case Detected => false
              case ContextReady => from == Detected
              case AwaitingDecision => from == ContextReady
              case ActionPending => from in {AwaitingDecision, RetryEligible}
              case VerificationPending => from == ActionPending
              case Recovered => from == VerificationPending
              case RetryEligible => from == VerificationPending
              case Escalated => from !in {Escalated, Recovered, Stopped, Closed}
              case Stopped => from in {Detected, AwaitingDecision, ActionPending, RetryEligible}
              case Closed => from in {Escalated, Recovered, Stopped}
  {
  }

  function MaxTransition(rows: seq<TransitionRow>): nat {
    if rows == [] then 0
    else
      var m := MaxTransition(rows[..|rows| - 1]);
      var n := rows[|rows| - 1].number;
      if n > m then n else m
  }

  function MaxAudit(rows: seq<AuditRow>): nat {
    if rows == [] then 0
    else
      var m := MaxAudit(rows[..|rows| - 1]);
      var n := rows[|rows| - 1].number;
      if n > m then n else m
  }

  predicate AuditNumberUsed(rows: seq<AuditRow>, n: nat) {
    exists k :: 0 <= k < |rows| && rows[k].number == n
  }

  /** Appends the next-numbered transition row. */
  function LogTransition(c: Case, from: Option<CaseState>, to: CaseState): Case {
    c.(transitions := c.transitions + [TransitionRow(MaxTransition(c.transitions) + 1, from, to)])
  }

  /** Appends the next-numbered audit row. */
  function RecordAudit(c: Case, kind: AuditKind, from: Option<CaseState>, to: Option<CaseState>): Case {
    c.(audits := c.audits + [AuditRow(MaxAudit(c.audits) + 1, kind, from, to)])
  }

  /** A logged state change whose audit row is numbered by the audit log. */
  function MoveLogged(c: Case, to: CaseState, kind: AuditKind): Case {
    RecordAudit(LogTransition(c.(state := to, version := c.version + 1), Some(c.state), to),
                kind, Some(c.state), Some(to))
  }

  /** The lifecycle service: the audit row takes the number of the transition row, and the
      uniqueness constraint on audit numbers makes the call fail when that number is taken. */
  function TableTransition(c: Case, to: CaseState): Result<Case, Error> {
    if to !in AllowedTransitions(c.state) then Raised(InvalidTransition)
    else
      var n := MaxTransition(c.transitions) + 1;
      if AuditNumberUsed(c.audits, n) then Raised(AuditNumberTaken)
      else
        Ok(c.(state := to,
              version := c.version + 1,
              transitions := c.transitions + [TransitionRow(n, Some(c.state), to)],
              audits := c.audits + [AuditRow(n, Lifecycle, Some(c.state), Some(to))]))
  }

  // ---------------------------------------------------------------- numbering

  predicate TransitionsNumbered(rows: seq<TransitionRow>) {
    forall k :: 0 <= k < |rows| ==> rows[k].number == k + 1
  }

  predicate AuditsNumbered(rows: seq<AuditRow>) {
    forall k :: 0 <= k < |rows| ==> rows[k].number == k + 1
  }

  /** Both logs are numbered 1..n, and no transition lacks an audit row. */
  predicate LogsOk(c: Case) {
    && TransitionsNumbered(c.transitions)
    && AuditsNumbered(c.audits)
    && |c.transitions| <= |c.audits|
  }

  lemma {:induction false} MaxOfNumberedTransitions(rows: seq<TransitionRow>)
    requires TransitionsNumbered(rows)
    ensures MaxTransition(rows) == |rows|
  {
    if rows != [] {
      MaxOfNumberedTransitions(rows[..|rows| - 1]);
    }
  }

  lemma {:induction false} MaxOfNumberedAudits(rows: seq<AuditRow>)
    requires AuditsNumbered(rows)
    ensures MaxAudit(rows) == |rows|
  {
    if rows != [] {
      MaxOfNumberedAudits(rows[..|rows| - 1]);
    }
  }

  /** How many audit rows have no transition row. */
  function Gap(c: Case): int {
    |c.audits| - |c.transitions|
  }

  /** The lifecycle service succeeds exactly when the table allows the move and the two
      logs are equally long. */
  lemma TableTransitionCommits(c: Case, to: CaseState)
    requires LogsOk(c)
    ensures TableTransition(c, to).Ok? <==> to in AllowedTransitions(c.state) && Gap(c) == 0
    ensures TableTransition(c, to).Ok? ==> LogsOk(TableTransition(c, to).value)
  {
    MaxOfNumberedTransitions(c.transitions);
    if Gap(c) != 0 {
      assert c.audits[|c.transitions|].number == |c.transitions| + 1;
    }
  }

  // ------------------------------------------------------------------- replay

  /** The state a transition log leads to from Detected, or None when the chain breaks. */
  function Replay(rows: seq<TransitionRow>): Option<CaseState> {
    if rows == [] then Some(Detected)
    else
      var last := rows[|rows| - 1];
      var before := Replay(rows[..|rows| - 1]);
      if before.None? then None
      else if last.from == before then Some(last.to)
      else if |rows| == 1 && last.from.None? && last.to.Detected? then Some(Detected)
      else None
  }

  predicate Replays(c: Case) {
    Replay(c.transitions) == Some(c.state)
  }

  lemma ReplayAppend(rows: seq<TransitionRow>, row: TransitionRow)
    requires Replay(rows).Some? && row.from == Replay(rows)
    ensures Replay(rows + [row]) == Some(row.to)
  {
    assert (rows + [row])[..|rows|] == rows;
  }

  // ---------------------------------------------------------------- evolution

  /** What no service ever undoes about a case row: who it is about, the rows already in its
      collections, the numbering of its logs, its log gap and its terminal states. */
  predicate CaseEvolves(c: Case, d: Case) {
    && d.customer == c.customer && d.trigger == c.trigger && d.key == c.key
    && c.attempts <= d.attempts
    && c.transitions <= d.transitions
    && c.audits <= d.audits
    && c.version <= d.version
    && Gap(c) <= Gap(d)
    && (LogsOk(c) ==> LogsOk(d))
    && (AttemptsNumbered(c.attempts) ==> AttemptsNumbered(d.attempts))
    && TerminalKept(c.state, d.state)
  }

  predicate TerminalKept(s: CaseState, t: CaseState) {
    && (Terminal(s) ==> Terminal(t))
    && (s.Recovered? ==> t.Recovered? || t.Closed?)
    && (s.Closed? ==> t.Closed?)
  }

  predicate AttemptsNumbered(rows: seq<Attempt>) {
    forall k :: 0 <= k < |rows| ==> rows[k].number == k + 1
  }

  lemma EvolvesTransitive(c: Case, d: Case, e: Case)
    requires CaseEvolves(c, d) && CaseEvolves(d, e)
    ensures CaseEvolves(c, e)
  {
  }

  lemma AuditEvolves(c: Case, kind: AuditKind, from: Option<CaseState>, to: Option<CaseState>)
    ensures CaseEvolves(c, RecordAudit(c, kind, from, to))
    ensures Replays(c) ==> Replays(RecordAudit(c, kind, from, to))
  {
    if LogsOk(c) {
      MaxOfNumberedAudits(c.audits);
    }
  }

  lemma MoveKeepsReplay(c: Case, to: CaseState, kind: AuditKind)
    requires Replays(c)
    ensures Replays(MoveLogged(c, to, kind))
  {
    ReplayAppend(c.transitions, TransitionRow(MaxTransition(c.transitions) + 1, Some(c.state), to));
  }

  lemma MoveKeepsLogs(c: Case, to: CaseState, kind: AuditKind)
    requires LogsOk(c)
    ensures LogsOk(MoveLogged(c, to, kind))
  {
    MaxOfNumberedTransitions(c.transitions);
    MaxOfNumberedAudits(c.audits);
  }

  lemma MoveEvolves(c: Case, to: CaseState, kind: AuditKind)
    requires TerminalKept(c.state, to)
    ensures CaseEvolves(c, MoveLogged(c, to, kind))
  {
    if LogsOk(c) {
      MoveKeepsLogs(c, to, kind);
    }
  }

  lemma TableEvolves(c: Case, to: CaseState)
    requires TableTransition(c, to).Ok?
    ensures CaseEvolves(c, TableTransition(c, to).value)
    ensures Replays(c) ==> Replays(TableTransition(c, to).value)
  {
    if LogsOk(c) {
      TableTransitionCommits(c, to);
    }
    if Replays(c) {
      ReplayAppend(c.transitions, TransitionRow(MaxTransition(c.transitions) + 1, Some(c.state), to));
    }
  }

  // ---------------------------------------------------------------- following

  /** How far a state is from the end of the lifecycle. */
  function Rank(s: CaseState): nat {
    match s
    case Detected => 8
    case ContextReady => 7
    case AwaitingDecision => 6
    case RetryEligible => 6
    case ActionPending => 5
    case VerificationPending => 4
    case Escalated => 3
    case Stopped => 2
    case Recovered => 1
    case Closed => 0
  }

  /** A recovered or closed case whose log leads elsewhere. */
  predicate Unlogged(c: Case) {
    (c.state.Recovered? || c.state.Closed?) && !Replays(c)
  }

  /** Evolution by logged moves that each lower the rank. */
  predicate CaseFollows(c: Case, d: Case) {
    && CaseEvolves(c, d)
    && (Replays(c) ==> Replays(d))
    && (Unlogged(c) ==> Unlogged(d))
    && (d.transitions == c.transitions ==> d.state == c.state)
    && |d.transitions| - |c.transitions| + Rank(d.state) <= Rank(c.state)
  }

  /** The one logged move that raises the rank: from verification back to a retry. */
  predicate CaseReopens(c: Case, d: Case) {
    && CaseEvolves(c, d)
    && (Replays(c) ==> Replays(d))
    && c.state.VerificationPending? && d.state.RetryEligible?
    && |d.transitions| == |c.transitions| + 1
  }

  lemma FollowsTransitive(c: Case, d: Case, e: Case)
    requires CaseFollows(c, d) && CaseFollows(d, e)
    ensures CaseFollows(c, e)
  {
  }

  lemma AuditFollows(c: Case, kind: AuditKind, from: Option<CaseState>, to: Option<CaseState>)
    ensures CaseFollows(c, RecordAudit(c, kind, from, to))
  {
    AuditEvolves(c, kind, from, to);
  }

  lemma MoveFollows(c: Case, to: CaseState, kind: AuditKind)
    requires TerminalKept(c.state, to) && Rank(to) < Rank(c.state) && !c.state.Recovered?
    ensures CaseFollows(c, MoveLogged(c, to, kind))
  {
    MoveEvolves(c, to, kind);
    if Replays(c) {
      MoveKeepsReplay(c, to, kind);
    }
  }

  /** Every move of the transition table lowers the rank, but for the reopening one. */
  lemma TableFollows(c: Case, to: CaseState)
    requires TableTransition(c, to).Ok?
    ensures if to.RetryEligible? then CaseReopens(c, TableTransition(c, to).value)
            else CaseFollows(c, TableTransition(c, to).value)
  {
    TableEvolves(c, to);
    if Unlogged(c) {
      var row := TransitionRow(MaxTransition(c.transitions) + 1, Some(c.state), to);
      assert (c.transitions + [row])[..|c.transitions|] == c.transitions;
    }
  }

  // -------------------------------------------------------------------- trail

  /** The changes of state an audit log tells of, and those a transition log holds. */
  function Told(rows: seq<AuditRow>): seq<(CaseState, CaseState)> {
    if rows == [] then []
    else
      var row := rows[|rows| - 1];
      Told(rows[..|rows| - 1])
      + (if row.from.Some? && row.to.Some? && row.from != row.to then [(row.from.value, row.to.value)] else [])
  }

  function Moved(rows: seq<TransitionRow>): seq<(CaseState, CaseState)> {
    if rows == [] then []
    else
      var row := rows[|rows| - 1];
      Moved(rows[..|rows| - 1]) + (if row.from.Some? then [(row.from.value, row.to)] else [])
  }

  /** The audit log tells of exactly the moves of the transition log, in their order. */
  predicate Audited(c: Case) {
    Told(c.audits) == Moved(c.transitions)
  }

  lemma AuditTells(c: Case, kind: AuditKind, from: Option<CaseState>, to: Option<CaseState>)
    requires from == to || from.None?
    ensures Audited(c) ==> Audited(RecordAudit(c, kind, from, to))
  {
    var d := RecordAudit(c, kind, from, to);
    assert d.audits[..|c.audits|] == c.audits;
  }

  lemma MoveTells(c: Case, to: CaseState, kind: AuditKind)
    requires to != c.state
    ensures Audited(c) ==> Audited(MoveLogged(c, to, kind))
  {
    var d := MoveLogged(c, to, kind);
    assert d.audits[..|c.audits|] == c.audits && d.transitions[..|c.transitions|] == c.transitions;
  }

  lemma TableTells(c: Case, to: CaseState)
    requires TableTransition(c, to).Ok?
    ensures Audited(c) ==> Audited(TableTransition(c, to).value)
  {
    var d := TableTransition(c, to).value;
    assert d.audits[..|c.audits|] == c.audits && d.transitions[..|c.transitions|] == c.transitions;
  }

  // ------------------------------------------------------------------ new rows

  lemma {:induction false} MaxIsUnused(rows: seq<AuditRow>)
    ensures forall k :: 0 <= k < |rows| ==> rows[k].number <= MaxAudit(rows)
    ensures !AuditNumberUsed(rows, MaxAudit(rows) + 1)
  {
    if rows != [] {
      MaxIsUnused(rows[..|rows| - 1]);
    }
  }

  lemma {:induction false} MaxTransitionIsMax(rows: seq<TransitionRow>)
    ensures forall k :: 0 <= k < |rows| ==> rows[k].number <= MaxTransition(rows)
  {
    if rows != [] {
      MaxTransitionIsMax(rows[..|rows| - 1]);
    }
  }

  /** One audit row more, of this kind and between these states, numbered past all before it. */
  predicate OneNoteMore(before: seq<AuditRow>, after: seq<AuditRow>, kind: AuditKind, from: Option<CaseState>, to: Option<CaseState>) {
    && |after| == |before| + 1 && after[..|before|] == before
    && after[|before|] == AuditRow(after[|before|].number, kind, from, to)
    && forall k :: 0 <= k < |before| ==> before[k].number < after[|before|].number
  }

  /** One transition row more, between these states, numbered past all before it. */
  predicate OneMoveMore(before: seq<TransitionRow>, after: seq<TransitionRow>, from: CaseState, to: CaseState) {
    && |after| == |before| + 1 && after[..|before|] == before
    && after[|before|] == TransitionRow(after[|before|].number, Some(from), to)
    && forall k :: 0 <= k < |before| ==> before[k].number < after[|before|].number
  }

  lemma NoteIsOneMore(c: Case, kind: AuditKind, from: Option<CaseState>, to: Option<CaseState>)
    ensures OneNoteMore(c.audits, RecordAudit(c, kind, from, to).audits, kind, from, to)
  {
    MaxIsUnused(c.audits);
  }

  lemma MoveIsOneMore(c: Case, to: CaseState, kind: AuditKind)
    ensures OneMoveMore(c.transitions, MoveLogged(c, to, kind).transitions, c.state, to)
    ensures OneNoteMore(c.audits, MoveLogged(c, to, kind).audits, kind, Some(c.state), Some(to))
  {
    MaxTransitionIsMax(c.transitions);
    MaxIsUnused(c.audits);
  }

  /** A move by the table leaves a row in both logs under one number; it is refused for the table first
      and for a number that is taken second. */
  lemma TableTransitionExactly(c: Case, to: CaseState)
    ensures TableTransition(c, to) == Raised(InvalidTransition) <==> to !in AllowedTransitions(c.state)
    ensures TableTransition(c, to).Ok? || TableTransition(c, to).error in {InvalidTransition, AuditNumberTaken}
    ensures TableTransition(c, to).Ok? ==>
              var d := TableTransition(c, to).value;
              && d == c.(state := to, version := c.version + 1, transitions := d.transitions, audits := d.audits)
              && OneMoveMore(c.transitions, d.transitions, c.state, to)
              && |d.audits| == |c.audits| + 1 && d.audits[..|c.audits|] == c.audits
              && d.audits[|c.audits|] == AuditRow(d.transitions[|c.transitions|].number, Lifecycle, Some(c.state), Some(to))
  {
    MaxTransitionIsMax(c.transitions);
  }
}
