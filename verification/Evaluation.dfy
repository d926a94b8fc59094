/** The deterministic evaluation batch: balanced scenarios, a simulated run of each under the
    safety policy, and the metrics of the batch, which are exact for every seed. */
module Evaluation {
  import opened Domain
  import opened Safety
  import Backoff

  // ---------------------------------------------------------------- scenarios

  datatype GroundTruth = Recoverable | PermanentFailure | UncertainTruth | AlreadySucceeded

  datatype ProviderResult = PrSucceeded | PrFailed | PrTimeout | PrUnknown

  datatype Scenario = Scenario(
    id: (int, int),
    amountMinor: int,
    truth: GroundTruth,
    proposed: ActionType,
    provider: ProviderResult,
    expected: ActionType,
    priorAttempts: int,
    uncertain: bool,
    duplicate: bool)

  datatype Template = Template(truth: GroundTruth, proposed: ActionType, provider: ProviderResult, expected: ActionType)

  const TEMPLATES := [
    Template(Recoverable, RetryPayment, PrSucceeded, RetryPayment),
    Template(Recoverable, OperatorReview, PrSucceeded, RetryPayment),
    Template(PermanentFailure, RetryPayment, PrFailed, OperatorReview),
    Template(UncertainTruth, RetryPayment, PrUnknown, OperatorReview),
    Template(AlreadySucceeded, RetryPayment, PrSucceeded, StopRecovery)]

  function ScenarioAt(seed: int, index: nat): Scenario {
    var t := TEMPLATES[(index + seed) % 5];
    Scenario((seed, index), 1000 + (index * 137 + seed * 17) % 9000, t.truth, t.proposed, t.provider, t.expected,
             0, false, index % 11 == 0)
  }

  /** The batch; a count below one raises. */
  method BuildScenarios(seed: int, count: int) returns (batch: Option<seq<Scenario>>)
    ensures count < 1 ==> batch.None?
    ensures count >= 1 ==> batch.Some? && |batch.value| == count
    ensures count >= 1 ==> forall k :: 0 <= k < count ==> batch.value[k] == ScenarioAt(seed, k)
  {
    if count < 1 {
      return None;
    }
    var scenarios: seq<Scenario> := [];
    for index := 0 to count
      invariant |scenarios| == index
      invariant forall k :: 0 <= k < index ==> scenarios[k] == ScenarioAt(seed, k)
    {
      var t := TEMPLATES[(index + seed) % |TEMPLATES|];
      scenarios := scenarios + [Scenario((seed, index), 1000 + (index * 137 + seed * 17) % 9000,
                                         t.truth, t.proposed, t.provider, t.expected, 0, false, index % 11 == 0)];
    }
    batch := Some(scenarios);
  }

  // --------------------------------------------------------------- simulation

  datatype SimulationResult = SimulationResult(
    amountMinor: int,
    truth: GroundTruth,
    decision: SafetyOutcome,
    recovered: bool,
    failure: Option<Backoff.FailureKind>,
    disposition: Option<Backoff.Disposition>,
    actionCorrect: bool,
    safe: bool)

  function ContextOf(s: Scenario): SafetyContext<(int, int)> {
    SafetyContext(RetryEligible, TxFailed, s.proposed, s.priorAttempts, if s.duplicate then {s.id} else {}, Some(s.id), s.uncertain)
  }

  function DispositionOf(kind: Backoff.FailureKind, attempt: int): Option<Backoff.Disposition> {
    Some(Backoff.Classify(Backoff.DEFAULT_POLICY, kind, attempt, 0).disposition)
  }

  /** What a scenario comes to. */
  function Simulated(s: Scenario): SimulationResult {
    var decision := SafetyOf(ContextOf(s), DEFAULT_CONFIG);
    var correct := s.proposed == s.expected;
    match decision
    case Reject => SimulationResult(s.amountMinor, s.truth, decision, false, None, Some(Backoff.Stop), correct, true)
    case StopCase => SimulationResult(s.amountMinor, s.truth, decision, false, None, Some(Backoff.Stop), correct, true)
    case EscalateCase => SimulationResult(s.amountMinor, s.truth, decision, false, None, Some(Backoff.Escalate), correct, true)
    case Allow =>
      match s.provider
      case PrSucceeded => SimulationResult(s.amountMinor, s.truth, decision, s.truth.Recoverable?, None, None, correct, true)
      case PrTimeout => SimulationResult(s.amountMinor, s.truth, decision, false, Some(Backoff.Timeout), DispositionOf(Backoff.Timeout, 1), correct, true)
      case PrFailed => SimulationResult(s.amountMinor, s.truth, decision, false, Some(Backoff.PermanentApi), DispositionOf(Backoff.PermanentApi, 2), correct, true)
      case PrUnknown => SimulationResult(s.amountMinor, s.truth, decision, false, Some(Backoff.UncertainOutcome), DispositionOf(Backoff.UncertainOutcome, 1), correct, true)
  }

  method RunOne(s: Scenario) returns (r: SimulationResult)
    ensures r == Simulated(s)
  {
    var decision := SafetyOf(ContextOf(s), DEFAULT_CONFIG);
    var failure: Option<Backoff.FailureKind> := None;
    var disposition: Option<Backoff.Disposition> := None;
    var recovered := false;
    if decision.Allow? {
      if s.provider.PrSucceeded? && s.truth.Recoverable? {
        recovered := true;
      } else if s.provider.PrTimeout? {
        failure := Some(Backoff.Timeout);
        disposition := DispositionOf(Backoff.Timeout, 1);
      } else if s.provider.PrFailed? {
        failure := Some(Backoff.PermanentApi);
        disposition := DispositionOf(Backoff.PermanentApi, 2);
      } else if s.provider.PrUnknown? {
        failure := Some(Backoff.UncertainOutcome);
        disposition := DispositionOf(Backoff.UncertainOutcome, 1);
      }
    } else {
      disposition := if decision.EscalateCase? then Some(Backoff.Escalate) else Some(Backoff.Stop);
    }
    r := SimulationResult(s.amountMinor, s.truth, decision, recovered, failure, disposition, s.proposed == s.expected,
                            decision.Allow? || decision.StopCase? || decision.EscalateCase? || decision.Reject?);
  }

  method RunBatch(batch: seq<Scenario>) returns (rows: seq<SimulationResult>)
    ensures |rows| == |batch| && forall k :: 0 <= k < |rows| ==> rows[k] == Simulated(batch[k])
  {
    rows := [];
    for k := 0 to |batch|
      invariant |rows| == k && forall j :: 0 <= j < k ==> rows[j] == Simulated(batch[j])
    {
      var r := RunOne(batch[k]);
      rows := rows + [r];
    }
  }

  // ------------------------------------------------------------------ metrics

  function CountRows(rows: seq<SimulationResult>, p: SimulationResult -> bool): nat {
    if rows == [] then 0
    else CountRows(rows[..|rows| - 1], p) + (if p(rows[|rows| - 1]) then 1 else 0)
  }

  function SumRows(rows: seq<SimulationResult>, p: SimulationResult -> bool): int {
    if rows == [] then 0
    else SumRows(rows[..|rows| - 1], p) + (if p(rows[|rows| - 1]) then rows[|rows| - 1].amountMinor else 0)
  }

  /** numerator / denominator in ten-thousandths, rounded half to even; anything over zero is zero. */
  function Rate(numerator: int, denominator: int): int {
    if denominator == 0 then 0
    else if denominator < 0 then HalfEven(-numerator * 10000, -denominator)
    else HalfEven(numerator * 10000, denominator)
  }

  function HalfEven(x: int, d: int): int
    requires d > 0
  {
    var q, r := x / d, x % d;
    if 2 * r < d || (2 * r == d && q % 2 == 0) then q else q + 1
  }

  predicate AtRisk(r: SimulationResult) { !r.truth.AlreadySucceeded? }
  predicate Saved(r: SimulationResult) { AtRisk(r) && r.recovered }
  predicate Failing(r: SimulationResult) { r.failure.Some? }
  predicate Escalating(r: SimulationResult) { r.disposition == Some(Backoff.Escalate) }
  predicate Verifying(r: SimulationResult) { r.disposition == Some(Backoff.Verify) }
  predicate Stopping(r: SimulationResult) { r.disposition == Some(Backoff.Stop) }
  predicate Rejected(r: SimulationResult) { r.decision.Reject? }
  predicate Correct(r: SimulationResult) { r.actionCorrect }
  predicate Safe(r: SimulationResult) { r.safe }

  function TruthIs(t: GroundTruth): SimulationResult -> bool {
    (r: SimulationResult) => r.truth == t
  }

  datatype Metrics = Metrics(
    scenarios: nat,
    atRisk: nat,
    recovered: nat,
    atRiskMinor: int,
    recoveredMinor: int,
    failures: nat,
    escalations: nat,
    verifications: nat,
    stopped: nat,
    rejected: nat,
    revenueRecoveryRate: int,
    caseRecoveryRate: int,
    actionAccuracy: int,
    safetyRate: int,
    outcomeCounts: map<GroundTruth, nat>)

  /** The counts of a batch, and how often each ground truth occurs. */
  method CalculateMetrics(rows: seq<SimulationResult>) returns (m: Metrics)
    ensures m == Metrics(|rows|, CountRows(rows, AtRisk), CountRows(rows, Saved),
                         SumRows(rows, AtRisk), SumRows(rows, Saved),
                         CountRows(rows, Failing), CountRows(rows, Escalating), CountRows(rows, Verifying),
                         CountRows(rows, Stopping), CountRows(rows, Rejected),
                         Rate(SumRows(rows, Saved), SumRows(rows, AtRisk)),
                         Rate(CountRows(rows, Saved), CountRows(rows, AtRisk)),
                         Rate(CountRows(rows, Correct), |rows|), Rate(CountRows(rows, Safe), |rows|), m.outcomeCounts)
    ensures forall t :: t in m.outcomeCounts <==> CountRows(rows, TruthIs(t)) > 0
    ensures forall t <- m.outcomeCounts :: m.outcomeCounts[t] == CountRows(rows, TruthIs(t))
  {
    var counts: map<GroundTruth, nat> := map[];
    for k := 0 to |rows|
      invariant forall t :: t in counts <==> CountRows(rows[..k], TruthIs(t)) > 0
      invariant forall t <- counts :: counts[t] == CountRows(rows[..k], TruthIs(t))
    {
      var t := rows[k].truth;
      assert rows[..k + 1][..k] == rows[..k];
      counts := counts[t := (if t in counts then counts[t] else 0) + 1];
    }
    assert rows[..|rows|] == rows;
    var atRisk, saved := CountRows(rows, AtRisk), CountRows(rows, Saved);
    var atRiskMinor, savedMinor := SumRows(rows, AtRisk), SumRows(rows, Saved);
    m := Metrics(|rows|, atRisk, saved, atRiskMinor, savedMinor,
                 CountRows(rows, Failing), CountRows(rows, Escalating), CountRows(rows, Verifying),
                 CountRows(rows, Stopping), CountRows(rows, Rejected),
                 Rate(savedMinor, atRiskMinor), Rate(saved, atRisk), Rate(CountRows(rows, Correct), |rows|),
                 Rate(CountRows(rows, Safe), |rows|), counts);
  }

  // ----------------------------------------------------------------- counting

  /** How many of 0, ..., n - 1 satisfy p. */
  function Count(p: int -> bool, n: nat): nat {
    if n == 0 then 0 else Count(p, n - 1) + (if p(n - 1) then 1 else 0)
  }

  lemma {:induction false} CountSame(p: int -> bool, q: int -> bool, n: nat)
    requires forall i :: 0 <= i < n ==> p(i) == q(i)
    ensures Count(p, n) == Count(q, n)
  {
    if n > 0 {
      CountSame(p, q, n - 1);
    }
  }

  /** Counting both of two alternatives counts what at least one of them holds of. */
  lemma {:induction false} CountSplits(p: int -> bool, q: int -> bool, all: int -> bool, n: nat)
    requires forall i :: 0 <= i < n ==> all(i) == (p(i) || q(i)) && !(p(i) && q(i))
    ensures Count(all, n) == Count(p, n) + Count(q, n)
  {
    if n > 0 {
      CountSplits(p, q, all, n - 1);
    }
  }

  function Residue(seed: int, c: int): int -> bool {
    (i: int) => (i + seed) % 5 == c
  }

  function Hit(b: bool): nat {
    if b then 1 else 0
  }

  lemma OneInFive(x: int, c: int)
    requires 0 <= c < 5
    ensures Hit(x % 5 == c) + Hit((x + 1) % 5 == c) + Hit((x + 2) % 5 == c) + Hit((x + 3) % 5 == c) + Hit((x + 4) % 5 == c) == 1
  {
    NextResidue(x);
    NextResidue(x + 1);
    NextResidue(x + 2);
    NextResidue(x + 3);
  }

  lemma NextResidue(x: int)
    ensures (x + 1) % 5 == if x % 5 == 4 then 0 else x % 5 + 1
  {
  }

  lemma CountFive(p: int -> bool, k: nat)
    ensures Count(p, k + 5) == Count(p, k) + Hit(p(k)) + Hit(p(k + 1)) + Hit(p(k + 2)) + Hit(p(k + 3)) + Hit(p(k + 4))
  {
    assert Count(p, k + 3) == Count(p, k + 2) + Hit(p(k + 2));
    assert Count(p, k + 1) == Count(p, k) + Hit(p(k));
  }

  /** Of any 5n consecutive numbers, n lie in each class modulo 5. */
  lemma {:induction false} ResiduesAreEven(seed: int, c: int, n: nat)
    requires 0 <= c < 5
    ensures Count(Residue(seed, c), 5 * n) == n
  {
    if n > 0 {
      var k: nat := 5 * (n - 1);
      ResiduesAreEven(seed, c, n - 1);
      CountFive(Residue(seed, c), k);
      OneInFive(k + seed, c);
    }
  }

  lemma {:induction false} CountSkips(p: int -> bool, from: nat, to: nat)
    requires from <= to && forall i :: from <= i < to ==> !p(i)
    ensures Count(p, to) == Count(p, from)
  {
    if from < to {
      CountSkips(p, from, to - 1);
    }
  }

  function EveryEleventh(p: int -> bool): int -> bool {
    (i: int) => i % 11 == 0 && p(i)
  }

  function Stretched(p: int -> bool): int -> bool {
    (j: int) => p(11 * j)
  }

  /** Counting the multiples of eleven below 11n is counting their quotients. */
  lemma {:induction false} StrideCounts(p: int -> bool, n: nat)
    ensures Count(EveryEleventh(p), 11 * n) == Count(Stretched(p), n)
  {
    if n > 0 {
      StrideCounts(p, n - 1);
      var k: nat := 11 * n - 11;
      assert Count(EveryEleventh(p), k + 1) == Count(EveryEleventh(p), k) + (if p(k) then 1 else 0);
      CountSkips(EveryEleventh(p), k + 1, 11 * n);
    }
  }

  lemma TensVanish(j: int, x: int)
    ensures (10 * j + x) % 5 == x % 5
  {
    RemainderIs(10 * j + x, 2 * j + x / 5, x % 5);
  }

  lemma RemainderIs(a: int, q: int, r: int)
    requires a == 5 * q + r && 0 <= r < 5
    ensures a % 5 == r
  {
  }

  /** Of 55m consecutive scenarios m are both a multiple of eleven and in a given class modulo 5. */
  lemma DuplicatesPerClass(seed: int, c: int, m: nat)
    requires 0 <= c < 5
    ensures Count(EveryEleventh(Residue(seed, c)), 55 * m) == m
  {
    StrideCounts(Residue(seed, c), 5 * m);
    forall j | 0 <= j < 5 * m ensures Stretched(Residue(seed, c))(j) == Residue(seed, c)(j) {
      TensVanish(j, j + seed);
    }
    CountSame(Stretched(Residue(seed, c)), Residue(seed, c), 5 * m);
    ResiduesAreEven(seed, c, m);
  }

  function Others(seed: int, c: int): int -> bool {
    (i: int) => i % 11 != 0 && (i + seed) % 5 == c
  }

  lemma FreshPerClass(seed: int, c: int, m: nat)
    requires 0 <= c < 5
    ensures Count(Others(seed, c), 55 * m) == 10 * m
  {
    DuplicatesPerClass(seed, c, m);
    ResiduesAreEven(seed, c, 11 * m);
    CountSplits(EveryEleventh(Residue(seed, c)), Others(seed, c), Residue(seed, c), 55 * m);
  }

  // -------------------------------------------------------------- exact counts

  /** The rows of a batch are the simulated scenarios of a seed. */
  predicate RowsOf(rows: seq<SimulationResult>, seed: int) {
    forall k :: 0 <= k < |rows| ==> rows[k] == Simulated(ScenarioAt(seed, k))
  }

  lemma {:induction false} RowsCount(rows: seq<SimulationResult>, p: SimulationResult -> bool, q: int -> bool)
    requires forall k :: 0 <= k < |rows| ==> p(rows[k]) == q(k)
    ensures CountRows(rows, p) == Count(q, |rows|)
  {
    if rows != [] {
      RowsCount(rows[..|rows| - 1], p, q);
    }
  }

  /** What the place of a scenario in the batch decides about its row. */
  lemma RowAt(seed: int, k: nat)
    ensures var r, c, repeat := Simulated(ScenarioAt(seed, k)), (k + seed) % 5, k % 11 == 0;
      && (AtRisk(r) <==> c != 4)
      && (Saved(r) <==> !repeat && (c == 0 || c == 1))
      && (Failing(r) <==> !repeat && (c == 2 || c == 3))
      && (Escalating(r) <==> !repeat && c == 2)
      && (Verifying(r) <==> !repeat && c == 3)
      && (Rejected(r) <==> repeat) && (Stopping(r) <==> repeat)
      && (Correct(r) <==> c == 0)
      && 1000 <= r.amountMinor < 10000
  {
    var c := (k + seed) % 5;
    assert TEMPLATES[c] == ScenarioTemplate(c);
  }

  function ScenarioTemplate(c: int): Template
    requires 0 <= c < 5
  {
    if c == 0 then Template(Recoverable, RetryPayment, PrSucceeded, RetryPayment)
    else if c == 1 then Template(Recoverable, OperatorReview, PrSucceeded, RetryPayment)
    else if c == 2 then Template(PermanentFailure, RetryPayment, PrFailed, OperatorReview)
    else if c == 3 then Template(UncertainTruth, RetryPayment, PrUnknown, OperatorReview)
    else Template(AlreadySucceeded, RetryPayment, PrSucceeded, StopRecovery)
  }

  function Always(): int -> bool {
    (i: int) => true
  }

  lemma {:induction false} CountAlways(n: nat)
    ensures Count(Always(), n) == n
  {
    if n > 0 {
      CountAlways(n - 1);
    }
  }

  function NotLast(seed: int): int -> bool {
    (i: int) => (i + seed) % 5 != 4
  }

  function FreshIn(seed: int, c: int, d: int): int -> bool {
    (i: int) => i % 11 != 0 && ((i + seed) % 5 == c || (i + seed) % 5 == d)
  }

  lemma FreshPerTwoClasses(seed: int, c: int, d: int, m: nat)
    requires 0 <= c < d < 5
    ensures Count(FreshIn(seed, c, d), 55 * m) == 20 * m
  {
    FreshPerClass(seed, c, m);
    FreshPerClass(seed, d, m);
    CountSplits(Others(seed, c), Others(seed, d), FreshIn(seed, c, d), 55 * m);
  }

  lemma RepeatsCount(m: nat)
    ensures Count(EveryEleventh(Always()), 55 * m) == 5 * m
  {
    StrideCounts(Always(), 5 * m);
    CountSame(Stretched(Always()), Always(), 5 * m);
    CountAlways(5 * m);
  }

  lemma AtRiskCount(seed: int, m: nat)
    ensures Count(NotLast(seed), 55 * m) == 44 * m
  {
    CountAlways(55 * m);
    ResiduesAreEven(seed, 4, 11 * m);
    CountSplits(Residue(seed, 4), NotLast(seed), Always(), 55 * m);
  }

  /** For every seed, a batch of 55m scenarios has 44m at risk, 20m recovered, 20m classified
      failures, 10m escalations, 10m verifications, 5m rejected, 5m stopped and 11m actions that
      were correct. */
  lemma BatchCountsAreExact(rows: seq<SimulationResult>, seed: int, m: nat)
    requires |rows| == 55 * m && RowsOf(rows, seed)
    ensures CountRows(rows, AtRisk) == 44 * m
    ensures CountRows(rows, Saved) == 20 * m && CountRows(rows, Failing) == 20 * m
    ensures CountRows(rows, Escalating) == 10 * m && CountRows(rows, Verifying) == 10 * m
    ensures CountRows(rows, Rejected) == 5 * m && CountRows(rows, Stopping) == 5 * m
    ensures CountRows(rows, Correct) == 11 * m
  {
    PlacesDecide(rows, seed);
    assert CountRows(rows, AtRisk) == 44 * m by {
      RowsCount(rows, AtRisk, NotLast(seed));
      AtRiskCount(seed, m);
    }
    assert CountRows(rows, Saved) == 20 * m by {
      RowsCount(rows, Saved, FreshIn(seed, 0, 1));
      FreshPerTwoClasses(seed, 0, 1, m);
    }
    assert CountRows(rows, Failing) == 20 * m by {
      RowsCount(rows, Failing, FreshIn(seed, 2, 3));
      FreshPerTwoClasses(seed, 2, 3, m);
    }
    DispositionsAreExact(rows, seed, m);
    RejectionsAreExact(rows, seed, m);
    CorrectActionsAreExact(rows, seed, m);
  }

  lemma CorrectActionsAreExact(rows: seq<SimulationResult>, seed: int, m: nat)
    requires |rows| == 55 * m && RowsOf(rows, seed)
    ensures CountRows(rows, Correct) == 11 * m
  {
    PlacesDecide(rows, seed);
    RowsCount(rows, Correct, Residue(seed, 0));
    ClassesInBatch(seed, 0, m);
  }

  lemma ClassesInBatch(seed: int, c: int, m: nat)
    requires 0 <= c < 5
    ensures Count(Residue(seed, c), 55 * m) == 11 * m
  {
    assert 55 * m == 5 * (11 * m);
    ResiduesAreEven(seed, c, 11 * m);
  }

  lemma DispositionsAreExact(rows: seq<SimulationResult>, seed: int, m: nat)
    requires |rows| == 55 * m && RowsOf(rows, seed)
    ensures CountRows(rows, Escalating) == 10 * m && CountRows(rows, Verifying) == 10 * m
  {
    PlacesDecide(rows, seed);
    RowsCount(rows, Escalating, Others(seed, 2));
    FreshPerClass(seed, 2, m);
    RowsCount(rows, Verifying, Others(seed, 3));
    FreshPerClass(seed, 3, m);
  }

  lemma RejectionsAreExact(rows: seq<SimulationResult>, seed: int, m: nat)
    requires |rows| == 55 * m && RowsOf(rows, seed)
    ensures CountRows(rows, Rejected) == 5 * m && CountRows(rows, Stopping) == 5 * m
  {
    PlacesDecide(rows, seed);
    RowsCount(rows, Rejected, EveryEleventh(Always()));
    RowsCount(rows, Stopping, EveryEleventh(Always()));
    RepeatsCount(m);
  }

  /** The place of a row in the batch decides everything that is counted of it. */
  lemma PlacesDecide(rows: seq<SimulationResult>, seed: int)
    requires RowsOf(rows, seed)
    ensures forall k :: 0 <= k < |rows| ==>
              && AtRisk(rows[k]) == NotLast(seed)(k) && Correct(rows[k]) == Residue(seed, 0)(k)
              && Saved(rows[k]) == FreshIn(seed, 0, 1)(k) && Failing(rows[k]) == FreshIn(seed, 2, 3)(k)
              && Escalating(rows[k]) == Others(seed, 2)(k) && Verifying(rows[k]) == Others(seed, 3)(k)
              && Rejected(rows[k]) == EveryEleventh(Always())(k) && Stopping(rows[k]) == EveryEleventh(Always())(k)
  {
    forall k | 0 <= k < |rows|
      ensures AtRisk(rows[k]) == NotLast(seed)(k) && Correct(rows[k]) == Residue(seed, 0)(k)
      ensures Saved(rows[k]) == FreshIn(seed, 0, 1)(k) && Failing(rows[k]) == FreshIn(seed, 2, 3)(k)
      ensures Escalating(rows[k]) == Others(seed, 2)(k) && Verifying(rows[k]) == Others(seed, 3)(k)
      ensures Rejected(rows[k]) == EveryEleventh(Always())(k) && Stopping(rows[k]) == EveryEleventh(Always())(k)
    {
      RowAt(seed, k);
    }
  }

  lemma QuotientIs(x: int, d: int, q: int)
    requires d > 0 && q * d <= x < q * d + d
    ensures x / d == q && x % d == x - q * d
  {
    var e := x / d - q;
    assert x - q * d == e * d + x % d;
    assert e >= 1 ==> e * d >= d;
    assert e <= -1 ==> e * d <= -d;
  }

  lemma {:induction false} AllSafe(rows: seq<SimulationResult>)
    requires forall k :: 0 <= k < |rows| ==> Safe(rows[k])
    ensures CountRows(rows, Safe) == |rows|
  {
    if rows != [] {
      AllSafe(rows[..|rows| - 1]);
    }
  }

  lemma HalfEvenWithin(x: int, d: int, high: int)
    requires d > 0 && 0 <= x <= high * d
    ensures 0 <= HalfEven(x, d) <= high
    ensures x == high * d ==> HalfEven(x, d) == high
  {
    var q, r := x / d, x % d;
    var e := high - q;
    assert e * d == high * d - x + r;
    assert e <= -1 ==> e * d <= -d;
    assert e >= 1 ==> e * d >= d;
    assert q <= -1 ==> q * d <= -d;
  }

  /** A share of a whole is a rate between zero and one. */
  lemma ShareIsARate(part: int, whole: int)
    requires 0 <= part <= whole
    ensures 0 <= Rate(part, whole) <= 10000
    ensures part == whole && whole > 0 ==> Rate(part, whole) == 10000
  {
    if whole > 0 {
      HalfEvenWithin(part * 10000, whole, 10000);
    }
  }

  /** So its case recovery rate is 0.4545, its action accuracy 0.2000 and its safety rate one,
      whatever the seed. */
  method EvaluateBatch(seed: int, m: nat) returns (metrics: Metrics)
    requires m >= 1
    ensures metrics.scenarios == 55 * m && metrics.atRisk == 44 * m && metrics.recovered == 20 * m
    ensures metrics.failures == 20 * m && metrics.escalations == 10 * m && metrics.verifications == 10 * m
    ensures metrics.rejected == 5 * m && metrics.stopped == 5 * m
    ensures metrics.caseRecoveryRate == 4545 && metrics.actionAccuracy == 2000
    ensures metrics.safetyRate == 10000
    ensures 0 <= metrics.recoveredMinor <= metrics.atRiskMinor && 0 <= metrics.revenueRecoveryRate <= 10000
  {
    var batch := BuildScenarios(seed, 55 * m);
    var rows := RunBatch(batch.value);
    metrics := CalculateMetrics(rows);
    BatchCountsAreExact(rows, seed, m);
    QuotientIs(20 * m * 10000, 44 * m, 4545);
    QuotientIs(11 * m * 10000, 55 * m, 2000);
    forall k | 0 <= k < |rows| ensures 0 <= rows[k].amountMinor {
      RowAt(seed, k);
    }
    RevenueIsBounded(rows);
    ShareIsARate(SumRows(rows, Saved), SumRows(rows, AtRisk));
    AllSafe(rows);
    ShareIsARate(CountRows(rows, Safe), |rows|);
  }

  /** Recovered revenue never exceeds the revenue at risk. */
  lemma {:induction false} RevenueIsBounded(rows: seq<SimulationResult>)
    requires forall k :: 0 <= k < |rows| ==> 0 <= rows[k].amountMinor
    ensures 0 <= SumRows(rows, Saved) <= SumRows(rows, AtRisk)
  {
    if rows != [] {
      RevenueIsBounded(rows[..|rows| - 1]);
    }
  }

  // ------------------------------------------------- scenarios and their outcome

  lemma WrapsBy9000(x: int)
    ensures 0 <= x % 9000 < 9000 && (x - x % 9000) % 9000 == 0
  {
    assert x - x % 9000 == 9000 * (x / 9000);
  }

  /** Scenario by scenario: the class comes round every five, each eleventh is a repeat, and the
      amount steps by 137 with the index and by 17 with the seed, wrapping within 1000 to 9999. */
  lemma ScenariosExactly(seed: int, index: nat)
    ensures var s, c := ScenarioAt(seed, index), (index + seed) % 5;
      && s.id == (seed, index) && s.priorAttempts == 0 && !s.uncertain && (s.duplicate <==> index % 11 == 0)
      && 1000 <= s.amountMinor <= 9999 && (137 * index + 17 * seed - (s.amountMinor - 1000)) % 9000 == 0
      && s.truth == (if c <= 1 then Recoverable else if c == 2 then PermanentFailure else if c == 3 then UncertainTruth else AlreadySucceeded)
      && s.proposed == (if c == 1 then OperatorReview else RetryPayment)
      && s.expected == (if c <= 1 then RetryPayment else if c <= 3 then OperatorReview else StopRecovery)
      && s.provider == (if c == 2 then PrFailed else if c == 3 then PrUnknown else PrSucceeded)
  {
    WrapsBy9000(index * 137 + seed * 17);
  }

  /** The default policy lets a scenario through. */
  predicate LetThrough(s: Scenario) {
    s.proposed != NoAction && !s.duplicate && !OverLimit(s)
  }

  predicate OverLimit(s: Scenario) {
    s.proposed == RetryPayment && (s.priorAttempts >= 2 || s.uncertain)
  }

  /** What a scenario comes to: it recovers exactly when it is let through, the provider succeeds and
      it is recoverable; a failure is classified by what the provider said; and what is not let
      through is escalated over the limit and stopped otherwise. */
  lemma SimulationExactly(s: Scenario)
    ensures var r := Simulated(s);
      && r.amountMinor == s.amountMinor && r.truth == s.truth && r.safe && (r.actionCorrect <==> s.proposed == s.expected)
      && r.decision == (if OverLimit(s) then EscalateCase else if LetThrough(s) then Allow else Reject)
      && (r.recovered <==> LetThrough(s) && s.provider == PrSucceeded && s.truth == Recoverable)
      && r.failure == (if !LetThrough(s) || s.provider == PrSucceeded then None
                       else if s.provider == PrTimeout then Some(Backoff.Timeout)
                       else if s.provider == PrFailed then Some(Backoff.PermanentApi)
                       else Some(Backoff.UncertainOutcome))
      && r.disposition == (if OverLimit(s) then Some(Backoff.Escalate)
                           else if !LetThrough(s) then Some(Backoff.Stop)
                           else if s.provider == PrSucceeded then None
                           else if s.provider == PrTimeout then Some(Backoff.Retry)
                           else if s.provider == PrFailed then Some(Backoff.Escalate)
                           else Some(Backoff.Verify))
  {
  }

  /** What each figure of the metrics counts. */
  lemma CountedExactly(r: SimulationResult)
    ensures AtRisk(r) <==> r.truth != AlreadySucceeded
    ensures Saved(r) <==> r.truth != AlreadySucceeded && r.recovered
    ensures Failing(r) <==> r.failure != None
    ensures Escalating(r) <==> r.disposition == Some(Backoff.Escalate)
    ensures Verifying(r) <==> r.disposition == Some(Backoff.Verify)
    ensures Stopping(r) <==> r.disposition == Some(Backoff.Stop)
    ensures Rejected(r) <==> r.decision == Reject
    ensures (Correct(r) <==> r.actionCorrect) && (Safe(r) <==> r.safe)
  {
  }

  /** A rate is the nearest ten-thousandth, and of two equally near the even one; over zero it is zero. */
  lemma RateIsNearest(part: int, whole: int)
    ensures whole == 0 ==> Rate(part, whole) == 0
    ensures whole > 0 ==>
              var miss := 2 * (Rate(part, whole) * whole - part * 10000);
              -whole <= miss <= whole && (miss == whole || miss == -whole ==> Rate(part, whole) % 2 == 0)
    ensures Rate(-part, -whole) == Rate(part, whole)
  {
    if whole > 0 {
      HalfEvenIsNearest(part * 10000, whole);
    }
  }

  lemma HalfEvenIsNearest(x: int, d: int)
    requires d > 0
    ensures var miss := 2 * (HalfEven(x, d) * d - x);
      -d <= miss <= d && (miss == d || miss == -d ==> HalfEven(x, d) % 2 == 0)
  {
    var q, r := x / d, x % d;
    assert x == q * d + r;
    assert (q + 1) * d == q * d + d;
  }
}
