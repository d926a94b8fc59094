/** Expected-value strategy selection: a logistic estimate per strategy, rounded to a
    ten-thousandth, its net value in minor units, and a stable ranking. */
module StrategySelection {
  import opened Domain
  import opened Lists

  datatype Strategy = RetryLater | UpdatePaymentMethod | CustomerReminder | SupportEscalation | ManualReview | NoFurtherAction

  datatype StrategySpec = StrategySpec(strategy: Strategy, action: ActionType, costMinor: int)

  const CATALOGUE := [
    StrategySpec(RetryLater, RetryPayment, 2),
    StrategySpec(UpdatePaymentMethod, SendReminder, 15),
    StrategySpec(CustomerReminder, SendReminder, 15),
    StrategySpec(SupportEscalation, OperatorReview, 250),
    StrategySpec(ManualReview, OperatorReview, 250),
    StrategySpec(NoFurtherAction, StopRecovery, 0)]

  datatype Query = Query(
    amountMinor: int,
    retryable: bool,
    failureConfidence: int,
    highBand: bool,
    riskScore: int,
    priorAttempts: int,
    successRate: real,
    alternateMethod: bool,
    terminal: bool)

  // --------------------------------------------------------------- estimation

  /** The sigmoid rounded to ten-thousandths; all that matters of it is that it never falls. */
  ghost predicate Monotone(sigmoid: real -> int) {
    forall x: real, y: real :: x <= y ==> sigmoid(x) <= sigmoid(y)
  }

  function Clamp(low: int, x: int, high: int): int {
    if x < low then low else if x > high then high else x
  }

  function ClampedRate(rate: real): real {
    if rate < 0.0 then 0.0 else if rate > 1.0 then 1.0 else rate
  }

  /** What the action adds to the logit. */
  function ActionWeight(q: Query, action: ActionType): real {
    match action
    case SendReminder => if q.alternateMethod then 0.25 else 0.0
    case RetryPayment => if q.retryable then 0.45 else 0.0
    case OperatorReview => 0.10
    case StopRecovery => -0.45
    case NoAction => 0.0
  }

  function BaseLogit(q: Query): real {
    -0.65
    + (if q.priorAttempts <= 1 then 0.42
       else -0.25 * (if q.priorAttempts <= 4 then q.priorAttempts else 4) as real)
    + 0.55 * (ClampedRate(q.successRate) - 0.5)
    + (if q.riskScore >= 70 then -1.20 else 0.0)
  }

  /** The recovery probability in ten-thousandths. */
  function Probability(sigmoid: real -> int, q: Query, action: ActionType): int {
    Clamp(100, sigmoid(BaseLogit(q) + ActionWeight(q, action)), 9900)
  }

  method EstimateProbability(sigmoid: real -> int, q: Query, action: ActionType) returns (p: int)
    ensures p == Probability(sigmoid, q, action)
  {
    var z := -0.65;
    if q.priorAttempts <= 1 {
      z := z + 0.42;
    } else {
      var counted := if q.priorAttempts <= 4 then q.priorAttempts else 4;
      z := z + -0.25 * counted as real;
    }
    z := z + 0.55 * (ClampedRate(q.successRate) - 0.5);
    if action.SendReminder? && q.alternateMethod {
      z := z + 0.25;
    }
    if action.RetryPayment? && q.retryable {
      z := z + 0.45;
    }
    if action.OperatorReview? {
      z := z + 0.10;
    }
    if action.StopRecovery? {
      z := z + -0.45;
    }
    if q.riskScore >= 70 {
      z := z + -1.20;
    }
    assert z == BaseLogit(q) + ActionWeight(q, action);
    p := Clamp(100, sigmoid(z), 9900);
  }

  // --------------------------------------------------------------- candidates

  /** x / 10000 rounded to the nearest integer, halves away from zero. */
  function RoundHalfUp(x: int): int {
    if x >= 0 then (x + 5000) / 10000 else -((-x + 5000) / 10000)
  }

  datatype Candidate = Candidate(strategy: Strategy, action: ActionType, probability: int, grossMinor: int, netMinor: int, permitted: bool)

  predicate RetryPermitted(q: Query) {
    q.retryable && !q.highBand && q.priorAttempts < 4
  }

  function CandidateFor(sigmoid: real -> int, q: Query, spec: StrategySpec): Candidate {
    var p := Probability(sigmoid, q, spec.action);
    var gross := RoundHalfUp(q.amountMinor * p);
    Candidate(spec.strategy, spec.action, p, gross, gross - spec.costMinor, spec.strategy.RetryLater? ==> RetryPermitted(q))
  }

  function Candidates(sigmoid: real -> int, q: Query, specs: seq<StrategySpec>): (cs: seq<Candidate>)
    ensures |cs| == |specs| && forall k :: 0 <= k < |cs| ==> cs[k] == CandidateFor(sigmoid, q, specs[k])
  {
    if specs == [] then []
    else Candidates(sigmoid, q, specs[..|specs| - 1]) + [CandidateFor(sigmoid, q, specs[|specs| - 1])]
  }

  predicate IsPermitted(c: Candidate) {
    c.permitted
  }

  predicate SafeUnderHighRisk(c: Candidate) {
    c.strategy.ManualReview? || c.strategy.NoFurtherAction?
  }

  /** The candidates that are ranked. */
  function Eligible(q: Query, candidates: seq<Candidate>): seq<Candidate> {
    var permitted := Filter(candidates, IsPermitted);
    var safe := Filter(permitted, SafeUnderHighRisk);
    if q.highBand && safe != [] then safe else permitted
  }

  // ------------------------------------------------------------------ ranking

  /** Inserts a candidate behind every one that is worth at least as much. */
  function InsertRanked(sorted: seq<Candidate>, c: Candidate): seq<Candidate> {
    if sorted == [] then [c]
    else if sorted[|sorted| - 1].netMinor >= c.netMinor then sorted + [c]
    else InsertRanked(sorted[..|sorted| - 1], c) + [sorted[|sorted| - 1]]
  }

  /** Highest net value first, equal values in their original order. */
  function Ranked(candidates: seq<Candidate>): seq<Candidate> {
    if candidates == [] then []
    else InsertRanked(Ranked(candidates[..|candidates| - 1]), candidates[|candidates| - 1])
  }

  predicate Descending(cs: seq<Candidate>) {
    forall i, j :: 0 <= i < j < |cs| ==> cs[i].netMinor >= cs[j].netMinor
  }

  lemma {:induction false} InsertionPermutes(sorted: seq<Candidate>, c: Candidate)
    ensures multiset(InsertRanked(sorted, c)) == multiset(sorted) + multiset{c}
    ensures |InsertRanked(sorted, c)| == |sorted| + 1
  {
    if sorted != [] {
      assert sorted == sorted[..|sorted| - 1] + [sorted[|sorted| - 1]];
      InsertionPermutes(sorted[..|sorted| - 1], c);
    }
  }

  lemma {:induction false} InsertionIsRanked(sorted: seq<Candidate>, c: Candidate)
    requires Descending(sorted)
    ensures Descending(InsertRanked(sorted, c))
    ensures forall x <- InsertRanked(sorted, c) :: x in sorted || x == c
    ensures |InsertRanked(sorted, c)| == |sorted| + 1
    ensures InsertRanked(sorted, c)[0] == (if sorted != [] && sorted[0].netMinor >= c.netMinor then sorted[0] else c)
  {
    if sorted != [] && sorted[|sorted| - 1].netMinor < c.netMinor {
      var last := sorted[|sorted| - 1];
      InsertionIsRanked(sorted[..|sorted| - 1], c);
      var inserted := InsertRanked(sorted[..|sorted| - 1], c);
      forall i | 0 <= i < |inserted| ensures inserted[i].netMinor >= last.netMinor {
        assert inserted[i] in inserted;
      }
    }
  }

  /** The ranking is a descending rearrangement, and its head is the earliest maximum. */
  predicate EarliestMaximum(cs: seq<Candidate>, k: nat) {
    && k < |cs|
    && (forall j :: 0 <= j < |cs| ==> cs[j].netMinor <= cs[k].netMinor)
    && (forall j :: 0 <= j < k ==> cs[j].netMinor < cs[k].netMinor)
  }

  lemma RankedAppend(front: seq<Candidate>, last: Candidate)
    ensures Ranked(front + [last]) == InsertRanked(Ranked(front), last)
  {
    assert (front + [last])[..|front|] == front;
  }

  lemma {:induction false} RankingPermutes(cs: seq<Candidate>)
    ensures Descending(Ranked(cs)) && multiset(Ranked(cs)) == multiset(cs) && |Ranked(cs)| == |cs|
  {
    if cs != [] {
      var front, last := cs[..|cs| - 1], cs[|cs| - 1];
      assert cs == front + [last];
      RankedAppend(front, last);
      RankingPermutes(front);
      InsertionPermutes(Ranked(front), last);
      InsertionIsRanked(Ranked(front), last);
    }
  }

  lemma MaximumExtends(front: seq<Candidate>, last: Candidate, k: nat)
    requires EarliestMaximum(front, k)
    ensures EarliestMaximum(front + [last], if front[k].netMinor < last.netMinor then |front| else k)
  {
  }

  lemma {:induction false} HeadIsEarliestMaximum(cs: seq<Candidate>) returns (k: nat)
    requires cs != []
    ensures EarliestMaximum(cs, k) && |Ranked(cs)| == |cs| && Ranked(cs)[0] == cs[k]
  {
    var front, last := cs[..|cs| - 1], cs[|cs| - 1];
    assert cs == front + [last];
    RankingPermutes(front);
    InsertionIsRanked(Ranked(front), last);
    if front == [] {
      k := 0;
    } else {
      k := HeadIsEarliestMaximum(front);
      MaximumExtends(front, last, k);
      if front[k].netMinor < last.netMinor {
        k := |front|;
      }
    }
  }

  // ---------------------------------------------------------------- selection

  datatype Selection = Selection(strategy: Strategy, action: ActionType, confidence: int, expectedMinor: int, candidates: seq<Candidate>)

  const HALTED := Candidate(NoFurtherAction, StopRecovery, 0, 0, 0, true)

  function Max(a: int, b: int): int {
    if a >= b then a else b
  }

  function Min(a: int, b: int): int {
    if a <= b then a else b
  }

  lemma PermittedOnes(q: Query, cs: seq<Candidate>)
    requires |cs| == 6 && cs[0].permitted == RetryPermitted(q)
    requires forall k :: 0 < k < 6 ==> cs[k].permitted
    ensures Filter(cs, IsPermitted) == if RetryPermitted(q) then cs else cs[1..]
  {
    hide RetryPermitted;
    var rest := cs[1..];
    AllKept(rest, IsPermitted);
    assert cs == [cs[0]] + rest;
  }

  lemma EligibleOf(q: Query, cs: seq<Candidate>)
    requires |cs| == 6 && cs[0].permitted == RetryPermitted(q)
    requires forall k :: 0 < k < 6 ==> cs[k].permitted
    requires forall k :: 0 <= k < 6 ==> (SafeUnderHighRisk(cs[k]) <==> k >= 4)
    ensures Eligible(q, cs) == if q.highBand then [cs[4], cs[5]] else if RetryPermitted(q) then cs else cs[1..]
  {
    hide RetryPermitted, SafeUnderHighRisk;
    PermittedOnes(q, cs);
    SafeOnesKept(cs[1..]);
    if q.highBand {
      assert cs == [cs[0]] + cs[1..];
    }
  }

  /** High risk leaves the last two strategies, otherwise all of them, the retry if permitted. */
  lemma EligibleCandidates(sigmoid: real -> int, q: Query)
    ensures var cs := Candidates(sigmoid, q, CATALOGUE);
      && |cs| == 6
      && Eligible(q, cs) == if q.highBand then [cs[4], cs[5]] else if RetryPermitted(q) then cs else cs[1..]
  {
    EligibleOf(q, Candidates(sigmoid, q, CATALOGUE));
  }

  lemma {:induction false} AllKept(cs: seq<Candidate>, p: Candidate -> bool)
    requires forall k :: 0 <= k < |cs| ==> p(cs[k])
    ensures Filter(cs, p) == cs
  {
    if cs != [] {
      AllKept(cs[1..], p);
    }
  }

  lemma SafeOnesKept(rest: seq<Candidate>)
    requires |rest| == 5 && forall k :: 0 <= k < 3 ==> !SafeUnderHighRisk(rest[k])
    requires SafeUnderHighRisk(rest[3]) && SafeUnderHighRisk(rest[4])
    ensures Filter(rest, SafeUnderHighRisk) == [rest[3], rest[4]]
  {
    assert rest[1..][0] == rest[1] && rest[2..][0] == rest[2] && rest[1..][1..] == rest[2..] && rest[2..][1..] == rest[3..];
    AllKept(rest[3..], SafeUnderHighRisk);
    assert Filter(rest[2..], SafeUnderHighRisk) == rest[3..];
    assert Filter(rest[1..], SafeUnderHighRisk) == rest[3..];
  }

  function Select(sigmoid: real -> int, q: Query): Selection {
    if q.terminal then Selection(NoFurtherAction, StopRecovery, 10000, 0, [HALTED])
    else
      var cs := Candidates(sigmoid, q, CATALOGUE);
      EligibleCandidates(sigmoid, q);
      RankingPermutes(Eligible(q, cs));
      var winner := Ranked(Eligible(q, cs))[0];
      Selection(winner.strategy, winner.action, Min(q.failureConfidence, Max(winner.probability, 5000)), winner.netMinor, cs)
  }

  /** Builds the candidates, ranks the eligible ones and takes the best; there always is one, so
      the source's fallback to the stop strategy is never reached. */
  method SelectStrategy(sigmoid: real -> int, q: Query) returns (r: Selection)
    ensures r == Select(sigmoid, q)
  {
    if q.terminal {
      return Selection(NoFurtherAction, StopRecovery, 10000, 0, [HALTED]);
    }
    var candidates: seq<Candidate> := [];
    for k := 0 to |CATALOGUE|
      invariant candidates == Candidates(sigmoid, q, CATALOGUE[..k])
    {
      var spec := CATALOGUE[k];
      var permitted := true;
      var p := EstimateProbability(sigmoid, q, spec.action);
      if spec.strategy.RetryLater? {
        if !q.retryable {
          permitted := false;
        }
        if q.highBand {
          permitted := false;
        }
        if q.priorAttempts >= 4 {
          permitted := false;
        }
      }
      var gross := RoundHalfUp(q.amountMinor * p);
      assert CATALOGUE[..k + 1][..k] == CATALOGUE[..k];
      candidates := candidates + [Candidate(spec.strategy, spec.action, p, gross, gross - spec.costMinor, permitted)];
    }
    assert CATALOGUE[..|CATALOGUE|] == CATALOGUE;
    EligibleCandidates(sigmoid, q);
    RankingPermutes(Eligible(q, candidates));
    var winner := Ranked(Eligible(q, candidates))[0];
    r := Selection(winner.strategy, winner.action, Min(q.failureConfidence, Max(winner.probability, 5000)),
                   winner.netMinor, candidates);
  }

  // --------------------------------------------------------------- properties

  /** The winner is the eligible candidate of largest net value, the earliest in catalogue order
      among equals. */
  lemma WinnerIsEarliestMaximum(sigmoid: real -> int, q: Query) returns (k: nat)
    requires !q.terminal
    ensures var r := Select(sigmoid, q);
      var eligible := Eligible(q, r.candidates);
      && EarliestMaximum(eligible, k)
      && r.strategy == eligible[k].strategy && r.action == eligible[k].action && r.expectedMinor == eligible[k].netMinor
  {
    EligibleCandidates(sigmoid, q);
    k := HeadIsEarliestMaximum(Eligible(q, Candidates(sigmoid, q, CATALOGUE)));
  }

  /** A high risk band leaves only review or stopping. */
  lemma HighRiskIsNeverAutomated(sigmoid: real -> int, q: Query)
    requires q.highBand
    ensures Select(sigmoid, q).strategy.ManualReview? || Select(sigmoid, q).strategy.NoFurtherAction?
  {
    if !q.terminal {
      EligibleCandidates(sigmoid, q);
      var k := WinnerIsEarliestMaximum(sigmoid, q);
    }
  }

  /** Each gross value is the product of amount and probability to within half a minor unit, and
      never more than the amount. */
  lemma GrossIsNearest(sigmoid: real -> int, q: Query, spec: StrategySpec)
    ensures var c := CandidateFor(sigmoid, q, spec);
      && 100 <= c.probability <= 9900
      && -5000 <= 10000 * c.grossMinor - q.amountMinor * c.probability <= 5000
      && (q.amountMinor >= 0 ==> -5000 < 10000 * c.grossMinor - q.amountMinor * c.probability)
      && (q.amountMinor >= 0 ==> 0 <= c.grossMinor <= q.amountMinor)
  {
    var p := Probability(sigmoid, q, spec.action);
    RoundingIsNearest(q.amountMinor * p);
    if q.amountMinor >= 0 {
      ShareIsWithin(q.amountMinor, p);
    }
  }

  lemma RoundingIsNearest(x: int)
    ensures -5000 <= 10000 * RoundHalfUp(x) - x <= 5000
    ensures x >= 0 ==> -5000 < 10000 * RoundHalfUp(x) - x
  {
  }

  lemma ShareIsWithin(amount: int, p: int)
    requires amount >= 0 && 0 <= p <= 9900
    ensures 0 <= RoundHalfUp(amount * p) <= amount
  {
    var x := amount * p;
    assert 0 <= x;
    assert x <= 9900 * amount;
    RoundingIsNearest(x);
  }

  lemma LargerIsWorthMore(amount: int, p: int, r: int)
    requires amount >= 0 && 0 <= p <= r
    ensures RoundHalfUp(amount * p) <= RoundHalfUp(amount * r)
  {
    assert 0 <= amount * p <= amount * r;
  }

  lemma WeightOrders(sigmoid: real -> int, q: Query, a: ActionType, b: ActionType)
    requires Monotone(sigmoid) && q.amountMinor >= 0 && ActionWeight(q, a) <= ActionWeight(q, b)
    ensures RoundHalfUp(q.amountMinor * Probability(sigmoid, q, a)) <= RoundHalfUp(q.amountMinor * Probability(sigmoid, q, b))
  {
    var x, y := BaseLogit(q) + ActionWeight(q, a), BaseLogit(q) + ActionWeight(q, b);
    assert sigmoid(x) <= sigmoid(y);
    LargerIsWorthMore(q.amountMinor, Probability(sigmoid, q, a), Probability(sigmoid, q, b));
  }

  lemma RetryOutvaluesTheRest(sigmoid: real -> int, q: Query, k: nat)
    requires Monotone(sigmoid) && q.amountMinor >= 0 && RetryPermitted(q) && 1 <= k <= 4
    ensures CandidateFor(sigmoid, q, CATALOGUE[k]).netMinor < CandidateFor(sigmoid, q, CATALOGUE[0]).netMinor
  {
    WeightOrders(sigmoid, q, CATALOGUE[k].action, RetryPayment);
  }

  /** Whenever retrying is permitted it beats every strategy but stopping, for any monotone
      sigmoid and any amount: the winner is the retry exactly when its gross value exceeds the
      stop strategy's by its cost, and stopping otherwise. */
  lemma PermittedRetryDominates(sigmoid: real -> int, q: Query)
    requires Monotone(sigmoid) && q.amountMinor >= 0 && !q.terminal && RetryPermitted(q)
    ensures var r := Select(sigmoid, q);
      && |r.candidates| == 6
      && r.strategy == if r.candidates[0].grossMinor - 2 >= r.candidates[5].grossMinor then RetryLater else NoFurtherAction
  {
    var cs := Candidates(sigmoid, q, CATALOGUE);
    EligibleCandidates(sigmoid, q);
    forall k: nat | 1 <= k <= 4 ensures cs[k].netMinor < cs[0].netMinor {
      RetryOutvaluesTheRest(sigmoid, q, k);
    }
    var k := WinnerIsEarliestMaximum(sigmoid, q);
    assert cs[0].netMinor <= cs[k].netMinor && cs[5].netMinor <= cs[k].netMinor;
  }

  /** Two strategies repeat the estimate of an earlier one: the plain reminder is never selected,
      and manual review only under high risk. */
  lemma ShadowedStrategiesLose(sigmoid: real -> int, q: Query)
    requires !q.terminal
    ensures !Select(sigmoid, q).strategy.CustomerReminder?
    ensures Select(sigmoid, q).strategy.ManualReview? ==> q.highBand
  {
    EligibleCandidates(sigmoid, q);
    var k := WinnerIsEarliestMaximum(sigmoid, q);
    var cs := Select(sigmoid, q).candidates;
    assert cs[1].netMinor == cs[2].netMinor && cs[3].netMinor == cs[4].netMinor;
  }

  /** The confidence reported never exceeds the failure classification's. */
  lemma ConfidenceIsCapped(sigmoid: real -> int, q: Query)
    requires !q.terminal && q.failureConfidence >= 0
    ensures var r := Select(sigmoid, q);
      Min(q.failureConfidence, 5000) <= r.confidence <= q.failureConfidence && r.confidence <= 9900
  {
    var cs := Candidates(sigmoid, q, CATALOGUE);
    EligibleCandidates(sigmoid, q);
    assert forall k :: 0 <= k < |cs| ==> cs[k].probability <= 9900;
    var k := HeadIsEarliestMaximum(Eligible(q, cs));
    assert Eligible(q, cs)[k].probability <= 9900;
  }

  // -------------------------------------------------- what moves the estimate

  /** A high risk score costs 1.2, wherever it starts from 70. */
  lemma RiskCosts(q: Query, risk: int)
    ensures BaseLogit(q.(riskScore := risk)) ==
              BaseLogit(q) + (if q.riskScore < 70 <= risk then -1.2 else if risk < 70 <= q.riskScore then 1.2 else 0.0)
  {
  }

  /** The second prior attempt costs 0.92, the third and the fourth 0.25 each, any other nothing. */
  lemma AttemptsCost(q: Query, n: int)
    ensures BaseLogit(q.(priorAttempts := n + 1)) ==
              BaseLogit(q.(priorAttempts := n)) - (if n == 1 then 0.92 else if n == 2 || n == 3 then 0.25 else 0.0)
  {
  }

  /** The success rate counts by 0.55 between zero and one, and as the nearer of them outside. */
  lemma SuccessPays(q: Query, rate: real)
    ensures 0.0 <= q.successRate <= 1.0 && 0.0 <= rate <= 1.0 ==>
              BaseLogit(q.(successRate := rate)) == BaseLogit(q) + 0.55 * (rate - q.successRate)
    ensures rate < 0.0 ==> BaseLogit(q.(successRate := rate)) == BaseLogit(q.(successRate := 0.0))
    ensures rate > 1.0 ==> BaseLogit(q.(successRate := rate)) == BaseLogit(q.(successRate := 1.0))
  {
  }

  /** The point the others start from: a first attempt at low risk with an even success rate. */
  lemma EstimateStartsAt(q: Query)
    requires q.riskScore < 70 && q.priorAttempts == 0 && q.successRate == 0.5
    ensures BaseLogit(q) == -0.23
  {
  }

  /** What each action adds to doing nothing. */
  lemma ActionsPay(q: Query)
    ensures ActionWeight(q, NoAction) == 0.0
    ensures ActionWeight(q, RetryPayment) == if q.retryable then 0.45 else 0.0
    ensures ActionWeight(q, SendReminder) == if q.alternateMethod then 0.25 else 0.0
    ensures ActionWeight(q, OperatorReview) == 0.1 && ActionWeight(q, StopRecovery) == -0.45
  {
  }

  lemma {:induction false} FewerAttemptsPay(q: Query, m: int, n: int)
    requires m <= n
    ensures BaseLogit(q.(priorAttempts := n)) <= BaseLogit(q.(priorAttempts := m))
    decreases n - m
  {
    if m < n {
      FewerAttemptsPay(q, m, n - 1);
      AttemptsCost(q, n - 1);
    }
  }

  /** So under any sigmoid that never falls, more risk, more prior attempts and a lower success rate
      never raise the estimate of any action, and it stays between 0.01 and 0.99. */
  lemma EstimateMoves(sigmoid: real -> int, better: Query, worse: Query, action: ActionType)
    requires Monotone(sigmoid)
    requires worse == better.(riskScore := worse.riskScore, priorAttempts := worse.priorAttempts, successRate := worse.successRate)
    requires better.riskScore <= worse.riskScore && better.priorAttempts <= worse.priorAttempts
    requires worse.successRate <= better.successRate
    ensures 100 <= Probability(sigmoid, worse, action) <= Probability(sigmoid, better, action) <= 9900
  {
    var a := better.(riskScore := worse.riskScore);
    var b := a.(priorAttempts := worse.priorAttempts);
    RiskCosts(better, worse.riskScore);
    FewerAttemptsPay(a, better.priorAttempts, worse.priorAttempts);
    assert a == a.(priorAttempts := better.priorAttempts);
    assert BaseLogit(worse) <= BaseLogit(b);
    assert ActionWeight(worse, action) == ActionWeight(better, action);
  }

  // ----------------------------------------------------------------- the choice

  const OFFERED := [RetryLater, UpdatePaymentMethod, CustomerReminder, SupportEscalation, ManualReview, NoFurtherAction]
  const ACTIONS := [RetryPayment, SendReminder, SendReminder, OperatorReview, OperatorReview, StopRecovery]
  const COSTS := [2, 15, 15, 250, 250, 0]

  /** The strategies that may be chosen: under high risk the last two; otherwise all, but the retry
      only of a retryable failure with fewer than four attempts behind it. */
  predicate MayChoose(q: Query, k: nat) {
    k < 6 && if q.highBand then k >= 4 else k > 0 || (q.retryable && q.priorAttempts < 4)
  }

  /** Strategy `j` as it is offered: its estimate, and its value after its own cost. */
  predicate IsOffer(sigmoid: real -> int, q: Query, j: nat, c: Candidate)
    requires j < 6
  {
    && c.strategy == OFFERED[j] && c.action == ACTIONS[j] && c.netMinor == c.grossMinor - COSTS[j]
    && c.probability == Probability(sigmoid, q, ACTIONS[j]) && c.grossMinor == RoundHalfUp(q.amountMinor * c.probability)
    && (c.permitted <==> j > 0 || (q.retryable && !q.highBand && q.priorAttempts < 4))
  }

  lemma OffersExactly(sigmoid: real -> int, q: Query)
    ensures |Candidates(sigmoid, q, CATALOGUE)| == 6
    ensures forall j :: 0 <= j < 6 ==> IsOffer(sigmoid, q, j, Candidates(sigmoid, q, CATALOGUE)[j])
  {
    hide Probability, RoundHalfUp;
  }

  /** Candidate `k` is the one that may be chosen of largest value, and the earliest of equals. */
  predicate IsBest(q: Query, cs: seq<Candidate>, k: nat)
    requires |cs| == 6
  {
    && MayChoose(q, k)
    && (forall j :: 0 <= j < 6 && MayChoose(q, j) ==> cs[j].netMinor <= cs[k].netMinor)
    && (forall j :: 0 <= j < k && MayChoose(q, j) ==> cs[j].netMinor < cs[k].netMinor)
  }

  lemma BestIsHead(q: Query, cs: seq<Candidate>, eligible: seq<Candidate>, at: nat) returns (k: nat)
    requires |cs| == 6 && EarliestMaximum(eligible, at)
    requires eligible == if q.highBand then [cs[4], cs[5]] else if RetryPermitted(q) then cs else cs[1..]
    ensures IsBest(q, cs, k) && cs[k] == eligible[at]
  {
    k := if q.highBand then at + 4 else if RetryPermitted(q) then at else at + 1;
    assert forall j :: 0 <= j < 6 && MayChoose(q, j) ==>
        cs[j] == eligible[if q.highBand then j - 4 else if RetryPermitted(q) then j else j - 1];
  }

  /** The choice is the best of what may be chosen; its confidence is the estimate, at least a half
      and at most that of the failure's classification. An ended case is stopped with certainty. */
  lemma ChoiceExactly(sigmoid: real -> int, q: Query) returns (k: nat)
    ensures var r := Select(sigmoid, q);
      if q.terminal then r == Selection(NoFurtherAction, StopRecovery, 10000, 0, [Candidate(NoFurtherAction, StopRecovery, 0, 0, 0, true)])
      else
        && |r.candidates| == 6 && (forall j :: 0 <= j < 6 ==> IsOffer(sigmoid, q, j, r.candidates[j]))
        && IsBest(q, r.candidates, k)
        && r.strategy == OFFERED[k] && r.action == ACTIONS[k] && r.expectedMinor == r.candidates[k].netMinor
        && var half := if r.candidates[k].probability < 5000 then 5000 else r.candidates[k].probability;
           r.confidence == if q.failureConfidence < half then q.failureConfidence else half
  {
    hide Probability, RoundHalfUp, Ranked, Candidates, Eligible;
    k := 0;
    if !q.terminal {
      var cs := Candidates(sigmoid, q, CATALOGUE);
      OffersExactly(sigmoid, q);
      EligibleCandidates(sigmoid, q);
      var at := HeadIsEarliestMaximum(Eligible(q, cs));
      k := BestIsHead(q, cs, Eligible(q, cs), at);
    }
  }
}
