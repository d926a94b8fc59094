/** The resilience policy: classification of failures and the exponential backoff it schedules. */
module Backoff {
  import opened Domain

  datatype FailureKind =
    | Timeout
    | TransientApi
    | PermanentApi
    | InvalidAgentOutput
    | UncertainOutcome
    | DuplicateRequest
    | UnknownKind

  datatype Disposition = Retry | Verify | Escalate | Stop

  datatype Schedule = Schedule(attempt: int, at: int, delay: int)

  datatype Classification = Classification(disposition: Disposition, schedule: Option<Schedule>)

  /** A policy object; its constructor refuses fewer than one attempt. */
  datatype Policy = Policy(maxAttempts: int, baseDelay: int, maxDelay: int)

  const DEFAULT_POLICY := Policy(2, 30, 3600)

  predicate Transient(kind: FailureKind) {
    kind.Timeout? || kind.TransientApi? || kind.UnknownKind?
  }

  function Pow2(n: nat): (r: nat)
    ensures r >= 1
  {
    if n == 0 then 1 else 2 * Pow2(n - 1)
  }

  function Min(a: int, b: int): int {
    if a <= b then a else b
  }

  function Delay(p: Policy, attempt: int): int {
    Min(p.baseDelay * Pow2(if attempt >= 1 then attempt - 1 else 0), p.maxDelay)
  }

  function Classify(p: Policy, kind: FailureKind, attempt: int, now: int): Classification {
    if kind.UncertainOutcome? then Classification(Verify, None)
    else if kind.InvalidAgentOutput? then Classification(Escalate, None)
    else if kind.PermanentApi? then Classification(Escalate, None)
    else if kind.DuplicateRequest? then Classification(Stop, None)
    else if attempt >= p.maxAttempts then Classification(Escalate, None)
    else if Transient(kind) then
      Classification(Retry, Some(Schedule(attempt + 1, now + Delay(p, attempt), Delay(p, attempt))))
    else Classification(Escalate, None)
  }

  /** The classifications of a failure that recurs at each scheduled retry, the last one included. */
  function Chain(p: Policy, kind: FailureKind, attempt: int, now: int): seq<Classification>
    decreases p.maxAttempts - attempt
  {
    var c := Classify(p, kind, attempt, now);
    if c.schedule.None? then [c] else [c] + Chain(p, kind, c.schedule.value.attempt, c.schedule.value.at)
  }

  /** The time from the first failure to the last retry. */
  function Waited(chain: seq<Classification>): int {
    if chain == [] then 0
    else (if chain[0].schedule.Some? then chain[0].schedule.value.delay else 0) + Waited(chain[1..])
  }

  /** A transient failure is retried maxAttempts - 1 times and then escalated; retry number i
      waits base * 2^i seconds or the cap. */
  lemma {:induction false} ChainRetriesThenEscalates(p: Policy, kind: FailureKind, attempt: int, now: int)
    requires Transient(kind) && 1 <= attempt <= p.maxAttempts
    ensures var chain := Chain(p, kind, attempt, now);
      && |chain| == p.maxAttempts - attempt + 1
      && chain[|chain| - 1] == Classification(Escalate, None)
      && forall i :: 0 <= i < |chain| - 1 ==>
           && chain[i].disposition.Retry? && chain[i].schedule.Some?
           && chain[i].schedule.value.attempt == attempt + i + 1
           && chain[i].schedule.value.delay == Min(p.baseDelay * Pow2(attempt - 1 + i), p.maxDelay)
    decreases p.maxAttempts - attempt
  {
    if attempt < p.maxAttempts {
      ChainRetriesThenEscalates(p, kind, attempt + 1, now + Delay(p, attempt));
      var chain, rest := Chain(p, kind, attempt, now), Chain(p, kind, attempt + 1, now + Delay(p, attempt));
      forall i | 0 < i < |chain| - 1
        ensures chain[i].disposition.Retry? && chain[i].schedule.Some?
          && chain[i].schedule.value.attempt == attempt + i + 1
          && chain[i].schedule.value.delay == Min(p.baseDelay * Pow2(attempt - 1 + i), p.maxDelay)
      {
        assert chain[i] == rest[i - 1];
        assert attempt + (i - 1) == attempt - 1 + i;
      }
    }
  }

  /** Whatever the failure and wherever it starts: only a transient one is retried, as often as
      attempts are left, and a chain ends in verification of an uncertain outcome, in stopping a
      duplicate and in escalation otherwise. */
  lemma {:induction false} OnlyTransientFailuresRetry(p: Policy, kind: FailureKind, attempt: int, now: int)
    ensures var chain := Chain(p, kind, attempt, now);
      && |chain| == (if kind in {Timeout, TransientApi, UnknownKind} && attempt < p.maxAttempts then p.maxAttempts - attempt else 0) + 1
      && chain[|chain| - 1].disposition ==
           if kind == UncertainOutcome then Verify else if kind == DuplicateRequest then Stop else Escalate
    decreases p.maxAttempts - attempt
  {
    if Transient(kind) && attempt < p.maxAttempts {
      OnlyTransientFailuresRetry(p, kind, attempt + 1, now + Delay(p, attempt));
    }
  }

  /** Each retry is due its delay after the one before, the first after the failure. */
  lemma {:induction false} RetriesFollowDelays(p: Policy, kind: FailureKind, attempt: int, now: int, i: nat)
    requires i < |Chain(p, kind, attempt, now)| - 1
    ensures var chain := Chain(p, kind, attempt, now);
      && chain[i].schedule.Some? && (i > 0 ==> chain[i - 1].schedule.Some?)
      && chain[i].schedule.value.at == chain[i].schedule.value.delay + if i == 0 then now else chain[i - 1].schedule.value.at
    decreases i
  {
    var c := Classify(p, kind, attempt, now);
    if i > 0 {
      RetriesFollowDelays(p, kind, c.schedule.value.attempt, c.schedule.value.at, i - 1);
    }
  }

  lemma {:induction false} PowersGrow(m: nat, n: nat)
    requires m <= n
    ensures Pow2(m) <= Pow2(n)
    decreases n
  {
    if m < n {
      PowersGrow(m, n - 1);
    }
  }

  /** Delays never decrease along the chain. */
  lemma DelaysNeverDecrease(p: Policy, kind: FailureKind, now: int, i: nat, j: nat)
    requires Transient(kind) && p.maxAttempts >= 1 && p.baseDelay >= 0
    requires i <= j < p.maxAttempts - 1
    ensures var chain := Chain(p, kind, 1, now);
      && |chain| == p.maxAttempts && chain[i].schedule.Some? && chain[j].schedule.Some?
      && chain[i].schedule.value.delay <= chain[j].schedule.value.delay
  {
    ChainRetriesThenEscalates(p, kind, 1, now);
    PowersGrow(i, j);
    ProductsGrow(p.baseDelay, Pow2(i), Pow2(j));
  }

  lemma ProductsGrow(x: int, a: int, b: int)
    requires x >= 0 && a <= b
    ensures x * a <= x * b
  {
  }

  /** The wait of a chain is its first delay and the wait of the rest. */
  lemma WaitSplits(p: Policy, kind: FailureKind, attempt: int, now: int)
    requires Transient(kind)
    ensures Waited(Chain(p, kind, attempt, now)) ==
              if attempt >= p.maxAttempts then 0
              else Delay(p, attempt) + Waited(Chain(p, kind, attempt + 1, now + Delay(p, attempt)))
    ensures Delay(p, attempt) <= p.maxDelay
  {
    var chain := Chain(p, kind, attempt, now);
    if attempt >= p.maxAttempts {
      assert chain[1..] == [];
    } else {
      assert chain[1..] == Chain(p, kind, attempt + 1, now + Delay(p, attempt));
    }
  }

  lemma {:induction false} WaitWithinPowers(p: Policy, kind: FailureKind, attempt: int, now: int)
    requires Transient(kind) && 1 <= attempt <= p.maxAttempts && p.baseDelay >= 0
    ensures Waited(Chain(p, kind, attempt, now)) <= p.baseDelay * (Pow2(p.maxAttempts - 1) - Pow2(attempt - 1))
    decreases p.maxAttempts - attempt
  {
    WaitSplits(p, kind, attempt, now);
    if attempt < p.maxAttempts {
      WaitWithinPowers(p, kind, attempt + 1, now + Delay(p, attempt));
      assert Pow2(attempt) == 2 * Pow2(attempt - 1);
      Telescopes(p.baseDelay, Pow2(attempt - 1), Pow2(p.maxAttempts - 1));
    }
  }

  lemma Telescopes(base: int, low: int, top: int)
    ensures base * low + base * (top - 2 * low) == base * (top - low)
  {
  }

  lemma {:induction false} WaitWithinCaps(p: Policy, kind: FailureKind, attempt: int, now: int)
    requires Transient(kind) && 1 <= attempt <= p.maxAttempts
    ensures Waited(Chain(p, kind, attempt, now)) <= (p.maxAttempts - attempt) * p.maxDelay
    decreases p.maxAttempts - attempt
  {
    WaitSplits(p, kind, attempt, now);
    if attempt < p.maxAttempts {
      WaitWithinCaps(p, kind, attempt + 1, now + Delay(p, attempt));
      OneMore(p.maxAttempts - attempt, p.maxDelay);
    }
  }

  lemma OneMore(n: int, cap: int)
    ensures (n - 1) * cap + cap == n * cap
  {
  }

  /** Starting from the first attempt, the whole wait is at most base * (2^(maxAttempts-1) - 1)
      and at most (maxAttempts - 1) caps. */
  lemma TotalWaitIsBounded(p: Policy, kind: FailureKind, now: int)
    requires Transient(kind) && p.maxAttempts >= 1 && p.baseDelay >= 0
    ensures Waited(Chain(p, kind, 1, now)) <= p.baseDelay * (Pow2(p.maxAttempts - 1) - 1)
    ensures Waited(Chain(p, kind, 1, now)) <= (p.maxAttempts - 1) * p.maxDelay
  {
    WaitWithinPowers(p, kind, 1, now);
    WaitWithinCaps(p, kind, 1, now);
  }
}
