/** Recommendations and verdicts over whole runs. */
module PolicyRuns {
  import opened Domain
  import opened Store
  import opened System
  import opened PolicyEngine
  import opened Recommendations
  import CaseRuns
  import Lifecycle
  import LockRuns
  import PolicyRules

  /** Asking again under the same key gives the first verdict and changes nothing, whatever else
      the request says and whatever calls of any service came in between. */
  lemma KeyedVerdictIsFinal(w: World, request: PolicyRequest, config: PolicyRules.PolicyConfig, now: int, between: seq<Step>,
                            again: PolicyRequest, config': PolicyRules.PolicyConfig, later: int)
    requires GivenKey(request).Some? && GivenKey(again) == GivenKey(request) && again.caseId == request.caseId
    requires Replayed(w.db, request) || Fresh(w.db, request)
    ensures var v := Run(Apply(w, Evaluate(request, config, now)), between);
      AfterEvaluation(v.db, again, config', later) == (v.db, AfterEvaluation(w.db, request, config, now).1)
  {
    hide Run, RunRules, Judged;
    var (after, first) := AfterEvaluation(w.db, request, config, now);
    KeyedRequestReplays(w.db, request, config, now, again, config', later);
    CaseRuns.RunEvolves(World(after, w.gateway), between);
    VerdictStays(after, Run(World(after, w.gateway), between).db, again, config', later);
  }

  lemma VerdictStays(a: Database, b: Database, request: PolicyRequest, config: PolicyRules.PolicyConfig, now: int)
    requires Replayed(a, request) && a.decisions <= b.decisions
    ensures AfterEvaluation(b, request, config, now) == (b, AfterEvaluation(a, request, config, now).1)
  {
    var key := GivenKey(request).value;
    var k := FindDecision(a, request.caseId, key).value;
    assert IsKeyed(b.decisions[k], request.caseId, key);
    assert FindDecision(b, request.caseId, key) == Some(k);
  }

  // ----------------------------------------------------------------- versions

  lemma {:induction false} VersionsAreCounted(rows: seq<Recommendation>, id: nat)
    ensures |VersionsOf(rows, id)| == Lifecycle.DecisionCount(rows, id)
  {
    if rows != [] {
      VersionsAreCounted(rows[..|rows| - 1], id);
    }
  }

  lemma {:induction false} SameVersions(a: seq<Recommendation>, b: seq<Recommendation>, id: nat)
    requires |b| == |a|
    requires forall k :: 0 <= k < |a| ==> b[k].caseId == a[k].caseId && b[k].version == a[k].version
    ensures VersionsOf(b, id) == VersionsOf(a, id)
  {
    if a != [] {
      SameVersions(a[..|a| - 1], b[..|b| - 1], id);
    }
  }

  lemma StepKeepsVersionsCounted(w: World, step: Step, id: nat)
    requires CountsUp(VersionsOf(w.db.recommendations, id))
    ensures CountsUp(VersionsOf(Apply(w, step).db.recommendations, id))
  {
    match step {
      case Recommend(caseId, action, score, autoflush) => RecommendationCounts(w.db, caseId, action, score, autoflush, id);
      case VerticalRun(r) => VerticalRunCounts(w.db, r, id);
      case Evaluate(request, config, now) => EvaluationCounts(w.db, request, config, now, id);
      case _ => LockRuns.OthersLeaveDecisions(w, step);
    }
  }

  lemma RecommendationCounts(db: Database, caseId: nat, action: ActionType, score: real, autoflush: bool, id: nat)
    requires CountsUp(VersionsOf(db.recommendations, id))
    ensures CountsUp(VersionsOf(OrKeep(db, AfterRecommend(db, caseId, action, score, autoflush)).recommendations, id))
  {
    if AfterRecommend(db, caseId, action, score, autoflush).Ok? {
      if caseId == id {
        LatestOfCounted(db.recommendations, id);
      }
      var rows := AfterRecommend(db, caseId, action, score, autoflush).value.recommendations;
      VersionAppends(db.recommendations, rows[|db.recommendations|], id);
    }
  }

  lemma VerticalRunCounts(db: Database, r: Lifecycle.VerticalRequest, id: nat)
    requires CountsUp(VersionsOf(db.recommendations, id))
    ensures CountsUp(VersionsOf(OrKeep(db, Lifecycle.AfterVerticalRun(db, r)).recommendations, id))
  {
    if Lifecycle.AfterVerticalRun(db, r).Ok? {
      VersionsAreCounted(db.recommendations, id);
      VersionAppends(db.recommendations, Lifecycle.Drafted(db, r), id);
    }
  }

  lemma EvaluationCounts(db: Database, request: PolicyRequest, config: PolicyRules.PolicyConfig, now: int, id: nat)
    requires CountsUp(VersionsOf(db.recommendations, id))
    ensures CountsUp(VersionsOf(AfterEvaluation(db, request, config, now).0.recommendations, id))
  {
    SameVersions(db.recommendations, AfterEvaluation(db, request, config, now).0.recommendations, id);
  }

  /** In every run the recommendations of every case, the orchestrator's and the agent's, stay
      versioned 1, 2, 3, ... */
  lemma {:induction false} VersionsStayCounted(w: World, steps: seq<Step>, id: nat)
    requires CountsUp(VersionsOf(w.db.recommendations, id))
    ensures CountsUp(VersionsOf(Run(w, steps).db.recommendations, id))
    decreases steps
  {
    hide Apply;
    if steps != [] {
      StepKeepsVersionsCounted(w, steps[0], id);
      VersionsStayCounted(Apply(w, steps[0]), steps[1..], id);
    }
  }
}
