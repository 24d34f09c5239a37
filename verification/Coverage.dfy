/**
 * What the stages of a run add up to: the updated share after each stage, which
 * servers it may touch, and what the last stage leaves behind.
 */
module Coverage {
  import opened Base
  import opened Events
  import opened Models
  import opened Cluster
  import opened Deployment
  import opened RunFacts
  import Stage

  ghost function UpdatedBy(results: seq<StageResult>): set<ServerId> {
    if results == [] then {} else UpdatedBy(Init(results)) + Elems(Last(results).updated)
  }

  // Of the eligible servers, no more than the ceiling (or than there were before)
  // are updated, and just as many if the stage reports no error.
  ghost predicate WithinCeiling(servers: Servers, done: set<ServerId>, r: StageResult, quarantined: set<Region>) {
    var eligible := Stage.Eligible(servers, quarantined);
    var ceiling := CeilPercent(|eligible|, r.target);
    var most := if |eligible * done| > ceiling then |eligible * done| else ceiling;
    && NoDup(r.updated) && Elems(r.updated) <= eligible - done
    && |eligible * (done + Elems(r.updated))| <= most
    && (r.error == None ==> |eligible * (done + Elems(r.updated))| == most)
  }

  type StageRule = (set<ServerId>, StageResult) -> bool

  ghost function Ceilings(before: Servers, quarantined: set<Region>): StageRule {
    (done, r) => WithinCeiling(before, done, r, quarantined)
  }

  ghost predicate EachStage(rule: StageRule, stages: seq<nat>, results: seq<StageResult>) {
    && |results| <= |stages|
    && (results == [] ||
        (&& EachStage(rule, stages, Init(results))
         && Last(results).stage == |results| - 1 && Last(results).target == stages[|results| - 1]
         && rule(UpdatedBy(Init(results)), Last(results))))
  }

  // The results of a run's stages so far: every stage kept to its ceiling.
  ghost predicate Staged(before: Servers, quarantined: set<Region>, stages: seq<nat>, results: seq<StageResult>) {
    EachStage(Ceilings(before, quarantined), stages, results)
  }

  lemma SameEligible(before: Servers, now: Servers, ids: set<ServerId>, target: Version, quarantined: set<Region>)
    requires Progressed(before, now, ids, target)
    ensures Stage.Eligible(now, quarantined) == Stage.Eligible(before, quarantined)
  {
  }

  // A stage run on the cluster as it stands keeps within the ceiling of the
  // cluster as it was when the run began.
  lemma OutcomeWithinCeiling(before: Servers, mid: Servers, after: Servers, done: set<ServerId>, quarantined: set<Region>,
                             target: Version, r: StageResult)
    requires Progressed(before, mid, done, target)
    requires Stage.StageOutcome(mid, after, done, mid.Keys - done, quarantined, target, r.target, r.updated, r.error)
    ensures WithinCeiling(before, done, r, quarantined)
  {
    SameEligible(before, mid, done, target, quarantined);
    Stage.CanaryCeiling(mid, after, done, mid.Keys - done, quarantined, target, r.target, r.updated, r.error);
  }

  lemma NothingWithinCeiling(before: Servers, done: set<ServerId>, r: StageResult, quarantined: set<Region>)
    requires r.updated == [] && r.error != None
    ensures WithinCeiling(before, done, r, quarantined)
  {
    assert done + {} == done;
  }

  lemma StagedMore(rule: StageRule, stages: seq<nat>, results: seq<StageResult>, r: StageResult)
    requires EachStage(rule, stages, results) && |results| < |stages|
    requires r.stage == |results| && r.target == stages[|results|]
    requires rule(UpdatedBy(results), r)
    ensures EachStage(rule, stages, results + [r])
    ensures UpdatedBy(results + [r]) == UpdatedBy(results) + Elems(r.updated)
  {
    InitMore(results, r);
  }

  // ---------- What follows ----------

  lemma InitPrefix<T>(s: seq<T>, k: nat)
    requires k < |s|
    ensures Init(s)[..k] == s[..k] && Init(s[..k + 1]) == s[..k] && Last(s[..k + 1]) == s[k]
  {
  }

  lemma {:induction false} StagedPrefix(rule: StageRule, stages: seq<nat>, results: seq<StageResult>, k: nat)
    requires EachStage(rule, stages, results) && k <= |results|
    ensures EachStage(rule, stages, results[..k])
  {
    if k == |results| {
      assert results[..k] == results;
    } else {
      StagedPrefix(rule, stages, Init(results), k);
      InitPrefix(results, k);
    }
  }

  lemma StageAt(rule: StageRule, stages: seq<nat>, results: seq<StageResult>, k: nat)
    requires EachStage(rule, stages, results) && k < |results|
    ensures rule(UpdatedBy(results[..k]), results[k])
    ensures results[k].stage == k && results[k].target == stages[k]
  {
    StagedPrefix(rule, stages, results, k + 1);
    InitPrefix(results, k);
  }

  // No stage updates a server in a quarantined region, or one that an earlier stage
  // has updated; and each keeps to its ceiling.
  lemma StageKeepsOut(before: Servers, quarantined: set<Region>, stages: seq<nat>, results: seq<StageResult>, k: nat)
    requires Staged(before, quarantined, stages, results) && k < |results|
    ensures WithinCeiling(before, UpdatedBy(results[..k]), results[k], quarantined)
    ensures forall id | id in results[k].updated ::
              id in before && before[id].region !in quarantined && id !in UpdatedBy(results[..k])
  {
    StageAt(Ceilings(before, quarantined), stages, results, k);
    forall id | id in results[k].updated
      ensures id in before && before[id].region !in quarantined && id !in UpdatedBy(results[..k])
    {
      assert id in Elems(results[k].updated);
    }
  }

  lemma {:induction false} UpdatedEarlier(results: seq<StageResult>, i: nat)
    requires i < |results|
    ensures Elems(results[i].updated) <= UpdatedBy(results)
  {
    if i < |results| - 1 { UpdatedEarlier(Init(results), i); }
  }

  lemma NeverTwice(before: Servers, quarantined: set<Region>, stages: seq<nat>, results: seq<StageResult>, i: nat, j: nat)
    requires Staged(before, quarantined, stages, results) && i < j < |results|
    ensures Elems(results[i].updated) !! Elems(results[j].updated)
  {
    StageKeepsOut(before, quarantined, stages, results, j);
    UpdatedEarlier(results[..j], i);
  }

  ghost predicate Errorless(results: seq<StageResult>) {
    results == [] || (Errorless(Init(results)) && Last(results).error == None)
  }

  lemma ErrorlessMore(results: seq<StageResult>, r: StageResult)
    requires Errorless(results) && r.error == None
    ensures Errorless(results + [r])
  {
    InitMore(results, r);
  }

  // Only eligible servers are ever updated.
  lemma {:induction false} UpdatedEligible(before: Servers, quarantined: set<Region>, stages: seq<nat>, results: seq<StageResult>)
    requires Staged(before, quarantined, stages, results)
    ensures UpdatedBy(results) <= Stage.Eligible(before, quarantined)
  {
    if results != [] {
      UpdatedEligible(before, quarantined, stages, Init(results));
    }
  }

  lemma ShareStep(eligible: set<ServerId>, before: Servers, quarantined: set<Region>, done: set<ServerId>, r: StageResult)
    requires eligible == Stage.Eligible(before, quarantined)
    requires WithinCeiling(before, done, r, quarantined) && r.error == None
    requires |done| <= CeilPercent(|eligible|, r.target) && done <= eligible
    ensures |done + Elems(r.updated)| == CeilPercent(|eligible|, r.target)
  {
    assert eligible * done == done && eligible * (done + Elems(r.updated)) == done + Elems(r.updated);
  }

  // Stages that report no error update exactly the percentage, rounded up, of the
  // servers outside the quarantined regions.
  lemma {:induction false} ExactShare(before: Servers, quarantined: set<Region>, stages: seq<nat>, results: seq<StageResult>)
    requires Staged(before, quarantined, stages, results) && ValidStages(stages) && results != [] && Errorless(results)
    ensures |UpdatedBy(results)| == CeilPercent(|Stage.Eligible(before, quarantined)|, stages[|results| - 1])
  {
    var eligible := Stage.Eligible(before, quarantined);
    UpdatedEligible(before, quarantined, stages, Init(results));
    if |results| > 1 {
      ExactShare(before, quarantined, stages, Init(results));
      CeilPercentMonotone(|eligible|, stages[|results| - 2], stages[|results| - 1]);
    }
    ShareStep(eligible, before, quarantined, UpdatedBy(Init(results)), Last(results));
  }

  lemma ShareSoFar(before: Servers, quarantined: set<Region>, stages: seq<nat>, results: seq<StageResult>)
    requires Staged(before, quarantined, stages, results) && ValidStages(stages) && Errorless(results)
    ensures |results| <= |stages| && UpdatedBy(results) <= Stage.Eligible(before, quarantined)
    ensures |UpdatedBy(results)| == if results == [] then 0
                                    else CeilPercent(|Stage.Eligible(before, quarantined)|, stages[|results| - 1])
  {
    UpdatedEligible(before, quarantined, stages, results);
    if results != [] { ExactShare(before, quarantined, stages, results); }
  }

  // ... and so after each stage.
  lemma ExactShareAt(before: Servers, quarantined: set<Region>, stages: seq<nat>, results: seq<StageResult>, k: nat)
    requires Staged(before, quarantined, stages, results) && ValidStages(stages) && k < |results| && Errorless(results[..k + 1])
    ensures |UpdatedBy(results[..k + 1])| == CeilPercent(|Stage.Eligible(before, quarantined)|, stages[k])
  {
    StagedPrefix(Ceilings(before, quarantined), stages, results, k + 1);
    ExactShare(before, quarantined, stages, results[..k + 1]);
  }

  // All stages passed: just the eligible servers are updated.
  lemma AllStagesCover(before: Servers, quarantined: set<Region>, stages: seq<nat>, results: seq<StageResult>)
    requires Staged(before, quarantined, stages, results) && ValidStages(stages)
    requires |results| == |stages| && Errorless(results)
    ensures UpdatedBy(results) == Stage.Eligible(before, quarantined)
  {
    var eligible := Stage.Eligible(before, quarantined);
    ExactShare(before, quarantined, stages, results);
    CeilPercentMonotone(|eligible|, 100, 100);
    UpdatedEligible(before, quarantined, stages, results);
    SubsetCard(UpdatedBy(results), eligible);
  }
}
