/** Where a run stands between two steps: its bookkeeping against the real cluster. */
module Courses {
  import opened Base
  import opened Events
  import opened Models
  import opened Cluster
  import opened Deployment
  import opened RunFacts
  import opened Coverage
  import opened Fates
  import opened ReplayState
  import Recovery
  import Stage

  // The cluster, and what the run makes of it. `lost` are servers that were deployed
  // while an abort came in; the run never learns of them.
  datatype Position = Position(
    now: Servers,
    updated: seq<ServerId>,
    pending: seq<ServerId>,
    lost: set<ServerId>,
    results: seq<StageResult>)

  // What a run starts from: the cluster, the regions quarantined (until the run ends
  // or gives up on a stage), and whether health checks leave every status alone.
  datatype Setting = Setting(before: Servers, quarantined: set<Region>, calm: bool)

  // ---------- The course of a run ----------

  predicate Starts(s: Setting, c: Config, p: Position) {
    p == Position(s.before, [], c.ids, {}, [])
  }

  ghost predicate Checked(s: Setting, p: Position, q: Position) {
    && OnlyStatuses(p.now, q.now) && q == p.(now := q.now)
    && (s.calm ==> forall id | id in q.now && id !in p.updated :: q.now[id] == p.now[id])
  }

  // The next stage has run, with result `r`.
  ghost predicate NextStage(s: Setting, c: Config, p: Position, now: Servers, r: StageResult) {
    && p.lost == {} && Stage.StageRan(p.now, now, c.target, p.updated, s.quarantined, r)
    && r.stage == |p.results| < |c.stages| && r.target == c.stages[r.stage]
  }

  ghost predicate StageNoted(s: Setting, c: Config, p: Position, q: Position, r: StageResult) {
    && NextStage(s, c, p, q.now, r)
    && NoDup(q.pending) && Elems(q.pending) == Elems(p.pending) - Elems(r.updated)
    && q == Position(q.now, p.updated + r.updated, q.pending, {}, p.results + [r])
  }

  ghost predicate StageLost(s: Setting, c: Config, p: Position, q: Position, r: StageResult) {
    NextStage(s, c, p, q.now, r) && q == p.(now := q.now, lost := Elems(r.updated))
  }

  // A health check, a stage that the run records, or one that it does not because an
  // abort came in meanwhile.
  ghost predicate Moves(s: Setting, c: Config, p: Position, q: Position) {
    || Checked(s, p, q)
    || (exists r :: StageNoted(s, c, p, q, r))
    || (exists r :: StageLost(s, c, p, q, r))
  }

  ghost predicate Course(s: Setting, c: Config, path: seq<Position>)
    decreases |path|, 0
  {
    path != [] && Follows(s, c, Init(path), Last(path))
  }

  ghost predicate Follows(s: Setting, c: Config, path: seq<Position>, q: Position)
    decreases |path|, 1
  {
    if path == [] then Starts(s, c, q) else Course(s, c, path) && Moves(s, c, Last(path), q)
  }

  lemma CourseBegins(s: Setting, c: Config, p: Position)
    requires Starts(s, c, p)
    ensures Course(s, c, [p])
  {
  }

  lemma CourseGoesOn(s: Setting, c: Config, path: seq<Position>, q: Position)
    requires Course(s, c, path) && Moves(s, c, Last(path), q)
    ensures Course(s, c, path + [q]) && Last(path + [q]) == q
  {
    InitMore(path, q);
    assert Follows(s, c, path, q);
  }

  // ---------- What holds all along ----------

  // The ids are just those of the cluster.
  ghost predicate Listed(s: Setting, c: Config) {
    NoDup(c.ids) && Elems(c.ids) == s.before.Keys
  }

  ghost predicate Partitions(updated: seq<ServerId>, pending: seq<ServerId>, ids: set<ServerId>) {
    && NoDup(updated) && NoDup(pending)
    && Elems(updated) !! Elems(pending) && Elems(updated) + Elems(pending) == ids
  }

  ghost predicate Stands(s: Setting, c: Config, p: Position) {
    && Progressed(s.before, p.now, Elems(p.updated) + p.lost, c.target)
    && Partitions(p.updated, p.pending, s.before.Keys) && p.lost <= Elems(p.pending)
    && Staged(s.before, s.quarantined, c.stages, p.results) && UpdatedBy(p.results) == Elems(p.updated)
  }

  lemma StandsAtStart(s: Setting, c: Config, p: Position)
    requires Starts(s, c, p) && Listed(s, c)
    ensures Stands(s, c, p)
  {
    assert Elems<ServerId>([]) + {} == {};
    StartProgress(s.before, c.target);
  }

  lemma StandsThroughChecks(s: Setting, c: Config, p: Position, q: Position)
    requires Stands(s, c, p) && Checked(s, p, q)
    ensures Stands(s, c, q)
  {
    StatusProgress(s.before, p.now, q.now, Elems(p.updated) + p.lost, c.target);
  }

  lemma StageMoves(s: Setting, c: Config, p: Position, now: Servers, r: StageResult)
    requires Stands(s, c, p) && NextStage(s, c, p, now, r)
    ensures NoDup(r.updated) && Elems(r.updated) <= Elems(p.pending)
    ensures Progressed(s.before, now, Elems(p.updated) + Elems(r.updated), c.target)
  {
    var done := Elems(p.updated);
    assert done + {} == done && p.now.Keys - done == Elems(p.pending);
    Stage.RanDeploys(p.now, now, c.target, p.updated, s.quarantined, r);
    StageProgress(s.before, p.now, now, done, Elems(r.updated), c.target);
  }

  lemma StageCeiling(s: Setting, c: Config, p: Position, now: Servers, r: StageResult)
    requires Stands(s, c, p) && NextStage(s, c, p, now, r)
    ensures WithinCeiling(s.before, Elems(p.updated), r, s.quarantined)
  {
    assert Elems(p.updated) + {} == Elems(p.updated);
    if r.error.Some? && r.error.value.Raised? {
      NothingWithinCeiling(s.before, Elems(p.updated), r, s.quarantined);
    } else {
      OutcomeWithinCeiling(s.before, p.now, now, Elems(p.updated), s.quarantined, c.target, r);
    }
  }

  lemma MovedPartition(updated: seq<ServerId>, pending: seq<ServerId>, newly: seq<ServerId>, rest: seq<ServerId>, ids: set<ServerId>)
    requires Partitions(updated, pending, ids)
    requires NoDup(newly) && Elems(newly) <= Elems(pending)
    requires NoDup(rest) && Elems(rest) == Elems(pending) - Elems(newly)
    ensures Partitions(updated + newly, rest, ids)
    ensures Elems(updated + newly) == Elems(updated) + Elems(newly)
  {
    NoDupConcat(updated, newly);
    ElemsConcat(updated, newly);
  }

  lemma StandsMoved(s: Setting, c: Config, q: Position)
    requires Progressed(s.before, q.now, Elems(q.updated), c.target) && q.lost == {}
    requires Partitions(q.updated, q.pending, s.before.Keys)
    requires Staged(s.before, s.quarantined, c.stages, q.results) && UpdatedBy(q.results) == Elems(q.updated)
    ensures Stands(s, c, q)
  {
    assert Elems(q.updated) + {} == Elems(q.updated);
  }

  lemma StandsAfterStage(s: Setting, c: Config, p: Position, q: Position, r: StageResult)
    requires Stands(s, c, p) && StageNoted(s, c, p, q, r)
    ensures Stands(s, c, q)
  {
    StageMoves(s, c, p, q.now, r);
    assert Partitions(q.updated, q.pending, s.before.Keys)
        && Elems(q.updated) == Elems(p.updated) + Elems(r.updated) by {
      MovedPartition(p.updated, p.pending, r.updated, q.pending, s.before.Keys);
    }
    assert Staged(s.before, s.quarantined, c.stages, q.results) && UpdatedBy(q.results) == Elems(q.updated) by {
      StageCeiling(s, c, p, q.now, r);
      StagedMore(Ceilings(s.before, s.quarantined), c.stages, p.results, r);
    }
    StandsMoved(s, c, q);
  }

  lemma StandsWithLoss(s: Setting, c: Config, p: Position, q: Position, r: StageResult)
    requires Stands(s, c, p) && StageLost(s, c, p, q, r)
    ensures Stands(s, c, q)
  {
    StageMoves(s, c, p, q.now, r);
  }

  lemma StepStands(s: Setting, c: Config, p: Position, q: Position)
    requires Stands(s, c, p) && Moves(s, c, p, q)
    ensures Stands(s, c, q)
  {
    if Checked(s, p, q) {
      StandsThroughChecks(s, c, p, q);
    } else if r :| StageNoted(s, c, p, q, r) {
      StandsAfterStage(s, c, p, q, r);
    } else {
      var r :| StageLost(s, c, p, q, r);
      StandsWithLoss(s, c, p, q, r);
    }
  }

  // The standing invariant of every course.
  lemma {:induction false} CourseStands(s: Setting, c: Config, path: seq<Position>)
    requires Course(s, c, path) && Listed(s, c)
    ensures Stands(s, c, Last(path))
  {
    var q := Last(path);
    assert Follows(s, c, Init(path), q);
    if |path| == 1 {
      StandsAtStart(s, c, q);
    } else {
      CourseStands(s, c, Init(path));
      StepStands(s, c, Last(Init(path)), q);
    }
  }

  // ---------- Looking back ----------

  lemma MovesKeepResults(s: Setting, c: Config, p: Position, q: Position)
    requires Moves(s, c, p, q)
    ensures |p.results| <= |q.results| && q.results[..|p.results|] == p.results
  {
  }

  // Results are only ever added.
  lemma {:induction false} ResultsGrow(s: Setting, c: Config, path: seq<Position>, p: Position)
    requires Course(s, c, path) && p in path
    ensures |p.results| <= |Last(path).results| && Last(path).results[..|p.results|] == p.results
  {
    assert Follows(s, c, Init(path), Last(path));
    if |path| > 1 && p in Init(path) {
      var m := Last(Init(path));
      ResultsGrow(s, c, Init(path), p);
      MovesKeepResults(s, c, m, Last(path));
      assert Last(path).results[..|p.results|] == m.results[..|p.results|];
    } else {
      SplitLast(path);
    }
  }

  // Each result was noted at some point.
  lemma {:induction false} WhenNoted(s: Setting, c: Config, path: seq<Position>, k: nat) returns (i: nat)
    requires Course(s, c, path) && k < |Last(path).results|
    ensures 0 < i < |path| && Course(s, c, path[..i]) && |path[i - 1].results| == k
    ensures StageNoted(s, c, path[i - 1], path[i], Last(path).results[k])
  {
    assert Follows(s, c, Init(path), Last(path));
    if |path| > 1 {
      var m := Last(Init(path));
      if k < |m.results| {
        MovesKeepResults(s, c, m, Last(path));
        assert m.results[k] == Last(path).results[..|m.results|][k];
        i := WhenNoted(s, c, Init(path), k);
        assert Init(path)[..i] == path[..i];
      } else {
        i := |path| - 1;
        assert path[..i] == Init(path);
        assert exists r :: StageNoted(s, c, m, Last(path), r);
      }
    }
  }

  // ---------- Calm courses ----------

  // Only deployed servers have changed.
  ghost predicate Untouched(s: Setting, p: Position) {
    p.now.Keys == s.before.Keys
    && forall id | id in p.now && id !in p.updated && id !in p.lost :: p.now[id] == s.before[id]
  }

  lemma StageTouches(s: Setting, c: Config, p: Position, q: Position, r: StageResult)
    requires Untouched(s, p) && (StageNoted(s, c, p, q, r) || StageLost(s, c, p, q, r))
    ensures Untouched(s, q)
  {
    Stage.RanDeploys(p.now, q.now, c.target, p.updated, s.quarantined, r);
    forall id | id in q.now && id !in q.updated && id !in q.lost ensures q.now[id] == s.before[id] {
      assert id !in r.updated && id !in Elems(r.updated);
    }
  }

  lemma StepUntouched(s: Setting, c: Config, p: Position, q: Position)
    requires s.calm && Untouched(s, p) && Moves(s, c, p, q)
    ensures Untouched(s, q)
  {
    if !Checked(s, p, q) {
      var r :| StageNoted(s, c, p, q, r) || StageLost(s, c, p, q, r);
      StageTouches(s, c, p, q, r);
    }
  }

  lemma {:induction false} CourseUntouched(s: Setting, c: Config, path: seq<Position>)
    requires s.calm && Course(s, c, path)
    ensures Untouched(s, Last(path))
  {
    assert Follows(s, c, Init(path), Last(path));
    if |path| > 1 {
      CourseUntouched(s, c, Init(path));
      StepUntouched(s, c, Last(Init(path)), Last(path));
    }
  }

  // Every server outside the quarantined regions takes updates.
  ghost predicate Receptive(s: Setting) {
    forall id | id in Stage.Eligible(s.before, s.quarantined) :: s.before[id].IsUpdatable()
  }

  // Then a stage of a calm course finds as many as it needs.
  lemma AllCandidates(s: Setting, c: Config, p: Position)
    requires Progressed(s.before, p.now, Elems(p.updated), c.target)
    requires Untouched(s, p) && p.lost == {} && Receptive(s)
    ensures Stage.Candidates(p.now, p.now.Keys - Elems(p.updated), s.quarantined)
         == Stage.Eligible(s.before, s.quarantined) - Elems(p.updated)
    ensures Stage.Eligible(p.now, s.quarantined) == Stage.Eligible(s.before, s.quarantined)
  {
    SameEligible(s.before, p.now, Elems(p.updated), c.target, s.quarantined);
    var eligible := Stage.Eligible(s.before, s.quarantined);
    forall id | id in eligible - Elems(p.updated) ensures p.now[id].IsUpdatable() && p.now[id] == s.before[id] {
      assert id !in p.updated;
    }
  }

  lemma EnoughLeft(eligible: set<ServerId>, done: set<ServerId>, pct: nat)
    requires pct <= 100
    ensures |eligible - done| >= CeilPercent(|eligible|, pct) - |eligible * done|
  {
    CeilPercentMonotone(|eligible|, pct, 100);
    assert eligible - done == eligible - eligible * done;
  }

  lemma WellProvisioned(s: Setting, c: Config, p: Position, now: Servers, r: StageResult)
    requires Stands(s, c, p) && Untouched(s, p) && Receptive(s) && NextStage(s, c, p, now, r) && r.target <= 100
    ensures r.error != Some(UnderProvisioned)
  {
    assert Elems(p.updated) + {} == Elems(p.updated);
    AllCandidates(s, c, p);
    EnoughLeft(Stage.Eligible(s.before, s.quarantined), Elems(p.updated), r.target);
    NothingLacks(p.now, now, Elems(p.updated), s.quarantined, c.target, r);
  }

  // A stage that lacks servers has deployed every candidate.
  lemma NothingLacks(before: Servers, after: Servers, done: set<ServerId>, quarantined: set<Region>, target: Version, r: StageResult)
    requires !(r.error.Some? && r.error.value.Raised?) ==>
               Stage.StageOutcome(before, after, done, before.Keys - done, quarantined, target, r.target, r.updated, r.error)
    requires |Stage.Candidates(before, before.Keys - done, quarantined)| >= Stage.Needed(before, done, quarantined, r.target)
    ensures r.error != Some(UnderProvisioned)
  {
    if r.error == Some(UnderProvisioned) {
      NoDupCard(r.updated);
    }
  }

  // ---------- What follows at the end of a course ----------

  lemma VersionsStand(s: Setting, c: Config, p: Position, id: ServerId)
    requires Stands(s, c, p) && id in s.before
    ensures id in p.now
    ensures p.now[id].version == if id in p.updated || id in p.lost then c.target else s.before[id].version
  {
    assert id in p.updated <==> id in Elems(p.updated);
  }

  lemma EmptyCluster(s: Setting, c: Config, p: Position, now: Servers, r: StageResult)
    requires Stands(s, c, p) && NextStage(s, c, p, now, r) && s.before.Keys == {}
    ensures r.updated == [] && p.pending == [] && now == p.now
  {
    StageMoves(s, c, p, now, r);
    NoDupCard(r.updated);
    NoDupCard(p.pending);
    assert Elems(r.updated) == {} && Elems(p.pending) == {};
  }

  // The event that tells of a stage rebuilds the cluster as it is.
  lemma StageTold(view: View, s: Setting, c: Config, q: Position, updated: seq<ServerId>, r: StageResult)
    requires Forward(view, Elems(updated), c.target, c.source)
    requires Stands(s, c, q) && q.lost == {} && q.updated == updated + r.updated
    ensures var view' := Apply(view, StageTransition(r.stage, r.updated));
            Forward(view', Elems(q.updated), c.target, c.source) && Shows(view', Elems(q.updated), q.now)
  {
    TransitionForward(view, r.stage, r.updated, Elems(updated), c.target, c.source);
    ElemsConcat(updated, r.updated);
    assert Elems(q.updated) + {} == Elems(q.updated);
    ForwardShows(Apply(view, StageTransition(r.stage, r.updated)), s.before, q.now, Elems(q.updated), c.target, c.source);
  }

  // Rolling back what the run updated restores the versions from before it, and can
  // be done.
  lemma StandsUndone(s: Setting, c: Config, p: Position, now: Servers)
    requires Stands(s, c, p) && now == Recovery.RevertAll(p.now, Elems(p.updated))
    ensures Restored(s.before, now, p.lost, c.target)
    ensures forall id | id in p.updated :: id in p.now && p.now[id].previous.Some?
  {
    RevertProgress(s.before, p.now, now, Elems(p.updated), p.lost, c.target);
    forall id | id in p.updated ensures id in p.now && p.now[id].previous.Some? {
      assert id in Elems(p.updated);
    }
  }

  // All stages passed: just the servers outside the quarantined regions are updated,
  // and on the target version.
  lemma CourseCovers(s: Setting, c: Config, p: Position, view: View)
    requires Stands(s, c, p) && p.lost == {} && ValidStages(c.stages)
    requires |p.results| == |c.stages| && Errorless(p.results)
    requires Forward(view, Elems(p.updated), c.target, c.source)
    ensures Shows(view, Elems(p.updated), p.now)
    ensures forall id :: id in p.updated <==> id in p.now && p.now[id].region !in s.quarantined
    ensures forall id | id in p.updated :: p.now[id].version == c.target
  {
    var ids := Elems(p.updated);
    assert ids + {} == ids;
    ForwardShows(view, s.before, p.now, ids, c.target, c.source);
    AllStagesCover(s.before, s.quarantined, c.stages, p.results);
    forall id ensures id in p.updated <==> id in p.now && p.now[id].region !in s.quarantined {
      assert id in p.updated <==> id in Stage.Eligible(s.before, s.quarantined);
    }
    forall id | id in p.updated ensures p.now[id].version == c.target {
      assert id in ids;
    }
  }
}
