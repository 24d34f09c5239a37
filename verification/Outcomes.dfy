/** What is true of every finished run (deploy/workflows.py, deploy/activities.py, resilience/replay.py). */
module Outcomes {
  import opened Base
  import opened Events
  import opened Models
  import opened Cluster
  import opened Deployment
  import opened Timeline
  import opened ReplayState
  import opened Shuffle
  import opened RunFacts
  import opened Coverage
  import opened Fates
  import opened Courses
  import opened Journals
  import opened RunLog
  import opened Workflow
  import Stage

  // What RunDeployment leaves behind.
  ghost predicate Over(w: CanaryDeploymentWorkflow)
    reads w, w.journal, w.activities.logger, w.activities.cluster, w.activities.quarantine
  {
    w.Closed() && w.EndedWell() && w.Foretold()
  }

  ghost function CauseFor(w: CanaryDeploymentWorkflow): Cause
    reads w
  {
    CauseOf(w.env, w.config, w.abortedBefore, w.results)
  }

  // ---------- Status ----------

  // Without an abort the ending fixes the status.
  lemma EndingFixesStatus(w: CanaryDeploymentWorkflow)
    requires Over(w) && !w.aborted
    ensures w.status == match w.journal.phase.ending
                        case EndCompleted => Completed
                        case EndRolledBack => RolledBack
                        case EndViolation => Failed
                        case EndFailed => Failed
  {
    w.env.HeardIs(w.abortedBefore, w.tick);
  }

  lemma NotLast(env: Environment, c: Config, early: bool, results: seq<StageResult>, k: nat)
    requires CauseFrom(env, c, early, results, k).Completes? && k < |c.stages|
    ensures AtStage(env, c, early, k, Look(env, c, k), FailedAt(results, k)) == None
    ensures CauseFrom(env, c, early, results, k) == CauseFrom(env, c, early, results, k + 1)
  {
  }

  // Where a stage loop that runs to its end does not stop.
  lemma {:induction false} CompletesThrough(env: Environment, c: Config, early: bool, results: seq<StageResult>, k: nat, j: nat)
    requires CauseFrom(env, c, early, results, k).Completes? && k <= j < |c.stages|
    ensures CauseFrom(env, c, early, results, k) == CauseFrom(env, c, early, results, j)
    decreases j - k
  {
    if k < j {
      NotLast(env, c, early, results, k);
      CompletesThrough(env, c, early, results, k + 1, j);
    }
  }

  // The last look at the abort flag, if the run gets so far.
  ghost function LastLook(env: Environment, c: Config): nat
    requires c.stages != []
  {
    LookAfter(env, c, Look(env, c, |c.stages| - 1))
  }

  lemma GoesOn(env: Environment, c: Config, early: bool, k: nat, look: nat, failed: bool)
    requires AtStage(env, c, early, k, look, failed) == None
    ensures !env.Heard(early, LookAfter(env, c, look))
  {
  }

  lemma PastLast(env: Environment, c: Config, early: bool, results: seq<StageResult>)
    requires c.stages != []
    ensures CauseFrom(env, c, early, results, |c.stages|) == Completes(LastLook(env, c) + 2)
  {
  }

  lemma LastPassed(env: Environment, c: Config, early: bool, results: seq<StageResult>)
    requires CauseFrom(env, c, early, results, 0).Completes? && c.stages != []
    ensures var n := |c.stages| - 1; AtStage(env, c, early, n, Look(env, c, n), FailedAt(results, n)) == None
    ensures CauseFrom(env, c, early, results, 0) == CauseFrom(env, c, early, results, |c.stages|)
  {
    CompletesThrough(env, c, early, results, 0, |c.stages| - 1);
    NotLast(env, c, early, results, |c.stages| - 1);
  }

  lemma Finale(env: Environment, c: Config, early: bool, results: seq<StageResult>, regions: nat)
    requires CauseOf(env, c, early, results).Completes? && c.stages != []
    ensures EndOf(env, c, early, results, regions) == (EndCompleted, LastLook(env, c) + 4)
    ensures !env.Heard(early, LastLook(env, c))
  {
    var n := |c.stages| - 1;
    LastPassed(env, c, early, results);
    PastLast(env, c, early, results);
    assert !env.Heard(early, LastLook(env, c)) by { GoesOn(env, c, early, n, Look(env, c, n), FailedAt(results, n)); }
    CompletionEnds(env, c, early, results, regions, LastLook(env, c) + 2);
  }

  lemma CompletionEnds(env: Environment, c: Config, early: bool, results: seq<StageResult>, regions: nat, at: nat)
    requires CauseOf(env, c, early, results) == Completes(at)
    ensures EndOf(env, c, early, results, regions) == (EndCompleted, at + 2)
  {
  }

  // A run completes only if no abort has come in by the last look at the flag. One on
  // the next two awaits is lost; one on the two after makes the finished run `aborted`.
  lemma LateAbort(w: CanaryDeploymentWorkflow)
    requires Over(w) && CauseFor(w).Completes? && w.config.stages != []
    ensures w.journal.phase == Ended(EndCompleted) && w.tick == LastLook(w.env, w.config) + 4
    ensures !w.env.Heard(w.abortedBefore, LastLook(w.env, w.config))
    ensures var last := LastLook(w.env, w.config);
            w.status == if w.env.signal(last + 2) || w.env.signal(last + 3) then Aborted else Completed
  {
    Finale(w.env, w.config, w.abortedBefore, w.results, w.Isolated());
  }

  lemma ReplayedAsPhase(j: Journal)
    requires j.Valid() && j.phase.Ended?
    ensures j.view.status == ReplayedAs(j.phase)
  {
    BookKept(j.heading, j.pages);
    StatusReplayed(Last(j.pages).chain, j.heading.stages, j.heading.maxRetries);
  }

  // Replay ends with the run's own status exactly if the run was not stopped by a
  // policy, and no abort came in by the end of a rollback, or on the last awaits of
  // another ending.
  lemma ReplayedStatus(w: CanaryDeploymentWorkflow)
    requires Over(w)
    ensures var end := EndOf(w.env, w.config, w.abortedBefore, w.results, w.Isolated());
            w.journal.view.status == w.status <==>
              match end.0
              case EndCompleted => !w.env.signal(end.1 - 2) && !w.env.signal(end.1 - 1)
              case EndRolledBack => !w.env.Heard(w.abortedBefore, end.1)
              case EndViolation => false
              case EndFailed => !w.env.signal(end.1 - 1)
  {
    ReplayedAsPhase(w.journal);
    StatusByPhase(w);
    assert EndOf(w.env, w.config, w.abortedBefore, w.results, w.Isolated()) == (w.journal.phase.ending, w.tick) by { EndIs(w); }
  }

  lemma EndIs(w: CanaryDeploymentWorkflow)
    requires w.Foretold()
    ensures EndOf(w.env, w.config, w.abortedBefore, w.results, w.Isolated()) == (w.journal.phase.ending, w.tick)
  {
  }

  lemma StatusByPhase(w: CanaryDeploymentWorkflow)
    requires w.EndedWell()
    ensures w.status == ReplayedAs(w.journal.phase) <==>
              match w.journal.phase.ending
              case EndCompleted => !w.env.signal(w.tick - 2) && !w.env.signal(w.tick - 1)
              case EndRolledBack => !w.aborted
              case EndViolation => false
              case EndFailed => !w.env.signal(w.tick - 1)
  {
  }

  // ---------- Endings ----------

  // What follows a failure that can be undone, unless an abort has come in: the rollback
  // checkpoint may refuse.
  ghost function Reviewed(env: Environment, early: bool, at: nat): Ending {
    if !env.Heard(early, at) && env.verdict(at) == Block then EndViolation else EndRolledBack
  }

  // How each kind of stage error ends a run that has heard of no abort.
  ghost function EndingOfError(env: Environment, early: bool, error: StageError, at: nat): Ending {
    match error
    case AbortMidStage => EndRolledBack
    case UnderProvisioned => Reviewed(env, early, at)
    case UpdateFailed(_) => Reviewed(env, early, at)
    case Raised(mentionsAbort, mentionsShortfall) =>
      if mentionsAbort then EndRolledBack
      else if mentionsShortfall then Reviewed(env, early, at)
      else EndFailed
  }

  // How a run ends, by why it stops.
  ghost predicate EndsBy(w: CanaryDeploymentWorkflow, cause: Cause)
    reads w, w.journal, w.activities.quarantine
  {
    match cause
    case Refused => w.journal.phase == Ended(EndViolation)
    case Vetoed(_, _) => w.journal.phase == Ended(EndViolation)
    case Caught(_, _) => w.journal.phase == Ended(EndRolledBack)
    case Lost(_, _) => w.journal.phase == Ended(EndRolledBack)
    case Empty(_, _) => w.journal.phase == Ended(EndFailed)
    case Completes(_) => w.journal.phase == Ended(EndCompleted)
    case Mandated(_, at) => w.journal.phase == Ended(Reviewed(w.env, w.abortedBefore, at))
    case Unwell(_, at) => w.journal.phase == Ended(Reviewed(w.env, w.abortedBefore, at + 1 + w.Isolated()))
    case Erred(k, at) =>
      && k < |w.results| && w.results[k].error.Some?
      && w.journal.phase == Ended(EndingOfError(w.env, w.abortedBefore, w.results[k].error.value, at))
  }

  lemma HandledAs(env: Environment, early: bool, x: Raising, t: nat)
    ensures x == AbortSignal ==> Handling(env, early, x, t) == EndRolledBack
    ensures x == NoServers && !env.Heard(early, t) ==> Handling(env, early, x, t) == EndFailed
    ensures x == HealthFailed || x == RollbackMandated ==> Handling(env, early, x, t) == Reviewed(env, early, t)
    ensures x.StageFailed? && !env.Heard(early, t) ==> Handling(env, early, x, t) == EndingOfError(env, early, x.error, t)
  {
  }

  lemma ErredHere(env: Environment, c: Config, early: bool, results: seq<StageResult>, k: nat, here: Option<Cause>)
    requires here == AtStage(env, c, early, k, Look(env, c, k), FailedAt(results, k))
    ensures here.Some? && here.value.Erred? ==> here.value.stage == k && FailedAt(results, k)
  {
  }

  lemma {:induction false} ErredAt(env: Environment, c: Config, early: bool, results: seq<StageResult>, k: nat)
    ensures var cause := CauseFrom(env, c, early, results, k); cause.Erred? ==> FailedAt(results, cause.stage)
    decreases |c.stages| - k
  {
    if k < |c.stages| {
      StoppingIs(env, c, early, results, k);
      ErredHere(env, c, early, results, k, AtStage(env, c, early, k, Look(env, c, k), FailedAt(results, k)));
      ErredAt(env, c, early, results, k + 1);
    }
  }

  lemma EndedBy(w: CanaryDeploymentWorkflow, cause: Cause, x: Raising, t: nat)
    requires w.Foretold() && cause == CauseFor(w) && RaisedBy(w.results, cause, w.Isolated()) == Some((x, t))
    ensures w.journal.phase == Ended(Handling(w.env, w.abortedBefore, x, t))
  {
  }

  lemma EndsByCause(w: CanaryDeploymentWorkflow)
    requires Over(w)
    ensures EndsBy(w, CauseFor(w))
  {
    var cause := CauseFor(w);
    AbortsFirst(w.env, w.config, w.abortedBefore, w.results, 0);
    ErredAt(w.env, w.config, w.abortedBefore, w.results, 0);
    var raised := RaisedBy(w.results, cause, w.Isolated());
    if raised.Some? {
      EndedBy(w, cause, raised.value.0, raised.value.1);
      EndsRaised(w, cause, raised.value.0, raised.value.1);
    } else {
      EndsQuietly(w, cause);
    }
  }

  lemma EndsRaised(w: CanaryDeploymentWorkflow, cause: Cause, x: Raising, t: nat)
    requires AbortFirst(w.env, w.config, w.abortedBefore, cause)
    requires RaisedBy(w.results, cause, w.Isolated()) == Some((x, t))
    requires w.journal.phase == Ended(Handling(w.env, w.abortedBefore, x, t))
    ensures EndsBy(w, cause)
  {
    HandledAs(w.env, w.abortedBefore, x, t);
  }

  lemma EndsQuietly(w: CanaryDeploymentWorkflow, cause: Cause)
    requires w.Foretold() && cause == CauseFor(w) && RaisedBy(w.results, cause, w.Isolated()) == None
    requires cause.Erred? ==> FailedAt(w.results, cause.stage)
    ensures EndsBy(w, cause)
  {
  }

  // A run that ends without a rollback leaves what it has recorded on the target
  // version, and everything else as it was.
  lemma StaysDeployed(w: CanaryDeploymentWorkflow, id: ServerId)
    requires Over(w) && (w.journal.phase == Ended(EndFailed) || w.journal.phase == Ended(EndViolation)) && id in w.before
    ensures id in w.activities.cluster.servers
    ensures w.activities.cluster.servers[id].version == if id in w.updated then w.config.target else w.before[id].version
  {
    CourseStands(w.Given(), w.config, w.path);
    LeftBehind(w);
    VersionsStand(w.Given(), w.config, Last(w.path), id);
  }

  lemma LeftBehind(w: CanaryDeploymentWorkflow)
    requires w.LeftAsIs() && w.Foretold()
    ensures w.path != [] && Last(w.path).lost == {} && Last(w.path).now == w.activities.cluster.servers
    ensures Last(w.path).updated == w.updated
  {
  }

  // ---------- Undo ----------

  // A rollback restores every version, unless an abort had come in while a stage was
  // being entered or carried out; then just what that stage deployed is not restored.
  lemma UndoneExactly(w: CanaryDeploymentWorkflow)
    requires Over(w) && w.journal.phase == Ended(EndRolledBack)
    ensures w.activities.cluster.servers.Keys == w.before.Keys
    ensures !CauseFor(w).Lost? ==> AllRestored(w)
    ensures CauseFor(w).Lost? ==>
              && |w.results| == CauseFor(w).stage && w.LostAt(Look(w.env, w.config, CauseFor(w).stage) + 3)
              && RestoredBut(w, Last(w.path).lost)
  {
    UndoneBy(w);
  }

  ghost predicate AllRestored(w: CanaryDeploymentWorkflow)
    reads w, w.activities.cluster
  {
    forall id | id in w.before :: id in w.activities.cluster.servers
                               && w.activities.cluster.servers[id].version == w.before[id].version
  }

  ghost predicate RestoredBut(w: CanaryDeploymentWorkflow, lost: set<ServerId>)
    reads w, w.activities.cluster
  {
    forall id | id in w.before ::
      && id in w.activities.cluster.servers
      && w.activities.cluster.servers[id].version == if id in lost then w.config.target else w.before[id].version
  }

  lemma UndoneBy(w: CanaryDeploymentWorkflow)
    requires w.RolledBackWell() && w.Traces(CauseFor(w), Look(w.env, w.config, StageOf(CauseFor(w))) + 3)
    ensures w.activities.cluster.servers.Keys == w.before.Keys
    ensures !CauseFor(w).Lost? ==> AllRestored(w)
    ensures CauseFor(w).Lost? ==>
              && |w.results| == CauseFor(w).stage && w.LostAt(Look(w.env, w.config, CauseFor(w).stage) + 3)
              && RestoredBut(w, Last(w.path).lost)
  {
    RestoredBy(w.before, w.activities.cluster.servers, Last(w.path).lost, w.config.target);
  }

  lemma RestoredBy(before: Servers, now: Servers, lost: set<ServerId>, target: Version)
    requires Restored(before, now, lost, target)
    ensures now.Keys == before.Keys
    ensures forall id | id in now :: now[id].version == if id in lost then target else before[id].version
    ensures lost == {} ==> forall id | id in now :: now[id].version == before[id].version
  {
  }

  // A run that lacks servers for a stage is undone, unless the rollback checkpoint
  // refuses.
  lemma ShortfallUndone(w: CanaryDeploymentWorkflow, k: nat, at: nat)
    requires Over(w) && CauseFor(w) == Erred(k, at)
    requires k < |w.results| && w.results[k].error == Some(UnderProvisioned)
    ensures if w.env.verdict(at) == Block then w.journal.phase == Ended(EndViolation) && w.status != RolledBack
            else w.journal.phase == Ended(EndRolledBack) && AllRestored(w) && (w.status == RolledBack <==> !w.aborted)
  {
    EndsByCause(w);
    AbortsFirst(w.env, w.config, w.abortedBefore, w.results, 0);
    if w.env.verdict(at) != Block { UndoneExactly(w); }
  }

  // The number of servers that should be updated after the first `k` stages.
  ghost function Share(w: CanaryDeploymentWorkflow, k: nat): nat
    requires k <= |w.config.stages|
    reads w
  {
    if k == 0 then 0 else CeilPercent(|Stage.Eligible(w.before, w.quarantinedBefore)|, w.config.stages[k - 1])
  }

  // Nothing hinders a stage: no exception, no look at the engine's abort event that
  // finds one, and every server outside the quarantined regions takes updates, which
  // no health check changes.
  ghost predicate Undisturbed(w: CanaryDeploymentWorkflow)
    reads w
  {
    && w.env.Calm() && Receptive(w.Given())
    && (forall t: nat :: w.env.raises(t) == None)
    && (w.activities.hasEngine ==> forall t: nat, i: nat :: !w.env.abortSeen(t)(i))
  }

  lemma NoError(w: CanaryDeploymentWorkflow, p: Position, now: Servers, r: StageResult, t: nat)
    requires Undisturbed(w) && w.env.Errs(w.activities.hasEngine, t, r.error) && ValidStages(w.config.stages)
    requires Stands(w.Given(), w.config, p) && Untouched(w.Given(), p) && NextStage(w.Given(), w.config, p, now, r)
    ensures r.error == None
  {
    WellProvisioned(w.Given(), w.config, p, now, r);
    assert w.env.raises(t) == None;
    assert w.activities.hasEngine ==> forall i: nat :: !w.env.abortSeen(t)(i);
  }

  lemma ShareBefore(w: CanaryDeploymentWorkflow, p: Position)
    requires Stands(w.Given(), w.config, p) && ValidStages(w.config.stages) && Errorless(p.results)
    ensures |p.results| <= |w.config.stages| && |Elems(p.updated)| == Share(w, |p.results|)
    ensures Elems(p.updated) <= Stage.Eligible(w.before, w.quarantinedBefore)
  {
    ShareSoFar(w.before, w.quarantinedBefore, w.config.stages, p.results);
  }

  lemma LostPrefix(w: CanaryDeploymentWorkflow, r: StageResult)
    requires |w.path| > 1 && Course(w.Given(), w.config, w.path) && Listed(w.Given(), w.config)
    requires w.env.Calm() && StageLost(w.Given(), w.config, w.path[|w.path| - 2], Last(w.path), r)
    ensures var p := w.path[|w.path| - 2];
            Stands(w.Given(), w.config, p) && Untouched(w.Given(), p)
  {
    assert Follows(w.Given(), w.config, Init(w.path), Last(w.path));
    assert Last(Init(w.path)) == w.path[|w.path| - 2];
    CourseStands(w.Given(), w.config, Init(w.path));
    CourseUntouched(w.Given(), w.config, Init(w.path));
  }

  // An undisturbed stage deploys exactly the servers by which its share exceeds the
  // one before.
  lemma ShareDeployed(w: CanaryDeploymentWorkflow, p: Position, now: Servers, r: StageResult)
    requires Stands(w.Given(), w.config, p) && NextStage(w.Given(), w.config, p, now, r)
    requires ValidStages(w.config.stages) && Errorless(p.results) && r.error == None
    ensures |p.results| < |w.config.stages|
    ensures Elems(r.updated) <= Stage.Eligible(w.before, w.quarantinedBefore) - Elems(p.updated)
    ensures |Elems(r.updated)| == Share(w, |p.results| + 1) - Share(w, |p.results|)
  {
    var eligible, done := Stage.Eligible(w.before, w.quarantinedBefore), Elems(p.updated);
    ShareBefore(w, p);
    StageCeiling(w.Given(), w.config, p, now, r);
    if |p.results| > 0 {
      CeilPercentMonotone(|eligible|, w.config.stages[|p.results| - 1], w.config.stages[|p.results|]);
    }
    ShareStep(eligible, w.before, w.quarantinedBefore, done, r);
    assert |done + Elems(r.updated)| == |done| + |Elems(r.updated)|;
  }

  lemma {:induction false} ErrorlessFrom(env: Environment, c: Config, early: bool, results: seq<StageResult>, k: nat)
    requires CauseFrom(env, c, early, results, k).Lost? && |results| == CauseFrom(env, c, early, results, k).stage && k <= |results|
    requires Errorless(results[..k])
    ensures |results| < |c.stages| && Errorless(results)
    decreases |c.stages| - k
  {
    if k < |c.stages| {
      StageOfCause(env, c, early, k, Look(env, c, k), FailedAt(results, k));
      if k < |results| {
        InitPrefix(results, k);
        ErrorlessFrom(env, c, early, results, k + 1);
      } else {
        assert results[..k] == results;
      }
    }
  }

  lemma LossIs(w: CanaryDeploymentWorkflow, t: nat)
    requires Undisturbed(w) && ValidStages(w.config.stages) && Course(w.Given(), w.config, w.path) && Listed(w.Given(), w.config)
    requires w.LostAt(t)
    requires Errorless(Last(w.path).results) && |Last(w.path).results| < |w.config.stages|
    ensures var k := |Last(w.path).results|;
            && Last(w.path).lost <= Stage.Eligible(w.before, w.quarantinedBefore) - Elems(Last(w.path).updated)
            && |Last(w.path).lost| == Share(w, k + 1) - Share(w, k)
  {
    var r :| StageLost(w.Given(), w.config, w.path[|w.path| - 2], Last(w.path), r)
             && w.env.Errs(w.activities.hasEngine, t, r.error);
    assert Stands(w.Given(), w.config, w.path[|w.path| - 2]) && Untouched(w.Given(), w.path[|w.path| - 2]) by {
      LostPrefix(w, r);
    }
    LossOf(w, w.path[|w.path| - 2], Last(w.path), r, t);
  }

  lemma LossOf(w: CanaryDeploymentWorkflow, p: Position, q: Position, r: StageResult, t: nat)
    requires Undisturbed(w) && ValidStages(w.config.stages) && Stands(w.Given(), w.config, p) && Untouched(w.Given(), p)
    requires StageLost(w.Given(), w.config, p, q, r) && w.env.Errs(w.activities.hasEngine, t, r.error)
    requires Errorless(q.results) && |q.results| < |w.config.stages|
    ensures q.lost <= Stage.Eligible(w.before, w.quarantinedBefore) - Elems(q.updated)
    ensures |q.lost| == Share(w, |q.results| + 1) - Share(w, |q.results|)
  {
    NoError(w, p, q.now, r, t);
    ShareDeployed(w, p, q.now, r);
  }

  // Undisturbed, a stage that an abort makes the run forget had deployed exactly the
  // servers by which its share exceeds the one before.
  lemma LossExactly(w: CanaryDeploymentWorkflow)
    requires Over(w) && Undisturbed(w) && ValidStages(w.config.stages)
    ensures CauseFor(w).Lost? ==>
              && CauseFor(w).stage < |w.config.stages|
              && Last(w.path).lost <= Stage.Eligible(w.before, w.quarantinedBefore) - Elems(w.updated)
              && |Last(w.path).lost| == Share(w, CauseFor(w).stage + 1) - Share(w, CauseFor(w).stage)
  {
    if CauseFor(w).Lost? {
      assert w.results[..0] == [];
      ErrorlessFrom(w.env, w.config, w.abortedBefore, w.results, 0);
      LossIs(w, Look(w.env, w.config, CauseFor(w).stage) + 3);
    }
  }

  // ---------- Undisturbed runs ----------

  lemma {:induction false} NoneFailed(results: seq<StageResult>, k: nat)
    requires Errorless(results)
    ensures !FailedAt(results, k)
  {
    if results != [] && k < |results| - 1 { NoneFailed(Init(results), k); }
  }

  lemma {:induction false} CauseWithoutErrors(env: Environment, c: Config, early: bool, results: seq<StageResult>, k: nat)
    requires Errorless(results)
    ensures CauseFrom(env, c, early, results, k) == CauseFrom(env, c, early, [], k)
    decreases |c.stages| - k
  {
    NoneFailed(results, k);
    if k < |c.stages| { CauseWithoutErrors(env, c, early, results, k + 1); }
  }

  lemma NotFailed(w: CanaryDeploymentWorkflow, k: nat, t: nat)
    requires Undisturbed(w) && ValidStages(w.config.stages) && Course(w.Given(), w.config, w.path) && Listed(w.Given(), w.config)
    requires k < |Last(w.path).results| && w.env.Errs(w.activities.hasEngine, t, Last(w.path).results[k].error)
    ensures Last(w.path).results[k].error == None
  {
    var i := WhenNoted(w.Given(), w.config, w.path, k);
    CourseStands(w.Given(), w.config, w.path[..i]);
    CourseUntouched(w.Given(), w.config, w.path[..i]);
    assert Last(w.path[..i]) == w.path[i - 1];
    NoError(w, w.path[i - 1], w.path[i].now, Last(w.path).results[k], t);
  }

  // Undisturbed, no stage reports an error, so the environment alone decides why the
  // run ends.
  lemma NoErrors(w: CanaryDeploymentWorkflow)
    requires Over(w) && Undisturbed(w) && ValidStages(w.config.stages)
    ensures Errorless(w.results) && CauseFor(w) == CauseOf(w.env, w.config, w.abortedBefore, [])
  {
    var cause := CauseFor(w);
    var k := StageOf(cause);
    var t := Look(w.env, w.config, k) + 3;
    assert w.Traces(cause, t);
    if !cause.Refused? && !cause.Completes? {
      if FailedAt(w.results, k) {
        NotFailed(w, k, t);
      }
      LastFine(w.results, k);
    }
    CauseWithoutErrors(w.env, w.config, w.abortedBefore, w.results, 0);
  }

  lemma LastFine(results: seq<StageResult>, k: nat)
    requires k <= |results| <= k + 1 && Errorless(results[..k]) && !FailedAt(results, k)
    ensures Errorless(results)
  {
    if |results| == k {
      assert results[..k] == results;
    } else {
      assert Init(results) == results[..k] && Last(results) == results[k];
    }
  }

  // The environment makes an error-free run forget stage `k`.
  ghost predicate Forgets(w: CanaryDeploymentWorkflow, k: nat)
    reads w
  {
    LostIn(w.env, w.config, w.abortedBefore, k)
  }

  lemma RestoredByCause(w: CanaryDeploymentWorkflow)
    requires Over(w) && Undisturbed(w) && ValidStages(w.config.stages) && w.journal.phase == Ended(EndRolledBack)
    requires forall id | id in w.before :: w.before[id].version != w.config.target
    ensures var cause := CauseOf(w.env, w.config, w.abortedBefore, []);
            AllRestored(w) <==>
            !(cause.Lost? && cause.stage < |w.config.stages| && Share(w, cause.stage + 1) != Share(w, cause.stage))
  {
    NoErrors(w);
    UndoneExactly(w);
    var lost := Last(w.path).lost;
    if CauseFor(w).Lost? {
      LossExactly(w);
      if lost == {} {
        assert Share(w, CauseFor(w).stage + 1) == Share(w, CauseFor(w).stage);
      } else {
        var id :| id in lost;
        assert id in Stage.Eligible(w.before, w.quarantinedBefore);
      }
    }
  }

  // The versions are all restored exactly if no abort came in while a stage was being
  // entered or carried out that has servers to deploy to.
  lemma RestoredExactly(w: CanaryDeploymentWorkflow)
    requires Over(w) && Undisturbed(w) && ValidStages(w.config.stages) && w.journal.phase == Ended(EndRolledBack)
    requires forall id | id in w.before :: w.before[id].version != w.config.target
    ensures AllRestored(w) <==> forall k: nat | Forgets(w, k) :: Share(w, k + 1) == Share(w, k)
  {
    var cause := CauseOf(w.env, w.config, w.abortedBefore, []);
    forall k: nat | Forgets(w, k) ensures cause.Lost? && cause.stage == k {
      LostExactly(w.env, w.config, w.abortedBefore, k);
    }
    if cause.Lost? { LostExactly(w.env, w.config, w.abortedBefore, cause.stage); }
    RestoredByCause(w);
  }

  // No signal, checkpoints that allow, checks that pass, and nothing that hinders a
  // stage: the run completes, on every server outside the quarantined regions.
  lemma SmoothRunCompletes(w: CanaryDeploymentWorkflow)
    requires Over(w) && Undisturbed(w) && ValidStages(w.config.stages)
    requires Smooth(w.env, w.abortedBefore) && w.config.ids != []
    ensures w.journal.phase == Ended(EndCompleted) && w.status == Completed
    ensures forall id | id in w.before && w.before[id].region !in w.quarantinedBefore ::
              && id in w.activities.cluster.servers
              && w.activities.cluster.servers[id].version == w.config.target
              && w.activities.cluster.servers[id].status == Healthy
  {
    NoErrors(w);
    SmoothCause(w.env, w.config, [], 0);
    assert CauseFor(w).Completes?;
    LateAbort(w);
    CompletionCovers(w);
  }

  // A completed run has every server outside the quarantined regions on the target
  // version and healthy.
  lemma CompletionCovers(w: CanaryDeploymentWorkflow)
    requires w.Closed() && w.CompletedWell() && ValidStages(w.config.stages)
    ensures forall id | id in w.before && w.before[id].region !in w.quarantinedBefore ::
              && id in w.activities.cluster.servers
              && w.activities.cluster.servers[id].version == w.config.target
              && w.activities.cluster.servers[id].status == Healthy
  {
    CourseStands(w.Given(), w.config, w.path);
    AllStagesCover(w.before, w.quarantinedBefore, w.config.stages, w.results);
    UpdatedCovers(w);
  }

  lemma UpdatedCovers(w: CanaryDeploymentWorkflow)
    requires w.CompletedWell() && Stage.Eligible(w.before, w.quarantinedBefore) == Elems(w.updated)
    ensures forall id | id in w.before && w.before[id].region !in w.quarantinedBefore ::
              && id in w.activities.cluster.servers
              && w.activities.cluster.servers[id].version == w.config.target
              && w.activities.cluster.servers[id].status == Healthy
  {
    forall id | id in w.before && w.before[id].region !in w.quarantinedBefore ensures id in w.updated {
      assert id in Stage.Eligible(w.before, w.quarantinedBefore);
    }
  }

  // ---------- Stages ----------

  // Updated and pending servers always make up the cluster; each stage kept to its
  // ceiling, out of the quarantined regions, and away from servers updated before.
  lemma SharesKept(w: CanaryDeploymentWorkflow, k: nat)
    requires w.Closed() && k < |w.results|
    ensures Partitions(w.updated, w.pending, w.before.Keys) && UpdatedBy(w.results) == Elems(w.updated)
    ensures WithinCeiling(w.before, UpdatedBy(w.results[..k]), w.results[k], w.quarantinedBefore)
    ensures forall id | id in w.results[k].updated ::
              id in w.before && w.before[id].region !in w.quarantinedBefore && id !in UpdatedBy(w.results[..k])
  {
    CourseStands(w.Given(), w.config, w.path);
    StageKeepsOut(w.before, w.quarantinedBefore, w.config.stages, w.results, k);
  }

  // After each stage without error the updated servers are exactly its percentage,
  // rounded up, of those outside the quarantined regions.
  lemma SharesExact(w: CanaryDeploymentWorkflow, k: nat)
    requires w.Closed() && ValidStages(w.config.stages) && k < |w.results| && Errorless(w.results[..k + 1])
    ensures k < |w.config.stages| && |UpdatedBy(w.results[..k + 1])| == Share(w, k + 1)
  {
    CourseStands(w.Given(), w.config, w.path);
    ExactShareAt(w.before, w.quarantinedBefore, w.config.stages, w.results, k);
  }

  // ---------- The log ----------

  lemma NotedResult(w: CanaryDeploymentWorkflow, p: Position)
    requires Course(w.Given(), w.config, w.path) && Listed(w.Given(), w.config) && p in w.path && p.results != []
    ensures var i := |p.results| - 1;
            && i < |Last(w.path).results| && Last(w.path).results[..i + 1] == p.results
            && Last(w.path).results[i] == Last(p.results) && Last(p.results).stage == i
            && Elems(p.updated) == UpdatedBy(p.results)
  {
    ResultsGrow(w.Given(), w.config, w.path, p);
    PositionStands(w.Given(), w.config, w.path, p);
  }

  lemma {:induction false} PositionStands(s: Setting, c: Config, path: seq<Position>, p: Position)
    requires Course(s, c, path) && Listed(s, c) && p in path
    ensures Stands(s, c, p)
  {
    if p == Last(path) {
      CourseStands(s, c, path);
    } else {
      SplitLast(path);
      assert Follows(s, c, Init(path), Last(path));
      PositionStands(s, c, Init(path), p);
    }
  }

  // At stop `p` of the course the result of `stage`, which updated `updated`, is the
  // last so far.
  ghost predicate NotedAt(w: CanaryDeploymentWorkflow, p: Position, stage: nat, updated: seq<ServerId>)
    reads w
  {
    p in w.path && stage < |w.results| && updated == w.results[stage].updated && p.results == w.results[..stage + 1]
  }

  lemma NotedStage(w: CanaryDeploymentWorkflow, p: Position, stage: nat, updated: seq<ServerId>)
    requires w.Closed() && p in w.path && p.results != []
    requires Last(p.results).stage == stage && Last(p.results).updated == updated
    ensures NotedAt(w, p, stage, updated)
    ensures Elems(p.updated) == UpdatedBy(p.results)
  {
    NotedResult(w, p);
  }

  lemma NotedOnPath(w: CanaryDeploymentWorkflow, k: nat)
    requires w.Closed() && k < |Last(w.journal.pages).snaps|
    ensures Last(w.journal.pages).snaps[k] in w.path
  {
    WithinAt(Last(w.journal.pages).snaps, w.path, k);
  }

  // From the whole log in any order, the state rebuilt at a stage's transition is just
  // the servers updated by then, at the versions they had at that stop of the course;
  // and the transition tells of that stage's result.
  lemma TransitionRebuilt(w: CanaryDeploymentWorkflow, log: seq<Event>, k: nat) returns (p: Position)
    requires w.Closed() && ReadBack(w.journal, log) && k < |Last(w.journal.pages).chain|
    requires Last(w.journal.pages).chain[k].body.StageTransition?
    ensures var e := Last(w.journal.pages).chain[k];
            && NotedAt(w, p, e.body.stage, e.body.updated)
            && ShownAt(TimelineOf(Scope(log, Some(w.config.deploymentId))), e.id, UpdatedBy(p.results), p.now)
  {
    TransitionShown(w.journal, log, k);
    NotedOnPath(w, k);
    p := Last(w.journal.pages).snaps[k];
    var body := Last(w.journal.pages).chain[k].body;
    NotedStage(w, p, body.stage, body.updated);
  }

  // From the whole log in any order, the state rebuilt at the run's last event is the
  // run's final view: just the updated servers, and after a completion, or a rollback
  // of a cluster that was on the source version, each at its real version.
  lemma EndRebuilt(w: CanaryDeploymentWorkflow, log: seq<Event>)
    requires Over(w) && ReadBack(w.journal, log) && Last(w.journal.pages).chain != []
    ensures EndsIn(TimelineOf(Scope(log, Some(w.config.deploymentId))), Last(Last(w.journal.pages).chain).id, w.journal.view)
    ensures w.journal.phase == Ended(EndCompleted) || (w.journal.phase == Ended(EndRolledBack) && w.SourceBefore()) ==>
              Shows(w.journal.view, Elems(w.updated), w.activities.cluster.servers)
  {
    LastRebuilt(w.journal, log);
  }
}
