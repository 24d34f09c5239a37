/**
 * The smallest rollout, one server and one stage, with an abort signal after `at`
 * awaits: what becomes of it, by when the signal arrives (deploy/workflows.py). The
 * workflow itself is run; only its environment is chosen.
 */
module OneServer {
  import opened Base
  import opened Events
  import opened Models
  import opened Cluster
  import opened Deployment
  import opened ReplayState
  import opened RunFacts
  import opened Coverage
  import opened Fates
  import opened Courses
  import opened Activities
  import opened Journals
  import opened RunLog
  import opened Workflow
  import opened Outcomes
  import Stage
  import Timeline

  function Tag(n: nat): EventId {
    seq(n + 1, _ => 'x')
  }

  lemma TagsMint()
    ensures Mints(Tag)
  {
    forall i: nat, j: nat | i < j ensures Tag(i) != Tag(j) {
      assert |Tag(i)| < |Tag(j)|;
    }
    forall i: nat ensures Tag(i) != "" && Tag(i) != ROOT {
      assert Tag(i)[0] == 'x' && ROOT[0] == 'R';
    }
  }

  function SignalAt(at: nat): Environment {
    Environment(t => t == at, _ => Allow, _ => [], _ => true, _ => map[], _ => None, _ => _ => false, _ => true)
  }

  function OneStage(server: Server, target: Version): Config {
    Config("d", target, server.version, [100], 0, [server.id])
  }

  lemma HeardAfter(at: nat, t: nat)
    ensures SignalAt(at).Heard(false, t) <==> at < t
  {
    SignalAt(at).HeardIs(false, t);
  }

  function Expected(at: nat): Cause {
    if at < 4 then Caught(0, 4) else if at < 8 then Lost(0, 8) else if at < 11 then Caught(0, 11) else Completes(13)
  }

  lemma StageExpected(server: Server, target: Version, at: nat)
    ensures AtStage(SignalAt(at), OneStage(server, target), false, 0, 4, false) ==
              if Expected(at).Completes? then None else Some(Expected(at))
  {
    HeardAfter(at, 4);
    HeardAfter(at, 8);
    HeardAfter(at, 11);
  }

  lemma CauseExpected(server: Server, target: Version, at: nat)
    ensures CauseOf(SignalAt(at), OneStage(server, target), false, []) == Expected(at)
    ensures LastLook(SignalAt(at), OneStage(server, target)) == 11
  {
    var env, c := SignalAt(at), OneStage(server, target);
    StageExpected(server, target, at);
    assert Look(env, c, 0) == 4 && LookAfter(env, c, 4) == 11 && Look(env, c, 1) == 14;
    assert CauseFrom(env, c, false, [], 1) == Completes(13);
  }

  ghost predicate Ran(w: CanaryDeploymentWorkflow, server: Server, target: Version, at: nat)
    reads w, w.journal, w.activities.logger, w.activities.cluster, w.activities.quarantine
  {
    && Over(w) && w.env == SignalAt(at) && w.config == OneStage(server, target) && !w.activities.hasEngine
    && w.before == map[server.id := server] && w.quarantinedBefore == {} && !w.abortedBefore
  }

  lemma RanUndisturbed(w: CanaryDeploymentWorkflow, server: Server, target: Version, at: nat)
    requires Ran(w, server, target, at) && server.IsUpdatable()
    ensures Undisturbed(w) && CauseFor(w) == Expected(at)
    ensures Stage.Eligible(w.before, {}) == {server.id} && Share(w, 1) == 1 && Share(w, 0) == 0
  {
    assert Stage.Eligible(w.before, {}) == {server.id};
    NoErrors(w);
    CauseExpected(server, target, at);
  }

  lemma AbortEnds(env: Environment, c: Config, early: bool, results: seq<StageResult>, regions: nat)
    requires var cause := CauseOf(env, c, early, results); cause.Caught? || cause.Lost?
    ensures EndOf(env, c, early, results, regions).0 == EndRolledBack
  {
  }

  lemma RolledBackBy(w: CanaryDeploymentWorkflow, server: Server, target: Version, at: nat)
    requires Ran(w, server, target, at) && server.IsUpdatable()
    ensures at < 11 ==>
              w.journal.phase == Ended(EndRolledBack) && w.status == Aborted
  {
    if at < 11 {
      assert CauseFor(w) == Expected(at) by { RanUndisturbed(w, server, target, at); }
      AbortEnds(w.env, w.config, w.abortedBefore, w.results, w.Isolated());
      HeardAfter(at, w.tick);
    }
  }

  lemma LostVersion(w: CanaryDeploymentWorkflow, server: Server, target: Version, at: nat)
    requires Ran(w, server, target, at) && server.IsUpdatable()
    ensures 4 <= at < 8 ==>
              server.id in w.activities.cluster.servers && w.activities.cluster.servers[server.id].version == target
  {
    if 4 <= at < 8 {
      RanUndisturbed(w, server, target, at);
      RolledBackBy(w, server, target, at);
      UndoneExactly(w);
      LossExactly(w);
      OnlyOne(Last(w.path).lost, server.id);
    }
  }

  lemma RestoredVersion(w: CanaryDeploymentWorkflow, server: Server, target: Version, at: nat)
    requires Ran(w, server, target, at) && server.IsUpdatable()
    ensures at < 4 || 8 <= at < 11 ==>
              server.id in w.activities.cluster.servers && w.activities.cluster.servers[server.id].version == server.version
  {
    if at < 4 || 8 <= at < 11 {
      RanUndisturbed(w, server, target, at);
      RolledBackBy(w, server, target, at);
      UndoneExactly(w);
    }
  }

  lemma UpdatedVersion(w: CanaryDeploymentWorkflow, server: Server, target: Version, at: nat)
    requires Ran(w, server, target, at) && server.IsUpdatable()
    ensures at >= 11 ==>
              server.id in w.activities.cluster.servers && w.activities.cluster.servers[server.id].version == target
  {
    if at >= 11 {
      RanUndisturbed(w, server, target, at);
      CompletedBy(w, server, target, at);
      CompletionCovers(w);
    }
  }

  lemma VersionAfter(w: CanaryDeploymentWorkflow, server: Server, target: Version, at: nat)
    requires Ran(w, server, target, at) && server.IsUpdatable()
    ensures server.id in w.activities.cluster.servers
    ensures w.activities.cluster.servers[server.id].version == if at < 4 || 8 <= at < 11 then server.version else target
  {
    UpdatedVersion(w, server, target, at);
    LostVersion(w, server, target, at);
    RestoredVersion(w, server, target, at);
  }

  lemma OnlyOne(ids: set<ServerId>, id: ServerId)
    requires ids <= {id} && |ids| == 1
    ensures id in ids
  {
    assert ids != {};
  }

  lemma CompletedBy(w: CanaryDeploymentWorkflow, server: Server, target: Version, at: nat)
    requires Ran(w, server, target, at) && server.IsUpdatable()
    ensures at >= 11 ==>
              && w.journal.phase == Ended(EndCompleted)
              && w.status == if at == 13 || at == 14 then Aborted else Completed
  {
    if at >= 11 {
      assert CauseFor(w) == Expected(at) by { RanUndisturbed(w, server, target, at); }
      assert LastLook(w.env, w.config) == 11 by { CauseExpected(server, target, at); }
      LateAbort(w);
    }
  }

  lemma StatusAfter(w: CanaryDeploymentWorkflow, server: Server, target: Version, at: nat)
    requires Ran(w, server, target, at) && server.IsUpdatable()
    ensures w.status == if at < 11 || at == 13 || at == 14 then Aborted else Completed
    ensures w.journal.view.status == if at < 11 then RolledBack else Completed
  {
    ReplayedAsPhase(w.journal);
    RolledBackBy(w, server, target, at);
    CompletedBy(w, server, target, at);
  }

  // A signal before the first look at the abort flag, or after the stage is recorded
  // but before the last look, is honoured; one in the four awaits between makes the
  // run forget the server; after the last look one is lost, and later still it makes
  // the finished run `aborted`, which replay does not see.
  method AbortAfter(server: Server, target: Version, at: nat)
    returns (status: DeploymentStatus, version: Version, replayed: DeploymentStatus)
    requires server.IsUpdatable() && server.region != "" && server.version != target
    ensures status == if at < 11 || at == 13 || at == 14 then Aborted else Completed
    ensures version == if at < 4 || 8 <= at < 11 then server.version else target
    ensures replayed == if at < 11 then RolledBack else Completed
  {
    TagsMint();
    var cluster := new ClusterState([server]);
    var logger := new AuditLogger(Tag, t => t);
    var activities := new CanaryDeploymentActivities(cluster, null, logger, false);
    var w := new CanaryDeploymentWorkflow(activities, OneStage(server, target), SignalAt(at), false);
    Prepared(cluster.servers, server);
    w.RunDeployment();
    StatusAfter(w, server, target, at);
    VersionAfter(w, server, target, at);
    status, version := w.status, cluster.servers[server.id].version;
    replayed := ReplayRun(w);
  }

  lemma Prepared(servers: Servers, server: Server)
    requires servers.Keys == (set s | s in [server] :: s.id) && forall s | s in [server] :: s.id in servers && servers[s.id] in [server]
    ensures servers == map[server.id := server]
    ensures NoDup([server.id]) && Elems([server.id]) == servers.Keys
  {
    assert server in [server];
    assert Init([server.id]) == [];
  }

  // The status that the replay engine tells, at the run's last event.
  method ReplayRun(w: CanaryDeploymentWorkflow) returns (status: DeploymentStatus)
    requires Over(w) && w.journal.prior == []
    ensures status == w.journal.view.status
  {
    var log := w.activities.logger.events;
    RunGrammar(w.journal);
    EndRebuilt(w, log);
    var r := ReconstructStateAtStep(log, w.journal.lastEventId, Some(w.config.deploymentId));
    status := r.value.status;
  }
}
