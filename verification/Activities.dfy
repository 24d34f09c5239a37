/**
 * The audit log (deploy/audit.py) and the activities that the workflow runs
 * (deploy/activities.py). Activities are atomic.
 */
module Activities {
  import opened Base
  import opened Events
  import opened Models
  import opened Cluster
  import opened Deployment
  import opened Quarantine
  import opened RunFacts
  import Grouping
  import Recovery
  import Shuffle
  import Stage
  import Timeline

  // ---------- The audit log ----------

  // Fresh event ids: never repeated, never empty, never the sentinel.
  ghost predicate Mints(mint: nat -> EventId) {
    && (forall i: nat, j: nat | i < j :: mint(i) != mint(j))
    && (forall i: nat :: mint(i) != "" && mint(i) != ROOT)
  }

  ghost predicate Minted(events: seq<Event>, mint: nat -> EventId) {
    events == [] || (Minted(Init(events), mint) && Last(events).id == mint(|events| - 1))
  }

  lemma {:induction false} MintedAt(events: seq<Event>, mint: nat -> EventId, e: Event) returns (k: nat)
    requires Minted(events, mint) && e in events
    ensures k < |events| && e.id == mint(k)
  {
    SplitLast(events);
    if e in Init(events) {
      k := MintedAt(Init(events), mint, e);
    } else {
      k := |events| - 1;
    }
  }

  lemma {:induction false} MintedUnique(events: seq<Event>, mint: nat -> EventId)
    requires Minted(events, mint) && Mints(mint)
    ensures Timeline.WellNamed(events) && forall e | e in events :: e.id != ""
  {
    if events != [] {
      SplitLast(events);
      MintedUnique(Init(events), mint);
      forall e | e in Init(events) ensures e.id != Last(events).id {
        var k := MintedAt(Init(events), mint, e);
      }
    }
  }

  class AuditLogger {
    const mint: nat -> EventId
    const clock: nat -> int
    var events: seq<Event>

    ghost predicate Valid()
      reads this
    {
      Mints(mint) && Minted(events, mint)
    }

    constructor (mint: nat -> EventId, clock: nat -> int)
      requires Mints(mint)
      ensures Valid() && events == [] && this.mint == mint && this.clock == clock
    {
      this.mint, this.clock, this.events := mint, clock, [];
    }

    method Log(deployment: string, body: Body, parent: EventId) returns (id: EventId)
      requires Valid()
      modifies this
      ensures Valid()
      ensures events == old(events) + [Event(id, parent, clock(|old(events)|), deployment, deployment, body)]
    {
      id := mint(|events|);
      InitMore(events, Event(id, parent, clock(|events|), deployment, deployment, body));
      events := events + [Event(id, parent, clock(|events|), deployment, deployment, body)];
    }
  }

  // ---------- The activities ----------

  // Records that an activity makes on the side of a run.
  ghost predicate AllAside(records: seq<Event>, deployment: string) {
    Owned(records, deployment) && forall e | e in records :: Aside(e)
  }

  lemma BothAside(a: Event, b: Event, deployment: string)
    requires AllAside([a], deployment) && AllAside([b], deployment)
    ensures AllAside([a, b], deployment)
  {
    assert a in [a] && b in [b];
  }

  class CanaryDeploymentActivities {
    const cluster: ClusterState
    const quarantine: RegionQuarantineSystem?
    const logger: AuditLogger
    const hasEngine: bool

    constructor (cluster: ClusterState, quarantine: RegionQuarantineSystem?, logger: AuditLogger, hasEngine: bool)
      ensures this.cluster == cluster && this.quarantine == quarantine && this.logger == logger && this.hasEngine == hasEngine
    {
      this.cluster, this.quarantine, this.logger, this.hasEngine := cluster, quarantine, logger, hasEngine;
    }

    ghost predicate Sound()
      reads cluster
    {
      cluster.Valid() && (quarantine != null ==> quarantine.cluster == cluster)
    }

    ghost predicate Valid()
      reads cluster, logger
    {
      Sound() && logger.Valid()
    }

    function Quarantined(): set<Region>
      reads quarantine
    {
      if quarantine == null then {} else quarantine.ActiveRegions()
    }

    method DeployEach(target: Version, selected: seq<ServerId>) returns (newly: seq<ServerId>, error: Option<StageError>)
      requires cluster.Valid() && NoDup(selected) && Elems(selected) <= cluster.servers.Keys
      modifies cluster
      ensures cluster.Valid() && newly == selected && error == None
      ensures cluster.servers == Stage.DeployAll(old(cluster.servers), Elems(selected), target)
    {
      ghost var before := cluster.servers;
      newly, error := [], None;
      assert Stage.DeployAll(before, {}, target) == before;
      for i := 0 to |selected|
        invariant newly == selected[..i] && error == None && cluster.Valid()
        invariant cluster.servers == Stage.DeployAll(before, Elems(selected[..i]), target)
      {
        TakeOneMore(selected, i);
        assert selected[i] in Elems(selected);
        var id := selected[i];
        var success := cluster.UpdateServerVersion(id, target);
        if success {
          newly := newly + [id];
        } else {
          error := Some(UpdateFailed(id));
        }
      }
      assert selected[..|selected|] == selected;
    }

    // A stage without an engine: no look at the abort event.
    method DeployDirectly(target: Version, updated: set<ServerId>, quarantined: set<Region>, pct: nat)
      returns (newly: seq<ServerId>, error: Option<StageError>)
      requires cluster.Valid()
      modifies cluster
      ensures cluster.Valid()
      ensures Stage.StageOutcome(old(cluster.servers), cluster.servers, updated, old(cluster.servers).Keys - updated,
                                 quarantined, target, pct, newly, error)
      ensures error != None ==> error == Some(UnderProvisioned)
    {
      ghost var before := cluster.servers;
      var pending := cluster.servers.Keys - updated;
      var needed := Stage.Needed(cluster.servers, updated, quarantined, pct);
      if needed <= 0 {
        Stage.StageIdle(before, updated, pending, quarantined, target, pct);
        return [], None;
      }
      var selected := Stage.ChooseServers(cluster, pending, quarantined, needed);
      newly, error := DeployEach(target, selected);
      if error == None && |newly| < needed {
        error := Some(UnderProvisioned);
      }
      Stage.AllDone(before, updated, pending, quarantined, target, pct, selected);
    }

    // `raises` is an exception before anything was updated: its text matters only
    // for what it mentions.
    method ExecuteStage(deploymentId: string, target: Version, source: Version, total: nat, updatedIds: seq<ServerId>,
                        stageIdx: nat, pct: nat, raises: Option<(bool, bool)>, abortSeen: nat -> bool)
      returns (newly: seq<ServerId>, error: Option<StageError>)
      requires cluster.Valid()
      modifies cluster
      ensures cluster.Valid()
      ensures Stage.StageRan(old(cluster.servers), cluster.servers, target, updatedIds, Quarantined(),
                             StageResult(stageIdx, pct, newly, error))
      ensures raises.Some? <==> error.Some? && error.value.Raised?
      ensures raises.Some? ==> error == Some(Raised(raises.value.0, raises.value.1))
      ensures error == Some(AbortMidStage) ==> hasEngine && exists i :: abortSeen(i)
    {
      if raises.Some? {
        return [], Some(Raised(raises.value.0, raises.value.1));
      }
      var updated := set id | id in updatedIds;
      assert updated == Elems(updatedIds);
      if !hasEngine {
        newly, error := DeployDirectly(target, updated, Quarantined(), pct);
        return;
      }
      newly, error := DeployByEngine(deploymentId, target, source, total, updated, Quarantined(), stageIdx, pct, abortSeen);
    }

    method DeployByEngine(deploymentId: string, target: Version, source: Version, total: nat, updated: set<ServerId>,
                          quarantined: set<Region>, stageIdx: nat, pct: nat, abortSeen: nat -> bool)
      returns (newly: seq<ServerId>, error: Option<StageError>)
      requires cluster.Valid()
      modifies cluster
      ensures cluster.Valid()
      ensures Stage.StageOutcome(old(cluster.servers), cluster.servers, updated, old(cluster.servers).Keys - updated,
                                 quarantined, target, pct, newly, error)
      ensures error != None ==> error == Some(UnderProvisioned) || error == Some(AbortMidStage)
      ensures error == Some(AbortMidStage) ==> exists i :: abortSeen(i)
    {
      ghost var before := cluster.servers;
      var pending := cluster.servers.Keys - updated;
      var ds := new DeploymentState(deploymentId, target, source, total, updated, pending, InProgress);
      var stage := Stage.ExecuteStage(cluster, ds, quarantined, stageIdx, pct, abortSeen);
      newly := Recovery.ListOf(ds.updated - updated);
      error := stage.error;
      Stage.SameOutcome(before, cluster.servers, updated, quarantined, target, pct, stage.updated, ds.updated, newly, error);
    }

    // The health check may change statuses; it does not change versions.
    method RunHealthCheck(statuses: map<ServerId, ServerStatus>)
      requires cluster.Valid()
      modifies cluster
      ensures cluster.Valid() && OnlyStatuses(old(cluster.servers), cluster.servers)
      ensures statuses == map[] ==> cluster.servers == old(cluster.servers)
    {
      ghost var before := cluster.servers;
      var todo := statuses.Keys;
      while todo != {}
        invariant todo <= statuses.Keys && cluster.Valid() && OnlyStatuses(before, cluster.servers)
        invariant statuses == map[] ==> cluster.servers == before
      {
        var id :| id in todo;
        todo := todo - {id};
        var _ := cluster.UpdateServerStatus(id, statuses[id]);
      }
    }

    // Both the quarantined regions and those of the servers have names.
    ghost predicate RegionsNamed()
      reads cluster, quarantine
    {
      "" !in Quarantined() && forall id | id in cluster.servers :: cluster.servers[id].region != ""
    }

    method AutoQuarantine() returns (regions: seq<Region>)
      requires Sound()
      modifies quarantine
      ensures Sound()
      ensures Quarantined() == old(Quarantined()) + Elems(regions) && NoDup(regions)
      ensures forall r :: r in regions <==> quarantine != null && r !in old(Quarantined()) && Unstable(cluster.servers, r, 30.0)
      ensures old(RegionsNamed()) ==> RegionsNamed()
    {
      if quarantine == null { return []; }
      regions := quarantine.CheckAndAutoQuarantine(30.0);
      assert "" in regions ==> Unstable(cluster.servers, "", 30.0);
      assert "" in regions ==> exists id :: id in ServersIn(cluster.servers, "");
    }

    method MarkServersHealthy(ids: seq<ServerId>)
      requires cluster.Valid()
      modifies cluster
      ensures cluster.Valid() && OnlyStatuses(old(cluster.servers), cluster.servers)
      ensures forall id | id in ids && id in cluster.servers :: cluster.servers[id].status == Healthy
      ensures forall id | id !in ids && id in cluster.servers :: cluster.servers[id] == old(cluster.servers)[id]
    {
      ghost var before := cluster.servers;
      for i := 0 to |ids|
        invariant cluster.Valid() && OnlyStatuses(before, cluster.servers)
        invariant forall id | id in ids[..i] && id in cluster.servers :: cluster.servers[id].status == Healthy
        invariant forall id | id !in ids && id in cluster.servers :: cluster.servers[id] == before[id]
      {
        assert ids[..i + 1] == ids[..i] + [ids[i]];
        var _ := cluster.UpdateServerStatus(ids[i], Healthy);
      }
      assert ids[..|ids|] == ids;
    }

    // Which of the updated servers run the source version now.
    method OnSource(ids: seq<ServerId>, source: Version) returns (list: seq<ServerId>)
      ensures forall id :: id in list <==> id in ids && id in cluster.servers && cluster.servers[id].version == source
    {
      list := [];
      for i := 0 to |ids|
        invariant forall id :: id in list <==> id in ids[..i] && id in cluster.servers && cluster.servers[id].version == source
      {
        assert ids[..i + 1] == ids[..i] + [ids[i]];
        var server := cluster.GetServer(ids[i]);
        if server.Some? && server.value.version == source {
          list := list + [ids[i]];
        }
      }
      assert ids[..|ids|] == ids;
    }

    method RollBackEach(ids: seq<ServerId>) returns (rolledBack: seq<ServerId>, success: bool)
      requires cluster.Valid()
      modifies cluster
      ensures cluster.Valid() && cluster.servers == Recovery.RevertAll(old(cluster.servers), Elems(ids))
      ensures (forall id | id in ids :: id in old(cluster.servers) && old(cluster.servers)[id].previous.Some?) ==>
                success && rolledBack == ids
    {
      ghost var before := cluster.servers;
      rolledBack, success := [], true;
      Recovery.RevertMore(before, {}, {});
      for i := 0 to |ids|
        invariant cluster.Valid() && cluster.servers == Recovery.RevertAll(before, Elems(ids[..i]))
        invariant (forall id | id in ids :: id in before && before[id].previous.Some?) ==> success && rolledBack == ids[..i]
      {
        assert ids[..i + 1] == ids[..i] + [ids[i]];
        AppendOne(ids[..i], ids[i]);
        Recovery.RevertMore(before, Elems(ids[..i]), {ids[i]});
        Recovery.RevertOne(cluster.servers, ids[i]);
        var ok := cluster.RollbackServer(ids[i]);
        if ok { rolledBack := rolledBack + [ids[i]]; } else { success := false; }
      }
      assert ids[..|ids|] == ids;
    }

    // With a quarantine system: a recovery plan, for a quarantined region if there
    // is one. Without: one rollback after the other.
    method RollbackUpdatedServers(deploymentId: string, target: Version, source: Version, total: nat, ids: seq<ServerId>)
      returns (rolledBack: seq<ServerId>, success: bool, ghost records: seq<Event>)
      requires Valid()
      modifies cluster, quarantine, logger
      ensures Valid()
      ensures "" !in old(Quarantined()) ==> cluster.servers == Recovery.RevertAll(old(cluster.servers), Elems(ids))
      ensures logger.events == old(logger.events) + records && AllAside(records, deploymentId)
      ensures if quarantine == null then records == []
              else |records| == 2 && records[0].body == RecoveryPlanExecute && records[1].body == RecoveryPlanComplete
      ensures Quarantined() == old(Quarantined())
      ensures "" !in old(Quarantined()) && (forall id | id in ids :: id in old(cluster.servers) && old(cluster.servers)[id].previous.Some?) ==>
                success && forall id | id in ids && cluster.servers[id].version == source :: id in rolledBack
    {
      records := [];
      if quarantine == null {
        rolledBack, success := RollBackEach(ids);
      } else {
        rolledBack, success, records := RollBackByPlan(deploymentId, target, source, total, ids);
      }
    }

    // A region without a name is no region to a plan, so nothing is rolled back then.
    method PlanFor(updated: set<ServerId>) returns (plan: Recovery.RecoveryPlan, ghost covered: set<ServerId>)
      requires quarantine != null
      ensures fresh(plan) && plan.current == 0 && Recovery.KeepsTo(plan.steps, quarantine.ActiveRegions())
      ensures "" !in quarantine.ActiveRegions() ==>
                Recovery.RollsBackOnce(plan.steps, covered) && updated * cluster.servers.Keys <= covered <= updated
    {
      var engine := new Recovery.RecoveryPlanningEngine(cluster, quarantine);
      var quarantined := quarantine.ActiveRegions();
      if quarantined == {} {
        var generated := engine.GeneratePlan(updated, Recovery.StagedRecovery, None);
        plan, covered := generated.value, updated;
      } else {
        var r :| r in quarantined;
        var generated := engine.GeneratePlan(updated, Recovery.RegionQuarantine, Some(r));
        plan, covered := generated.value, updated * cluster.servers.Keys;
      }
    }

    // A plan without an approval hook runs to its end.
    method RunPlan(plan: Recovery.RecoveryPlan, ds: DeploymentState, ghost covered: set<ServerId>) returns (success: bool)
      requires quarantine != null && cluster.Valid() && plan.current == 0
      modifies plan, cluster, quarantine, ds
      ensures cluster.Valid() && success
      ensures Recovery.RollsBackOnce(plan.steps, covered) && old(ds.updated) * old(cluster.servers).Keys <= covered <= old(ds.updated) ==>
                cluster.servers == Recovery.RevertAll(old(cluster.servers), old(ds.updated))
      ensures Recovery.KeepsTo(plan.steps, old(quarantine.ActiveRegions())) ==> quarantine.ActiveRegions() == old(quarantine.ActiveRegions())
    {
      var engine := new Recovery.RecoveryPlanningEngine(cluster, quarantine);
      ghost var world := engine.Worldly(ds);
      success := engine.ExecuteRecoveryPlan(plan, ds, i => true);
      Recovery.ApprovedRunsOn(plan.steps, 0, i => true);
      assert plan.steps[0..|plan.steps|] == plan.steps;
      if Recovery.RollsBackOnce(plan.steps, covered) && world.updated * world.servers.Keys <= covered <= world.updated {
        Recovery.PlanRevertsUpdated(world, plan.steps, covered);
      }
      if Recovery.KeepsTo(plan.steps, world.active) {
        Recovery.DoStepsKeepTo(world, plan.steps);
      }
    }

    method RollBackByPlan(deploymentId: string, target: Version, source: Version, total: nat, ids: seq<ServerId>)
      returns (rolledBack: seq<ServerId>, success: bool, ghost records: seq<Event>)
      requires Valid() && quarantine != null
      modifies cluster, quarantine, logger
      ensures Valid()
      ensures "" !in old(quarantine.ActiveRegions()) ==> cluster.servers == Recovery.RevertAll(old(cluster.servers), Elems(ids))
      ensures logger.events == old(logger.events) + records && AllAside(records, deploymentId)
      ensures |records| == 2 && records[0].body == RecoveryPlanExecute && records[1].body == RecoveryPlanComplete
      ensures quarantine.ActiveRegions() == old(quarantine.ActiveRegions())
      ensures success
      ensures forall id :: id in rolledBack <==> id in ids && id in cluster.servers && cluster.servers[id].version == source
    {
      var updated := set id | id in ids;
      assert updated == Elems(ids);
      var ds := new DeploymentState(deploymentId, target, source, total, updated, cluster.servers.Keys - updated, RollingBack);
      ghost var covered: set<ServerId>;
      var plan: Recovery.RecoveryPlan;
      plan, covered := PlanFor(updated);
      ghost var first, last: Event;
      first := LogAside(deploymentId, RecoveryPlanExecute);
      success := RunPlan(plan, ds, covered);
      rolledBack := OnSource(ids, source);
      last := LogAside(deploymentId, RecoveryPlanComplete);
      records := [first, last];
      BothAside(first, last, deploymentId);
    }

    // _record_event_sync
    method LogAside(deploymentId: string, body: Body) returns (ghost e: Event)
      requires logger.Valid() && Shuffle.Inert(body)
      modifies logger
      ensures logger.Valid() && logger.events == old(logger.events) + [e]
      ensures AllAside([e], deploymentId) && e.body == body
    {
      var _ := logger.Log(deploymentId, body, "");
      e := Last(logger.events);
    }
  }
}
