/** Recovery plans and their resumable execution (resilience/recovery.py). */
module Recovery {
  import opened Base
  import opened Events
  import opened Models
  import opened Cluster
  import opened Deployment
  import opened Quarantine

  datatype Strategy = PartialRollback | StagedRecovery | RegionQuarantine | SafeResume | Unsupported(name: string)

  datatype PlanStep =
    | RollbackOne(server: ServerId)
    | RollbackBatch(batch: seq<ServerId>)
    | QuarantineStep(region: Region)
    | ReleaseStep(region: Region)
    | ResumeStep

  datatype PlanStatus = PlanPending | PlanExecuting | PlanCompleted | PlanFailed

  const BATCH_SIZE := 2

  class RecoveryPlan {
    const strategy: Strategy
    const steps: seq<PlanStep>
    var current: nat
    var status: PlanStatus

    constructor (strategy: Strategy, steps: seq<PlanStep>)
      ensures this.strategy == strategy && this.steps == steps && current == 0 && status == PlanPending
    {
      this.strategy, this.steps, this.current, this.status := strategy, steps, 0, PlanPending;
    }
  }

  // ---------- What steps do ----------

  // Everything that a step may change.
  datatype World = World(servers: Servers, active: set<Region>, updated: set<ServerId>, status: DeploymentStatus)

  function RevertAll(servers: Servers, ids: set<ServerId>): Servers {
    map id | id in servers :: if id in ids then Reverted(servers[id]) else servers[id]
  }

  function DoStep(w: World, step: PlanStep): World {
    match step
    case RollbackOne(id) => w.(servers := RevertAll(w.servers, {id}), updated := w.updated - {id})
    case RollbackBatch(ids) =>
      var batch := set id | id in ids;
      w.(servers := RevertAll(w.servers, batch), updated := w.updated - batch)
    case QuarantineStep(region) => w.(active := w.active + {region})
    case ReleaseStep(region) => w.(active := w.active - {region})
    case ResumeStep => w.(status := InProgress)
  }

  function DoSteps(w: World, steps: seq<PlanStep>): World {
    if steps == [] then w else DoStep(DoSteps(w, Init(steps)), Last(steps))
  }

  // The servers that a list of steps rolls back.
  function Targets(steps: seq<PlanStep>): seq<ServerId> {
    if steps == [] then [] else
    Targets(Init(steps)) + match Last(steps)
      case RollbackOne(id) => [id]
      case RollbackBatch(ids) => ids
      case _ => []
  }

  // Rolling back is idempotent, so the servers reverted are just those targeted.
  lemma {:induction false} DoStepsReverts(w: World, steps: seq<PlanStep>)
    ensures DoSteps(w, steps).servers == RevertAll(w.servers, Elems(Targets(steps)))
    ensures DoSteps(w, steps).updated == w.updated - Elems(Targets(steps))
  {
    if steps == [] {
      assert Elems(Targets(steps)) == {};
      assert RevertAll(w.servers, {}) == w.servers;
    } else {
      DoStepsReverts(w, Init(steps));
      var before := Elems(Targets(Init(steps)));
      var more := match Last(steps) case RollbackOne(id) => [id] case RollbackBatch(ids) => ids case _ => [];
      ElemsConcat(Targets(Init(steps)), more);
      RevertMore(w.servers, before, Elems(more));
      match Last(steps) {
        case RollbackOne(id) => assert Elems(more) == {id};
        case RollbackBatch(ids) => assert Elems(more) == set id | id in ids;
        case _ => assert Elems(more) == {};
      }
    }
  }

  lemma RevertMore(servers: Servers, a: set<ServerId>, b: set<ServerId>)
    ensures RevertAll(RevertAll(servers, a), b) == RevertAll(servers, a + b)
    ensures RevertAll(servers, {}) == servers
  {
    forall id | id in servers ensures Reverted(Reverted(servers[id])) == Reverted(servers[id]) {
      RollbacksCollapse(servers[id], 2);
      assert RollBackTimes(servers[id], 1) == Reverted(RollBackTimes(servers[id], 0));
    }
  }

  lemma {:induction false} DoStepsSplit(w: World, a: seq<PlanStep>, b: seq<PlanStep>)
    ensures DoSteps(DoSteps(w, a), b) == DoSteps(w, a + b)
  {
    if b == [] {
      assert a + b == a;
    } else {
      DoStepsSplit(w, a, Init(b));
      assert Init(a + b) == a + Init(b);
    }
  }

  // Batches, and quarantines of regions that are quarantined anyway.
  ghost predicate KeepsTo(steps: seq<PlanStep>, active: set<Region>) {
    forall s | s in steps :: s.RollbackBatch? || (s.QuarantineStep? && s.region in active)
  }

  lemma {:induction false} DoStepsKeepTo(w: World, steps: seq<PlanStep>)
    requires KeepsTo(steps, w.active)
    ensures DoSteps(w, steps).active == w.active
  {
    if steps != [] {
      SplitLast(steps);
      assert forall s | s in Init(steps) :: s in steps;
      DoStepsKeepTo(w, Init(steps));
      assert Last(steps) in steps;
    }
  }

  // ---------- Generating plans ----------

  // Each named server is rolled back by exactly one step.
  ghost predicate RollsBackOnce(steps: seq<PlanStep>, ids: set<ServerId>) {
    NoDup(Targets(steps)) && Elems(Targets(steps)) == ids
  }

  ghost predicate SmallBatches(steps: seq<PlanStep>) {
    forall s | s in steps :: s.RollbackBatch? && 0 < |s.batch| <= BATCH_SIZE
  }

  method ListOf(ids: set<ServerId>) returns (list: seq<ServerId>)
    ensures NoDup(list) && Elems(list) == ids
  {
    list := [];
    var todo := ids;
    while todo != {}
      invariant todo <= ids && NoDup(list) && Elems(list) == ids - todo
    {
      var id :| id in todo;
      todo := todo - {id};
      assert Init(list + [id]) == list;
      ElemsConcat(list, [id]);
      list := list + [id];
    }
  }

  lemma TargetsAppend(steps: seq<PlanStep>, ids: seq<ServerId>)
    ensures Targets(steps + [RollbackBatch(ids)]) == Targets(steps) + ids
  {
    assert Init(steps + [RollbackBatch(ids)]) == steps;
  }

  lemma AddBatch(steps: seq<PlanStep>, list: seq<ServerId>, i: nat, j: nat)
    requires i <= j <= |list| && Targets(steps) == list[..i]
    ensures Targets(steps + [RollbackBatch(list[i..j])]) == list[..j]
  {
    TargetsAppend(steps, list[i..j]);
  }

  method StagedSteps(updated: set<ServerId>) returns (steps: seq<PlanStep>)
    ensures RollsBackOnce(steps, updated) && SmallBatches(steps)
  {
    var list := ListOf(updated);
    steps := [];
    var i := 0;
    while i < |list|
      invariant 0 <= i && (i <= |list| || i == |list| + 1)
      invariant Targets(steps) == list[..if i <= |list| then i else |list|]
      invariant SmallBatches(steps)
    {
      var end := if i + BATCH_SIZE <= |list| then i + BATCH_SIZE else |list|;
      AddBatch(steps, list, i, end);
      steps := steps + [RollbackBatch(list[i..end])];
      i := i + BATCH_SIZE;
    }
    assert list[..|list|] == list;
  }

  // The steps of a plan for a region: it is quarantined, then its servers are rolled
  // back, then the others.
  function StepsFor(region: Region, inside: seq<ServerId>, outside: seq<ServerId>): seq<PlanStep> {
    [QuarantineStep(region), RollbackBatch(inside)] + if outside == [] then [] else [RollbackBatch(outside)]
  }

  lemma StepsForFacts(region: Region, inside: seq<ServerId>, outside: seq<ServerId>)
    ensures var steps := StepsFor(region, inside, outside);
            && |steps| >= 2 && steps[0] == QuarantineStep(region) && steps[1] == RollbackBatch(inside)
            && (forall r :: QuarantineStep(r) in steps <==> r == region)
            && (forall s | s in steps :: s.QuarantineStep? || s.RollbackBatch?)
            && Targets(steps) == inside + outside
  {
    var steps := StepsFor(region, inside, outside);
    assert QuarantineStep(region) == steps[0];
    RegionTargets(region, inside, outside);
    assert outside == [] ==> steps == [QuarantineStep(region)] + [RollbackBatch(inside)];
    assert outside != [] ==> steps == [QuarantineStep(region)] + [RollbackBatch(inside)] + [RollbackBatch(outside)];
  }

  method RegionSteps(servers: Servers, updated: set<ServerId>, region: Region) returns (steps: seq<PlanStep>)
    ensures RollsBackOnce(steps, updated * servers.Keys)
    ensures |steps| >= 2 && steps[0] == QuarantineStep(region)
    ensures steps[1].RollbackBatch? && Elems(steps[1].batch) == set id | id in updated && id in servers && servers[id].region == region
    ensures forall r :: QuarantineStep(r) in steps <==> r == region
    ensures forall s | s in steps :: s.QuarantineStep? || s.RollbackBatch?
  {
    var inside := ListOf(set id | id in servers && servers[id].region == region && id in updated);
    var outside := ListOf(set id | id in servers && servers[id].region != region && id in updated);
    steps := [QuarantineStep(region), RollbackBatch(inside)];
    if outside != [] {
      steps := steps + [RollbackBatch(outside)];
    }
    assert steps == StepsFor(region, inside, outside);
    StepsForFacts(region, inside, outside);
    InsideOutside(servers, updated, region, inside, outside);
  }

  lemma RegionTargets(region: Region, inside: seq<ServerId>, outside: seq<ServerId>)
    ensures Targets([QuarantineStep(region)] + [RollbackBatch(inside)] + [RollbackBatch(outside)]) == inside + outside
    ensures Targets([QuarantineStep(region)] + [RollbackBatch(inside)]) == inside
  {
    var first := [QuarantineStep(region)];
    assert Init(first) == [] && Targets(first) == [];
    TargetsAppend(first, inside);
    TargetsAppend(first + [RollbackBatch(inside)], outside);
    assert [] + inside == inside;
  }

  lemma InsideOutside(servers: Servers, updated: set<ServerId>, region: Region, inside: seq<ServerId>, outside: seq<ServerId>)
    requires NoDup(inside) && Elems(inside) == set id | id in servers && servers[id].region == region && id in updated
    requires NoDup(outside) && Elems(outside) == set id | id in servers && servers[id].region != region && id in updated
    ensures NoDup(inside + outside) && Elems(inside + outside) == updated * servers.Keys
    ensures outside == [] ==> inside + outside == inside
  {
    NoDupConcat(inside, outside);
    ElemsConcat(inside, outside);
  }

  method PartialSteps(servers: Servers, updated: set<ServerId>) returns (steps: seq<PlanStep>)
    ensures RollsBackOnce(steps, set id | id in servers && id in updated && (servers[id].status == Degraded || servers[id].status == Failing))
  {
    var list := ListOf(set id | id in servers && id in updated && (servers[id].status == Degraded || servers[id].status == Failing));
    steps := [];
    for i := 0 to |list|
      invariant Targets(steps) == list[..i]
    {
      assert Init(steps + [RollbackOne(list[i])]) == steps;
      steps := steps + [RollbackOne(list[i])];
    }
    assert list[..|list|] == list;
  }

  class RecoveryPlanningEngine {
    const cluster: ClusterState
    const quarantine: RegionQuarantineSystem

    constructor (cluster: ClusterState, quarantine: RegionQuarantineSystem)
      ensures this.cluster == cluster && this.quarantine == quarantine
    {
      this.cluster, this.quarantine := cluster, quarantine;
    }

    // An absent region is None; the source also treats an empty name as absent.
    method GeneratePlan(updated: set<ServerId>, strategy: Strategy, region: Option<Region>)
      returns (plan: Result<RecoveryPlan, string>)
      ensures plan.Ok? <==> !strategy.Unsupported?
      ensures plan.Ok? ==> plan.value.strategy == strategy && plan.value.current == 0 && plan.value.status == PlanPending && fresh(plan.value)
      ensures strategy == StagedRecovery ==> RollsBackOnce(plan.value.steps, updated) && SmallBatches(plan.value.steps)
      ensures strategy == RegionQuarantine && region != None && region != Some("") ==>
                && RollsBackOnce(plan.value.steps, updated * cluster.servers.Keys)
                && plan.value.steps != [] && plan.value.steps[0] == QuarantineStep(region.value)
                && (forall r :: QuarantineStep(r) in plan.value.steps <==> r == region.value)
                && KeepsTo(plan.value.steps, {region.value})
      ensures strategy == RegionQuarantine && (region == None || region == Some("")) ==> plan.value.steps == []
      ensures strategy == SafeResume ==>
                plan.value.steps == if region == None || region == Some("") then [ResumeStep] else [ReleaseStep(region.value), ResumeStep]
      ensures strategy == PartialRollback ==>
                RollsBackOnce(plan.value.steps, set id | id in cluster.servers && id in updated
                  && (cluster.servers[id].status == Degraded || cluster.servers[id].status == Failing))
    {
      var steps: seq<PlanStep> := [];
      match strategy {
        case Unsupported(name) => return Err("Unsupported recovery strategy");
        case PartialRollback => steps := PartialSteps(cluster.servers, updated);
        case StagedRecovery => steps := StagedSteps(updated);
        case RegionQuarantine =>
          if region != None && region.value != "" {
            steps := RegionSteps(cluster.servers, updated, region.value);
          }
        case SafeResume =>
          steps := if region != None && region.value != "" then [ReleaseStep(region.value), ResumeStep] else [ResumeStep];
      }
      var p := new RecoveryPlan(strategy, steps);
      plan := Ok(p);
    }

    ghost function Worldly(deployment: DeploymentState): World
      reads cluster, quarantine, deployment
    {
      World(cluster.servers, quarantine.ActiveRegions(), deployment.updated, deployment.status)
    }

    method RollBackBatch(deployment: DeploymentState, ids: seq<ServerId>)
      requires cluster.Valid()
      modifies cluster, deployment`updated
      ensures cluster.Valid()
      ensures cluster.servers == RevertAll(old(cluster.servers), Elems(ids))
      ensures deployment.updated == old(deployment.updated) - Elems(ids)
    {
      ghost var before := cluster.servers;
      RevertMore(before, {}, {});
      for i := 0 to |ids|
        invariant cluster.Valid()
        invariant cluster.servers == RevertAll(before, Elems(ids[..i]))
        invariant deployment.updated == old(deployment.updated) - Elems(ids[..i])
      {
        assert ids[..i + 1] == ids[..i] + [ids[i]];
        ElemsConcat(ids[..i], [ids[i]]);
        assert Elems([ids[i]]) == {ids[i]};
        RevertMore(before, Elems(ids[..i]), {ids[i]});
        RevertOne(cluster.servers, ids[i]);
        var _ := cluster.RollbackServer(ids[i]);
        deployment.updated := deployment.updated - {ids[i]};
      }
      assert ids[..|ids|] == ids;
    }

    method ExecuteStep(deployment: DeploymentState, step: PlanStep)
      requires cluster.Valid()
      modifies cluster, quarantine`quarantines, deployment`updated, deployment`status
      ensures cluster.Valid()
      ensures Worldly(deployment) == DoStep(old(Worldly(deployment)), step)
    {
      match step {
        case RollbackOne(id) =>
          RevertOne(cluster.servers, id);
          var _ := cluster.RollbackServer(id);
          deployment.updated := deployment.updated - {id};
        case RollbackBatch(ids) =>
          assert Elems(ids) == set id | id in ids;
          RollBackBatch(deployment, ids);
        case QuarantineStep(region) =>
          quarantine.QuarantineRegion(region);
        case ReleaseStep(region) =>
          var _ := quarantine.ReleaseRegion(region);
        case ResumeStep =>
          deployment.status := InProgress;
      }
    }

    // Runs the steps from where the plan stands until one is not approved.
    method ExecuteRecoveryPlan(plan: RecoveryPlan, deployment: DeploymentState, approve: nat -> bool) returns (ok: bool)
      requires cluster.Valid() && plan.current <= |plan.steps|
      modifies plan, cluster, quarantine`quarantines, deployment`updated, deployment`status
      ensures cluster.Valid() && plan.current == StopsAt(plan.steps, old(plan.current), approve)
      ensures Worldly(deployment) == DoSteps(old(Worldly(deployment)), plan.steps[old(plan.current)..plan.current])
      ensures ok <==> plan.current == |plan.steps|
      ensures plan.status == if ok then PlanCompleted else PlanFailed
    {
      ghost var start, world := plan.current, Worldly(deployment);
      plan.status := PlanExecuting;
      while plan.current < |plan.steps|
        invariant cluster.Valid() && start <= plan.current <= |plan.steps|
        invariant StopsAt(plan.steps, start, approve) == StopsAt(plan.steps, plan.current, approve)
        invariant Worldly(deployment) == DoSteps(world, plan.steps[start..plan.current])
        decreases |plan.steps| - plan.current
      {
        if !approve(plan.current) {
          plan.status := PlanFailed;
          return false;
        }
        ghost var i := plan.current;
        assert Init(plan.steps[start..i + 1]) == plan.steps[start..i];
        ExecuteStep(deployment, plan.steps[plan.current]);
        plan.current := plan.current + 1;
      }
      plan.status := PlanCompleted;
      ok := true;
    }
  }

  lemma RevertOne(servers: Servers, id: ServerId)
    ensures RevertAll(servers, {id}) == if id in servers then servers[id := Reverted(servers[id])] else servers
  {
  }

  // Where an attempt ends: at the first step that is not approved.
  ghost function StopsAt(steps: seq<PlanStep>, current: nat, approve: nat -> bool): (stop: nat)
    requires current <= |steps|
    ensures current <= stop <= |steps|
    ensures stop < |steps| ==> !approve(stop)
    ensures forall i | current <= i < stop :: approve(i)
    decreases |steps| - current
  {
    if current == |steps| || !approve(current) then current else StopsAt(steps, current + 1, approve)
  }

  // ---------- Resuming ----------

  // The world, and the plan's position, after a series of attempts.
  ghost function AfterAttempts(w: World, steps: seq<PlanStep>, attempts: seq<nat -> bool>): (World, nat)
    ensures AfterAttempts(w, steps, attempts).1 <= |steps|
  {
    if attempts == [] then (w, 0) else
    var (mid, current) := AfterAttempts(w, steps, Init(attempts));
    var stop := StopsAt(steps, current, Last(attempts));
    (DoSteps(mid, steps[current..stop]), stop)
  }

  lemma {:induction false} AttemptsAdvance(w: World, steps: seq<PlanStep>, attempts: seq<nat -> bool>)
    ensures var (after, current) := AfterAttempts(w, steps, attempts);
            after == DoSteps(w, steps[..current])
  {
    if attempts != [] {
      AttemptsAdvance(w, steps, Init(attempts));
      var (mid, current) := AfterAttempts(w, steps, Init(attempts));
      var stop := StopsAt(steps, current, Last(attempts));
      DoStepsSplit(w, steps[..current], steps[current..stop]);
      assert steps[..current] + steps[current..stop] == steps[..stop];
    }
  }

  lemma {:induction false} ApprovedRunsOn(steps: seq<PlanStep>, current: nat, approve: nat -> bool)
    requires current <= |steps| && forall i: nat :: approve(i)
    ensures StopsAt(steps, current, approve) == |steps|
    decreases |steps| - current
  {
    if current < |steps| {
      ApprovedRunsOn(steps, current + 1, approve);
    }
  }

  // Any series of halted attempts followed by an approved one leaves the cluster,
  // the quarantines and the deployment as one uninterrupted execution would.
  lemma ResumedAsUninterrupted(w: World, steps: seq<PlanStep>, attempts: seq<nat -> bool>, approve: nat -> bool)
    requires forall i: nat :: approve(i)
    ensures AfterAttempts(w, steps, attempts + [approve]) == (DoSteps(w, steps), |steps|)
    ensures AfterAttempts(w, steps, [approve]) == (DoSteps(w, steps), |steps|)
  {
    assert Init(attempts + [approve]) == attempts;
    AttemptsAdvance(w, steps, attempts + [approve]);
    AttemptsAdvance(w, steps, [approve]);
    ApprovedRunsOn(steps, AfterAttempts(w, steps, attempts).1, approve);
    ApprovedRunsOn(steps, 0, approve);
    assert Init([approve]) == [];
    assert steps[..|steps|] == steps;
  }

  // Resuming releases the region, if there is one, and touches no server.
  lemma ResumeDoes(w: World, region: Region)
    ensures DoSteps(w, [ResumeStep]) == w.(status := InProgress)
    ensures DoSteps(w, [ReleaseStep(region), ResumeStep]) == w.(active := w.active - {region}, status := InProgress)
  {
    assert Init([ResumeStep]) == [];
    assert Init([ReleaseStep(region), ResumeStep]) == [ReleaseStep(region)] && Init([ReleaseStep(region)]) == [];
  }

  // A staged plan rolls back all updated servers, and changes nothing else.
  lemma StagedDoes(w: World, steps: seq<PlanStep>)
    requires RollsBackOnce(steps, w.updated) && SmallBatches(steps)
    ensures var after := DoSteps(w, steps);
            && after.servers.Keys == w.servers.Keys && after.updated == {} && after.active == w.active && after.status == w.status
            && forall id | id in w.servers ::
                 after.servers[id] == if id in w.updated then Reverted(w.servers[id]) else w.servers[id]
  {
    DoStepsReverts(w, steps);
    DoStepsKeepTo(w, steps);
    KeepsStatus(w, steps);
  }

  lemma {:induction false} KeepsStatus(w: World, steps: seq<PlanStep>)
    requires forall s | s in steps :: !s.ResumeStep?
    ensures DoSteps(w, steps).status == w.status
  {
    if steps != [] {
      SplitLast(steps);
      assert forall s | s in Init(steps) :: s in steps;
      KeepsStatus(w, Init(steps));
      assert Last(steps) in steps;
    }
  }

  // A plan for a region quarantines it besides those that are quarantined.
  lemma RegionDoes(w: World, steps: seq<PlanStep>, region: Region)
    requires KeepsTo(steps, {region}) && QuarantineStep(region) in steps
    ensures DoSteps(w, steps).active == w.active + {region} && DoSteps(w, steps).status == w.status
  {
    RegionQuarantined(w, steps, region);
    KeepsStatus(w, steps);
  }

  lemma {:induction false} RegionQuarantined(w: World, steps: seq<PlanStep>, region: Region)
    requires KeepsTo(steps, {region})
    ensures DoSteps(w, steps).active == if QuarantineStep(region) in steps then w.active + {region} else w.active
  {
    if steps != [] {
      SplitLast(steps);
      assert forall s | s in Init(steps) :: s in steps;
      RegionQuarantined(w, Init(steps), region);
      assert Last(steps) in steps;
    }
  }

  // A staged plan, or one for a region, undoes the deployment of every updated
  // server that the cluster still has.
  lemma PlanRevertsUpdated(w: World, steps: seq<PlanStep>, ids: set<ServerId>)
    requires RollsBackOnce(steps, ids) && w.updated * w.servers.Keys <= ids <= w.updated
    ensures DoSteps(w, steps).servers == RevertAll(w.servers, w.updated)
  {
    DoStepsReverts(w, steps);
  }
}
