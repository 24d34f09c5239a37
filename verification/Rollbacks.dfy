/**
 * Manual rollback of a deployment (deploy/rollback.py): by one caller, and by any
 * number of concurrent callers whose reads and rollbacks interleave.
 */
module Rollbacks {
  import opened Base
  import opened Events
  import opened Models
  import opened Cluster
  import opened Deployment
  import RunFacts

  // ---------- One caller ----------

  datatype Mismatch = NotFound | WrongVersion(found: Version)

  // Reports each updated server that is missing or not on the target version.
  method ValidateRollbackConsistency(cluster: ClusterState, deployment: DeploymentState) returns (errors: map<ServerId, Mismatch>)
    ensures forall id :: id in errors <==>
              id in deployment.updated && (id !in cluster.servers || cluster.servers[id].version != deployment.target)
    ensures forall id | id in errors ::
              errors[id] == if id in cluster.servers then WrongVersion(cluster.servers[id].version) else NotFound
  {
    errors := map[];
    var todo := deployment.updated;
    while todo != {}
      invariant todo <= deployment.updated
      invariant forall id :: id in errors <==>
                  id in deployment.updated - todo && (id !in cluster.servers || cluster.servers[id].version != deployment.target)
      invariant forall id | id in errors ::
                  errors[id] == if id in cluster.servers then WrongVersion(cluster.servers[id].version) else NotFound
    {
      var id :| id in todo;
      todo := todo - {id};
      var server := cluster.GetServer(id);
      if server == None {
        errors := errors[id := NotFound];
      } else if server.value.version != deployment.target {
        errors := errors[id := WrongVersion(server.value.version)];
      }
    }
  }

  // The loop skips servers that are missing or already on the source version.
  function Undone(servers: Servers, ids: set<ServerId>, source: Version): Servers {
    map id | id in servers :: if id in ids && servers[id].version != source then Reverted(servers[id]) else servers[id]
  }

  // Every server that needs it can be rolled back.
  ghost predicate AllRevertible(servers: Servers, ids: set<ServerId>, source: Version, force: bool) {
    forall id | id in ids ::
      if id in servers then servers[id].version != source ==> servers[id].previous.Some? else force
  }

  // The servers that the caller is told were rolled back.
  function RolledBackIds(servers: Servers, ids: set<ServerId>, source: Version): set<ServerId> {
    set id | id in ids && id in servers && (servers[id].version == source || servers[id].previous.Some?)
  }

  lemma UndoOne(servers: Servers, ids: set<ServerId>, id: ServerId, source: Version, force: bool)
    requires id !in ids
    ensures id in servers ==> Undone(servers, ids, source)[id] == servers[id]
    ensures Undone(servers, ids + {id}, source) ==
              if id in servers && servers[id].version != source then Undone(servers, ids, source)[id := Reverted(servers[id])]
              else Undone(servers, ids, source)
    ensures RolledBackIds(servers, ids + {id}, source) == RolledBackIds(servers, ids, source) + RolledBackIds(servers, {id}, source)
    ensures AllRevertible(servers, ids + {id}, source, force) <==>
              AllRevertible(servers, ids, source, force) && AllRevertible(servers, {id}, source, force)
    ensures id !in RolledBackIds(servers, ids, source)
  {
  }

  // Rolls one server back, unless it is missing or already on the source version.
  method UndoServer(cluster: ClusterState, id: ServerId, source: Version, force: bool) returns (listed: bool, success: bool)
    requires cluster.Valid()
    modifies cluster
    ensures cluster.Valid()
    ensures cluster.servers == if id in old(cluster.servers) && old(cluster.servers)[id].version != source
                               then old(cluster.servers)[id := Reverted(old(cluster.servers)[id])] else old(cluster.servers)
    ensures RolledBackIds(old(cluster.servers), {id}, source) == if listed then {id} else {}
    ensures success <==> AllRevertible(old(cluster.servers), {id}, source, force)
  {
    var server := cluster.GetServer(id);
    if server == None {
      return false, force;
    } else if server.value.version == source {
      return true, true;
    }
    var ok := cluster.RollbackServer(id);
    return ok, ok;
  }

  // The servers in `done` have been dealt with.
  ghost predicate Undoing(before: Servers, servers: Servers, done: set<ServerId>, source: Version, force: bool,
                          ids: seq<ServerId>, success: bool) {
    && servers == Undone(before, done, source)
    && Elems(ids) == RolledBackIds(before, done, source) && NoDup(ids)
    && (success <==> AllRevertible(before, done, source, force))
  }

  lemma UndoStep(before: Servers, servers: Servers, done: set<ServerId>, source: Version, force: bool,
                 ids: seq<ServerId>, success: bool, id: ServerId, after: Servers, listed: bool, ok: bool)
    requires id !in done && Undoing(before, servers, done, source, force, ids, success)
    requires after == if id in servers && servers[id].version != source then servers[id := Reverted(servers[id])] else servers
    requires RolledBackIds(servers, {id}, source) == if listed then {id} else {}
    requires ok <==> AllRevertible(servers, {id}, source, force)
    ensures Undoing(before, after, done + {id}, source, force, if listed then ids + [id] else ids, success && ok)
  {
    UndoOne(before, done, id, source, force);
    AppendOne(ids, id);
    assert RolledBackIds(servers, {id}, source) == RolledBackIds(before, {id}, source);
    assert AllRevertible(servers, {id}, source, force) <==> AllRevertible(before, {id}, source, force);
  }

  method UndoAll(cluster: ClusterState, deployment: DeploymentState, force: bool) returns (ids: seq<ServerId>, success: bool)
    requires cluster.Valid()
    modifies cluster
    ensures cluster.Valid()
    ensures Undoing(old(cluster.servers), cluster.servers, deployment.updated, deployment.source, force, ids, success)
  {
    ghost var before, done := cluster.servers, {};
    var todo := deployment.updated;
    ids, success := [], true;
    assert Undone(before, {}, deployment.source) == before;
    while todo != {}
      invariant cluster.Valid() && done == deployment.updated - todo && todo <= deployment.updated
      invariant Undoing(before, cluster.servers, done, deployment.source, force, ids, success)
      decreases todo
    {
      ghost var now := cluster.servers;
      var id :| id in todo;
      todo := todo - {id};
      var listed, ok := UndoServer(cluster, id, deployment.source, force);
      UndoStep(before, now, done, deployment.source, force, ids, success, id, cluster.servers, listed, ok);
      done := done + {id};
      if listed { ids := ids + [id]; }
      if !ok { success := false; }
    }
    assert done == deployment.updated;
  }

  // Without force, one updated server that is missing or not on the target version
  // stops the rollback before it changes anything.
  method Rollback(cluster: ClusterState, deployment: DeploymentState, force: bool)
    returns (r: Result<seq<ServerId>, map<ServerId, Mismatch>>)
    requires cluster.Valid()
    modifies cluster, deployment`status
    ensures cluster.Valid()
    ensures r.Err? <==>
              !force && !forall id | id in deployment.updated ::
                          id in old(cluster.servers) && old(cluster.servers)[id].version == deployment.target
    ensures r.Err? ==>
              && cluster.servers == old(cluster.servers) && deployment.status == old(deployment.status)
              && (forall id :: id in r.error <==>
                    id in deployment.updated && (id !in cluster.servers || cluster.servers[id].version != deployment.target))
              && forall id | id in r.error ::
                   r.error[id] == if id in cluster.servers then WrongVersion(cluster.servers[id].version) else NotFound
    ensures r.Ok? ==>
              && cluster.servers.Keys == old(cluster.servers).Keys
              && (forall id | id in cluster.servers :: cluster.servers[id] ==
                    if id in deployment.updated && old(cluster.servers)[id].version != deployment.source
                    then Reverted(old(cluster.servers)[id]) else old(cluster.servers)[id])
              && (forall id :: id in r.value <==>
                    id in deployment.updated && id in cluster.servers &&
                    (old(cluster.servers)[id].version == deployment.source || old(cluster.servers)[id].previous.Some?))
              && (deployment.status == RolledBack || deployment.status == RollingBack)
              && (deployment.status == RolledBack <==> forall id | id in deployment.updated ::
                    if id in cluster.servers
                    then old(cluster.servers)[id].version == deployment.source || old(cluster.servers)[id].previous.Some?
                    else force)
  {
    var errors := ValidateRollbackConsistency(cluster, deployment);
    assert errors == map[] <==> forall id :: id !in errors;
    if errors != map[] && !force {
      return Err(errors);
    }
    deployment.MarkRollingBack();
    var ids, success := UndoAll(cluster, deployment, force);
    if success {
      deployment.MarkRolledBack();
    }
    r := Ok(ids);
    assert forall id :: id in ids <==> id in Elems(ids);
  }

  // ---------- Many callers ----------

  // One thread of a forced rollback. Its read of a server and its rollback of it
  // are separate atomic steps: between them it is `Holding` a decision that may be
  // out of date.
  datatype Thread =
    | Idle
    | Looping(todo: seq<ServerId>, ok: bool)
    | Holding(id: ServerId, rest: seq<ServerId>, ok: bool)
    | Done

  datatype System = System(servers: Servers, status: DeploymentStatus, threads: seq<Thread>)

  datatype Job = Job(updated: set<ServerId>, source: Version)

  // Thread `t` takes its next atomic step.
  ghost predicate StepOf(job: Job, s: System, s': System, t: nat) {
    && t < |s.threads|
    && match s.threads[t]
       case Idle =>
         && |s'.threads| == |s.threads| && s'.threads == s.threads[t := s'.threads[t]]
         && s'.threads[t].Looping? && s'.threads[t].ok && Elems(s'.threads[t].todo) == job.updated
         && s'.servers == s.servers && s'.status == RollingBack
       case Looping(todo, ok) =>
         if todo == [] then
           s' == s.(status := if ok then RolledBack else s.status, threads := s.threads[t := Done])
         else
           var id := todo[0];
           if id !in s.servers || s.servers[id].version == job.source
           then s' == s.(threads := s.threads[t := Looping(todo[1..], ok)])
           else s' == s.(threads := s.threads[t := Holding(id, todo[1..], ok)])
       case Holding(id, rest, ok) =>
         if id !in s.servers
         then s' == s.(threads := s.threads[t := Looping(rest, false)])
         else s' == s.(servers := s.servers[id := Reverted(s.servers[id])],
                       threads := s.threads[t := Looping(rest, ok && s.servers[id].previous.Some?)])
       case Done => false
  }

  ghost predicate Next(job: Job, s: System, s': System) {
    exists t :: StepOf(job, s, s', t)
  }

  // As a deployment leaves its servers: each last deployed over its own version
  // `before[id]`, and not looking as if it were back on the source version.
  ghost predicate FreshlyDeployed(job: Job, servers: Servers, before: map<ServerId, Version>) {
    forall id | id in job.updated && id in servers ::
      && id in before
      && servers[id].previous == Some(before[id])
      && servers[id].history != [] && Last(servers[id].history).action == Deploy
      && (servers[id].version == job.source ==> before[id] == job.source)
  }

  ghost predicate Initial(job: Job, s: System, before: map<ServerId, Version>) {
    FreshlyDeployed(job, s.servers, before) && forall t | t in s.threads :: t == Idle
  }

  ghost predicate IsRun(job: Job, run: seq<System>) {
    run != [] && forall i | 0 <= i < |run| - 1 :: Next(job, run[i], run[i + 1])
  }

  // ---------- What every step keeps ----------

  // Each server is as it was, or rolled back once.
  ghost predicate AtMostOnce(job: Job, start: Servers, servers: Servers) {
    && servers.Keys == start.Keys
    && forall id | id in servers ::
         servers[id] == start[id] || (id in job.updated && servers[id] == Reverted(start[id]))
  }

  ghost predicate Home(servers: Servers, before: map<ServerId, Version>, id: ServerId) {
    id in servers ==> id in before && servers[id].version == before[id]
  }

  // A thread is through with every updated server that it no longer has to visit.
  ghost predicate Through(job: Job, servers: Servers, before: map<ServerId, Version>, t: Thread) {
    match t
    case Idle => true
    case Looping(todo, ok) => ok && forall id | id in job.updated && id !in todo :: Home(servers, before, id)
    case Holding(id, rest, ok) =>
      ok && id in servers && id in job.updated && forall x | x in job.updated && x !in rest && x != id :: Home(servers, before, x)
    case Done => forall id | id in job.updated :: Home(servers, before, id)
  }

  ghost predicate OnlyUpdated(job: Job, t: Thread) {
    match t
    case Looping(todo, _) => Elems(todo) <= job.updated
    case Holding(id, rest, _) => id in job.updated && Elems(rest) <= job.updated
    case _ => true
  }

  ghost predicate AllThrough(job: Job, servers: Servers, before: map<ServerId, Version>, threads: seq<Thread>) {
    forall i | 0 <= i < |threads| :: Through(job, servers, before, threads[i]) && OnlyUpdated(job, threads[i])
  }

  // If some thread is done, the last write of the status was ROLLED_BACK, or
  // another thread will still write it.
  ghost predicate StatusPending(status: DeploymentStatus, threads: seq<Thread>) {
    Done in threads ==> status == RolledBack || exists t :: t in threads && (t.Looping? || t.Holding?)
  }

  ghost predicate Kept(job: Job, start: Servers, before: map<ServerId, Version>, s: System) {
    && AtMostOnce(job, start, s.servers)
    && AllThrough(job, s.servers, before, s.threads)
    && StatusPending(s.status, s.threads)
  }

  // However stale the decision, carrying it out brings the server home.
  lemma RevertHome(job: Job, start: Servers, before: map<ServerId, Version>, servers: Servers, id: ServerId)
    requires FreshlyDeployed(job, start, before) && AtMostOnce(job, start, servers)
    requires id in job.updated && id in servers
    ensures servers[id].previous.Some? && id in before
    ensures Reverted(servers[id]) == Reverted(start[id]) && Reverted(servers[id]).version == before[id]
  {
    assert id in start;
    assert !AlreadyRolledBack(start[id]);
    RollbacksCollapse(start[id], 2);
    assert RollBackTimes(start[id], 1) == Reverted(RollBackTimes(start[id], 0));
  }

  // Skipping a server that reads as being on the source version is right.
  lemma SkipHome(job: Job, start: Servers, before: map<ServerId, Version>, servers: Servers, id: ServerId)
    requires FreshlyDeployed(job, start, before) && AtMostOnce(job, start, servers)
    requires id in job.updated && (id in servers ==> servers[id].version == job.source)
    ensures Home(servers, before, id)
  {
    if id in servers {
      RevertHome(job, start, before, servers, id);
    }
  }

  lemma HomeStays(job: Job, start: Servers, before: map<ServerId, Version>, servers: Servers, id: ServerId, t: Thread)
    requires FreshlyDeployed(job, start, before) && AtMostOnce(job, start, servers)
    requires id in job.updated && id in servers && Through(job, servers, before, t)
    ensures Through(job, servers[id := Reverted(servers[id])], before, t)
  {
    RevertHome(job, start, before, servers, id);
    var servers' := servers[id := Reverted(servers[id])];
    forall x | Home(servers, before, x) ensures Home(servers', before, x) {}
  }

  lemma InitialKept(job: Job, s: System, before: map<ServerId, Version>)
    requires Initial(job, s, before)
    ensures Kept(job, s.servers, before, s)
  {
    assert forall i | 0 <= i < |s.threads| :: s.threads[i] in s.threads;
  }

  lemma ThreadsReplaced(job: Job, servers: Servers, before: map<ServerId, Version>, threads: seq<Thread>, t: nat, next: Thread)
    requires t < |threads| && AllThrough(job, servers, before, threads)
    requires Through(job, servers, before, next) && OnlyUpdated(job, next)
    ensures AllThrough(job, servers, before, threads[t := next])
  {
  }

  lemma StatusReplaced(status: DeploymentStatus, status': DeploymentStatus, threads: seq<Thread>, t: nat, next: Thread)
    requires t < |threads| && StatusPending(status, threads)
    requires (next.Looping? || next.Holding?) || (next == Done && status' == RolledBack)
    ensures StatusPending(status', threads[t := next])
  {
    assert threads[t := next][t] == next;
  }

  lemma StepKept(job: Job, start: Servers, before: map<ServerId, Version>, s: System, s': System, t: nat)
    requires FreshlyDeployed(job, start, before) && Kept(job, start, before, s) && StepOf(job, s, s', t)
    ensures Kept(job, start, before, s')
  {
    var next := s'.threads[t];
    assert Through(job, s.servers, before, s.threads[t]) && OnlyUpdated(job, s.threads[t]);
    match s.threads[t] {
      case Idle =>
        forall id | id in job.updated ensures id in next.todo { assert id in Elems(next.todo); }
        ThreadsReplaced(job, s.servers, before, s.threads, t, next);
      case Looping(todo, ok) =>
        if todo != [] {
          var id := todo[0];
          assert todo == [id] + todo[1..];
          ElemsConcat([id], todo[1..]);
          assert id in Elems(todo);
          if id !in s.servers || s.servers[id].version == job.source {
            SkipHome(job, start, before, s.servers, id);
          }
        }
        ThreadsReplaced(job, s.servers, before, s.threads, t, next);
      case Holding(id, rest, ok) =>
        RevertHome(job, start, before, s.servers, id);
        forall i | 0 <= i < |s.threads| ensures Through(job, s'.servers, before, s.threads[i]) && OnlyUpdated(job, s.threads[i]) {
          HomeStays(job, start, before, s.servers, id, s.threads[i]);
        }
        assert AllThrough(job, s'.servers, before, s.threads);
        ThreadsReplaced(job, s'.servers, before, s.threads, t, next);
    }
    StatusReplaced(s.status, s'.status, s.threads, t, next);
  }

  lemma {:induction false} RunKept(job: Job, run: seq<System>, before: map<ServerId, Version>, i: nat)
    requires IsRun(job, run) && Initial(job, run[0], before) && i < |run|
    ensures Kept(job, run[0].servers, before, run[i])
    ensures |run[i].threads| == |run[0].threads|
  {
    if i == 0 {
      InitialKept(job, run[0], before);
    } else {
      RunKept(job, run, before, i - 1);
      assert Next(job, run[i - 1], run[i - 1 + 1]);
      var t :| StepOf(job, run[i - 1], run[i], t);
      StepKept(job, run[0].servers, before, run[i - 1], run[i], t);
    }
  }

  // Any number of threads, any interleaving: once all are done, every updated
  // server that is present is back on its own version from before the deployment,
  // rolled back at most once, and the deployment is marked ROLLED_BACK.
  lemma ConcurrentRollbacks(job: Job, run: seq<System>, before: map<ServerId, Version>)
    requires IsRun(job, run) && Initial(job, run[0], before)
    requires run[0].threads != [] && forall t | t in Last(run).threads :: t == Done
    ensures forall id | id in job.updated :: Home(Last(run).servers, before, id)
    ensures AtMostOnce(job, run[0].servers, Last(run).servers)
    ensures Last(run).status == RolledBack
  {
    RunKept(job, run, before, |run| - 1);
    var threads := Last(run).threads;
    assert threads[0] in threads;
    assert Through(job, Last(run).servers, before, threads[0]);
  }

  // A rollout leaves its servers so, if it changes the version at all.
  lemma RolloutIsFresh(job: Job, earlier: Servers, servers: Servers, target: Version)
    requires RunFacts.Progressed(earlier, servers, job.updated, target) && target != job.source
    ensures FreshlyDeployed(job, servers, map id | id in earlier :: earlier[id].version)
  {
    forall id | id in job.updated && id in servers
      ensures && servers[id].previous == Some(earlier[id].version) && servers[id].version == target
              && servers[id].history != [] && Last(servers[id].history).action == Deploy
    {
      assert RunFacts.SameBut(Deployed(earlier[id], target), servers[id]);
    }
  }
}
