/**
 * One rollout stage: how many servers to update, which, and what comes of it
 * (deploy/engine.py; deploy/activities.py when no engine is attached).
 */
module Stage {
  import opened Base
  import opened Events
  import opened Models
  import opened Cluster
  import opened Deployment
  import opened Grouping

  // ---------- What a stage means ----------

  // Capacity outside the quarantined regions.
  function Eligible(servers: Servers, quarantined: set<Region>): set<ServerId> {
    set id | id in servers && servers[id].region !in quarantined
  }

  function Needed(servers: Servers, updated: set<ServerId>, quarantined: set<Region>, pct: nat): int {
    CeilPercent(|Eligible(servers, quarantined)|, pct) - |Eligible(servers, quarantined) * updated|
  }

  function Candidates(servers: Servers, pending: set<ServerId>, quarantined: set<Region>): set<ServerId> {
    set id | id in servers && id in pending && servers[id].IsUpdatable() && servers[id].region !in quarantined
  }

  function DeployAll(servers: Servers, ids: set<ServerId>, v: Version): Servers {
    map id | id in servers :: if id in ids then Deployed(servers[id], v) else servers[id]
  }

  // What a stage does to the cluster: `newly` are freshly deployed candidates, and
  // it reports no error exactly when they are as many as the percentage asks for.
  ghost predicate StageOutcome(before: Servers, after: Servers, updated: set<ServerId>, pending: set<ServerId>,
                               quarantined: set<Region>, target: Version, pct: nat,
                               newly: seq<ServerId>, error: Option<StageError>) {
    var needed := Needed(before, updated, quarantined, pct);
    && NoDup(newly) && Elems(newly) <= Candidates(before, pending, quarantined)
    && after == DeployAll(before, Elems(newly), target)
    && |newly| <= (if needed > 0 then needed else 0)
    && (error == None <==> |newly| == if needed > 0 then needed else 0)
    && (error == Some(UnderProvisioned) ==> Elems(newly) == Candidates(before, pending, quarantined))
  }

  // What the stage activity reports, and has done to the cluster: an exception comes
  // before anything was updated.
  ghost predicate StageRan(before: Servers, after: Servers, target: Version, updated: seq<ServerId>,
                           quarantined: set<Region>, r: StageResult) {
    && (if r.error.Some? && r.error.value.Raised? then r.updated == [] && after == before
        else StageOutcome(before, after, Elems(updated), before.Keys - Elems(updated), quarantined, target,
                          r.target, r.updated, r.error))
    && (r.error.Some? ==> !r.error.value.UpdateFailed?)
  }

  lemma RanDeploys(before: Servers, after: Servers, target: Version, updated: seq<ServerId>,
                   quarantined: set<Region>, r: StageResult)
    requires StageRan(before, after, target, updated, quarantined, r)
    ensures NoDup(r.updated) && Elems(r.updated) <= before.Keys - Elems(updated)
    ensures after == DeployAll(before, Elems(r.updated), target)
  {
    if r.error.Some? && r.error.value.Raised? {
      assert DeployAll(before, {}, target) == before;
    }
  }

  lemma RanKeepsRegions(before: Servers, after: Servers, target: Version, updated: seq<ServerId>,
                        quarantined: set<Region>, r: StageResult)
    requires StageRan(before, after, target, updated, quarantined, r)
    ensures after.Keys == before.Keys && forall id | id in after :: after[id].region == before[id].region
  {
  }

  // A stage deploys healthy or degraded servers outside the quarantined regions only,
  // touches no other, and lacks servers only if it has deployed all of those.
  lemma StageDeploys(before: Servers, after: Servers, updated: set<ServerId>, pending: set<ServerId>, quarantined: set<Region>,
                     target: Version, pct: nat, newly: seq<ServerId>, error: Option<StageError>)
    requires StageOutcome(before, after, updated, pending, quarantined, target, pct, newly, error)
    ensures forall id | id in newly ::
              && id in before && id in pending && before[id].region !in quarantined
              && (before[id].status == Healthy || before[id].status == Degraded)
    ensures after.Keys == before.Keys && forall id | id in before ::
              if id in newly then after[id].version == target && after[id].previous == Some(before[id].version)
                                  && after[id].status == Updating
              else after[id] == before[id]
    ensures error == Some(UnderProvisioned) ==> forall id | id in before && id in pending && before[id].region !in quarantined ::
              before[id].status == Healthy || before[id].status == Degraded ==> id in newly
  {
    assert forall id :: id in newly <==> id in Elems(newly);
  }

  // The activity lists the newly updated servers anew, in any order.
  lemma SameOutcome(before: Servers, after: Servers, updated: set<ServerId>, quarantined: set<Region>, target: Version, pct: nat,
                    newly: seq<ServerId>, now: set<ServerId>, listed: seq<ServerId>, error: Option<StageError>)
    requires StageOutcome(before, after, updated, before.Keys - updated, quarantined, target, pct, newly, error)
    requires now == updated + Elems(newly) && NoDup(listed) && Elems(listed) == now - updated
    ensures StageOutcome(before, after, updated, before.Keys - updated, quarantined, target, pct, listed, error)
  {
    assert Elems(listed) == Elems(newly);
    NoDupCard(listed);
    NoDupCard(newly);
  }

  // A stage never takes the updated share of the eligible servers past its
  // ceiling, and reaches it exactly unless it reports an error.
  lemma CanaryCeiling(before: Servers, after: Servers, updated: set<ServerId>, pending: set<ServerId>,
                      quarantined: set<Region>, target: Version, pct: nat,
                      newly: seq<ServerId>, error: Option<StageError>)
    requires StageOutcome(before, after, updated, pending, quarantined, target, pct, newly, error)
    requires updated !! pending
    ensures Eligible(after, quarantined) == Eligible(before, quarantined)
    ensures var eligible := Eligible(before, quarantined);
            var ceiling := CeilPercent(|eligible|, pct);
            var most := if |eligible * updated| > ceiling then |eligible * updated| else ceiling;
            && |eligible * (updated + Elems(newly))| <= most
            && (error == None <==> |eligible * (updated + Elems(newly))| == most)
  {
    var eligible := Eligible(before, quarantined);
    assert Eligible(after, quarantined) == eligible;
    ShareGrows(eligible, updated, newly);
  }

  lemma ShareGrows(eligible: set<ServerId>, updated: set<ServerId>, newly: seq<ServerId>)
    requires NoDup(newly) && Elems(newly) <= eligible - updated
    ensures |eligible * (updated + Elems(newly))| == |eligible * updated| + |newly|
  {
    assert eligible * (updated + Elems(newly)) == eligible * updated + Elems(newly);
    assert eligible * updated !! Elems(newly);
    NoDupCard(newly);
  }

  // ---------- Selecting ----------

  // The candidates among a listing of the cluster.
  function Pick(list: seq<Server>, pending: set<ServerId>, quarantined: set<Region>): seq<Server> {
    if list == [] then [] else
    var s := Last(list);
    Pick(Init(list), pending, quarantined) +
    if s.id in pending && s.IsUpdatable() && s.region !in quarantined then [s] else []
  }

  ghost predicate Lists(list: seq<Server>, servers: Servers) {
    NoDup(list) && forall s :: s in list <==> s.id in servers && servers[s.id] == s
  }

  lemma {:induction false} PickElems(list: seq<Server>, pending: set<ServerId>, quarantined: set<Region>, s: Server)
    ensures s in Pick(list, pending, quarantined) <==>
              s in list && s.id in pending && s.IsUpdatable() && s.region !in quarantined
    ensures NoDup(list) ==> NoDup(Pick(list, pending, quarantined))
  {
    if list != [] {
      SplitLast(list);
      PickElems(Init(list), pending, quarantined, s);
      PickElems(Init(list), pending, quarantined, Last(list));
      var rest := Pick(Init(list), pending, quarantined);
      assert Init(rest + [Last(list)]) == rest;
      assert rest + [] == rest;
    }
  }

  lemma {:induction false} DistinctByKey(list: seq<Server>, servers: Servers)
    requires NoDup(list) && forall s | s in list :: s.id in servers && servers[s.id] == s
    ensures DistinctIds(list)
  {
    if list != [] {
      SplitLast(list);
      DistinctByKey(Init(list), servers);
      assert Last(list) in list;
      forall x | x in Init(list) ensures x.id != Last(list).id { assert x in list; }
    }
  }

  lemma {:induction false} IdsCard(list: seq<Server>)
    requires DistinctIds(list)
    ensures |set s | s in list :: s.id| == |list|
  {
    if list != [] {
      SplitLast(list);
      IdsCard(Init(list));
      var ids := set s | s in Init(list) :: s.id;
      assert Last(list).id !in ids;
      assert (set s | s in list :: s.id) == ids + {Last(list).id};
    }
  }

  // The selection takes candidates only: as many as needed, or all of them.
  lemma PickFacts(list: seq<Server>, servers: Servers, pending: set<ServerId>, quarantined: set<Region>, count: nat)
    requires WellKeyed(servers) && Lists(list, servers)
    ensures var picked := Pick(list, pending, quarantined);
            && DistinctIds(picked)
            && var selected := Selection(picked, count);
               && NoDup(selected) && Elems(selected) <= Candidates(servers, pending, quarantined)
               && |selected| <= count
               && (|selected| < count ==> Elems(selected) == Candidates(servers, pending, quarantined))
  {
    var picked, candidates := Pick(list, pending, quarantined), Candidates(servers, pending, quarantined);
    forall s { PickElems(list, pending, quarantined, s); }
    PickDistinct(list, servers, pending, quarantined);
    SelectionFacts(picked, count);
    IdsCard(picked);
    var ids := set s | s in picked :: s.id;
    assert ids == candidates by {
      forall id | id in candidates ensures id in ids { assert servers[id] in picked; }
    }
    var selected := Selection(picked, count);
    assert Elems(selected) <= ids;
    if |selected| < count {
      NoDupCard(selected);
      SubsetCard(Elems(selected), candidates);
    }
  }

  lemma PickDistinct(list: seq<Server>, servers: Servers, pending: set<ServerId>, quarantined: set<Region>)
    requires Lists(list, servers)
    ensures DistinctIds(Pick(list, pending, quarantined))
  {
    forall s { PickElems(list, pending, quarantined, s); }
    PickElems(list, pending, quarantined, Server("", "", "", "", "", None, Healthy, 0.0, 0.0, []));
    DistinctByKey(Pick(list, pending, quarantined), servers);
  }

  // ---------- Running a stage ----------

  lemma {:induction false} TakeDistinct(s: seq<ServerId>, n: nat)
    requires NoDup(s) && n <= |s|
    ensures NoDup(s[..n]) && Elems(s[..n]) <= Elems(s)
  {
    if n > 0 {
      TakeDistinct(s, n - 1);
      TakeOneMore(s, n - 1);
      assert Init(s[..n]) == s[..n - 1];
    }
  }

  // The first `n` of a selection have been deployed, and recorded.
  ghost predicate Deploying(before: Servers, servers: Servers, selected: seq<ServerId>, n: nat, v: Version,
                            updated0: set<ServerId>, updated: set<ServerId>, pending0: set<ServerId>, pending: set<ServerId>)
    requires n <= |selected|
  {
    && servers == DeployAll(before, Elems(selected[..n]), v)
    && updated == updated0 + Elems(selected[..n])
    && pending == pending0 - Elems(selected[..n])
  }

  lemma DeployOneMore(before: Servers, servers: Servers, selected: seq<ServerId>, n: nat, v: Version,
                      updated0: set<ServerId>, updated: set<ServerId>, pending0: set<ServerId>, pending: set<ServerId>)
    requires NoDup(selected) && Elems(selected) <= before.Keys && n < |selected|
    requires Deploying(before, servers, selected, n, v, updated0, updated, pending0, pending)
    ensures var id := selected[n];
            && id in servers && servers[id] == before[id]
            && Deploying(before, servers[id := Deployed(servers[id], v)], selected, n + 1, v,
                         updated0, updated + {id}, pending0, pending - {id})
  {
    TakeOneMore(selected, n);
    assert selected[n] in Elems(selected);
  }

  // Updates the selected servers one by one, looking at the abort event before each.
  method DeploySelected(cluster: ClusterState, deployment: DeploymentState, selected: seq<ServerId>, abortSeen: nat -> bool)
    returns (newly: seq<ServerId>, aborted: bool)
    requires cluster.Valid() && NoDup(selected) && Elems(selected) <= cluster.servers.Keys
    modifies cluster, deployment`updated, deployment`pending
    ensures cluster.Valid() && |newly| <= |selected| && newly == selected[..|newly|]
    ensures Deploying(old(cluster.servers), cluster.servers, selected, |newly|, deployment.target,
                      old(deployment.updated), deployment.updated, old(deployment.pending), deployment.pending)
    ensures aborted <==> |newly| < |selected|
    ensures aborted ==> abortSeen(|newly|)
  {
    ghost var before, updated0, pending0 := cluster.servers, deployment.updated, deployment.pending;
    newly := [];
    assert cluster.servers == DeployAll(before, {}, deployment.target);
    for i := 0 to |selected|
      invariant newly == selected[..i] && cluster.Valid()
      invariant Deploying(before, cluster.servers, selected, i, deployment.target,
                          updated0, deployment.updated, pending0, deployment.pending)
    {
      if abortSeen(i) {
        return newly, true;
      }
      var id := selected[i];
      DeployOneMore(before, cluster.servers, selected, i, deployment.target,
                    updated0, deployment.updated, pending0, deployment.pending);
      var success := cluster.UpdateServerVersion(id, deployment.target);
      assert selected[..i + 1] == selected[..i] + [id];
      if success {
        deployment.updated := deployment.updated + {id};
        deployment.pending := deployment.pending - {id};
        newly := newly + [id];
      }
    }
    assert selected[..|selected|] == selected;
    aborted := false;
  }

  lemma StageDone(before: Servers, after: Servers, updated0: set<ServerId>, updated: set<ServerId>,
                  pending0: set<ServerId>, pending: set<ServerId>, quarantined: set<Region>, v: Version, pct: nat,
                  selected: seq<ServerId>, newly: seq<ServerId>, error: Option<StageError>)
    requires var needed := Needed(before, updated0, quarantined, pct);
             && needed > 0 && |selected| <= needed
             && (|selected| < needed ==> Elems(selected) == Candidates(before, pending0, quarantined))
             && error == if |newly| < |selected| then Some(AbortMidStage) else if |newly| < needed then Some(UnderProvisioned) else None
    requires NoDup(selected) && Elems(selected) <= Candidates(before, pending0, quarantined)
    requires |newly| <= |selected| && newly == selected[..|newly|]
    requires Deploying(before, after, selected, |newly|, v, updated0, updated, pending0, pending)
    ensures StageOutcome(before, after, updated0, pending0, quarantined, v, pct, newly, error)
  {
    TakeDistinct(selected, |newly|);
    assert |newly| == |selected| ==> newly == selected;
  }

  lemma AllDone(before: Servers, updated: set<ServerId>, pending: set<ServerId>, quarantined: set<Region>, v: Version,
                pct: nat, selected: seq<ServerId>)
    requires var needed := Needed(before, updated, quarantined, pct);
             && needed > 0 && |selected| <= needed
             && (|selected| < needed ==> Elems(selected) == Candidates(before, pending, quarantined))
    requires NoDup(selected) && Elems(selected) <= Candidates(before, pending, quarantined)
    ensures StageOutcome(before, DeployAll(before, Elems(selected), v), updated, pending, quarantined, v, pct, selected,
                         if |selected| < Needed(before, updated, quarantined, pct) then Some(UnderProvisioned) else None)
  {
  }

  lemma StageIdle(servers: Servers, updated: set<ServerId>, pending: set<ServerId>, quarantined: set<Region>, v: Version, pct: nat)
    requires Needed(servers, updated, quarantined, pct) <= 0
    ensures StageOutcome(servers, servers, updated, pending, quarantined, v, pct, [], None)
  {
    assert DeployAll(servers, {}, v) == servers;
  }

  // The servers that a stage picks, whatever order the cluster lists its servers in:
  // the first `count` of the round-robin selection among the candidates.
  ghost predicate Chosen(servers: Servers, pending: set<ServerId>, quarantined: set<Region>, count: nat, selected: seq<ServerId>) {
    forall list | Lists(list, servers) ::
      DistinctIds(Pick(list, pending, quarantined)) && selected == Selection(Pick(list, pending, quarantined), count)
  }

  // The servers deployed are the first of those picked, all unless an abort was seen.
  ghost predicate FirstOf(servers: Servers, pending: set<ServerId>, quarantined: set<Region>, count: nat,
                          newly: seq<ServerId>, error: Option<StageError>) {
    exists selected ::
      && Chosen(servers, pending, quarantined, count, selected) && newly <= selected
      && (error != Some(AbortMidStage) ==> newly == selected)
  }

  lemma AnyListing(servers: Servers, pending: set<ServerId>, quarantined: set<Region>, count: nat, list: seq<Server>)
    requires Lists(list, servers)
    ensures DistinctIds(Pick(list, pending, quarantined))
    ensures Chosen(servers, pending, quarantined, count, Selection(Pick(list, pending, quarantined), count))
  {
    PickDistinct(list, servers, pending, quarantined);
    forall other | Lists(other, servers)
      ensures DistinctIds(Pick(other, pending, quarantined))
      ensures Selection(Pick(list, pending, quarantined), count) == Selection(Pick(other, pending, quarantined), count)
    {
      PickDistinct(other, servers, pending, quarantined);
      PickPermutes(list, other, pending, quarantined);
      SelectionIndifferent(Pick(list, pending, quarantined), Pick(other, pending, quarantined), count);
    }
  }

  lemma PickPermutes(a: seq<Server>, b: seq<Server>, pending: set<ServerId>, quarantined: set<Region>)
    requires NoDup(a) && NoDup(b) && forall s :: s in a <==> s in b
    ensures multiset(Pick(a, pending, quarantined)) == multiset(Pick(b, pending, quarantined))
  {
    var p, q := Pick(a, pending, quarantined), Pick(b, pending, quarantined);
    forall s ensures s in p <==> s in q {
      PickElems(a, pending, quarantined, s);
      PickElems(b, pending, quarantined, s);
    }
    if p != [] { PickElems(a, pending, quarantined, p[0]); }
    if q != [] { PickElems(b, pending, quarantined, q[0]); }
    SameMultiset(p, q);
  }

  // As many of the candidates as the percentage still needs, or all of them.
  method ChooseServers(cluster: ClusterState, pending: set<ServerId>, quarantined: set<Region>, needed: nat)
    returns (selected: seq<ServerId>)
    requires cluster.Valid()
    ensures NoDup(selected) && Elems(selected) <= Candidates(cluster.servers, pending, quarantined)
    ensures |selected| <= needed
    ensures |selected| < needed ==> Elems(selected) == Candidates(cluster.servers, pending, quarantined)
    ensures Chosen(cluster.servers, pending, quarantined, needed, selected)
  {
    var list := cluster.ListServers();
    PickFacts(list, cluster.servers, pending, quarantined, needed);
    AnyListing(cluster.servers, pending, quarantined, needed, list);
    selected := SelectServers(Pick(list, pending, quarantined), needed);
  }

  // The engine's stage. `abortSeen` is what a look at the abort event before the
  // i-th update finds.
  method ExecuteStage(cluster: ClusterState, deployment: DeploymentState, quarantined: set<Region>,
                      stageIdx: nat, pct: nat, abortSeen: nat -> bool)
    returns (stage: StageResult)
    requires cluster.Valid()
    modifies cluster, deployment`updated, deployment`pending, deployment`currentStage
    ensures cluster.Valid() && deployment.currentStage == stageIdx
    ensures stage.stage == stageIdx && stage.target == pct
    ensures StageOutcome(old(cluster.servers), cluster.servers, old(deployment.updated), old(deployment.pending),
                         quarantined, deployment.target, pct, stage.updated, stage.error)
    ensures var needed := Needed(old(cluster.servers), old(deployment.updated), quarantined, pct);
            needed > 0 ==> FirstOf(old(cluster.servers), old(deployment.pending), quarantined, needed, stage.updated, stage.error)
    ensures stage.error == Some(AbortMidStage) ==> exists i :: abortSeen(i)
    ensures stage.error != None ==> stage.error == Some(AbortMidStage) || stage.error == Some(UnderProvisioned)
    ensures deployment.updated == old(deployment.updated) + Elems(stage.updated)
    ensures deployment.pending == old(deployment.pending) - Elems(stage.updated)
  {
    ghost var before, updated0, pending0 := cluster.servers, deployment.updated, deployment.pending;
    deployment.currentStage := stageIdx;
    var needed := Needed(cluster.servers, deployment.updated, quarantined, pct);
    if needed <= 0 {
      StageIdle(before, updated0, pending0, quarantined, deployment.target, pct);
      return StageResult(stageIdx, pct, [], None);
    }
    var selected := ChooseServers(cluster, deployment.pending, quarantined, needed);
    var newly, aborted := DeploySelected(cluster, deployment, selected, abortSeen);
    var error := if aborted then Some(AbortMidStage)
                 else if |newly| < needed then Some(UnderProvisioned) else None;
    assert FirstOf(before, pending0, quarantined, needed, newly, error) by {
      assert aborted || newly == selected;
    }
    StageDone(before, cluster.servers, updated0, deployment.updated, pending0, deployment.pending,
              quarantined, deployment.target, pct, selected, newly, error);
    stage := StageResult(stageIdx, pct, newly, error);
  }
}
