/**
 * The governance decision: risk, policies, approval and the checkpoint that joins them
 * (governance/, resilience/policies.py).
 */
module Governance {
  import opened Base
  import opened Events
  import opened Models
  import opened Cluster
  import opened Deployment
  import opened Quarantine
  import opened RunFacts
  import opened Activities
  import opened Grouping
  import Shuffle
  import Stage

  // ---------- Risk ----------

  datatype RiskScore = Low | Medium | High | Critical

  function Severity(r: RiskScore): nat {
    match r case Low => 0 case Medium => 1 case High => 2 case Critical => 3
  }

  function WithStatus(servers: Servers, status: ServerStatus): set<ServerId> {
    set id | id in servers && servers[id].status == status
  }

  predicate Touches(servers: Servers, updated: set<ServerId>, regions: set<Region>) {
    exists id :: id in updated && id in servers && servers[id].region in regions
  }

  // As if there were no limits.
  function RawScore(servers: Servers, updated: set<ServerId>, critical: set<Region>, progress: real, retries: nat, failures: nat): real {
    |WithStatus(servers, Degraded)| as real * 15.0 + |WithStatus(servers, Failing)| as real * 30.0
    + progress / 100.0 * 30.0
    + (if Touches(servers, updated, critical) then 15.0 else 0.0)
    + retries as real * 10.0 + failures as real * 10.0
  }

  function Category(score: real): RiskScore {
    if score <= 25.0 then Low else if score <= 50.0 then Medium else if score <= 75.0 then High else Critical
  }

  function ProgressOf(updated: nat, total: nat): real {
    if total == 0 then 0.0 else updated as real / total as real * 100.0
  }

  lemma ProgressShare(updated: nat, total: nat)
    ensures ProgressOf(updated, total) / 100.0 * 30.0 == if total == 0 then 0.0 else 30.0 * updated as real / total as real
  {
  }

  lemma RawIs(servers: Servers, updated: set<ServerId>, critical: set<Region>, total: nat, retries: nat, failures: nat)
    ensures RawScore(servers, updated, critical, ProgressOf(|updated|, total), retries, failures) ==
              15.0 * |set id | id in servers && servers[id].status == Degraded| as real
              + 30.0 * |set id | id in servers && servers[id].status == Failing| as real
              + (if total == 0 then 0.0 else 30.0 * |updated| as real / total as real)
              + (if exists id :: id in updated && id in servers && servers[id].region in critical then 15.0 else 0.0)
              + 10.0 * retries as real + 10.0 * failures as real
  {
    ProgressShare(|updated|, total);
    assert WithStatus(servers, Degraded) == set id | id in servers && servers[id].status == Degraded;
    assert WithStatus(servers, Failing) == set id | id in servers && servers[id].status == Failing;
  }

  function CountOf(list: seq<Server>, status: ServerStatus): nat {
    if list == [] then 0 else CountOf(Init(list), status) + if Last(list).status == status then 1 else 0
  }

  ghost function IdsWith(list: seq<Server>, status: ServerStatus): set<ServerId> {
    if list == [] then {} else
    IdsWith(Init(list), status) + if Last(list).status == status then {Last(list).id} else {}
  }

  lemma {:induction false} IdsWithIn(list: seq<Server>, status: ServerStatus, id: ServerId)
    ensures id in IdsWith(list, status) <==> exists s :: s in list && s.status == status && s.id == id
  {
    if list != [] {
      SplitLast(list);
      IdsWithIn(Init(list), status, id);
    }
  }

  lemma {:induction false} CountIsCard(list: seq<Server>, status: ServerStatus)
    requires DistinctIds(list)
    ensures CountOf(list, status) == |IdsWith(list, status)|
  {
    if list != [] {
      CountIsCard(Init(list), status);
      IdsWithIn(Init(list), status, Last(list).id);
    }
  }

  lemma CountedAll(servers: Servers, list: seq<Server>, status: ServerStatus)
    requires WellKeyed(servers) && Stage.Lists(list, servers)
    ensures CountOf(list, status) == |WithStatus(servers, status)|
  {
    Stage.DistinctByKey(list, servers);
    CountIsCard(list, status);
    forall id ensures id in IdsWith(list, status) <==> id in WithStatus(servers, status) {
      IdsWithIn(list, status, id);
      if id in WithStatus(servers, status) { assert servers[id] in list; }
    }
    assert IdsWith(list, status) == WithStatus(servers, status);
  }

  class RiskEngine {
    const criticalRegions: set<Region>

    constructor (critical: Option<set<Region>>)
      ensures criticalRegions == if critical == None then {"us-east-1", "us-west-2"} else critical.value
    {
      criticalRegions := if critical == None then {"us-east-1", "us-west-2"} else critical.value;
    }

    method CountUnhealthy(cluster: ClusterState) returns (degraded: nat, failed: nat)
      requires cluster.Valid()
      ensures degraded == |WithStatus(cluster.servers, Degraded)| && failed == |WithStatus(cluster.servers, Failing)|
    {
      var list := cluster.ListServers();
      degraded, failed := 0, 0;
      for i := 0 to |list|
        invariant degraded == CountOf(list[..i], Degraded) && failed == CountOf(list[..i], Failing)
      {
        assert Init(list[..i + 1]) == list[..i];
        if list[i].status == Degraded {
          degraded := degraded + 1;
        } else if list[i].status == Failing {
          failed := failed + 1;
        }
      }
      assert list[..|list|] == list;
      CountedAll(cluster.servers, list, Degraded);
      CountedAll(cluster.servers, list, Failing);
    }

    method TouchesCritical(cluster: ClusterState, updated: set<ServerId>) returns (touches: bool)
      ensures touches == Touches(cluster.servers, updated, criticalRegions)
    {
      var todo := updated;
      touches := false;
      while todo != {} && !touches
        invariant todo <= updated
        invariant touches ==> Touches(cluster.servers, updated, criticalRegions)
        invariant !touches ==> !Touches(cluster.servers, updated - todo, criticalRegions)
      {
        var id :| id in todo;
        todo := todo - {id};
        var server := cluster.GetServer(id);
        touches := server.Some? && server.value.region in criticalRegions;
      }
      assert !touches ==> updated - todo == updated;
    }

    method CalculateRisk(cluster: ClusterState, updated: set<ServerId>, total: nat, retries: nat, failures: nat)
      returns (score: real, category: RiskScore)
      requires cluster.Valid()
      ensures var raw := RawScore(cluster.servers, updated, criticalRegions, ProgressOf(|updated|, total), retries, failures);
              score == Clamped(raw) && category == Category(raw)
      ensures var sum := 15.0 * |set id | id in cluster.servers && cluster.servers[id].status == Degraded| as real
                         + 30.0 * |set id | id in cluster.servers && cluster.servers[id].status == Failing| as real
                         + (if total == 0 then 0.0 else 30.0 * |updated| as real / total as real)
                         + (if exists id :: id in updated && id in cluster.servers && cluster.servers[id].region in criticalRegions
                            then 15.0 else 0.0)
                         + 10.0 * retries as real + 10.0 * failures as real;
              && score == (if sum > 100.0 then 100.0 else sum)
              && (category == Low <==> sum <= 25.0) && (category == Medium <==> 25.0 < sum <= 50.0)
              && (category == High <==> 50.0 < sum <= 75.0) && (category == Critical <==> 75.0 < sum)
    {
      RawIs(cluster.servers, updated, criticalRegions, total, retries, failures);
      score := 0.0;
      var degraded, failed := CountUnhealthy(cluster);
      score := score + degraded as real * 15.0;
      score := score + failed as real * 30.0;
      score := score + ProgressOf(|updated|, total) / 100.0 * 30.0;
      var touches := TouchesCritical(cluster, updated);
      if touches { score := score + 15.0; }
      score := score + retries as real * 10.0;
      score := score + failures as real * 10.0;
      score := if score > 100.0 then 100.0 else score;
      score := if score < 0.0 then 0.0 else score;
      category := Category(score);
    }
  }

  // ---------- Policies ----------

  // What a policy sees. `quarantined` are the active quarantines.
  datatype Context = Context(
    servers: Servers,
    updated: set<ServerId>,
    progress: real,
    category: RiskScore,
    weekday: nat, // ISO: 5 is Friday
    hour: nat,
    recoveryAttempts: nat,
    recentRollbacks: nat,
    quarantined: set<Region>)

  datatype Outcome = Error | Told(passed: bool, decision: Decision)

  datatype Policy =
    | RollbackPolicy(suspendOnCritical: bool)
    | HealthPolicy(zeroDegraded: set<Region>)
    | ApprovalPolicy(threshold: real)
    | AbortPolicy
    | RiskPolicy
    | UnsafeRecoveryPreventionPolicy
    | RecoveryRetryCeilingPolicy(maxAttempts: nat)
    | RollbackStormPreventionPolicy(maxRollbacks: nat)
    | QuarantineEscalationPolicy(maxRegions: nat)
    | CustomPolicy(evaluate: Context -> Outcome)

  const PASSED := Told(true, Allow)

  function BlockIf(refused: bool): Outcome {
    if refused then Told(false, Block) else PASSED
  }

  predicate DegradedIn(servers: Servers, updated: set<ServerId>, regions: set<Region>) {
    exists id :: id in servers && (servers[id].status == Degraded || servers[id].status == Failing)
                 && servers[id].region in regions && id in updated
  }

  predicate WindowOpen(weekday: nat, hour: nat) {
    weekday != 6 && weekday != 7 && !(weekday == 5 && hour >= 15)
  }

  function Evaluate(p: Policy, ctx: Context): Outcome {
    match p
    case RollbackPolicy(suspend) => BlockIf(ctx.category == Critical && suspend)
    case HealthPolicy(zero) => if DegradedIn(ctx.servers, ctx.updated, zero) then Told(false, MandateRollback) else PASSED
    case ApprovalPolicy(threshold) =>
      if ctx.category == High || ctx.category == Critical || ctx.progress >= threshold then Told(false, Allow) else PASSED
    case AbortPolicy => BlockIf(ctx.category == Critical)
    case RiskPolicy => BlockIf(!WindowOpen(ctx.weekday, ctx.hour))
    case UnsafeRecoveryPreventionPolicy => BlockIf(ctx.category == Critical)
    case RecoveryRetryCeilingPolicy(most) => BlockIf(ctx.recoveryAttempts >= most)
    case RollbackStormPreventionPolicy(most) => BlockIf(ctx.recentRollbacks >= most)
    case QuarantineEscalationPolicy(most) => BlockIf(|ctx.quarantined| >= most)
    case CustomPolicy(evaluate) => evaluate(ctx)
  }

  function DefaultPolicies(quarantining: bool): seq<Policy> {
    [RollbackPolicy(true), HealthPolicy({"us-east-1"}), ApprovalPolicy(75.0), AbortPolicy, RiskPolicy,
     UnsafeRecoveryPreventionPolicy, RecoveryRetryCeilingPolicy(3), RollbackStormPreventionPolicy(3)]
    + if quarantining then [QuarantineEscalationPolicy(2)] else []
  }

  // ---------- Approval ----------

  datatype ApprovalDecision = Waiting | Approved | Denied | Bypassed

  class ApprovalRequest {
    var status: ApprovalDecision
    var failed: bool // the callback's error is on record

    constructor ()
      ensures status == Waiting && !failed
    {
      status, failed := Waiting, false;
    }
  }

  // What the gate decides for a category: bypassed below the threshold, else as the
  // callback says, and denied if that raises or if there is none. A threshold that
  // names no category counts as below any.
  function GateDecision(callback: Option<RiskScore -> Option<bool>>, threshold: Option<RiskScore>, category: RiskScore): ApprovalDecision {
    if threshold.Some? && Severity(category) < Severity(threshold.value) then Bypassed
    else if callback.Some? && callback.value(category) == Some(true) then Approved
    else Denied
  }

  class ApprovalGate {
    const callback: Option<RiskScore -> Option<bool>>
    const threshold: Option<RiskScore>

    constructor (callback: Option<RiskScore -> Option<bool>>, threshold: Option<RiskScore>)
      ensures this.callback == callback && this.threshold == threshold
    {
      this.callback, this.threshold := callback, threshold;
    }

    method EvaluateRequest(request: ApprovalRequest, category: RiskScore) returns (decision: ApprovalDecision)
      modifies request
      ensures decision == request.status == GateDecision(callback, threshold, category)
      ensures decision == Bypassed <==>
                (category == Low && threshold.Some? && threshold.value != Low) ||
                (category == Medium && threshold.Some? && (threshold.value == High || threshold.value == Critical)) ||
                (category == High && threshold == Some(Critical))
      ensures decision == Approved <==> decision != Bypassed && callback.Some? && callback.value(category) == Some(true)
      ensures decision == Denied <==> decision != Bypassed && (callback == None || callback.value(category) != Some(true))
      ensures request.failed == (old(request.failed) || (decision != Bypassed && callback.Some? && callback.value(category) == None))
    {
      var requested, limit := if threshold == None then 3 else Severity(category),
                              if threshold == None then 2 else Severity(threshold.value);
      if requested < limit {
        request.status := Bypassed;
        return Bypassed;
      }
      if callback.Some? {
        var answer := callback.value(category);
        if answer == None {
          request.status := Denied;
          request.failed := true;
          return Denied;
        }
        decision := if answer.value then Approved else Denied;
        request.status := decision;
        return;
      }
      request.status := Denied;
      decision := Denied;
    }
  }

  // ---------- The checkpoint ----------

  // What one verdict asks for; an error counts as a refusal.
  function Asks(o: Outcome): Decision {
    match o
    case Error => Block
    case Told(passed, decision) => if passed then Allow else decision
  }

  // BLOCK over ROLLBACK over ALLOW.
  function Worse(a: Decision, b: Decision): Decision {
    if a == Block || b == Block then Block
    else if a == MandateRollback || b == MandateRollback then MandateRollback
    else Allow
  }

  ghost function Join(policies: seq<Policy>, ctx: Context): Decision {
    if policies == [] then Allow else Worse(Join(Init(policies), ctx), Asks(Evaluate(Last(policies), ctx)))
  }

  ghost predicate WantsApproval(policies: seq<Policy>, ctx: Context) {
    exists p :: p in policies && p.ApprovalPolicy? && Evaluate(p, ctx) == Told(false, Allow)
  }

  // The decision of a checkpoint: the worst verdict and, if that is ALLOW and the
  // approval policy flags it, the gate's word.
  ghost function Decided(policies: seq<Policy>, ctx: Context, approval: ApprovalDecision): Decision {
    var joined := Join(policies, ctx);
    if joined == Allow && WantsApproval(policies, ctx) && approval == Denied then Block else joined
  }

  // The join, without reference to any order.
  lemma {:induction false} JoinIs(policies: seq<Policy>, ctx: Context)
    ensures Join(policies, ctx) == Block <==>
              exists p :: p in policies && (Evaluate(p, ctx) == Error || Evaluate(p, ctx) == Told(false, Block))
    ensures Join(policies, ctx) == Allow <==>
              forall p | p in policies :: Evaluate(p, ctx).Told? && (Evaluate(p, ctx).passed || Evaluate(p, ctx).decision == Allow)
  {
    if policies != [] {
      SplitLast(policies);
      JoinIs(Init(policies), ctx);
      assert Last(policies) in policies;
      assert forall p | p in Init(policies) :: p in policies;
    }
  }

  // The decision: refused if some policy raises or asks for it, or if none objects but
  // the approval policy flags it and approval is denied; else rolled back if some policy
  // asks for that.
  lemma DecisionIs(policies: seq<Policy>, ctx: Context, approval: ApprovalDecision)
    ensures Decided(policies, ctx, approval) == Block <==>
              || (exists p :: p in policies && (Evaluate(p, ctx) == Error || Evaluate(p, ctx) == Told(false, Block)))
              || (approval == Denied
                  && (forall p | p in policies :: Evaluate(p, ctx).Told? && (Evaluate(p, ctx).passed || Evaluate(p, ctx).decision == Allow))
                  && exists p :: p in policies && p.ApprovalPolicy? && Evaluate(p, ctx) == Told(false, Allow))
    ensures Decided(policies, ctx, approval) == MandateRollback <==>
              && (forall p | p in policies :: Evaluate(p, ctx) != Error && Evaluate(p, ctx) != Told(false, Block))
              && exists p :: p in policies && Evaluate(p, ctx) == Told(false, MandateRollback)
  {
    JoinIs(policies, ctx);
  }

  // The order in which policies are evaluated does not matter.
  lemma OrderIndifferent(a: seq<Policy>, b: seq<Policy>, ctx: Context, approval: ApprovalDecision)
    requires forall p :: p in a <==> p in b
    ensures Decided(a, ctx, approval) == Decided(b, ctx, approval)
  {
    JoinIs(a, ctx);
    JoinIs(b, ctx);
  }

  // ---------- The default policies ----------

  predicate Unblocked(ctx: Context, quarantining: bool) {
    && ctx.category != Critical
    && !DegradedIn(ctx.servers, ctx.updated, {"us-east-1"})
    && WindowOpen(ctx.weekday, ctx.hour)
    && ctx.recoveryAttempts < 3 && ctx.recentRollbacks < 3
    && (quarantining ==> |ctx.quarantined| < 2)
  }

  lemma DefaultJoin(ctx: Context, quarantining: bool)
    ensures Join(DefaultPolicies(quarantining), ctx) == Allow <==> Unblocked(ctx, quarantining)
  {
    var policies := DefaultPolicies(quarantining);
    JoinIs(policies, ctx);
    if Unblocked(ctx, quarantining) {
      forall p | p in policies ensures Asks(Evaluate(p, ctx)) == Allow {
        UnblockedAllows(ctx, quarantining, p);
      }
    } else {
      BlockedRefuses(ctx, quarantining);
    }
  }

  lemma UnblockedAllows(ctx: Context, quarantining: bool, p: Policy)
    requires Unblocked(ctx, quarantining) && p in DefaultPolicies(quarantining)
    ensures Asks(Evaluate(p, ctx)) == Allow
  {
    DefaultMember(quarantining, p);
  }

  lemma BlockedRefuses(ctx: Context, quarantining: bool)
    requires !Unblocked(ctx, quarantining)
    ensures exists p :: p in DefaultPolicies(quarantining) && Asks(Evaluate(p, ctx)) != Allow
  {
    DefaultMembers(quarantining);
    var culprit :=
      if ctx.category == Critical then AbortPolicy
      else if DegradedIn(ctx.servers, ctx.updated, {"us-east-1"}) then HealthPolicy({"us-east-1"})
      else if !WindowOpen(ctx.weekday, ctx.hour) then RiskPolicy
      else if ctx.recoveryAttempts >= 3 then RecoveryRetryCeilingPolicy(3)
      else if ctx.recentRollbacks >= 3 then RollbackStormPreventionPolicy(3)
      else QuarantineEscalationPolicy(2);
    assert culprit in DefaultPolicies(quarantining);
  }

  lemma DefaultMembers(quarantining: bool)
    ensures var policies := DefaultPolicies(quarantining);
            && HealthPolicy({"us-east-1"}) in policies && ApprovalPolicy(75.0) in policies
            && AbortPolicy in policies && RiskPolicy in policies
            && RecoveryRetryCeilingPolicy(3) in policies && RollbackStormPreventionPolicy(3) in policies
            && (quarantining ==> QuarantineEscalationPolicy(2) in policies)
  {
    var policies := DefaultPolicies(quarantining);
    assert policies[1] == HealthPolicy({"us-east-1"}) && policies[2] == ApprovalPolicy(75.0) && policies[3] == AbortPolicy;
    assert policies[4] == RiskPolicy && policies[6] == RecoveryRetryCeilingPolicy(3) && policies[7] == RollbackStormPreventionPolicy(3);
    assert quarantining ==> policies[8] == QuarantineEscalationPolicy(2);
  }

  lemma DefaultMember(quarantining: bool, p: Policy)
    requires p in DefaultPolicies(quarantining)
    ensures || p == RollbackPolicy(true) || p == HealthPolicy({"us-east-1"}) || p == ApprovalPolicy(75.0) || p == AbortPolicy
            || p == RiskPolicy || p == UnsafeRecoveryPreventionPolicy || p == RecoveryRetryCeilingPolicy(3)
            || p == RollbackStormPreventionPolicy(3) || (quarantining && p == QuarantineEscalationPolicy(2))
  {
  }

  lemma DefaultApproval(ctx: Context, quarantining: bool)
    ensures WantsApproval(DefaultPolicies(quarantining), ctx) <==>
              ctx.category == High || ctx.category == Critical || ctx.progress >= 75.0
  {
    DefaultMembers(quarantining);
    forall p | p in DefaultPolicies(quarantining) && p.ApprovalPolicy? ensures p == ApprovalPolicy(75.0) {
      DefaultMember(quarantining, p);
    }
  }

  // ALLOW exactly if the risk is low or medium, no updated server in us-east-1 is
  // degraded or failed, the window is open and no ceiling is met.
  predicate AllClear(ctx: Context, quarantining: bool) {
    (ctx.category == Low || ctx.category == Medium) && Unblocked(ctx, quarantining)
  }

  lemma AllowedExactly(ctx: Context, quarantining: bool)
    ensures var approval := GateDecision(None, Some(High), ctx.category);
            Decided(DefaultPolicies(quarantining), ctx, approval) == Allow <==> AllClear(ctx, quarantining)
  {
    DefaultJoin(ctx, quarantining);
    DefaultApproval(ctx, quarantining);
  }

  // The same by the numbers: with the default policies and critical regions, a checkpoint
  // allows exactly if the weights of degraded and failed servers, of progress and of a
  // touched critical region add up to no more than 50, no updated us-east-1 server is
  // degraded or failed, it is neither weekend nor Friday from 15:00, and fewer than three
  // recoveries, three rollbacks and two quarantines are on record.
  lemma AllowedByNumbers(servers: Servers, updated: set<ServerId>, total: nat, weekday: nat, hour: nat,
                         recoveries: nat, rollbacks: nat, quarantined: set<Region>, quarantining: bool)
    ensures var progress := ProgressOf(|updated|, total);
            var category := Category(RawScore(servers, updated, {"us-east-1", "us-west-2"}, progress, 0, 0));
            var ctx := Context(servers, updated, progress, category, weekday, hour, recoveries, rollbacks, quarantined);
            Decided(DefaultPolicies(quarantining), ctx, GateDecision(None, Some(High), category)) == Allow <==>
            && 15.0 * |set id | id in servers && servers[id].status == Degraded| as real
               + 30.0 * |set id | id in servers && servers[id].status == Failing| as real
               + (if total == 0 then 0.0 else 30.0 * |updated| as real / total as real)
               + (if exists id :: id in updated && id in servers && servers[id].region in {"us-east-1", "us-west-2"}
                  then 15.0 else 0.0) <= 50.0
            && (forall id | id in updated && id in servers && servers[id].region == "us-east-1" ::
                  servers[id].status != Degraded && servers[id].status != Failing)
            && weekday != 6 && weekday != 7 && (weekday == 5 ==> hour < 15)
            && recoveries < 3 && rollbacks < 3 && (quarantining ==> |quarantined| < 2)
  {
    var progress := ProgressOf(|updated|, total);
    var category := Category(RawScore(servers, updated, {"us-east-1", "us-west-2"}, progress, 0, 0));
    AllowedExactly(Context(servers, updated, progress, category, weekday, hour, recoveries, rollbacks, quarantined), quarantining);
    RawIs(servers, updated, {"us-east-1", "us-west-2"}, total, 0, 0);
  }

  // ---------- Worse news never helps ----------

  function Rank(s: ServerStatus): nat {
    match s case Healthy => 0 case Updating => 0 case Degraded => 1 case Failing => 2
  }

  ghost predicate NoBetter(good: Servers, bad: Servers) {
    good.Keys == bad.Keys
    && forall id | id in good :: good[id].region == bad[id].region && Rank(good[id].status) <= Rank(bad[id].status)
  }

  lemma ScoreMonotone(good: Servers, bad: Servers, fewer: set<ServerId>, more: set<ServerId>, critical: set<Region>, total: nat,
                      retries: nat, failures: nat)
    requires NoBetter(good, bad) && fewer <= more
    ensures RawScore(good, fewer, critical, ProgressOf(|fewer|, total), retries, failures)
         <= RawScore(bad, more, critical, ProgressOf(|more|, total), retries, failures)
  {
    UnhealthyMonotone(good, bad);
    SubsetCard(fewer, more);
    ProgressMonotone(|fewer|, |more|, total);
    assert Touches(good, fewer, critical) ==> Touches(bad, more, critical) by {
      if Touches(good, fewer, critical) {
        var id :| id in fewer && id in good && good[id].region in critical;
        assert id in more && id in bad && bad[id].region in critical;
      }
    }
  }

  lemma ProgressMonotone(a: nat, b: nat, total: nat)
    requires a <= b
    ensures ProgressOf(a, total) <= ProgressOf(b, total)
  {
  }

  lemma UnhealthyMonotone(good: Servers, bad: Servers)
    requires NoBetter(good, bad)
    ensures |WithStatus(good, Degraded)| as real * 15.0 + |WithStatus(good, Failing)| as real * 30.0
         <= |WithStatus(bad, Degraded)| as real * 15.0 + |WithStatus(bad, Failing)| as real * 30.0
  {
    UnhealthyGrows(good, bad);
    Weighted(|WithStatus(good, Degraded)|, |WithStatus(good, Failing)|, |WithStatus(bad, Degraded)|, |WithStatus(bad, Failing)|);
  }

  ghost function Unhealthy(servers: Servers): set<ServerId> {
    set id | id in servers && Rank(servers[id].status) > 0
  }

  lemma UnhealthyCount(servers: Servers)
    ensures |Unhealthy(servers)| == |WithStatus(servers, Degraded)| + |WithStatus(servers, Failing)|
  {
    var d, f := WithStatus(servers, Degraded), WithStatus(servers, Failing);
    assert Unhealthy(servers) == d + f && d !! f;
  }

  lemma UnhealthyGrows(good: Servers, bad: Servers)
    requires NoBetter(good, bad)
    ensures |WithStatus(good, Degraded)| + |WithStatus(good, Failing)| <= |WithStatus(bad, Degraded)| + |WithStatus(bad, Failing)|
    ensures |WithStatus(good, Failing)| <= |WithStatus(bad, Failing)|
  {
    UnhealthyCount(good);
    UnhealthyCount(bad);
    SubsetCard(Unhealthy(good), Unhealthy(bad));
    SubsetCard(WithStatus(good, Failing), WithStatus(bad, Failing));
  }

  lemma Weighted(d: nat, f: nat, d': nat, f': nat)
    requires d + f <= d' + f' && f <= f'
    ensures d as real * 15.0 + f as real * 30.0 <= d' as real * 15.0 + f' as real * 30.0
  {
  }

  // Worse statuses or more updated servers never turn a refusal into ALLOW.
  lemma AllowAntitone(good: Context, bad: Context, critical: set<Region>, total: nat, retries: nat, failures: nat, quarantining: bool)
    requires NoBetter(good.servers, bad.servers) && good.updated <= bad.updated
    requires good.progress == ProgressOf(|good.updated|, total) && bad.progress == ProgressOf(|bad.updated|, total)
    requires good.category == Category(RawScore(good.servers, good.updated, critical, good.progress, retries, failures))
    requires bad.category == Category(RawScore(bad.servers, bad.updated, critical, bad.progress, retries, failures))
    requires good.weekday == bad.weekday && good.hour == bad.hour && good.recoveryAttempts == bad.recoveryAttempts
          && good.recentRollbacks == bad.recentRollbacks && good.quarantined == bad.quarantined
    ensures var policies := DefaultPolicies(quarantining);
            Decided(policies, bad, GateDecision(None, Some(High), bad.category)) == Allow ==>
            Decided(policies, good, GateDecision(None, Some(High), good.category)) == Allow
  {
    AllowedExactly(good, quarantining);
    AllowedExactly(bad, quarantining);
    ScoreMonotone(good.servers, bad.servers, good.updated, bad.updated, critical, total, retries, failures);
    if DegradedIn(good.servers, good.updated, {"us-east-1"}) {
      var id :| id in good.servers && (good.servers[id].status == Degraded || good.servers[id].status == Failing)
                && good.servers[id].region in {"us-east-1"} && id in good.updated;
      assert id in bad.servers && id in bad.updated;
    }
  }

  // ---------- The coordinator ----------

  datatype Kind = Recoveries | Rollbacks

  predicate IsKind(body: Body, kind: Kind) {
    match kind case Recoveries => body.RecoveryPlanExecute? case Rollbacks => body.RollbackStart?
  }

  function Tally(events: seq<Event>, deployment: string, kind: Kind): nat {
    if events == [] then 0 else
    Tally(Init(events), deployment, kind) + if Last(events).deployment == deployment && IsKind(Last(events).body, kind) then 1 else 0
  }

  // A record of a recovery, or of a rollback, of the deployment.
  predicate Tallied(e: Event, deployment: string, kind: Kind) {
    e.deployment == deployment && e.body == match kind case Recoveries => RecoveryPlanExecute case Rollbacks => RollbackStart
  }

  lemma TalliedMore(events: seq<Event>, deployment: string, kind: Kind)
    requires events != []
    ensures (set i | 0 <= i < |events| && Tallied(events[i], deployment, kind)) ==
              (set i | 0 <= i < |Init(events)| && Tallied(Init(events)[i], deployment, kind))
              + if Tallied(Last(events), deployment, kind) then {|events| - 1} else {}
  {
    forall i | 0 <= i < |Init(events)| ensures Init(events)[i] == events[i] {}
  }

  lemma {:induction false} TallyIs(events: seq<Event>, deployment: string, kind: Kind)
    ensures Tally(events, deployment, kind) == |set i | 0 <= i < |events| && Tallied(events[i], deployment, kind)|
  {
    var found := set i | 0 <= i < |events| && Tallied(events[i], deployment, kind);
    if events == [] {
      assert found == {};
    } else {
      TallyIs(Init(events), deployment, kind);
      TalliedMore(events, deployment, kind);
      TallyLast(events, deployment, kind);
    }
  }

  lemma TallyLast(events: seq<Event>, deployment: string, kind: Kind)
    requires events != []
    ensures Tally(events, deployment, kind) ==
              Tally(Init(events), deployment, kind) + if Tallied(Last(events), deployment, kind) then 1 else 0
  {
  }

  function BodiesOf(records: seq<Event>): seq<Body> {
    if records == [] then [] else BodiesOf(Init(records)) + [Last(records).body]
  }

  // The log, if there is one, has grown by `records`, all made on the side, which say
  // what `bodies` does.
  ghost predicate Grown(logger: AuditLogger?, log: seq<Event>, records: seq<Event>, bodies: seq<Body>, deployment: string)
    reads logger
  {
    && AllAside(records, deployment)
    && (logger != null ==> logger.Valid() && logger.events == log + records && BodiesOf(records) == bodies)
  }

  lemma GrownMore(log: seq<Event>, records: seq<Event>, bodies: seq<Body>, deployment: string, e: Event)
    requires AllAside(records, deployment) && BodiesOf(records) == bodies
    requires Aside(e) && e.deployment == e.correlation == deployment
    ensures AllAside(records + [e], deployment) && BodiesOf(records + [e]) == bodies + [e.body]
    ensures log + (records + [e]) == log + records + [e]
  {
    InitMore(records, e);
  }

  // What a checkpoint puts on record about one verdict: an evaluation, and a violation
  // if it did not pass; about an error nothing.
  function RecordedOf(o: Outcome): seq<Body> {
    match o
    case Error => []
    case Told(passed, _) => if passed then [Body.Governance] else [Body.Governance, PolicyViolation]
  }

  ghost function RecordedAll(policies: seq<Policy>, ctx: Context): seq<Body> {
    if policies == [] then [] else RecordedAll(Init(policies), ctx) + RecordedOf(Evaluate(Last(policies), ctx))
  }

  // The risk, the verdicts, the approval if one is asked for, and the decision.
  ghost function Recorded(policies: seq<Policy>, ctx: Context): seq<Body> {
    [Body.Governance] + RecordedAll(policies, ctx)
    + (if Join(policies, ctx) == Allow && WantsApproval(policies, ctx) then [Body.Governance, Body.Governance] else [])
    + [Body.Governance]
  }

  // A violation is on record exactly if some verdict did not pass; all else that a
  // checkpoint records is its own.
  lemma {:induction false} RecordedTells(policies: seq<Policy>, ctx: Context)
    ensures PolicyViolation in RecordedAll(policies, ctx) <==>
              exists p :: p in policies && Evaluate(p, ctx).Told? && !Evaluate(p, ctx).passed
    ensures forall b | b in RecordedAll(policies, ctx) :: b == PolicyViolation || b == Body.Governance
  {
    if policies != [] {
      SplitLast(policies);
      RecordedTells(Init(policies), ctx);
    }
  }

  class GovernanceCoordinator {
    const policies: seq<Policy>
    const gate: ApprovalGate
    const riskEngine: RiskEngine
    const quarantine: RegionQuarantineSystem?
    var lastCategory: map<string, RiskScore>

    constructor (policies: Option<seq<Policy>>, gate: ApprovalGate, riskEngine: RiskEngine, quarantine: RegionQuarantineSystem?)
      ensures this.policies == if policies.Some? then policies.value else DefaultPolicies(quarantine != null)
      ensures this.gate == gate && this.riskEngine == riskEngine && this.quarantine == quarantine && lastCategory == map[]
    {
      this.policies := if policies.Some? then policies.value else DefaultPolicies(quarantine != null);
      this.gate, this.riskEngine, this.quarantine, this.lastCategory := gate, riskEngine, quarantine, map[];
    }

    ghost function ContextOf(cluster: ClusterState, deployment: DeploymentState, weekday: nat, hour: nat, log: seq<Event>): Context
      reads cluster, deployment, quarantine
    {
      var progress := ProgressOf(|deployment.updated|, deployment.total);
      Context(cluster.servers, deployment.updated, progress,
              Category(RawScore(cluster.servers, deployment.updated, riskEngine.criticalRegions, progress, 0, 0)),
              weekday, hour, Tally(log, deployment.deploymentId, Recoveries), Tally(log, deployment.deploymentId, Rollbacks),
              if quarantine == null then {} else quarantine.ActiveRegions())
    }

    method Count(events: seq<Event>, deployment: string, kind: Kind) returns (n: nat)
      ensures n == Tally(events, deployment, kind)
    {
      n := 0;
      for i := 0 to |events|
        invariant n == Tally(events[..i], deployment, kind)
      {
        assert Init(events[..i + 1]) == events[..i];
        if events[i].deployment == deployment && IsKind(events[i].body, kind) { n := n + 1; }
      }
      assert events[..|events|] == events;
    }

    method BuildContext(cluster: ClusterState, deployment: DeploymentState, weekday: nat, hour: nat, logger: AuditLogger?)
      returns (ctx: Context)
      requires cluster.Valid()
      ensures ctx == ContextOf(cluster, deployment, weekday, hour, if logger == null then [] else logger.events)
    {
      var score, category := riskEngine.CalculateRisk(cluster, deployment.updated, deployment.total, 0, 0);
      var recoveries, rollbacks := 0, 0;
      if logger != null {
        recoveries := Count(logger.events, deployment.deploymentId, Recoveries);
        rollbacks := Count(logger.events, deployment.deploymentId, Rollbacks);
      }
      ctx := Context(cluster.servers, deployment.updated, ProgressOf(|deployment.updated|, deployment.total), category,
                     weekday, hour, recoveries, rollbacks, if quarantine == null then {} else quarantine.ActiveRegions());
    }

    method Note(logger: AuditLogger?, deployment: string, body: Body,
                ghost log: seq<Event>, ghost records: seq<Event>, ghost bodies: seq<Body>)
      returns (ghost more: seq<Event>)
      requires Grown(logger, log, records, bodies, deployment) && Shuffle.Inert(body)
      modifies logger
      ensures Grown(logger, log, more, bodies + [body], deployment)
    {
      more := records;
      if logger != null {
        var _ := logger.Log(deployment, body, "");
        GrownMore(log, records, bodies, deployment, Last(logger.events));
        more := records + [Last(logger.events)];
      }
    }

    // What one verdict does to the decision so far.
    method Weigh(overall: Decision, outcome: Outcome, logger: AuditLogger?, deployment: string,
                 ghost log: seq<Event>, ghost records: seq<Event>, ghost bodies: seq<Body>)
      returns (now: Decision, flagged: bool, ghost more: seq<Event>)
      requires Grown(logger, log, records, bodies, deployment)
      modifies logger
      ensures Grown(logger, log, more, bodies + RecordedOf(outcome), deployment)
      ensures now == Worse(overall, Asks(outcome)) && (flagged <==> outcome == Told(false, Allow))
    {
      now, flagged, more := overall, false, records;
      match outcome {
        case Error =>
          now := Block;
          assert bodies + [] == bodies;
        case Told(passed, decision) =>
          more := Note(logger, deployment, Body.Governance, log, more, bodies);
          if !passed {
            more := Note(logger, deployment, PolicyViolation, log, more, bodies + [Body.Governance]);
            assert bodies + [Body.Governance] + [PolicyViolation] == bodies + [Body.Governance, PolicyViolation];
            if decision == Block {
              now := Block;
            } else if decision == MandateRollback {
              if now != Block { now := MandateRollback; }
            } else {
              flagged := true;
            }
          }
      }
    }

    method Consult(ctx: Context, logger: AuditLogger?, deployment: string,
                   ghost log: seq<Event>, ghost records: seq<Event>, ghost bodies: seq<Body>)
      returns (decision: Decision, ghost more: seq<Event>)
      requires Grown(logger, log, records, bodies, deployment)
      modifies logger
      ensures Grown(logger, log, more, bodies + [Body.Governance, Body.Governance], deployment)
      ensures decision == if GateDecision(gate.callback, gate.threshold, ctx.category) == Denied then Block else Allow
    {
      var request := new ApprovalRequest();
      more := Note(logger, deployment, Body.Governance, log, records, bodies);
      var approval := gate.EvaluateRequest(request, ctx.category);
      more := Note(logger, deployment, Body.Governance, log, more, bodies + [Body.Governance]);
      assert bodies + [Body.Governance] + [Body.Governance] == bodies + [Body.Governance, Body.Governance];
      decision := if approval == Denied then Block else Allow;
    }

    method WeighAll(ctx: Context, logger: AuditLogger?, deployment: string,
                    ghost log: seq<Event>, ghost records: seq<Event>, ghost bodies: seq<Body>)
      returns (overall: Decision, wanted: bool, ghost more: seq<Event>)
      requires Grown(logger, log, records, bodies, deployment)
      modifies logger
      ensures Grown(logger, log, more, bodies + RecordedAll(policies, ctx), deployment)
      ensures overall == Join(policies, ctx) && wanted == WantsApproval(policies, ctx)
    {
      overall, wanted, more := Allow, false, records;
      assert bodies + [] == bodies;
      for i := 0 to |policies|
        invariant Grown(logger, log, more, bodies + RecordedAll(policies[..i], ctx), deployment)
        invariant overall == Join(policies[..i], ctx) && wanted == WantsApproval(policies[..i], ctx)
      {
        assert Init(policies[..i + 1]) == policies[..i];
        assert policies[..i + 1] == policies[..i] + [policies[i]];
        WantsMore(policies[..i], policies[i], ctx);
        ConcatAssoc3(bodies, RecordedAll(policies[..i], ctx), RecordedOf(Evaluate(policies[i], ctx)));
        var flagged: bool;
        overall, flagged, more := Weigh(overall, Evaluate(policies[i], ctx), logger, deployment, log, more,
                                        bodies + RecordedAll(policies[..i], ctx));
        if flagged && policies[i].ApprovalPolicy? { wanted := true; }
      }
      assert policies[..|policies|] == policies;
    }

    lemma WantsMore(some: seq<Policy>, p: Policy, ctx: Context)
      ensures WantsApproval(some + [p], ctx) <==>
                WantsApproval(some, ctx) || (p.ApprovalPolicy? && Evaluate(p, ctx) == Told(false, Allow))
    {
      assert forall q :: q in some + [p] <==> q in some || q == p;
    }

    // _evaluate_checkpoint
    method EvaluateCheckpoint(cluster: ClusterState, deployment: DeploymentState, weekday: nat, hour: nat, logger: AuditLogger?)
      returns (decision: Decision, ghost records: seq<Event>)
      requires cluster.Valid() && (logger != null ==> logger.Valid())
      modifies this`lastCategory, logger
      ensures var ctx := old(ContextOf(cluster, deployment, weekday, hour, if logger == null then [] else logger.events));
              && decision == Decided(policies, ctx, GateDecision(gate.callback, gate.threshold, ctx.category))
              && lastCategory == old(lastCategory)[deployment.deploymentId := ctx.category]
              && Grown(logger, if logger == null then [] else old(logger.events), records, Recorded(policies, ctx), deployment.deploymentId)
    {
      ghost var log := if logger == null then [] else logger.events;
      var ctx := BuildContext(cluster, deployment, weekday, hour, logger);
      records := [];
      assert log + records == log;
      ghost var bodies: seq<Body> := [];
      records := Note(logger, deployment.deploymentId, Body.Governance, log, records, bodies);
      bodies := [Body.Governance];
      lastCategory := lastCategory[deployment.deploymentId := ctx.category];
      var wanted: bool;
      decision, wanted, records := WeighAll(ctx, logger, deployment.deploymentId, log, records, bodies);
      bodies := bodies + RecordedAll(policies, ctx);
      if decision == Allow && wanted {
        decision, records := Consult(ctx, logger, deployment.deploymentId, log, records, bodies);
        bodies := bodies + [Body.Governance, Body.Governance];
      } else {
        assert bodies + [] == bodies;
      }
      records := Note(logger, deployment.deploymentId, Body.Governance, log, records, bodies);
    }
  }

  // When a checkpoint of a default coordinator without an approval callback allows, told
  // from the cluster, the deployment, the clock and the log.
  lemma CheckpointAllows(c: GovernanceCoordinator, cluster: ClusterState, deployment: DeploymentState,
                         weekday: nat, hour: nat, log: seq<Event>)
    requires c.policies == DefaultPolicies(c.quarantine != null) && c.riskEngine.criticalRegions == {"us-east-1", "us-west-2"}
    ensures var ctx := c.ContextOf(cluster, deployment, weekday, hour, log);
            var id, servers := deployment.deploymentId, cluster.servers;
            Decided(c.policies, ctx, GateDecision(None, Some(High), ctx.category)) == Allow <==>
            && 15.0 * |set s | s in servers && servers[s].status == Degraded| as real
               + 30.0 * |set s | s in servers && servers[s].status == Failing| as real
               + (if deployment.total == 0 then 0.0 else 30.0 * |deployment.updated| as real / deployment.total as real)
               + (if exists s :: s in deployment.updated && s in servers && servers[s].region in {"us-east-1", "us-west-2"}
                  then 15.0 else 0.0) <= 50.0
            && (forall s | s in deployment.updated && s in servers && servers[s].region == "us-east-1" ::
                  servers[s].status != Degraded && servers[s].status != Failing)
            && weekday != 6 && weekday != 7 && (weekday == 5 ==> hour < 15)
            && |set i | 0 <= i < |log| && Tallied(log[i], id, Recoveries)| < 3
            && |set i | 0 <= i < |log| && Tallied(log[i], id, Rollbacks)| < 3
            && (c.quarantine != null ==> |c.quarantine.ActiveRegions()| < 2)
  {
    TallyIs(log, deployment.deploymentId, Recoveries);
    TallyIs(log, deployment.deploymentId, Rollbacks);
    AllowedByNumbers(cluster.servers, deployment.updated, deployment.total, weekday, hour,
                     Tally(log, deployment.deploymentId, Recoveries), Tally(log, deployment.deploymentId, Rollbacks),
                     if c.quarantine == null then {} else c.quarantine.ActiveRegions(), c.quarantine != null);
  }
}
