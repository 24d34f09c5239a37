/** The record of one deployment (deploy/state.py, deploy/config.py). */
module Deployment {
  import opened Base
  import opened Events
  import opened Models

  // What can go wrong in a stage; the source tells these apart by their text.
  datatype StageError =
    | AbortMidStage
    | UnderProvisioned
    | UpdateFailed(server: ServerId)
    | Raised(mentionsAbort: bool, mentionsShortfall: bool)

  datatype StageResult = StageResult(stage: nat, target: nat, updated: seq<ServerId>, error: Option<StageError>)

  class DeploymentState {
    const deploymentId: string
    const target: Version
    const source: Version
    const total: nat
    var status: DeploymentStatus
    var currentStage: int
    var updated: set<ServerId>
    var pending: set<ServerId>
    var errorMessage: Option<string>
    var stages: seq<StageResult>

    constructor (deploymentId: string, target: Version, source: Version, total: nat,
                 updated: set<ServerId>, pending: set<ServerId>, status: DeploymentStatus)
      ensures this.deploymentId == deploymentId && this.target == target && this.source == source && this.total == total
      ensures this.updated == updated && this.pending == pending && this.status == status
      ensures currentStage == -1 && errorMessage == None && stages == []
    {
      this.deploymentId, this.target, this.source, this.total := deploymentId, target, source, total;
      this.updated, this.pending, this.status := updated, pending, status;
      currentStage, errorMessage, stages := -1, None, [];
    }

    method MarkRollingBack()
      modifies this`status
      ensures status == RollingBack
    {
      status := RollingBack;
    }

    method MarkRolledBack()
      modifies this`status
      ensures status == RolledBack
    {
      status := RolledBack;
    }
  }

  // ---------- Stage percentages ----------

  // The checks that a configuration must pass.
  predicate ValidStages(stages: seq<int>) {
    && stages != []
    && (forall i | 0 <= i < |stages| :: 1 <= stages[i] <= 100)
    && (forall i | 0 < i < |stages| :: stages[i - 1] < stages[i])
    && stages[|stages| - 1] == 100
  }

  // ceil(n * pct / 100)
  function CeilPercent(n: nat, pct: nat): nat {
    (n * pct + 99) / 100
  }

  // The least whole number that is no less than the exact percentage.
  lemma CeilPercentIsCeiling(n: nat, pct: nat, k: int)
    ensures k >= CeilPercent(n, pct) <==> 100 * k >= n * pct
  {
  }

  lemma CeilPercentMonotone(n: nat, p: nat, q: nat)
    requires p <= q <= 100
    ensures CeilPercent(n, p) <= CeilPercent(n, q) <= n
    ensures CeilPercent(n, 100) == n
  {
    Scale(n, p, q);
    Scale(n, q, 100);
  }

  lemma Scale(n: nat, p: nat, q: nat)
    requires p <= q
    ensures n * p <= n * q
  {
    assert n * q == n * p + n * (q - p);
    assert n * (q - p) >= 0;
  }
}
