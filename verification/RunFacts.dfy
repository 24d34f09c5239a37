/**
 * What holds of the cluster and of the log while a rollout runs: facts about values,
 * used by the workflow and stated on their own.
 */
module RunFacts {
  import opened Base
  import opened Events
  import opened Models
  import opened Cluster
  import opened Deployment
  import opened Timeline
  import opened ReplayState
  import opened Shuffle
  import Stage
  import Recovery

  // ---------- The cluster ----------

  // Equal but for the status and the resource readings.
  ghost predicate SameBut(s: Server, t: Server) {
    s.(status := t.status, cpu := t.cpu, memory := t.memory) == t
  }

  ghost predicate OnlyStatuses(before: Servers, now: Servers) {
    now.Keys == before.Keys && forall id | id in now :: SameBut(before[id], now[id])
  }

  // Since `before`, exactly `ids` were deployed, once each.
  ghost predicate Progressed(before: Servers, now: Servers, ids: set<ServerId>, target: Version) {
    && now.Keys == before.Keys && ids <= now.Keys
    && forall id | id in now :: SameBut(if id in ids then Deployed(before[id], target) else before[id], now[id])
  }

  lemma StartProgress(before: Servers, target: Version)
    ensures Progressed(before, before, {}, target)
  {
  }

  lemma StatusProgress(before: Servers, mid: Servers, now: Servers, ids: set<ServerId>, target: Version)
    requires Progressed(before, mid, ids, target) && OnlyStatuses(mid, now)
    ensures Progressed(before, now, ids, target)
  {
  }

  lemma StageProgress(before: Servers, mid: Servers, now: Servers, ids: set<ServerId>, newly: set<ServerId>, target: Version)
    requires Progressed(before, mid, ids, target) && newly <= mid.Keys - ids
    requires now == Stage.DeployAll(mid, newly, target)
    ensures Progressed(before, now, ids + newly, target)
  {
    forall id | id in now
      ensures SameBut(if id in ids + newly then Deployed(before[id], target) else before[id], now[id])
    {
      assert SameBut(if id in ids then Deployed(before[id], target) else before[id], mid[id]);
    }
  }

  // Rolled back: every server at its version from before, except that `lost` were
  // deployed without the run knowing.
  ghost predicate Restored(before: Servers, now: Servers, lost: set<ServerId>, target: Version) {
    && now.Keys == before.Keys
    && forall id | id in now :: now[id].version == if id in lost then target else before[id].version
  }

  lemma RevertProgress(before: Servers, mid: Servers, now: Servers, ids: set<ServerId>, lost: set<ServerId>, target: Version)
    requires Progressed(before, mid, ids + lost, target) && ids !! lost
    requires now == Recovery.RevertAll(mid, ids)
    ensures Restored(before, now, lost, target)
    ensures forall id | id in ids :: mid[id].previous.Some?
  {
    forall id | id in now
      ensures now[id].version == if id in lost then target else before[id].version
    {
      assert SameBut(if id in ids + lost then Deployed(before[id], target) else before[id], mid[id]);
      assert id in ids ==> Last(mid[id].history).action == Deploy;
    }
    forall id | id in ids ensures mid[id].previous.Some? {
      assert SameBut(Deployed(before[id], target), mid[id]);
    }
  }

  // ---------- The chain of events ----------

  ghost predicate Linked(chain: seq<Event>) {
    chain == [] ||
    (Linked(Init(chain)) && Last(chain).parent == if Init(chain) == [] then "" else Last(Init(chain)).id)
  }

  lemma {:induction false} LinkedIsChain(chain: seq<Event>)
    requires Linked(chain) && chain != []
    ensures IsChain(chain)
  {
    if |chain| > 1 {
      LinkedIsChain(Init(chain));
      SplitLast(chain);
    }
  }

  ghost predicate Owned(own: seq<Event>, deployment: string) {
    forall e | e in own :: e.deployment == e.correlation == deployment
  }

  // A record made on the side of a run: parentless, and ignored by replay.
  ghost predicate Aside(e: Event) {
    e.parent == "" && Inert(e.body)
  }

  // The records of one run in its log, in the order of logging: each is the next of
  // the chain, with the one before as its parent, or made on the side.
  ghost predicate Merged(own: seq<Event>, chain: seq<Event>, others: seq<Event>) {
    if own == [] then chain == [] && others == [] else
    || (&& chain != [] && Last(own) == Last(chain)
        && Last(chain).parent == (if Init(chain) == [] then "" else Last(Init(chain)).id)
        && Merged(Init(own), Init(chain), others))
    || (others != [] && Last(own) == Last(others) && Aside(Last(others)) && Merged(Init(own), chain, Init(others)))
  }

  lemma MergedChain(own: seq<Event>, chain: seq<Event>, others: seq<Event>, e: Event)
    requires Merged(own, chain, others) && e.parent == if chain == [] then "" else Last(chain).id
    ensures Merged(own + [e], chain + [e], others)
  {
    InitMore(own, e);
    InitMore(chain, e);
  }

  lemma MergedOther(own: seq<Event>, chain: seq<Event>, others: seq<Event>, e: Event)
    requires Merged(own, chain, others) && Aside(e)
    ensures Merged(own + [e], chain, others + [e])
  {
    InitMore(own, e);
    InitMore(others, e);
  }

  lemma {:induction false} MergedLinks(own: seq<Event>, chain: seq<Event>, others: seq<Event>)
    requires Merged(own, chain, others)
    ensures Linked(chain)
    ensures forall e | e in others :: Aside(e)
  {
    if own != [] {
      if chain != [] && Merged(Init(own), Init(chain), others)
         && Last(chain).parent == if Init(chain) == [] then "" else Last(Init(chain)).id {
        MergedLinks(Init(own), Init(chain), others);
      } else {
        MergedLinks(Init(own), chain, Init(others));
        SplitLast(others);
      }
    }
  }

  lemma {:induction false} MergedMultiset(own: seq<Event>, chain: seq<Event>, others: seq<Event>)
    requires Merged(own, chain, others)
    ensures multiset(own) == multiset(chain) + multiset(others)
  {
    if own != [] {
      SplitLast(own);
      if chain != [] && Last(own) == Last(chain) && Merged(Init(own), Init(chain), others) {
        SplitLast(chain);
        MergedMultiset(Init(own), Init(chain), others);
      } else {
        SplitLast(others);
        MergedMultiset(Init(own), chain, Init(others));
      }
    }
  }

  // ---------- Replaying the chain ----------

  // The rebuilt view knows just the servers `ids`, each at its real version.
  ghost predicate Shows(view: View, ids: set<ServerId>, servers: Servers) {
    && view.servers.Keys == ids && ids <= servers.Keys
    && forall id | id in ids :: view.servers[id].version == Some(servers[id].version)
  }

  ghost predicate AllOn(servers: Servers, version: Version) {
    forall id | id in servers :: servers[id].version == version
  }

  // A rollback and its view: the view knows just the servers `ids`, and shows them as
  // they are if the cluster was all on the source version before.
  ghost predicate UndoneAs(view: View, before: Servers, now: Servers, ids: set<ServerId>, lost: set<ServerId>,
                           target: Version, source: Version)
  {
    && Restored(before, now, lost, target) && view.servers.Keys == ids
    && (AllOn(before, source) ==> Shows(view, ids, now))
  }

  lemma ReplayMore(chain: seq<Event>, e: Event)
    ensures Replay(chain + [e]) == Apply(Replay(chain), e.body)
  {
    assert Init(chain + [e]) == chain;
  }

  lemma InitMore<T>(s: seq<T>, x: T)
    ensures Init(s + [x]) == s && Last(s + [x]) == x
  {
  }

  // While the rollout goes forward, the view knows exactly the updated servers, on
  // the target version.
  ghost predicate Forward(view: View, ids: set<ServerId>, target: Version, source: Version) {
    && view.target == Some(target) && view.source == Some(source)
    && view.servers.Keys == ids
    && forall id | id in ids :: view.servers[id].version == Some(target)
  }

  predicate Neutral(body: Body) {
    !body.DeploymentStart? && !body.StageTransition? && !body.RollbackComplete?
  }

  lemma NeutralForward(view: View, body: Body, ids: set<ServerId>, target: Version, source: Version)
    requires Forward(view, ids, target, source) && Neutral(body)
    ensures Forward(Apply(view, body), ids, target, source)
  {
  }

  lemma TransitionForward(view: View, stage: nat, newly: seq<ServerId>, ids: set<ServerId>, target: Version, source: Version)
    requires Forward(view, ids, target, source)
    ensures Forward(Apply(view, StageTransition(stage, newly)), ids + Elems(newly), target, source)
  {
  }

  lemma ForwardShows(view: View, before: Servers, now: Servers, ids: set<ServerId>, target: Version, source: Version)
    requires Forward(view, ids, target, source) && Progressed(before, now, ids, target)
    ensures Shows(view, ids, now)
  {
    forall id | id in view.servers ensures view.servers[id].version == Some(now[id].version) {
      assert SameBut(Deployed(before[id], target), now[id]);
    }
  }

  // On a cluster that was all on the source version, so does the view after a
  // rollback that lists every server it brought back to the source version.
  lemma RollbackShows(view: View, before: Servers, now: Servers, ids: set<ServerId>, lost: set<ServerId>,
                       rolledBack: seq<ServerId>, target: Version, source: Version)
    requires Forward(view, ids, target, source)
    requires Restored(before, now, lost, target) && ids <= now.Keys && ids !! lost
    requires forall id | id in ids && now[id].version == source :: id in rolledBack
    requires AllOn(before, source)
    ensures Shows(Apply(view, RollbackComplete(rolledBack)), ids, now)
  {
  }

  // A rollback adds no server to the view, and drops none.
  lemma RollbackKnows(view: View, rolledBack: seq<ServerId>)
    ensures Apply(view, RollbackComplete(rolledBack)).servers.Keys == view.servers.Keys
  {
  }

  // ---------- What replay tells of one server ----------

  predicate Lists(e: Event, id: ServerId) {
    e.body.StageTransition? && id in e.body.updated
  }

  // Event `i` is a failed check, after a transition that lists the server, and no
  // later one does.
  ghost predicate FailsSince(chain: seq<Event>, id: ServerId, i: nat) {
    && i < |chain| && chain[i].body.HealthCheck? && !chain[i].body.passed
    && (exists j :: 0 <= j < i && Lists(chain[j], id))
    && forall j | i < j < |chain| :: !Lists(chain[j], id)
  }

  // One start, at the beginning, and no closing rollback before the end.
  ghost predicate OneRun(chain: seq<Event>) {
    && chain != [] && chain[0].body.DeploymentStart?
    && (forall i | 0 < i < |chain| :: !chain[i].body.DeploymentStart?)
    && forall i | 0 <= i < |chain| - 1 :: !chain[i].body.RollbackComplete?
  }

  // What a view should know of the server after a run's events: nothing unless a
  // transition lists it; else it is back if a closing rollback names it, and otherwise
  // on the target version, and unhealthy exactly if a check has failed since it was
  // last listed.
  ghost predicate ToldOf(chain: seq<Event>, id: ServerId, view: View)
    requires OneRun(chain)
  {
    && (id in view.servers <==> exists j :: 0 <= j < |chain| && Lists(chain[j], id))
    && (id in view.servers ==>
          if Last(chain).body.RollbackComplete? && id in Last(chain).body.reverted
          then view.servers[id] == Virtual(Some(chain[0].body.source), true)
          else
            && view.servers[id].version == Some(chain[0].body.target)
            && (!view.servers[id].healthy <==> exists i :: FailsSince(chain, id, i)))
  }

  lemma VersionsTold(chain: seq<Event>)
    requires OneRun(chain)
    ensures Replay(chain).target == Some(chain[0].body.target) && Replay(chain).source == Some(chain[0].body.source)
    decreases |chain|
  {
    if |chain| == 1 {
      assert Init(chain) == [];
    } else {
      VersionsTold(Init(chain));
    }
  }

  lemma {:induction false} ServerTold(chain: seq<Event>, id: ServerId)
    requires OneRun(chain)
    ensures ToldOf(chain, id, Replay(chain))
    decreases |chain|
  {
    if |chain| == 1 {
      assert Init(chain) == [];
    } else {
      ServerTold(Init(chain), id);
      VersionsTold(Init(chain));
      ListedMore(chain, id);
      FailedMore(chain, id);
      ToldNext(chain, id, Replay(Init(chain)));
    }
  }

  lemma ToldNext(chain: seq<Event>, id: ServerId, view: View)
    requires |chain| > 1 && OneRun(chain) && OneRun(Init(chain)) && ToldOf(Init(chain), id, view)
    requires view.target == Some(chain[0].body.target) && view.source == Some(chain[0].body.source)
    requires (exists j :: 0 <= j < |chain| && Lists(chain[j], id)) <==> id in view.servers || Lists(Last(chain), id)
    requires (exists i :: FailsSince(chain, id, i)) <==>
               && !Lists(Last(chain), id)
               && ((exists i :: FailsSince(Init(chain), id, i)) ||
                   (Last(chain).body.HealthCheck? && !Last(chain).body.passed && id in view.servers))
    ensures ToldOf(chain, id, Apply(view, Last(chain).body))
  {
  }

  lemma ListedMore(chain: seq<Event>, id: ServerId)
    requires |chain| > 1
    ensures (exists j :: 0 <= j < |chain| && Lists(chain[j], id)) <==>
              (exists j :: 0 <= j < |Init(chain)| && Lists(Init(chain)[j], id)) || Lists(Last(chain), id)
  {
    forall j | 0 <= j < |Init(chain)| ensures Init(chain)[j] == chain[j] {}
    assert Last(chain) == chain[|chain| - 1];
  }

  lemma FailedMore(chain: seq<Event>, id: ServerId)
    requires |chain| > 1
    ensures (exists i :: FailsSince(chain, id, i)) <==>
              && !Lists(Last(chain), id)
              && ((exists i :: FailsSince(Init(chain), id, i)) ||
                  (Last(chain).body.HealthCheck? && !Last(chain).body.passed &&
                   exists j :: 0 <= j < |Init(chain)| && Lists(Init(chain)[j], id)))
  {
    var rest, last := Init(chain), |chain| - 1;
    forall i: nat | i < last ensures FailsSince(chain, id, i) <==> FailsSince(rest, id, i) && !Lists(chain[last], id) {
      FailsMore(chain, id, i);
    }
    forall j | 0 <= j < last ensures rest[j] == chain[j] {}
    if Last(chain).body.HealthCheck? && !Last(chain).body.passed && exists j :: 0 <= j < |rest| && Lists(rest[j], id) {
      var j :| 0 <= j < |rest| && Lists(rest[j], id);
      assert Lists(chain[j], id);
      assert FailsSince(chain, id, last);
    }
    if FailsSince(chain, id, last) {
      var j :| 0 <= j < last && Lists(chain[j], id);
      assert Lists(rest[j], id);
    }
  }

  lemma FailsMore(chain: seq<Event>, id: ServerId, i: nat)
    requires i < |chain| - 1
    ensures FailsSince(chain, id, i) <==> FailsSince(Init(chain), id, i) && !Lists(Last(chain), id)
  {
    forall j | 0 <= j < |chain| - 1 ensures Init(chain)[j] == chain[j] {}
  }

  // ---------- The grammar of the chain ----------

  datatype Ending = EndCompleted | EndViolation | EndRolledBack | EndFailed

  // How far a run has come, as its chain tells it. `Ready(k)` is before stage k,
  // with stage k - 1 passed; `Unhealthy(k, r)` is after the failed check with retry
  // count r of stage k.
  datatype Phase =
    | Fresh
    | Started
    | Ready(stage: nat)
    | Snapped(stage: nat)
    | Moved(stage: nat)
    | Unhealthy(stage: nat, retry: nat)
    | Isolating
    | AbortNoted
    | Undoing
    | UndoSnapped
    | UndoStarted
    | Ended(ending: Ending)
    | Wrong

  // From here a run may note an abort.
  predicate Abortable(p: Phase) {
    p.Ready? || p.Snapped? || p.Moved? || p.Unhealthy? || p.Isolating?
  }

  // From here a run may begin, or be refused, a rollback.
  predicate Undoable(p: Phase, maxRetries: nat) {
    (p.Ready? && p.stage > 0) || p.Moved? || (p.Unhealthy? && p.retry == maxRetries) || p.Isolating?
  }

  function Advance(p: Phase, body: Body, stages: nat, maxRetries: nat): Phase {
    match body
    case DeploymentStart(_, _) => if p == Fresh then Started else Wrong
    case SnapshotCreate =>
      if p == Started then Ready(0)
      else if p.Ready? && p.stage < stages then Snapped(p.stage)
      else if p == Undoing then UndoSnapped
      else Wrong
    case StageTransition(k, _) => if p == Snapped(k) then Moved(k) else Wrong
    case HealthCheck(k, passed, retry) =>
      if (p == Moved(k) && retry == 0) || (retry > 0 && p == Unhealthy(k, retry - 1) && retry <= maxRetries)
      then if passed then Ready(k + 1) else Unhealthy(k, retry)
      else Wrong
    case QuarantineActivate(_) =>
      if (p.Unhealthy? && p.retry == maxRetries) || p == Isolating then Isolating else Wrong
    case PolicyViolation => if p.Ready? || Undoable(p, maxRetries) then Ended(EndViolation) else Wrong
    case AbortReceived => if Abortable(p) then AbortNoted else Wrong
    case RollbackInitiated => if p == AbortNoted || Undoable(p, maxRetries) then Undoing else Wrong
    case RollbackStart => if p == UndoSnapped then UndoStarted else Wrong
    case RollbackComplete(_) => if p == UndoStarted then Ended(EndRolledBack) else Wrong
    case DeploymentCompleted => if p == Ready(stages) then Ended(EndCompleted) else Wrong
    case DeploymentFailed => if p.Snapped? || p.Moved? then Ended(EndFailed) else Wrong
    case _ => Wrong
  }

  function PhaseOf(chain: seq<Event>, stages: nat, maxRetries: nat): Phase {
    if chain == [] then Fresh else Advance(PhaseOf(Init(chain), stages, maxRetries), Last(chain).body, stages, maxRetries)
  }

  lemma PhaseMore(chain: seq<Event>, e: Event, stages: nat, maxRetries: nat)
    ensures PhaseOf(chain + [e], stages, maxRetries) == Advance(PhaseOf(chain, stages, maxRetries), e.body, stages, maxRetries)
  {
    assert Init(chain + [e]) == chain;
  }

  // What replay makes of a run that has come so far.
  function ReplayedAs(p: Phase): DeploymentStatus {
    match p
    case Fresh => Pending
    case Undoing => RollingBack
    case UndoSnapped => RollingBack
    case UndoStarted => RollingBack
    case Ended(EndCompleted) => Completed
    case Ended(EndRolledBack) => RolledBack
    case Ended(EndFailed) => Failed
    case _ => InProgress
  }

  lemma {:induction false} StatusReplayed(chain: seq<Event>, stages: nat, maxRetries: nat)
    requires PhaseOf(chain, stages, maxRetries) != Wrong
    ensures Replay(chain).status == ReplayedAs(PhaseOf(chain, stages, maxRetries))
  {
    if chain != [] {
      StatusReplayed(Init(chain), stages, maxRetries);
    }
  }

  predicate Closes(body: Body) {
    body.DeploymentCompleted? || body.PolicyViolation? || body.RollbackComplete? || body.DeploymentFailed?
  }

  function EndingOf(body: Body): Ending
    requires Closes(body)
  {
    if body.DeploymentCompleted? then EndCompleted
    else if body.PolicyViolation? then EndViolation
    else if body.RollbackComplete? then EndRolledBack
    else EndFailed
  }

  // A well-formed chain holds a closing event only at its end.
  lemma {:induction false} ClosesOnce(chain: seq<Event>, stages: nat, maxRetries: nat, k: nat)
    requires PhaseOf(chain, stages, maxRetries) != Wrong && k < |chain|
    ensures Closes(chain[k].body) <==> k == |chain| - 1 && PhaseOf(chain, stages, maxRetries).Ended?
    ensures Closes(chain[k].body) ==> PhaseOf(chain, stages, maxRetries) == Ended(EndingOf(chain[k].body))
  {
    if k < |chain| - 1 {
      ClosesOnce(Init(chain), stages, maxRetries, k);
    }
  }

  // Every run begins with its start and the first snapshot, and has ended only after
  // those.
  lemma {:induction false} BeginsWell(chain: seq<Event>, stages: nat, maxRetries: nat)
    requires PhaseOf(chain, stages, maxRetries) != Wrong
    ensures chain == [] <==> PhaseOf(chain, stages, maxRetries) == Fresh
    ensures |chain| == 1 <==> PhaseOf(chain, stages, maxRetries) == Started
    ensures |chain| >= 1 ==> chain[0].body.DeploymentStart?
    ensures |chain| >= 2 ==> chain[1].body.SnapshotCreate?
  {
    if chain != [] {
      BeginsWell(Init(chain), stages, maxRetries);
    }
  }

  lemma {:induction false} StartsOnce(chain: seq<Event>, stages: nat, maxRetries: nat, k: nat)
    requires PhaseOf(chain, stages, maxRetries) != Wrong && 0 < k < |chain|
    ensures !chain[k].body.DeploymentStart?
  {
    if k < |chain| - 1 {
      StartsOnce(Init(chain), stages, maxRetries, k);
    } else {
      BeginsWell(Init(chain), stages, maxRetries);
    }
  }

  // A rollback, once begun, shows in the ending; so it excludes DEPLOYMENT_FAILED.
  predicate AfterRollback(p: Phase) {
    p == Undoing || p == UndoSnapped || p == UndoStarted || p == Ended(EndRolledBack)
  }

  lemma {:induction false} RollbackExcludesFailure(chain: seq<Event>, stages: nat, maxRetries: nat, k: nat)
    requires PhaseOf(chain, stages, maxRetries) != Wrong && k < |chain| && chain[k].body.RollbackInitiated?
    ensures AfterRollback(PhaseOf(chain, stages, maxRetries))
    ensures forall i | 0 <= i < |chain| :: !chain[i].body.DeploymentFailed?
  {
    if k < |chain| - 1 {
      RollbackExcludesFailure(Init(chain), stages, maxRetries, k);
    }
    forall i | 0 <= i < |chain| ensures !chain[i].body.DeploymentFailed? {
      if i < |chain| - 1 {
        ClosesOnce(chain, stages, maxRetries, i);
      }
    }
  }

  lemma UndoStepBack(chain: seq<Event>, stages: nat, maxRetries: nat)
    requires AfterRollback(PhaseOf(chain, stages, maxRetries))
    ensures chain != []
    ensures var p, before, last := PhaseOf(chain, stages, maxRetries), PhaseOf(Init(chain), stages, maxRetries), Last(chain).body;
            && (p == Ended(EndRolledBack) ==> last.RollbackComplete? && before == UndoStarted)
            && (p == UndoStarted ==> last.RollbackStart? && before == UndoSnapped)
            && (p == UndoSnapped ==> last.SnapshotCreate? && before == Undoing)
            && (p == Undoing ==> last.RollbackInitiated?)
  {
  }

  // A rollback on record is four events in a row: initiated, its snapshot, started,
  // complete.
  lemma RollbackSequence(chain: seq<Event>, stages: nat, maxRetries: nat)
    requires PhaseOf(chain, stages, maxRetries) == Ended(EndRolledBack)
    ensures |chain| >= 4
    ensures var n := |chain|;
            && chain[n - 4].body.RollbackInitiated? && chain[n - 3].body.SnapshotCreate?
            && chain[n - 2].body.RollbackStart? && chain[n - 1].body.RollbackComplete?
  {
    UndoStepBack(chain, stages, maxRetries);
    UndoStepBack(Init(chain), stages, maxRetries);
    UndoStepBack(Init(Init(chain)), stages, maxRetries);
    UndoStepBack(Init(Init(Init(chain))), stages, maxRetries);
  }

  lemma LastTells(chain: seq<Event>, stages: nat, maxRetries: nat)
    requires PhaseOf(chain, stages, maxRetries) != Wrong
    ensures PhaseOf(chain, stages, maxRetries).Snapped? ==> chain != [] && Last(chain).body.SnapshotCreate?
    ensures chain != [] && Last(chain).body.AbortReceived? ==> PhaseOf(chain, stages, maxRetries) == AbortNoted
  {
  }

  // A snapshot is taken right before each transition, and an abort, once noted, is
  // followed by a rollback at once.
  lemma Neighbours(chain: seq<Event>, stages: nat, maxRetries: nat)
    requires |chain| > 1 && PhaseOf(chain, stages, maxRetries) != Wrong
    ensures Last(chain).body.StageTransition? ==> chain[|chain| - 2].body.SnapshotCreate?
    ensures chain[|chain| - 2].body.AbortReceived? ==> Last(chain).body.RollbackInitiated?
  {
    LastTells(Init(chain), stages, maxRetries);
    assert Last(Init(chain)) == chain[|chain| - 2];
  }

  // A health check names its stage's transition and is numbered one above the
  // failed check before it.
  lemma HealthChecksNumbered(chain: seq<Event>, stages: nat, maxRetries: nat)
    requires chain != [] && PhaseOf(chain, stages, maxRetries) != Wrong && Last(chain).body.HealthCheck?
    ensures var HealthCheck(k, passed, retry) := Last(chain).body;
            && retry <= maxRetries && |chain| > 1
            && var previous := chain[|chain| - 2].body;
               if retry == 0 then previous.StageTransition? && previous.stage == k
               else previous == HealthCheck(k, false, retry - 1)
  {
    var before := Init(chain);
    assert before != [];
    assert PhaseOf(before, stages, maxRetries) != Wrong;
    assert Last(before) == chain[|chain| - 2];
  }

  // A completed run transitioned through every stage, in order.
  function Transitions(chain: seq<Event>): seq<nat> {
    if chain == [] then [] else
    Transitions(Init(chain)) + if Last(chain).body.StageTransition? then [Last(chain).body.stage] else []
  }

  ghost predicate CountsUp(s: seq<nat>) {
    forall i | 0 <= i < |s| :: s[i] == i
  }

  lemma {:induction false} StagesInOrder(chain: seq<Event>, stages: nat, maxRetries: nat)
    requires PhaseOf(chain, stages, maxRetries) != Wrong
    ensures CountsUp(Transitions(chain)) && |Transitions(chain)| <= stages
    ensures var p, n := PhaseOf(chain, stages, maxRetries), |Transitions(chain)|;
            && (p == Fresh || p == Started ==> n == 0)
            && (p.Ready? || p.Snapped? ==> n == p.stage)
            && (p.Moved? || p.Unhealthy? ==> n == p.stage + 1)
            && (p == Ended(EndCompleted) ==> n == stages)
  {
    if chain != [] {
      StagesInOrder(Init(chain), stages, maxRetries);
    }
  }
}
