/** Rebuilding a virtual cluster from a log (resilience/replay.py). */
module ReplayState {
  import opened Base
  import opened Events
  import opened Models
  import opened Timeline

  datatype Virtual = Virtual(version: Option<Version>, healthy: bool)

  datatype View = View(
    status: DeploymentStatus,
    target: Option<Version>,
    source: Option<Version>,
    servers: map<ServerId, Virtual>)

  const BLANK := View(Pending, None, None, map[])

  // ---------- What each event does to the view ----------

  function SetAll(servers: map<ServerId, Virtual>, ids: seq<ServerId>, v: Virtual): map<ServerId, Virtual> {
    map s | s in servers.Keys + (set i | i in ids) :: if s in ids then v else servers[s]
  }

  function RevertKnown(servers: map<ServerId, Virtual>, ids: seq<ServerId>, v: Virtual): map<ServerId, Virtual> {
    map s | s in servers :: if s in ids then v else servers[s]
  }

  function Degrade(servers: map<ServerId, Virtual>, version: Option<Version>): map<ServerId, Virtual> {
    map s | s in servers :: if servers[s].version == version then servers[s].(healthy := false) else servers[s]
  }

  function Apply(view: View, body: Body): View {
    match body
    case DeploymentStart(target, source) => view.(status := InProgress, target := Some(target), source := Some(source))
    case StageTransition(_, updated) => view.(servers := SetAll(view.servers, updated, Virtual(view.target, true)))
    case HealthCheck(_, passed, _) => if passed then view else view.(servers := Degrade(view.servers, view.target))
    case RollbackComplete(reverted) =>
      view.(status := RolledBack, servers := RevertKnown(view.servers, reverted, Virtual(view.source, true)))
    case DeploymentCompleted => view.(status := Completed)
    case RollbackInitiated => view.(status := RollingBack)
    case DeploymentFailed => view.(status := Failed)
    case _ => view
  }

  function Replay(events: seq<Event>): View {
    if events == [] then BLANK else Apply(Replay(Init(events)), Last(events).body)
  }

  // ---------- The fold, imperatively ----------

  method DegradeAll(before: map<ServerId, Virtual>, version: Option<Version>) returns (servers: map<ServerId, Virtual>)
    ensures servers == Degrade(before, version)
  {
    servers := before;
    var todo := servers.Keys;
    while todo != {}
      invariant todo <= servers.Keys == before.Keys
      invariant forall s | s in servers ::
                  servers[s] == if s in todo then before[s] else Degrade(before, version)[s]
    {
      var s :| s in todo;
      todo := todo - {s};
      if servers[s].version == version {
        servers := servers[s := servers[s].(healthy := false)];
      }
    }
  }

  method UpdateVirtualState(view: View, body: Body) returns (after: View)
    ensures after == Apply(view, body)
    ensures forall s :: s in after.servers <==> s in view.servers || (body.StageTransition? && s in body.updated)
    ensures forall s | s in after.servers ::
              after.servers[s] ==
              if body.StageTransition? && s in body.updated then Virtual(view.target, true)
              else if body.RollbackComplete? && s in body.reverted then Virtual(view.source, true)
              else if body.HealthCheck? && !body.passed && view.servers[s].version == view.target
              then Virtual(view.target, false)
              else view.servers[s]
    ensures if body.DeploymentStart? then after.target == Some(body.target) && after.source == Some(body.source)
            else after.target == view.target && after.source == view.source
  {
    var servers := view.servers;
    after := view;
    match body {
      case DeploymentStart(target, source) =>
        after := after.(target := Some(target), source := Some(source), status := InProgress);
      case StageTransition(_, updated) =>
        for i := 0 to |updated|
          invariant servers == SetAll(view.servers, updated[..i], Virtual(view.target, true))
        {
          assert updated[..i + 1] == updated[..i] + [updated[i]];
          servers := servers[updated[i] := Virtual(view.target, true)];
        }
        assert updated[..|updated|] == updated;
        after := after.(servers := servers);
      case HealthCheck(_, passed, _) =>
        if !passed {
          servers := DegradeAll(servers, view.target);
          after := after.(servers := servers);
        }
      case RollbackComplete(reverted) =>
        for i := 0 to |reverted|
          invariant servers == RevertKnown(view.servers, reverted[..i], Virtual(view.source, true))
        {
          assert reverted[..i + 1] == reverted[..i] + [reverted[i]];
          if reverted[i] in servers {
            servers := servers[reverted[i] := Virtual(view.source, true)];
          }
        }
        assert reverted[..|reverted|] == reverted;
        after := after.(servers := servers, status := RolledBack);
      case DeploymentCompleted => after := after.(status := Completed);
      case RollbackInitiated => after := after.(status := RollingBack);
      case DeploymentFailed => after := after.(status := Failed);
      case _ =>
    }
  }

  datatype StepError = StepNotFound(step: EventId)

  // The position of a step in the timeline, or its length.
  function StepIndex(timeline: seq<Event>, step: EventId): (k: nat)
    ensures k <= |timeline|
    ensures k < |timeline| ==> timeline[k].id == step
    ensures forall i | 0 <= i < k :: timeline[i].id != step
    decreases |timeline|
  {
    if timeline == [] then 0
    else if timeline[0].id == step then 0
    else 1 + StepIndex(timeline[1..], step)
  }

  lemma {:induction false} StepIndexIs(timeline: seq<Event>, step: EventId, k: nat)
    requires k <= |timeline| && forall i | 0 <= i < k :: timeline[i].id != step
    requires k < |timeline| ==> timeline[k].id == step
    ensures StepIndex(timeline, step) == k
  {
    if k > 0 {
      StepIndexIs(timeline[1..], step, k - 1);
    }
  }

  lemma PrefixStep(timeline: seq<Event>, k: nat)
    requires k < |timeline|
    ensures Replay(timeline[..k + 1]) == Apply(Replay(timeline[..k]), timeline[k].body)
  {
    assert Init(timeline[..k + 1]) == timeline[..k];
  }

  method ReplayUntil(timeline: seq<Event>, step: EventId) returns (r: Result<View, StepError>)
    ensures var k := StepIndex(timeline, step);
            r == if k < |timeline| then Ok(Replay(timeline[..k + 1])) else Err(StepNotFound(step))
  {
    var view := BLANK;
    var k := 0;
    while k < |timeline|
      invariant 0 <= k <= |timeline|
      invariant view == Replay(timeline[..k])
      invariant forall i | 0 <= i < k :: timeline[i].id != step
    {
      PrefixStep(timeline, k);
      view := UpdateVirtualState(view, timeline[k].body);
      if timeline[k].id == step {
        StepIndexIs(timeline, step, k);
        return Ok(view);
      }
      k := k + 1;
    }
    StepIndexIs(timeline, step, k);
    r := Err(StepNotFound(step));
  }

  method ReconstructStateAtStep(events: seq<Event>, step: EventId, deployment: Option<string>) returns (r: Result<View, StepError>)
    ensures var timeline := TimelineOf(Scope(events, deployment));
            var k := StepIndex(timeline, step);
            r == if k < |timeline| then Ok(Replay(timeline[..k + 1])) else Err(StepNotFound(step))
  {
    var timeline := ReconstructTimeline(events, deployment);
    r := ReplayUntil(timeline, step);
  }
}
