/**
 * The rollout run (deploy/workflows.py): for each stage two checkpoints, a snapshot, the
 * stage's activity, health checks with retries and a delay; an abort signal may come in
 * on every await; and what is raised is handled by a rollback, a violation or a failure.
 * Line numbers in comments are those of that file.
 */
module Workflow {
  import opened Base
  import opened Events
  import opened Models
  import opened Cluster
  import opened Deployment
  import opened ReplayState
  import opened Shuffle
  import opened RunFacts
  import opened Coverage
  import opened Fates
  import opened Courses
  import opened Activities
  import opened Journals
  import Quarantine
  import Recovery
  import Stage

  function RemoveFirst<T(==)>(s: seq<T>, x: T): seq<T> {
    if s == [] then [] else if s[0] == x then s[1..] else [s[0]] + RemoveFirst(s[1..], x)
  }

  lemma {:induction false} RemoveFirstFacts<T>(s: seq<T>, x: T)
    requires NoDup(s)
    ensures NoDup(RemoveFirst(s, x)) && Elems(RemoveFirst(s, x)) == Elems(s) - {x}
  {
    if s != [] {
      assert s == [s[0]] + s[1..];
      NoDupConcat([s[0]], s[1..]);
      ElemsConcat([s[0]], s[1..]);
      if s[0] != x {
        RemoveFirstFacts(s[1..], x);
        NoDupConcat([s[0]], RemoveFirst(s[1..], x));
        ElemsConcat([s[0]], RemoveFirst(s[1..], x));
        assert Init([s[0]]) == [];
      }
    }
  }

  datatype Flow = Continue | Return | Raise(raised: Raising)

  class CanaryDeploymentWorkflow {
    const activities: CanaryDeploymentActivities
    const journal: Journal
    const config: Config
    const env: Environment
    var aborted: bool
    var status: DeploymentStatus
    var currentStage: int
    var updated: seq<ServerId>
    var pending: seq<ServerId>
    var results: seq<StageResult>
    var tick: nat // awaits made
    ghost var before: Servers
    ghost var quarantinedBefore: set<Region>
    ghost var abortedBefore: bool
    ghost var path: seq<Position> // the course so far

    // `aborted` is whether an abort signal arrives before the run begins.
    constructor (activities: CanaryDeploymentActivities, config: Config, env: Environment, aborted: bool)
      requires activities.logger.Valid()
      ensures this.activities == activities && this.config == config && this.env == env && this.aborted == aborted
      ensures fresh(journal) && Wired() && journal.Valid() && journal.pages == [FIRST]
      ensures journal.prior == activities.logger.events
    {
      this.activities, this.config, this.env, this.aborted := activities, config, env, aborted;
      var journal := new Journal(activities.logger, Heading(config.deploymentId, |config.stages|, config.maxRetries));
      this.journal := journal;
      this.status, this.currentStage, this.updated, this.pending, this.results, this.tick := Pending, -1, [], [], [], 0;
    }

    // ---------- What holds during a run ----------

    ghost predicate Wired() {
      && journal.logger == activities.logger
      && journal.heading == Heading(config.deploymentId, |config.stages|, config.maxRetries)
    }

    ghost function Given(): Setting
      reads this`before, this`quarantinedBefore
    {
      Setting(before, quarantinedBefore, env.Calm())
    }

    ghost predicate Stand(p: Position)
      reads this`updated, this`pending, this`results, activities.cluster
    {
      p.now == activities.cluster.servers && p.updated == updated && p.pending == pending && p.results == results
    }

    ghost predicate Sound()
      reads this`before, this`quarantinedBefore, this`path, activities.cluster, activities.quarantine
    {
      && Wired() && env.Valid() && activities.Sound() && activities.RegionsNamed()
      && Listed(Given(), config) && Course(Given(), config, path)
    }

    ghost predicate Settled()
      reads this`aborted, this`tick, this`before, this`quarantinedBefore, this`abortedBefore, this`path,
            journal, activities.cluster, activities.logger, activities.quarantine
    {
      && Sound() && journal.Valid() && Within(Last(journal.pages).snaps, path)
      && (aborted <==> env.Heard(abortedBefore, tick))
    }

    // Holds between any two steps of a run: the bookkeeping matches the cluster.
    ghost predicate Running()
      reads this`aborted, this`tick, this`updated, this`pending, this`results,
            this`before, this`quarantinedBefore, this`abortedBefore, this`path,
            journal, activities.cluster, activities.logger, activities.quarantine
    {
      Settled() && Stand(Last(path))
    }

    // ... and this as long as no rollback has begun.
    ghost predicate Advancing()
      reads this`updated, journal
    {
      Forward(journal.view, Elems(updated), config.target, config.source)
    }

    // No region has been quarantined or released since the run began.
    ghost predicate Steady()
      reads this`quarantinedBefore, activities.quarantine
    {
      activities.Quarantined() == quarantinedBefore
    }

    // The regions quarantined by the run.
    ghost function Isolated(): nat
      reads this`quarantinedBefore, activities.quarantine
    {
      |activities.Quarantined() - quarantinedBefore|
    }

    // ---------- Awaits and records ----------

    // An await: the abort handler may run meanwhile.
    method Await()
      modifies this`aborted, this`status, this`tick
      ensures tick == old(tick) + 1
      ensures aborted == (old(aborted) || env.signal(old(tick)))
      ensures status == if env.signal(old(tick)) then Aborted else old(status)
    {
      if env.signal(tick) {
        aborted := true;
        status := Aborted;
      }
      tick := tick + 1;
    }

    method Wait()
      requires Running()
      modifies this`aborted, this`status, this`tick
      ensures Running() && tick == old(tick) + 1
      ensures status == if env.signal(old(tick)) then Aborted else old(status)
    {
      Await();
    }

    method Append(body: Body, ghost at: Position)
      requires journal.Valid() && Wired() && Within(Last(journal.pages).snaps, path) && at in path
      requires Tells(Apply(journal.view, body), body, at)
      modifies journal, journal.logger
      ensures journal.Valid() && Within(Last(journal.pages).snaps, path)
      ensures journal.phase == Advance(old(journal.phase), body, |config.stages|, config.maxRetries)
      ensures journal.view == Apply(old(journal.view), body)
    {
      WithinMore(Last(journal.pages).snaps, path, at);
      journal.Record(body, at);
    }

    method Jot(body: Body)
      requires Running() && Tells(Apply(journal.view, body), body, Last(path))
      modifies journal, journal.logger
      ensures Running()
      ensures journal.phase == Advance(old(journal.phase), body, |config.stages|, config.maxRetries)
      ensures journal.view == Apply(old(journal.view), body)
    {
      Append(body, Last(path));
    }

    method RecordEvent(body: Body)
      requires Running() && Tells(Apply(journal.view, body), body, Last(path))
      modifies this`aborted, this`status, this`tick, journal, journal.logger
      ensures Running() && tick == old(tick) + 1
      ensures status == if env.signal(old(tick)) then Aborted else old(status)
      ensures journal.phase == Advance(old(journal.phase), body, |config.stages|, config.maxRetries)
      ensures journal.view == Apply(old(journal.view), body)
    {
      Jot(body);
      Wait();
    }

    method RecordNeutral(body: Body)
      requires Running() && Advancing() && Neutral(body)
      modifies this`aborted, this`status, this`tick, journal, journal.logger
      ensures Running() && Advancing() && tick == old(tick) + 1
      ensures status == if env.signal(old(tick)) then Aborted else old(status)
      ensures journal.phase == Advance(old(journal.phase), body, |config.stages|, config.maxRetries)
    {
      NeutralForward(journal.view, body, Elems(updated), config.target, config.source);
      RecordEvent(body);
    }

    // A governance checkpoint, which puts records on the side.
    method Evaluate() returns (decision: Decision)
      requires Running()
      modifies this`aborted, this`status, this`tick, journal`pages, journal.logger
      ensures Running() && tick == old(tick) + 1 && decision == env.verdict(old(tick))
    {
      var records := env.records(tick);
      assert forall b | b in records :: Inert(b);
      journal.RecordAside(records);
      decision := env.verdict(tick);
      Await();
    }

    // The run ended with a policy violation on record.
    ghost predicate Blocked()
      reads this`tick, this`status, journal
    {
      && journal.phase == Ended(EndViolation) && tick > 0
      && status == if env.signal(tick - 1) then Aborted else Failed
    }

    // The phase allows for every way in which the handler may go on.
    ghost predicate Stopped(x: Raising)
      reads journal
    {
      && Abortable(journal.phase)
      && (Recoverable(x) ==> Undoable(journal.phase, config.maxRetries))
      && (SaysAbort(x) || Recoverable(x) || journal.phase.Snapped? || journal.phase.Moved?)
    }

    method Violate()
      requires Running() && Advancing() && (journal.phase.Ready? || Undoable(journal.phase, config.maxRetries))
      modifies this`aborted, this`status, this`tick, journal, journal.logger
      ensures Running() && Advancing() && Blocked() && tick == old(tick) + 1
    {
      status := Failed;
      RecordNeutral(PolicyViolation);
    }

    // create_snapshot, and the event that tells of it.
    method Snapshot()
      requires Running() && Advancing()
      modifies this`aborted, this`status, this`tick, journal, journal.logger
      ensures Running() && Advancing() && tick == old(tick) + 2
      ensures journal.phase == Advance(old(journal.phase), SnapshotCreate, |config.stages|, config.maxRetries)
    {
      Wait();
      RecordNeutral(SnapshotCreate);
    }

    // ---------- One stage ----------

    // Lines 168 to 191.
    method SnapshotStage(k: nat)
      requires Running() && Advancing() && journal.phase == Ready(k) && k < |config.stages|
      modifies this`aborted, this`status, this`tick, this`currentStage, journal, journal.logger
      ensures Running() && Advancing() && tick == old(tick) + 2 && journal.phase == Snapped(k) && currentStage == k
    {
      Snapshot();
      currentStage := k;
    }

    // Lines 141 to 191: until the stage's activity.
    method EnterStage(k: nat) returns (flow: Flow)
      requires Running() && Advancing() && journal.phase == Ready(k) && k < |config.stages|
      modifies this`aborted, this`status, this`tick, this`currentStage, journal, journal.logger
      ensures Running() && Advancing()
      ensures flow == if old(aborted) then Raise(AbortSignal) else if env.verdict(old(tick)) == Block then Return else Continue
      ensures flow == Continue ==> journal.phase == Snapped(k) && tick == old(tick) + 3 && currentStage == k
      ensures flow == Return ==> Blocked() && tick == old(tick) + 2
      ensures flow.Raise? ==> Stopped(flow.raised) && tick == old(tick)
    {
      if aborted { return Raise(AbortSignal); }
      var decision := Evaluate();
      if decision == Block {
        Violate();
        return Return;
      }
      SnapshotStage(k);
      flow := Continue;
    }

    // Removes each of `ids` from the list, where it is.
    method Without(list: seq<ServerId>, ids: seq<ServerId>) returns (rest: seq<ServerId>)
      requires NoDup(list)
      ensures NoDup(rest) && Elems(rest) == Elems(list) - Elems(ids) && (list == [] ==> rest == [])
    {
      rest := list;
      for i := 0 to |ids|
        invariant NoDup(rest) && Elems(rest) == Elems(list) - Elems(ids[..i]) && (list == [] ==> rest == [])
      {
        AppendOne(ids[..i], ids[i]);
        assert ids[..i + 1] == ids[..i] + [ids[i]];
        if ids[i] in rest {
          RemoveFirstFacts(rest, ids[i]);
          rest := RemoveFirst(rest, ids[i]);
        }
      }
      assert ids[..|ids|] == ids;
    }

    // The stage activity has run and the run has not yet taken note of it.
    ghost predicate Unnoted(r: StageResult)
      reads this`aborted, this`tick, this`updated, this`pending, this`results,
            this`before, this`quarantinedBefore, this`abortedBefore, this`path,
            journal, activities.cluster, activities.logger, activities.quarantine
    {
      && Settled() && Stand(Last(path).(now := activities.cluster.servers))
      && NextStage(Given(), config, Last(path), activities.cluster.servers, r)
    }

    method Deploy(k: nat) returns (r: StageResult)
      requires Running() && Steady() && k == |results| < |config.stages| && Last(path).lost == {}
      modifies activities.cluster
      ensures Unnoted(r) && env.Errs(activities.hasEngine, tick, r.error)
    {
      var newly, error := activities.ExecuteStage(config.deploymentId, config.target, config.source, |config.ids|, updated, k,
                                                  config.stages[k], env.raises(tick), env.abortSeen(tick));
      r := StageResult(k, config.stages[k], newly, error);
      Stage.RanKeepsRegions(old(activities.cluster.servers), activities.cluster.servers, config.target, updated,
                            activities.Quarantined(), r);
    }

    method WaitUnnoted(ghost r: StageResult)
      requires Unnoted(r)
      modifies this`aborted, this`status, this`tick
      ensures Unnoted(r) && tick == old(tick) + 1
    {
      Await();
    }

    method RunActivity(k: nat) returns (r: StageResult)
      requires Running() && Steady() && k == |results| < |config.stages| && Last(path).lost == {}
      modifies this`aborted, this`status, this`tick, activities.cluster
      ensures Unnoted(r) && tick == old(tick) + 1 && env.Errs(activities.hasEngine, old(tick), r.error)
    {
      r := Deploy(k);
      WaitUnnoted(r);
    }

    ghost method GoOn(q: Position)
      requires Settled() && Moves(Given(), config, Last(path), q) && Stand(q)
      modifies this`path
      ensures Running() && path == old(path) + [q] && Last(path) == q
    {
      CourseGoesOn(Given(), config, path, q);
      WithinLonger(Last(journal.pages).snaps, path, q);
      path := path + [q];
    }

    // The last stage, whose activity began at `t`, was carried out but not recorded.
    ghost predicate LostAt(t: nat)
      reads this`before, this`quarantinedBefore, this`path
    {
      |path| > 1 && exists r ::
        StageLost(Given(), config, path[|path| - 2], Last(path), r) && env.Errs(activities.hasEngine, t, r.error)
    }

    ghost method Lose(r: StageResult, t: nat)
      requires Unnoted(r) && env.Errs(activities.hasEngine, t, r.error)
      modifies this`path
      ensures Running() && LostAt(t)
    {
      var p := Last(path);
      var q := p.(now := activities.cluster.servers, lost := Elems(r.updated));
      assert StageLost(Given(), config, p, q, r);
      GoOn(q);
      assert path[|path| - 2] == p;
    }

    // On an empty cluster a stage does nothing.
    lemma PendingServers(r: StageResult)
      requires Unnoted(r)
      ensures NoDup(pending)
      ensures config.ids == [] ==> r.updated == [] && pending == [] && Stand(Last(path)) && updated + r.updated == updated
    {
      CourseStands(Given(), config, path);
      if config.ids == [] {
        EmptyCluster(Given(), config, Last(path), activities.cluster.servers, r);
      }
    }

    ghost function Noted(r: StageResult): Position
      reads this`updated, this`pending, this`results, activities.cluster
    {
      Position(activities.cluster.servers, updated, pending, {}, results + [r])
    }

    // Lines 213 to 217.
    method Tally(newly: seq<ServerId>)
      requires NoDup(pending)
      modifies this`updated, this`pending
      ensures updated == old(updated) + newly
      ensures NoDup(pending) && Elems(pending) == Elems(old(pending)) - Elems(newly) && (old(pending) == [] ==> pending == [])
    {
      var rest := Without(pending, newly);
      updated := updated + newly;
      pending := rest;
    }

    method AddResult(r: StageResult)
      requires Settled() && StageNoted(Given(), config, Last(path), Noted(r), r)
      modifies this`results, this`path
      ensures Running() && results == old(results) + [r] && Last(path).lost == {}
    {
      ghost var q := Noted(r);
      results := results + [r];
      GoOn(q);
    }

    // Lines 213 to 237. The progress is a share of all servers, so there must be some.
    method TakeNote(r: StageResult) returns (ok: bool)
      requires Unnoted(r)
      modifies this`updated, this`pending, this`results, this`path
      ensures Running() && updated == old(updated) + r.updated && ok == (config.ids != []) && Last(path).lost == {}
      ensures results == if ok then old(results) + [r] else old(results)
      ensures !ok ==> updated == old(updated)
    {
      PendingServers(r);
      Tally(r.updated);
      ok := |config.ids| > 0;
      if ok { AddResult(r); }
    }

    lemma Told(was: seq<ServerId>, r: StageResult)
      requires Running() && Last(path).lost == {} && updated == was + r.updated && results != [] && Last(results) == r
      requires Forward(journal.view, Elems(was), config.target, config.source)
      ensures var body := StageTransition(r.stage, r.updated);
              && Forward(Apply(journal.view, body), Elems(updated), config.target, config.source)
              && Tells(Apply(journal.view, body), body, Last(path))
    {
      CourseStands(Given(), config, path);
      StageTold(journal.view, Given(), config, Last(path), was, r);
    }

    // Lines 239 to 252.
    method TellStage(r: StageResult, ghost was: seq<ServerId>) returns (flow: Flow)
      requires Running() && Last(path).lost == {} && updated == was + r.updated && results != [] && Last(results) == r
      requires journal.phase == Snapped(r.stage) && Forward(journal.view, Elems(was), config.target, config.source)
      modifies this`aborted, this`status, this`tick, journal, journal.logger
      ensures Running() && Advancing() && journal.phase == Moved(r.stage) && tick == old(tick) + 1
      ensures flow == if r.error == None then Continue
                      else Raise(if aborted then AbortSignal else StageFailed(r.error.value))
      ensures flow.Raise? ==> Stopped(flow.raised)
    {
      Told(was, r);
      RecordEvent(StageTransition(r.stage, r.updated));
      flow := if r.error == None then Continue
              else Raise(if aborted then AbortSignal else StageFailed(r.error.value));
    }

    // What becomes of a stage whose activity began at `t`, and where the run goes on.
    ghost predicate MoveTold(flow: Flow, t: nat, earlier: seq<StageResult>)
      reads this`aborted, this`tick, this`results, this`before, this`quarantinedBefore, this`abortedBefore, this`path, journal
    {
      if env.Heard(abortedBefore, t + 1)
      then flow == Raise(AbortSignal) && tick == t + 1 && results == earlier && LostAt(t)
      else path != [] && Last(path).lost == {} && if config.ids == []
      then flow == Raise(NoServers) && tick == t + 1 && results == earlier
      else
        && tick == t + 2 && results != [] && results == earlier + [Last(results)]
        && journal.phase == Moved(|earlier|) && env.Errs(activities.hasEngine, t, Last(results).error)
        && flow == if Last(results).error == None then Continue
                   else Raise(if aborted then AbortSignal else StageFailed(Last(results).error.value))
    }

    // Lines 193 to 252. What the activity did goes unrecorded if an abort has come in.
    method MoveServers(k: nat) returns (flow: Flow)
      requires Running() && Advancing() && Steady() && journal.phase == Snapped(k) && k == |results| < |config.stages|
      requires Last(path).lost == {} && Errorless(results)
      modifies this`aborted, this`status, this`tick, this`updated, this`pending, this`results, this`path,
               activities.cluster, journal, journal.logger
      ensures Running() && Advancing() && (flow.Raise? ==> Stopped(flow.raised))
      ensures MoveTold(flow, old(tick), old(results))
    {
      ghost var t := tick;
      var r := RunActivity(k);
      flow := NoteOrLose(r, t);
    }

    // Lines 210 to 252.
    method NoteOrLose(r: StageResult, ghost t: nat) returns (flow: Flow)
      requires Unnoted(r) && Advancing() && journal.phase == Snapped(r.stage) && tick == t + 1
      requires env.Errs(activities.hasEngine, t, r.error)
      modifies this`aborted, this`status, this`tick, this`updated, this`pending, this`results, this`path, journal, journal.logger
      ensures Running() && Advancing() && (flow.Raise? ==> Stopped(flow.raised))
      ensures MoveTold(flow, t, old(results))
    {
      if aborted {
        Lose(r, t);
        return Raise(AbortSignal);
      }
      ghost var earlier := results;
      flow := NoteStage(r);
      NotedTold(flow, t, earlier, r);
    }

    lemma NotedTold(flow: Flow, t: nat, earlier: seq<StageResult>, r: StageResult)
      requires !env.Heard(abortedBefore, t + 1) && path != [] && Last(path).lost == {} && r.stage == |earlier|
      requires env.Errs(activities.hasEngine, t, r.error)
      requires if config.ids == []
               then flow == Raise(NoServers) && tick == t + 1 && results == earlier
               else
                 && tick == t + 2 && results == earlier + [r] && journal.phase == Moved(r.stage)
                 && flow == if r.error == None then Continue else Raise(if aborted then AbortSignal else StageFailed(r.error.value))
      ensures MoveTold(flow, t, earlier)
    {
    }

    // Lines 213 to 252.
    method NoteStage(r: StageResult) returns (flow: Flow)
      requires Unnoted(r) && Advancing() && journal.phase == Snapped(r.stage)
      modifies this`aborted, this`status, this`tick, this`updated, this`pending, this`results, this`path, journal, journal.logger
      ensures Running() && Advancing() && Last(path).lost == {} && (flow.Raise? ==> Stopped(flow.raised))
      ensures if config.ids == []
              then flow == Raise(NoServers) && tick == old(tick) && results == old(results)
              else
                && tick == old(tick) + 1 && results == old(results) + [r] && journal.phase == Moved(r.stage)
                && flow == if r.error == None then Continue else Raise(if aborted then AbortSignal else StageFailed(r.error.value))
    {
      ghost var was := updated;
      var ok := TakeNote(r);
      if !ok {
        return Raise(NoServers);
      }
      flow := TellStage(r, was);
    }

    // ---------- Health checks ----------

    ghost method GoOnChecked()
      requires Settled() && Stand(Last(path).(now := activities.cluster.servers))
      requires OnlyStatuses(Last(path).now, activities.cluster.servers)
      requires env.Calm() ==> forall id | id in activities.cluster.servers && id !in updated ::
                                activities.cluster.servers[id] == Last(path).now[id]
      modifies this`path
      ensures Running() && Last(path) == old(Last(path)).(now := activities.cluster.servers)
    {
      var q := Last(path).(now := activities.cluster.servers);
      assert Checked(Given(), Last(path), q);
      GoOn(q);
    }

    method LookAtHealth() returns (passed: bool)
      requires Running()
      modifies this`aborted, this`status, this`tick, this`path, activities.cluster
      ensures Running() && Last(path).lost == old(Last(path).lost)
      ensures tick == old(tick) + 1 && passed == env.healthy(old(tick))
    {
      passed := env.healthy(tick);
      activities.RunHealthCheck(env.statuses(tick));
      GoOnChecked();
      Wait();
    }

    method TellHealth(k: nat, passed: bool, retry: nat)
      requires Running() && Advancing() && retry <= config.maxRetries
      requires journal.phase == if retry == 0 then Moved(k) else Unhealthy(k, retry - 1)
      modifies this`aborted, this`status, this`tick, journal, journal.logger
      ensures Running() && Advancing() && tick == old(tick) + 1
      ensures journal.phase == if passed then Ready(k + 1) else Unhealthy(k, retry)
    {
      RecordNeutral(HealthCheck(k, passed, retry));
    }

    method CheckOnce(k: nat, retry: nat) returns (passed: bool)
      requires Running() && Advancing() && retry <= config.maxRetries
      requires journal.phase == if retry == 0 then Moved(k) else Unhealthy(k, retry - 1)
      modifies this`aborted, this`status, this`tick, this`path, activities.cluster, journal, journal.logger
      ensures Running() && Advancing() && Last(path).lost == old(Last(path).lost)
      ensures tick == old(tick) + 2 && passed == env.healthy(old(tick))
      ensures journal.phase == if passed then Ready(k + 1) else Unhealthy(k, retry)
    {
      passed := LookAtHealth();
      TellHealth(k, passed, retry);
    }

    method RetryOnce(k: nat, retry: nat) returns (passed: bool)
      requires Running() && Advancing() && 0 < retry <= config.maxRetries
      requires journal.phase.Unhealthy? && journal.phase.stage == k && journal.phase.retry + 1 == retry
      modifies this`aborted, this`status, this`tick, this`path, activities.cluster, journal, journal.logger
      ensures Running() && Advancing() && Last(path).lost == old(Last(path).lost)
      ensures tick == old(tick) + 3 && passed == env.healthy(old(tick) + 1)
      ensures journal.phase == if passed then Ready(k + 1) else Unhealthy(k, retry)
    {
      Wait();
      passed := CheckOnce(k, retry);
    }

    // The retries have come to number `retry`, with `left` to go: the last check was
    // made after `checked` awaits.
    ghost predicate Retrying(k: nat, first: nat, checked: nat, retry: nat, left: nat, passed: bool)
      reads this`tick, journal
    {
      && left + retry == config.maxRetries + 1 && retry > 0 && tick == checked + 2 && passed == env.healthy(checked)
      && journal.phase == (if passed then Ready(k + 1) else Unhealthy(k, retry - 1))
      && env.ChecksOn(first, config.maxRetries, checked, left)
    }

    lemma RetryMore(k: nat, first: nat, checked: nat, retry: nat, left: nat, passed: bool)
      requires env.ChecksOn(first, config.maxRetries, checked, left) && !env.healthy(checked) && left > 0
      requires left + retry == config.maxRetries + 1 && tick == checked + 5 && passed == env.healthy(checked + 3)
      requires journal.phase == if passed then Ready(k + 1) else Unhealthy(k, retry)
      ensures Retrying(k, first, checked + 3, retry + 1, left - 1, passed)
    {
      env.CheckMore(first, config.maxRetries, checked, left);
    }

    lemma RetriesDone(k: nat, first: nat, checked: nat, retry: nat, left: nat, passed: bool)
      requires Retrying(k, first, checked, retry, left, passed) && (left == 0 || passed)
      ensures journal.phase == if passed then Ready(k + 1) else Unhealthy(k, config.maxRetries)
      ensures passed == env.Recovers(first, config.maxRetries)
      ensures tick == first + 2 + 3 * env.Retries(first, config.maxRetries)
    {
      env.ChecksEnd(first, config.maxRetries, checked, left);
    }

    // ... and the run is in order.
    ghost predicate RetryingWell(k: nat, first: nat, checked: nat, retry: nat, left: nat, passed: bool)
      reads this`aborted, this`tick, this`updated, this`pending, this`results,
            this`before, this`quarantinedBefore, this`abortedBefore, this`path,
            journal, activities.cluster, activities.logger, activities.quarantine
    {
      Running() && Advancing() && Last(path).lost == {} && Retrying(k, first, checked, retry, left, passed)
    }

    method RetryNext(k: nat, retry: nat, remaining: nat, ghost first: nat, ghost checked: nat)
      returns (passed: bool, next: nat, left: nat, ghost now: nat)
      requires RetryingWell(k, first, checked, retry, remaining, false) && remaining > 0
      modifies this`aborted, this`status, this`tick, this`path, activities.cluster, journal, journal.logger
      ensures RetryingWell(k, first, now, next, left, passed) && left == remaining - 1
    {
      passed := RetryOnce(k, retry);
      RetryMore(k, first, checked, retry, remaining, passed);
      next, left, now := retry + 1, remaining - 1, checked + 3;
    }

    lemma RetryStarts(k: nat, first: nat)
      requires Running() && Advancing() && journal.phase == Unhealthy(k, 0) && Last(path).lost == {}
      requires tick == first + 2 && !env.healthy(first)
      ensures RetryingWell(k, first, first, 1, config.maxRetries, false)
    {
    }

    method RetryLoop(k: nat, ghost first: nat) returns (passed: bool, ghost checked: nat, ghost retry: nat, ghost left: nat)
      requires Running() && Advancing() && journal.phase == Unhealthy(k, 0) && Last(path).lost == {}
      requires tick == first + 2 && !env.healthy(first)
      modifies this`aborted, this`status, this`tick, this`path, activities.cluster, journal, journal.logger
      ensures RetryingWell(k, first, checked, retry, left, passed) && (left == 0 || passed)
    {
      passed := false;
      var remaining, retryIdx := config.maxRetries, 1;
      checked := first;
      RetryStarts(k, first);
      while remaining > 0 && !passed
        invariant RetryingWell(k, first, checked, retryIdx, remaining, passed)
        decreases remaining
      {
        passed, retryIdx, remaining, checked := RetryNext(k, retryIdx, remaining, first, checked);
      }
      retry, left := retryIdx, remaining;
    }

    // Lines 274 to 297, after a check that has failed.
    method RetryHealth(k: nat) returns (passed: bool)
      requires Running() && Advancing() && journal.phase == Unhealthy(k, 0) && Last(path).lost == {}
      requires tick >= 2 && !env.healthy(tick - 2)
      modifies this`aborted, this`status, this`tick, this`path, activities.cluster, journal, journal.logger
      ensures Running() && Advancing() && Last(path).lost == {}
      ensures journal.phase == if passed then Ready(k + 1) else Unhealthy(k, config.maxRetries)
      ensures passed == env.Recovers(old(tick) - 2, config.maxRetries)
      ensures tick == old(tick) + 3 * env.Retries(old(tick) - 2, config.maxRetries)
    {
      ghost var first: nat, checked: nat, retry: nat, left: nat := tick - 2, 0, 0, 0;
      passed, checked, retry, left := RetryLoop(k, first);
      RetriesDone(k, first, checked, retry, left, passed);
    }

    // Lines 254 to 297.
    method SettleHealth(k: nat) returns (passed: bool)
      requires Running() && Advancing() && journal.phase == Moved(k) && Last(path).lost == {}
      modifies this`aborted, this`status, this`tick, this`path, activities.cluster, journal, journal.logger
      ensures Running() && Advancing() && Last(path).lost == {}
      ensures journal.phase == if passed then Ready(k + 1) else Unhealthy(k, config.maxRetries)
      ensures passed == env.Recovers(old(tick), config.maxRetries)
      ensures tick == old(tick) + 2 + 3 * env.Retries(old(tick), config.maxRetries)
    {
      passed := CheckOnce(k, 0);
      if !passed {
        passed := RetryHealth(k);
      }
    }

    // Just the unstable regions are quarantined, besides those that are already.
    ghost predicate UnstableIsolated()
      reads this`quarantinedBefore, activities.quarantine, activities.cluster
    {
      forall r :: r in activities.Quarantined() <==>
        r in quarantinedBefore || (activities.quarantine != null && Quarantine.Unstable(activities.cluster.servers, r, 30.0))
    }

    method QuarantineUnstable() returns (regions: seq<Region>)
      requires Running() && Steady()
      modifies this`aborted, this`status, this`tick, activities.quarantine
      ensures Running() && UnstableIsolated() && tick == old(tick) + 1
      ensures |regions| == Isolated() && Elems(regions) == activities.Quarantined() - quarantinedBefore
    {
      regions := activities.AutoQuarantine();
      NoDupCard(regions);
      assert activities.Quarantined() - quarantinedBefore == Elems(regions);
      Wait();
    }

    method TellRegions(k: nat, regions: seq<Region>)
      requires Running() && Advancing() && journal.phase == Unhealthy(k, config.maxRetries)
      modifies this`aborted, this`status, this`tick, journal, journal.logger
      ensures Running() && Advancing() && tick == old(tick) + |regions|
      ensures journal.phase == Isolating || journal.phase == Unhealthy(k, config.maxRetries)
    {
      ghost var t := tick;
      for i := 0 to |regions|
        invariant Running() && Advancing() && tick == t + i
        invariant journal.phase == if i == 0 then Unhealthy(k, config.maxRetries) else Isolating
      {
        RecordNeutral(QuarantineActivate(regions[i]));
      }
    }

    // Lines 300 to 313.
    method Isolate(k: nat)
      requires Running() && Advancing() && Steady() && journal.phase == Unhealthy(k, config.maxRetries)
      modifies this`aborted, this`status, this`tick, activities.quarantine, journal, journal.logger
      ensures Running() && Advancing() && UnstableIsolated() && tick == old(tick) + 1 + Isolated()
      ensures journal.phase == Isolating || journal.phase == Unhealthy(k, config.maxRetries)
    {
      var regions := QuarantineUnstable();
      TellRegions(k, regions);
    }

    // Lines 254 to 316.
    method CheckHealth(k: nat) returns (flow: Flow)
      requires Running() && Advancing() && Steady() && journal.phase == Moved(k) && Last(path).lost == {}
      modifies this`aborted, this`status, this`tick, this`path, activities.cluster, activities.quarantine, journal, journal.logger
      ensures Running() && Advancing() && Last(path).lost == {}
      ensures var checked := old(tick) + 2 + 3 * env.Retries(old(tick), config.maxRetries);
              if env.Recovers(old(tick), config.maxRetries)
              then flow == Continue && journal.phase == Ready(k + 1) && Steady() && tick == checked
              else flow == Raise(HealthFailed) && Stopped(HealthFailed) && UnstableIsolated() && tick == checked + 1 + Isolated()
    {
      var passed := SettleHealth(k);
      if !passed {
        Isolate(k);
        return Raise(HealthFailed);
      }
      flow := Continue;
    }

    // ---------- After the checks ----------

    // Lines 354 to 374.
    method Delay() returns (flow: Flow)
      requires Running()
      modifies this`aborted, this`status, this`tick
      ensures Running() && tick == old(tick) + 1
      ensures flow == if aborted && !env.timesOut(old(tick)) then Raise(AbortSignal) else Continue
      ensures flow == Continue ==> status == InProgress
    {
      status := Paused;
      var over := env.timesOut(tick);
      Wait();
      if aborted && !over { return Raise(AbortSignal); }
      status := InProgress;
      flow := Continue;
    }

    // Lines 352 to 374.
    method Pause(k: nat) returns (flow: Flow)
      requires Running() && k < |config.stages| && journal.phase == Ready(k + 1)
      modifies this`aborted, this`status, this`tick
      ensures Running()
      ensures flow == if k + 1 < |config.stages| && aborted && !env.timesOut(old(tick) + 1) then Raise(AbortSignal) else Continue
      ensures tick == old(tick) + if k + 1 < |config.stages| then 2 else 1
      ensures flow == Continue && k + 1 < |config.stages| ==> status == InProgress
      ensures Stopped(AbortSignal)
    {
      Wait();
      flow := Continue;
      if k < |config.stages| - 1 { flow := Delay(); }
    }

    // Lines 336 to 374.
    method Obey(k: nat, decision: Decision) returns (flow: Flow)
      requires Running() && Advancing() && k < |config.stages| && journal.phase == Ready(k + 1)
      modifies this`aborted, this`status, this`tick, journal, journal.logger
      ensures Running() && Advancing() && (flow.Raise? ==> Stopped(flow.raised))
      ensures decision == Block ==> flow == Return && Blocked() && tick == old(tick) + 1
      ensures decision == MandateRollback ==> flow == Raise(RollbackMandated) && tick == old(tick)
      ensures decision == Allow ==>
                && journal.phase == Ready(k + 1) && tick == old(tick) + (if k + 1 < |config.stages| then 2 else 1)
                && flow == if k + 1 < |config.stages| && aborted && !env.timesOut(old(tick) + 1) then Raise(AbortSignal) else Continue
    {
      if decision == Block {
        Violate();
        return Return;
      }
      if decision == MandateRollback { return Raise(RollbackMandated); }
      flow := Pause(k);
    }

    // Lines 321 to 374.
    method Judge(k: nat) returns (flow: Flow)
      requires Running() && Advancing() && k < |config.stages| && journal.phase == Ready(k + 1)
      modifies this`aborted, this`status, this`tick, journal, journal.logger
      ensures Running() && Advancing() && (flow.Raise? ==> Stopped(flow.raised))
      ensures var decision := env.verdict(old(tick));
              && (decision == Block ==> flow == Return && Blocked() && tick == old(tick) + 2)
              && (decision == MandateRollback ==> flow == Raise(RollbackMandated) && tick == old(tick) + 1)
              && (decision == Allow ==>
                   && journal.phase == Ready(k + 1) && tick == old(tick) + (if k + 1 < |config.stages| then 3 else 2)
                   && flow == if k + 1 < |config.stages| && aborted && !env.timesOut(old(tick) + 2) then Raise(AbortSignal) else Continue)
    {
      var decision := Evaluate();
      flow := Obey(k, decision);
    }

    // What LeaveStage comes to, after checks that passed.
    ghost predicate LeftTold(flow: Flow, k: nat, t: nat)
      reads this`aborted, this`tick, this`status, this`abortedBefore, journal
    {
      if env.Heard(abortedBefore, t) then flow == Raise(AbortSignal) && tick == t
      else match env.verdict(t)
        case Block => flow == Return && Blocked() && tick == t + 2
        case MandateRollback => flow == Raise(RollbackMandated) && tick == t + 1
        case Allow =>
          && journal.phase == Ready(k + 1) && tick == t + (if k + 1 < |config.stages| then 3 else 2)
          && flow == if k + 1 < |config.stages| && aborted && !env.timesOut(t + 2) then Raise(AbortSignal) else Continue
    }

    // Lines 318 to 374. After the last stage two awaits pass without a look at the abort flag.
    method LeaveStage(k: nat) returns (flow: Flow)
      requires Running() && Advancing() && k < |config.stages| && journal.phase == Ready(k + 1)
      modifies this`aborted, this`status, this`tick, journal, journal.logger
      ensures Running() && Advancing() && (flow.Raise? ==> Stopped(flow.raised)) && LeftTold(flow, k, old(tick))
    {
      if aborted { return Raise(AbortSignal); }
      flow := Judge(k);
    }

    // ---------- The stage loop ----------

    // Stage `k` got as far as its transition.
    ghost predicate Unhindered(look: nat)
      reads this`abortedBefore
    {
      && !env.Heard(abortedBefore, look) && env.verdict(look) != Block && !env.Heard(abortedBefore, look + 4)
      && config.ids != []
    }

    // What the run leaves of its stages: the results up to the last one, whose activity
    // began at `t`, and what was lost, if anything.
    ghost predicate Traces(cause: Cause, t: nat)
      reads this`results, this`before, this`quarantinedBefore, this`path
    {
      var k := StageOf(cause);
      && path != [] && (if cause.Lost? then LostAt(t) && |results| == k else Last(path).lost == {})
      && (cause.Refused? ==> results == [])
      && (cause.Completes? ==> |results| == |config.stages| && Errorless(results))
      && (!cause.Refused? && !cause.Completes? ==>
            && k <= |results| <= k + 1 && Errorless(results[..k])
            && (FailedAt(results, k) ==> env.Errs(activities.hasEngine, t, results[k].error)))
    }

    // Why the run raised `x` in stage `k`, which began after `look` awaits.
    ghost predicate Explained(x: Raising, k: nat, look: nat)
      reads this`tick, this`results, this`before, this`quarantinedBefore, this`abortedBefore, this`path, activities.quarantine
    {
      var cause := AtStage(env, config, abortedBefore, k, look, FailedAt(results, k));
      && k <= |results| && Errorless(results[..k])
      && cause.Some? && RaisedBy(results, cause.value, Isolated()) == Some((x, tick))
      && Traces(cause.value, look + 3)
    }

    ghost predicate Refused(k: nat, look: nat)
      reads this`tick, this`status, this`results, this`abortedBefore, this`path, journal
    {
      && Blocked() && path != [] && Last(path).lost == {}
      && k <= |results| <= k + 1 && Errorless(results[..k]) && !FailedAt(results, k)
      && AtStage(env, config, abortedBefore, k, look, FailedAt(results, k)) == Some(Vetoed(k, tick - 1))
    }

    // The run stops in stage `k`.
    ghost predicate Halted(flow: Flow, k: nat, look: nat)
      reads this`tick, this`status, this`results, this`before, this`quarantinedBefore, this`abortedBefore, this`path,
            journal, activities.quarantine
    {
      match flow
      case Continue => false
      case Return => Refused(k, look)
      case Raise(x) => Stopped(x) && Explained(x, k, look)
    }

    lemma RaisedMoving(x: Raising, k: nat, look: nat, earlier: seq<StageResult>)
      requires !env.Heard(abortedBefore, look) && env.verdict(look) != Block && k == |earlier| && Errorless(earlier)
      requires Steady() && (aborted <==> env.Heard(abortedBefore, tick)) && MoveTold(Raise(x), look + 3, earlier)
      ensures Explained(x, k, look)
    {
      assert results[..k] == earlier;
      if env.Heard(abortedBefore, look + 4) {
        RaisedLost(k, look);
      } else if config.ids == [] {
        RaisedEmpty(k, look);
      } else {
        RaisedError(x, k, look);
      }
    }

    lemma RaisedLost(k: nat, look: nat)
      requires !env.Heard(abortedBefore, look) && env.verdict(look) != Block && env.Heard(abortedBefore, look + 4)
      requires |results| == k && Errorless(results[..k]) && tick == look + 4 && LostAt(look + 3)
      ensures Explained(AbortSignal, k, look)
    {
    }

    lemma RaisedEmpty(k: nat, look: nat)
      requires !env.Heard(abortedBefore, look) && env.verdict(look) != Block && !env.Heard(abortedBefore, look + 4)
      requires config.ids == [] && |results| == k && Errorless(results[..k]) && tick == look + 4
      requires path != [] && Last(path).lost == {}
      ensures Explained(NoServers, k, look)
    {
    }

    lemma RaisedError(x: Raising, k: nat, look: nat)
      requires Unhindered(look) && |results| == k + 1 && Errorless(results[..k]) && results[k].error.Some? && tick == look + 5
      requires path != [] && Last(path).lost == {} && env.Errs(activities.hasEngine, look + 3, results[k].error)
      requires x == if env.Heard(abortedBefore, look + 5) then AbortSignal else StageFailed(results[k].error.value)
      ensures Explained(x, k, look)
    {
    }

    // The activity of stage `k` is next.
    ghost predicate Moving(k: nat, look: nat)
      reads this`tick, this`currentStage, this`results, this`quarantinedBefore, this`abortedBefore, this`path,
            journal, activities.quarantine
    {
      && Steady() && currentStage == k && journal.phase == Snapped(k) && k == |results| < |config.stages|
      && path != [] && Last(path).lost == {} && Errorless(results) && tick == look + 3 && !env.Heard(abortedBefore, look) && env.verdict(look) != Block
    }

    method MoveOn(k: nat, ghost look: nat) returns (flow: Flow)
      requires Running() && Advancing() && Moving(k, look)
      modifies this`aborted, this`status, this`tick, this`updated, this`pending, this`results, this`path,
               activities.cluster, journal, journal.logger
      ensures Running() && Advancing() && flow != Return
      ensures flow == Continue ==> Entered(k, look)
      ensures flow != Continue ==> Halted(flow, k, look)
    {
      ghost var earlier := results;
      flow := MoveServers(k);
      if flow == Continue {
        MovedOn(k, look, earlier);
      } else {
        RaisedMoving(flow.raised, k, look, earlier);
      }
    }

    // The stage has been carried out and recorded, without error.
    ghost predicate Entered(k: nat, look: nat)
      reads this`tick, this`currentStage, this`results, this`quarantinedBefore, this`abortedBefore, this`path,
            journal, activities.quarantine
    {
      && Steady() && currentStage == k && journal.phase == Moved(k)
      && path != [] && Last(path).lost == {} && |results| == k + 1 && Errorless(results)
      && Unhindered(look) && tick == look + 5
    }

    lemma MovedOn(k: nat, look: nat, earlier: seq<StageResult>)
      requires !env.Heard(abortedBefore, look) && env.verdict(look) != Block && k == |earlier| && Errorless(earlier)
      requires Steady() && currentStage == k && MoveTold(Continue, look + 3, earlier)
      ensures Entered(k, look)
    {
      ErrorlessMore(earlier, Last(results));
    }

    lemma StoppedAtLook(k: nat, look: nat)
      requires k == |results| && Errorless(results[..k]) && path != [] && Last(path).lost == {} && Steady()
      ensures env.Heard(abortedBefore, look) && tick == look ==> Explained(AbortSignal, k, look)
      ensures !env.Heard(abortedBefore, look) && env.verdict(look) == Block && tick == look + 2 && Blocked() ==> Refused(k, look)
    {
    }

    method EnterOn(k: nat, ghost look: nat) returns (flow: Flow)
      requires Running() && Advancing() && Steady() && journal.phase == Ready(k) && k == |results| < |config.stages|
      requires Last(path).lost == {} && Errorless(results) && tick == look
      modifies this`aborted, this`status, this`tick, this`currentStage, journal, journal.logger
      ensures Running() && Advancing()
      ensures flow == Continue ==> Moving(k, look)
      ensures flow != Continue ==> Halted(flow, k, look)
    {
      assert results[..k] == results;
      flow := EnterStage(k);
      StoppedAtLook(k, look);
    }

    method EnterAndMove(k: nat, ghost look: nat) returns (flow: Flow)
      requires Running() && Advancing() && Steady() && journal.phase == Ready(k) && k == |results| < |config.stages|
      requires Last(path).lost == {} && Errorless(results) && tick == look
      modifies this`aborted, this`status, this`tick, this`currentStage, this`updated, this`pending, this`results, this`path,
               activities.cluster, journal, journal.logger
      ensures Running() && Advancing()
      ensures flow == Continue ==> Entered(k, look)
      ensures flow != Continue ==> Halted(flow, k, look)
    {
      flow := EnterOn(k, look);
      if flow != Continue { return; }
      flow := MoveOn(k, look);
    }

    lemma CheckedBadly(k: nat, look: nat)
      requires Unhindered(look) && |results| == k + 1 && Errorless(results) && path != [] && Last(path).lost == {}
      requires !env.Recovers(look + 5, config.maxRetries) && tick == LookAfter(env, config, look) + 1 + Isolated()
      ensures Explained(HealthFailed, k, look)
    {
      assert Errorless(results[..k]) by { InitPrefix(results, k); assert results[..k + 1] == results; }
    }

    // The checks of stage `k` passed, and the look at the abort flag after them is next.
    ghost predicate CheckedWell(k: nat, look: nat)
      reads this`tick, this`results, this`quarantinedBefore, this`abortedBefore, this`path, journal, activities.quarantine
    {
      && Steady() && journal.phase == Ready(k + 1) && path != [] && Last(path).lost == {} && |results| == k + 1 && Errorless(results)
      && Unhindered(look) && env.Recovers(look + 5, config.maxRetries) && tick == LookAfter(env, config, look)
    }

    method CheckOn(k: nat, ghost look: nat) returns (flow: Flow)
      requires Running() && Advancing() && Entered(k, look)
      modifies this`aborted, this`status, this`tick, this`path, activities.cluster, activities.quarantine, journal, journal.logger
      ensures Running() && Advancing() && flow != Return
      ensures flow == Continue ==> CheckedWell(k, look)
      ensures flow != Continue ==> Halted(flow, k, look)
    {
      flow := CheckHealth(k);
      if flow != Continue { CheckedBadly(k, look); }
    }

    // Stage `k` is over, and the next may begin.
    ghost predicate Through(k: nat, look: nat)
      reads this`tick, this`results, this`abortedBefore, this`path, journal
    {
      && journal.phase == Ready(k + 1) && path != [] && Last(path).lost == {} && |results| == k + 1 && Errorless(results)
      && AtStage(env, config, abortedBefore, k, look, false) == None
      && tick == LookAfter(env, config, look) + if k + 1 < |config.stages| then 3 else 2
    }

    lemma LeftWell(flow: Flow, k: nat, look: nat)
      requires Unhindered(look) && env.Recovers(look + 5, config.maxRetries) && LeftTold(flow, k, LookAfter(env, config, look))
      requires |results| == k + 1 && Errorless(results) && path != [] && Last(path).lost == {}
      requires Steady() && (aborted <==> env.Heard(abortedBefore, tick))
      ensures flow == Continue ==> Through(k, look)
      ensures flow == Return ==> Refused(k, look)
      ensures flow.Raise? ==> Explained(flow.raised, k, look)
    {
      assert Errorless(results[..k]) by { InitPrefix(results, k); assert results[..k + 1] == results; }
    }

    method LeaveOn(k: nat, ghost look: nat) returns (flow: Flow)
      requires Running() && Advancing() && CheckedWell(k, look) && k < |config.stages|
      modifies this`aborted, this`status, this`tick, journal, journal.logger
      ensures Running() && Advancing()
      ensures flow == Continue ==> Through(k, look)
      ensures flow != Continue ==> Halted(flow, k, look)
    {
      flow := LeaveStage(k);
      LeftWell(flow, k, look);
    }

    method CheckAndLeave(k: nat, ghost look: nat) returns (flow: Flow)
      requires Running() && Advancing() && Entered(k, look) && k < |config.stages|
      modifies this`aborted, this`status, this`tick, this`path, activities.cluster, activities.quarantine, journal, journal.logger
      ensures Running() && Advancing()
      ensures flow == Continue ==> Through(k, look) && Steady()
      ensures flow != Continue ==> Halted(flow, k, look)
    {
      flow := CheckOn(k, look);
      if flow != Continue { return; }
      flow := LeaveOn(k, look);
    }

    // One turn of the stage loop.
    method RunStage(k: nat, ghost look: nat) returns (flow: Flow)
      requires Running() && Advancing() && Steady() && journal.phase == Ready(k) && k == |results| < |config.stages|
      requires Last(path).lost == {} && Errorless(results) && tick == look
      modifies this`aborted, this`status, this`tick, this`currentStage, this`updated, this`pending, this`results, this`path,
               activities.cluster, activities.quarantine, journal, journal.logger
      ensures Running() && Advancing()
      ensures flow == Continue ==> Through(k, look) && Steady() && currentStage == k
      ensures flow != Continue ==> Halted(flow, k, look)
    {
      flow := EnterAndMove(k, look);
      if flow != Continue { return; }
      flow := CheckAndLeave(k, look);
    }

    // Why the run raised `x` after `t` awaits, with `regions` quarantined, and what was
    // lost, if anything.
    ghost predicate Accounted(x: Raising, t: nat, regions: nat)
      reads this`results, this`before, this`quarantinedBefore, this`abortedBefore, this`path
    {
      var cause := CauseOf(env, config, abortedBefore, results);
      RaisedBy(results, cause, regions) == Some((x, t)) && Traces(cause, Look(env, config, StageOf(cause)) + 3)
    }

    // The run ended as its environment and its stages' errors foretell.
    ghost predicate Foretold()
      reads this`tick, this`results, this`before, this`quarantinedBefore, this`abortedBefore, this`path, journal, activities.quarantine
    {
      var cause := CauseOf(env, config, abortedBefore, results);
      && journal.phase.Ended?
      && EndOf(env, config, abortedBefore, results, Isolated()) == (journal.phase.ending, tick)
      && Traces(cause, Look(env, config, StageOf(cause)) + 3)
    }

    lemma AccountsFor(cause: Cause, k: nat, x: Raising, t: nat, regions: nat)
      requires CauseOf(env, config, abortedBefore, results) == cause && StageOf(cause) == k
      requires RaisedBy(results, cause, regions) == Some((x, t)) && Traces(cause, Look(env, config, k) + 3)
      ensures Accounted(x, t, regions)
    {
    }

    lemma RaisedWhole(x: Raising, k: nat)
      requires Passes(env, config, abortedBefore, k) && k < |config.stages| && Explained(x, k, Look(env, config, k))
      ensures Accounted(x, tick, Isolated())
    {
      CauseHere(env, config, abortedBefore, results, k);
      AccountsFor(AtStage(env, config, abortedBefore, k, Look(env, config, k), FailedAt(results, k)).value, k, x, tick, Isolated());
    }

    lemma RefusedWhole(k: nat)
      requires Passes(env, config, abortedBefore, k) && k < |config.stages| && Refused(k, Look(env, config, k))
      ensures Foretold()
    {
      CauseHere(env, config, abortedBefore, results, k);
    }

    lemma CompletesWhole()
      requires Passes(env, config, abortedBefore, |config.stages|) && |results| == |config.stages| && Errorless(results)
      ensures CauseOf(env, config, abortedBefore, results) == Completes(Look(env, config, |config.stages|) - 1)
    {
      assert results[..|config.stages|] == results;
      PassedOn(env, config, abortedBefore, results, |config.stages|);
    }

    // The run has come to the look before stage `k`, or past the last stage.
    ghost predicate Arrived(k: nat)
      reads this`tick, this`results, this`currentStage, this`abortedBefore, this`path, journal
    {
      && journal.phase == Ready(k) && path != [] && Last(path).lost == {} && |results| == k && Errorless(results)
      && Passes(env, config, abortedBefore, k) && (k > 0 ==> currentStage == k - 1)
      && tick + (if k == |config.stages| then 1 else 0) == Look(env, config, k)
    }

    lemma Arrives(k: nat)
      requires k < |config.stages| && Passes(env, config, abortedBefore, k) && currentStage == k && Through(k, Look(env, config, k))
      ensures Arrived(k + 1)
    {
    }

    method TakeStage(k: nat) returns (flow: Flow)
      requires Running() && Advancing() && Steady() && Arrived(k) && k < |config.stages|
      modifies this`aborted, this`status, this`tick, this`currentStage, this`updated, this`pending, this`results, this`path,
               activities.cluster, activities.quarantine, journal, journal.logger
      ensures Running() && Advancing()
      ensures flow == Continue ==> Arrived(k + 1) && Steady()
      ensures flow == Return ==> Blocked() && Foretold()
      ensures flow.Raise? ==> Stopped(flow.raised) && Accounted(flow.raised, tick, Isolated())
    {
      flow := RunStage(k, tick);
      if flow == Return {
        RefusedWhole(k);
      } else if flow.Raise? {
        RaisedWhole(flow.raised, k);
      } else {
        Arrives(k);
      }
    }

    method RunStages() returns (flow: Flow)
      requires Running() && Advancing() && Steady() && config.stages != [] && Arrived(0)
      modifies this`aborted, this`status, this`tick, this`currentStage, this`updated, this`pending, this`results, this`path,
               activities.cluster, activities.quarantine, journal, journal.logger
      ensures Running() && Advancing()
      ensures flow == Continue ==> Arrived(|config.stages|) && Steady()
      ensures flow == Return ==> Blocked() && Foretold()
      ensures flow.Raise? ==> Stopped(flow.raised) && Accounted(flow.raised, tick, Isolated())
    {
      flow := Continue;
      for k := 0 to |config.stages|
        invariant Running() && Advancing() && Steady() && Arrived(k) && flow == Continue
      {
        flow := TakeStage(k);
        if flow != Continue { return; }
      }
    }

    // ---------- Completion ----------

    method MarkHealthy()
      requires Running()
      modifies this`aborted, this`status, this`tick, this`path, activities.cluster
      ensures Running() && Last(path).lost == old(Last(path).lost) && tick == old(tick) + 1
      ensures status == if env.signal(old(tick)) then Aborted else old(status)
      ensures forall id | id in updated && id in activities.cluster.servers :: activities.cluster.servers[id].status == Healthy
    {
      activities.MarkServersHealthy(updated);
      GoOnChecked();
      Wait();
    }

    // Lines 376 to 390.
    method Complete()
      requires Running() && Advancing() && journal.phase == Ready(|config.stages|)
      modifies this`aborted, this`status, this`tick, journal, journal.logger
      ensures Running() && Advancing() && journal.phase == Ended(EndCompleted) && tick == old(tick) + 1
      ensures status == if env.signal(old(tick)) then Aborted else Completed
    {
      status := Completed;
      RecordNeutral(DeploymentCompleted);
    }

    method Finish()
      requires Running() && Advancing() && journal.phase == Ready(|config.stages|) && Last(path).lost == {}
      modifies this`aborted, this`status, this`tick, this`path, activities.cluster, journal, journal.logger
      ensures Running() && Advancing() && Last(path).lost == {} && journal.phase == Ended(EndCompleted) && tick == old(tick) + 2
      ensures status == if env.signal(old(tick)) || env.signal(old(tick) + 1) then Aborted else Completed
      ensures forall id | id in updated && id in activities.cluster.servers :: activities.cluster.servers[id].status == Healthy
    {
      Complete();
      MarkHealthy();
    }

    // A completed run: just the servers outside the quarantined regions are updated,
    // on the target version, and healthy; and the log rebuilds exactly those.
    ghost predicate CompletedWell()
      reads this, journal, activities.cluster
    {
      var servers := activities.cluster.servers;
      && journal.phase == Ended(EndCompleted) && tick >= 2
      && status == (if env.signal(tick - 2) || env.signal(tick - 1) then Aborted else Completed)
      && |results| == |config.stages| && Errorless(results) && currentStage == |config.stages| - 1
      && (forall id :: id in updated <==> id in servers && servers[id].region !in quarantinedBefore)
      && (forall id | id in updated :: servers[id].version == config.target && servers[id].status == Healthy)
      && Shows(journal.view, Elems(updated), servers)
    }

    lemma WholeCourse()
      requires Running() && Advancing() && Last(path).lost == {} && ValidStages(config.stages)
      requires |results| == |config.stages| && Errorless(results)
      ensures var servers := activities.cluster.servers;
              && (forall id :: id in updated <==> id in servers && servers[id].region !in quarantinedBefore)
              && (forall id | id in updated :: servers[id].version == config.target)
              && Shows(journal.view, Elems(updated), servers)
    {
      CourseStands(Given(), config, path);
      CourseCovers(Given(), config, Last(path), journal.view);
    }

    // What is left of Running() once the cluster has been rolled back.
    ghost predicate Traced()
      reads this`aborted, this`tick, this`updated, this`pending, this`results,
            this`before, this`quarantinedBefore, this`abortedBefore, this`path, journal, activities.logger
    {
      && Wired() && journal.Valid() && Within(Last(journal.pages).snaps, path)
      && (aborted <==> env.Heard(abortedBefore, tick))
      && Listed(Given(), config) && Course(Given(), config, path) && Booked()
    }

    // The end of a run, as far as the log and the abort flag go.
    ghost predicate Closed()
      reads this`aborted, this`tick, this`updated, this`pending, this`results,
            this`before, this`quarantinedBefore, this`abortedBefore, this`path, journal, activities.logger
    {
      Traced() && journal.phase.Ended?
    }

    ghost predicate Booked()
      reads this`updated, this`pending, this`results, this`path
    {
      path != [] && Last(path).updated == updated && Last(path).pending == pending && Last(path).results == results
    }

    lemma CompletionForetold(at: nat)
      requires CauseOf(env, config, abortedBefore, results) == Completes(at) && tick == at + 2
      requires journal.phase == Ended(EndCompleted) && path != [] && Last(path).lost == {}
      requires |results| == |config.stages| && Errorless(results)
      ensures Foretold()
    {
    }

    method FinishCovered()
      requires Running() && Advancing() && Arrived(|config.stages|) && ValidStages(config.stages)
      modifies this`aborted, this`status, this`tick, this`path, activities.cluster, journal, journal.logger
      ensures Running() && CompletedWell() && tick == old(tick) + 2 && Last(path).lost == {}
    {
      Finish();
      WholeCourse();
    }

    method FinishWell()
      requires Running() && Advancing() && Arrived(|config.stages|) && ValidStages(config.stages)
      modifies this`aborted, this`status, this`tick, this`path, activities.cluster, journal, journal.logger
      ensures Closed() && CompletedWell() && Foretold()
    {
      ghost var at := tick;
      CompletesWhole();
      FinishCovered();
      CompletionForetold(at);
    }

    // ---------- Rolling back ----------

    // The cluster has been rolled back: every updated server is at its version from
    // before the run, and `rolledBack` names those that came back to the source version.
    ghost predicate Undone(rolledBack: seq<ServerId>)
      reads this`before, this`path, activities.cluster
    {
      && path != [] && Restored(before, activities.cluster.servers, Last(path).lost, config.target)
      && forall id | id in Last(path).updated && id in activities.cluster.servers
                     && activities.cluster.servers[id].version == config.source :: id in rolledBack
    }

    lemma WillBeUndone(now: Servers)
      requires Running() && now == Recovery.RevertAll(activities.cluster.servers, Elems(updated))
      ensures Restored(before, now, Last(path).lost, config.target)
      ensures forall id | id in updated :: id in activities.cluster.servers && activities.cluster.servers[id].previous.Some?
    {
      CourseStands(Given(), config, path);
      StandsUndone(Given(), config, Last(path), now);
    }

    method UndoServers() returns (rolledBack: seq<ServerId>, success: bool)
      requires Running()
      modifies this`aborted, this`status, this`tick, activities.cluster, activities.quarantine, journal`pages, journal.logger
      ensures Traced() && success && Undone(rolledBack) && tick == old(tick) + 1
      ensures activities.Quarantined() == old(activities.Quarantined())
    {
      ghost var log, records := journal.logger.events, [];
      WillBeUndone(Recovery.RevertAll(activities.cluster.servers, Elems(updated)));
      rolledBack, success, records := activities.RollbackUpdatedServers(config.deploymentId, config.target, config.source,
                                                                        |config.ids|, updated);
      journal.Absorb(log, records);
      Await();
    }

    ghost predicate SourceBefore()
      reads this`before
    {
      AllOn(before, config.source)
    }

    lemma UndoneTold(view: View, rolledBack: seq<ServerId>)
      requires Course(Given(), config, path) && Listed(Given(), config) && SourceBefore()
      requires Undone(rolledBack) && Forward(view, Elems(Last(path).updated), config.target, config.source)
      ensures Shows(Apply(view, RollbackComplete(rolledBack)), Elems(Last(path).updated), activities.cluster.servers)
    {
      CourseStands(Given(), config, path);
      RollbackShows(view, before, activities.cluster.servers, Elems(Last(path).updated), Last(path).lost, rolledBack,
                    config.target, config.source);
    }

    // A rollback on record: every server that was not lost is at its version from before
    // the run; and the log rebuilds the updated ones, at their real versions if the
    // cluster was on the source version before.
    ghost predicate UndoTold()
      reads this`updated, this`before, this`path, journal, activities.cluster
    {
      && journal.phase == Ended(EndRolledBack) && path != []
      && UndoneAs(journal.view, before, activities.cluster.servers, Elems(updated), Last(path).lost, config.target, config.source)
    }

    ghost predicate RolledBackWell()
      reads this`aborted, this`status, this`updated, this`before, this`path, journal, activities.cluster
    {
      UndoTold() && status == if aborted then Aborted else RolledBack
    }

    method JotUndone(rolledBack: seq<ServerId>)
      requires Traced() && journal.phase == UndoStarted
      modifies journal, journal.logger
      ensures Traced() && journal.phase == Ended(EndRolledBack)
      ensures journal.view == Apply(old(journal.view), RollbackComplete(rolledBack))
    {
      WithinMore(Last(journal.pages).snaps, path, Last(path));
      journal.Record(RollbackComplete(rolledBack), Last(path));
    }

    // Lines 541 to 549.
    method RecordUndone(rolledBack: seq<ServerId>)
      requires Traced() && journal.phase == UndoStarted && Undone(rolledBack)
      requires Forward(journal.view, Elems(updated), config.target, config.source)
      modifies journal, journal.logger
      ensures Traced() && UndoTold()
    {
      ghost var view := Apply(journal.view, RollbackComplete(rolledBack));
      assert view.servers.Keys == Elems(updated) by { RollbackKnows(journal.view, rolledBack); }
      assert SourceBefore() ==> Shows(view, Elems(updated), activities.cluster.servers) by {
        if SourceBefore() { UndoneTold(journal.view, rolledBack); }
      }
      JotUndone(rolledBack);
    }

    // Lines 549 to 555.
    method Conclude(success: bool)
      requires Traced()
      modifies this`aborted, this`status, this`tick
      ensures Traced() && tick == old(tick) + 1
      ensures status == if aborted then Aborted else if success then RolledBack else Failed
    {
      Await();
      status := if aborted then Aborted else if success then RolledBack else Failed;
    }

    // Lines 541 to 555.
    method FinishRollback(rolledBack: seq<ServerId>, success: bool)
      requires Traced() && journal.phase == UndoStarted && Undone(rolledBack)
      requires Forward(journal.view, Elems(updated), config.target, config.source)
      modifies this`aborted, this`status, this`tick, journal, journal.logger
      ensures Closed() && (success ==> RolledBackWell()) && tick == old(tick) + 1
    {
      RecordUndone(rolledBack);
      ghost var view, servers, lost := journal.view, activities.cluster.servers, Last(path).lost;
      assert UndoneAs(view, before, servers, Elems(updated), lost, config.target, config.source);
      Conclude(success);
      assert journal.view == view && activities.cluster.servers == servers && Last(path).lost == lost;
    }

    method SnapshotUndo()
      requires Running() && Advancing() && journal.phase == Undoing
      modifies this`aborted, this`status, this`tick, journal, journal.logger
      ensures Running() && Advancing() && journal.phase == UndoSnapped && tick == old(tick) + 2
    {
      Snapshot();
    }

    method StartRollback()
      requires Running() && Advancing() && journal.phase == Undoing
      modifies this`aborted, this`status, this`tick, journal, journal.logger
      ensures Running() && Advancing() && journal.phase == UndoStarted && tick == old(tick) + 3
    {
      SnapshotUndo();
      RecordNeutral(RollbackStart);
    }

    // _rollback_workflow
    method RollBack()
      requires Running() && Advancing() && journal.phase == Undoing
      modifies this`aborted, this`status, this`tick, activities.cluster, activities.quarantine, journal, journal.logger
      ensures Closed() && RolledBackWell() && tick == old(tick) + 5
      ensures activities.Quarantined() == old(activities.Quarantined())
    {
      StartRollback();
      var rolledBack, success := UndoServers();
      FinishRollback(rolledBack, success);
    }

    // ---------- Handling what was raised ----------

    method BeginUndo()
      requires Running() && Advancing() && (journal.phase == AbortNoted || Undoable(journal.phase, config.maxRetries))
      modifies this`aborted, this`status, this`tick, journal, journal.logger
      ensures Running() && Advancing() && journal.phase == Undoing && tick == old(tick) + 1
    {
      RecordNeutral(RollbackInitiated);
    }

    method NoteAbort()
      requires Running() && Advancing() && Abortable(journal.phase)
      modifies this`aborted, this`status, this`tick, journal, journal.logger
      ensures Running() && Advancing() && journal.phase == AbortNoted && tick == old(tick) + 1
    {
      status := Aborted;
      RecordNeutral(AbortReceived);
    }

    method HandleAbort()
      requires Running() && Advancing() && Abortable(journal.phase)
      modifies this`aborted, this`status, this`tick, activities.cluster, activities.quarantine, journal, journal.logger
      ensures Closed() && RolledBackWell() && tick == old(tick) + 7
      ensures activities.Quarantined() == old(activities.Quarantined())
    {
      NoteAbort();
      BeginUndo();
      RollBack();
    }

    // The run ended without a rollback or a completion: the bookkeeping matches the cluster.
    ghost predicate LeftAsIs()
      reads this, journal, activities.cluster
    {
      && (journal.phase == Ended(EndViolation) || journal.phase == Ended(EndFailed)) && tick > 0
      && status == (if env.signal(tick - 1) then Aborted else Failed)
      && path != [] && Stand(Last(path))
    }

    method HandleRecoverable()
      requires Running() && Advancing() && Undoable(journal.phase, config.maxRetries)
      modifies this`aborted, this`status, this`tick, activities.cluster, activities.quarantine, journal, journal.logger
      ensures Closed() && activities.Quarantined() == old(activities.Quarantined())
      ensures env.verdict(old(tick)) == Block ==>
                LeftAsIs() && journal.phase == Ended(EndViolation) && tick == old(tick) + 2
      ensures env.verdict(old(tick)) != Block ==> RolledBackWell() && tick == old(tick) + 7
    {
      var decision := Evaluate();
      if decision == Block {
        Violate();
      } else {
        BeginUndo();
        RollBack();
      }
    }

    method Fail()
      requires Running() && Advancing() && (journal.phase.Snapped? || journal.phase.Moved?)
      modifies this`aborted, this`status, this`tick, journal, journal.logger
      ensures Running() && journal.phase == Ended(EndFailed) && tick == old(tick) + 1
      ensures status == if env.signal(tick - 1) then Aborted else Failed
    {
      status := Failed;
      assert Advance(journal.phase, DeploymentFailed, |config.stages|, config.maxRetries) == Ended(EndFailed);
      RecordNeutral(DeploymentFailed);
    }

    method HandleFailure()
      requires Running() && Advancing() && (journal.phase.Snapped? || journal.phase.Moved?)
      modifies this`aborted, this`status, this`tick, journal, journal.logger
      ensures Closed() && LeftAsIs() && journal.phase == Ended(EndFailed) && tick == old(tick) + 1
    {
      Fail();
    }

    // What the end of a run is like, by its closing event.
    ghost predicate EndedWell()
      reads this, journal, activities.cluster
    {
      match journal.phase
      case Ended(EndCompleted) => CompletedWell()
      case Ended(EndRolledBack) => RolledBackWell()
      case Ended(EndViolation) => LeftAsIs()
      case Ended(EndFailed) => LeftAsIs()
      case _ => false
    }

    // Lines 399 to 483.
    method Handle(x: Raising)
      requires Running() && Advancing() && Stopped(x)
      modifies this`aborted, this`status, this`tick, activities.cluster, activities.quarantine, journal, journal.logger
      ensures Closed() && EndedWell() && activities.Quarantined() == old(activities.Quarantined())
      ensures var ending := Handling(env, abortedBefore, x, old(tick));
              journal.phase == Ended(ending) && tick == HandledBy(ending, old(tick))
    {
      if SaysAbort(x) || aborted {
        HandleAbort();
      } else if Recoverable(x) {
        HandleRecoverable();
      } else {
        HandleFailure();
      }
    }

    lemma HandlingForetold(x: Raising, t: nat)
      requires Accounted(x, t, Isolated())
      requires var ending := Handling(env, abortedBefore, x, t); journal.phase == Ended(ending) && tick == HandledBy(ending, t)
      ensures Foretold()
    {
    }

    // ---------- The whole run ----------

    ghost method BeginCourse()
      requires activities.Valid() && activities.RegionsNamed() && env.Valid()
      requires Wired() && journal.Valid() && journal.pages == [FIRST]
      requires NoDup(config.ids) && Elems(config.ids) == activities.cluster.servers.Keys
      requires updated == [] && pending == config.ids && results == [] && tick == 0
      modifies this`before, this`quarantinedBefore, this`abortedBefore, this`path
      ensures Running() && Steady() && Last(path).lost == {}
      ensures before == activities.cluster.servers && abortedBefore == aborted
    {
      before, quarantinedBefore, abortedBefore := activities.cluster.servers, activities.Quarantined(), aborted;
      path := [Position(before, [], config.ids, {}, [])];
      CourseBegins(Given(), config, Last(path));
    }

    // Lines 49 to 66.
    method Reset()
      requires activities.Valid() && activities.RegionsNamed() && env.Valid()
      requires Wired() && journal.Valid() && journal.pages == [FIRST]
      requires NoDup(config.ids) && Elems(config.ids) == activities.cluster.servers.Keys
      modifies this
      ensures Running() && Steady() && results == [] && Last(path).lost == {} && updated == [] && tick == 0
      ensures before == activities.cluster.servers && abortedBefore == aborted == old(aborted)
    {
      status, currentStage, updated, pending, results, tick := Pending, -1, [], config.ids, [], 0;
      BeginCourse();
    }

    method RecordStart()
      requires Running() && journal.phase == Fresh && journal.view == BLANK && updated == []
      modifies this`aborted, this`status, this`tick, journal, journal.logger
      ensures Running() && Advancing() && journal.phase == Started && tick == old(tick) + 1
    {
      RecordEvent(DeploymentStart(config.target, config.source));
    }

    // What a run starts from.
    ghost predicate Startable()
      reads journal, activities.cluster, activities.logger, activities.quarantine
    {
      && activities.Valid() && activities.RegionsNamed() && env.Valid()
      && Wired() && journal.Valid() && journal.pages == [FIRST]
      && NoDup(config.ids) && Elems(config.ids) == activities.cluster.servers.Keys && ValidStages(config.stages)
    }

    // Lines 49 to 114.
    method Begin()
      requires Startable()
      modifies this, journal, journal.logger
      ensures Running() && Advancing() && Steady() && journal.phase == Ready(0) && results == [] && Last(path).lost == {}
      ensures before == activities.cluster.servers && abortedBefore == old(aborted) && tick == 3
    {
      Reset();
      RecordStart();
      Snapshot();
    }

    lemma RefusalForetold()
      requires env.verdict(3) == Block && journal.phase == Ended(EndViolation) && tick == 5
      requires path != [] && Last(path).lost == {} && results == []
      ensures Foretold()
    {
    }

    lemma ArrivesFirst()
      requires journal.phase == Ready(0) && path != [] && Last(path).lost == {} && results == []
      requires env.verdict(3) != Block && tick == 4 && config.stages != []
      ensures Arrived(0)
    {
    }

    lemma BlockedWell()
      requires Running() && Blocked()
      ensures Closed() && EndedWell()
    {
    }

    // Lines 128 to 135.
    method Refuse()
      requires Running() && Advancing() && journal.phase == Ready(0) && Last(path).lost == {} && results == []
      requires env.verdict(3) == Block && tick == 4
      modifies this`aborted, this`status, this`tick, journal, journal.logger
      ensures Running() && Advancing() && Blocked() && Foretold()
    {
      Violate();
      RefusalForetold();
    }

    method Admit()
      requires Running() && Advancing() && Steady() && journal.phase == Ready(0) && results == [] && Last(path).lost == {}
      requires env.verdict(3) != Block && tick == 4 && config.stages != []
      modifies this`status
      ensures Running() && Advancing() && Steady() && Arrived(0) && status == InProgress
    {
      status := InProgress;
      ArrivesFirst();
    }

    // Lines 116 to 137.
    method MayStart() returns (flow: Flow)
      requires Running() && Advancing() && Steady() && journal.phase == Ready(0) && results == [] && Last(path).lost == {}
      requires tick == 3 && config.stages != []
      modifies this`aborted, this`status, this`tick, journal, journal.logger
      ensures Running() && Advancing() && Steady()
      ensures env.verdict(3) == Block ==> flow == Return && Blocked() && Foretold()
      ensures env.verdict(3) != Block ==> flow == Continue && Arrived(0) && status == InProgress
    {
      var decision := Evaluate();
      if decision == Block {
        Refuse();
        return Return;
      }
      Admit();
      flow := Continue;
    }

    // What Start comes to.
    ghost predicate StartTold(flow: Flow)
      reads this, journal, activities.quarantine
    {
      && Steady()
      && if env.verdict(3) == Block then flow == Return && Blocked() && Foretold() else flow == Continue && Arrived(0)
    }

    // Lines 49 to 137.
    method Start() returns (flow: Flow)
      requires Startable()
      modifies this, journal, journal.logger
      ensures before == old(activities.cluster.servers) && quarantinedBefore == old(activities.Quarantined())
      ensures abortedBefore == old(aborted) && Running() && Advancing() && StartTold(flow)
    {
      Begin();
      flow := MayStart();
    }

    method HandleWell(x: Raising)
      requires Running() && Advancing() && Stopped(x) && Accounted(x, tick, Isolated())
      modifies this`aborted, this`status, this`tick, activities.cluster, activities.quarantine, journal, journal.logger
      ensures Closed() && EndedWell() && Foretold()
    {
      ghost var t, regions := tick, Isolated();
      Handle(x);
      assert Isolated() == regions;
      assert Accounted(x, t, regions);
      HandlingForetold(x, t);
    }

    // Lines 137 to 485, unless the first checkpoint has refused.
    method Proceed(admitted: Flow)
      requires Running() && Advancing() && StartTold(admitted) && ValidStages(config.stages)
      modifies this`aborted, this`status, this`tick, this`currentStage, this`updated, this`pending, this`results, this`path,
               activities.cluster, activities.quarantine, journal, journal.logger
      ensures Closed() && EndedWell() && Foretold()
    {
      var flow := admitted;
      if admitted != Return { flow := RunStages(); }
      match flow {
        case Continue => FinishWell();
        case Return => BlockedWell();
        case Raise(x) => HandleWell(x);
      }
    }

    // run_deployment
    method RunDeployment()
      requires Startable()
      modifies this, activities.cluster, activities.quarantine, journal, journal.logger
      ensures before == old(activities.cluster.servers) && quarantinedBefore == old(activities.Quarantined())
      ensures abortedBefore == old(aborted)
      ensures Closed() && EndedWell() && Foretold()
    {
      var flow := Start();
      Proceed(flow);
    }
  }
}
