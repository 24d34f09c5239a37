# A verified model of the canary deployment orchestrator

This Dafny project models a canary deployment orchestrator and proves what its parts
promise: the rollout run as a whole, the replay of its audit log, the changes to the
cluster and their undoing, the choice of servers for a stage, and the governance
decision. `dafny verify dfyconfig.toml` checks everything.

## How it is laid out

| file | contents |
|---|---|
| `Base`, `Events`, `Models` | sequences without repetition; audit events; servers, decisions, deployment status |
| `Cluster`, `Deployment`, `Quarantine` | the mutable classes: cluster, deployment record, region quarantine |
| `RoundRobin`, `Grouping`, `Stage` | how a stage picks servers, how many, and what it does |
| `Coverage`, `RunFacts`, `Fate`, `Course` | facts about a run as values: the share after each stage, restored versions, the log's grammar, what the environment makes of a run, the invariant of every course of positions |
| `Activities`, `Journal`, `Workflow` | the audit log, the activities, the chain of events, and the run itself |
| `Lineage`, `Timeline`, `ReplayState`, `Shuffle`, `RunLog` | verifying, ordering and folding a log, and what that recovers of a run |
| `Outcomes`, `OneServer` | the theorems about every finished run, and one run worked out for each arrival of the abort signal |
| `Rollbacks`, `Recovery`, `Snapshots` | manual and concurrent rollback, resumable recovery plans, snapshot and restore |
| `Governance` | risk, policies, approval and the checkpoint |

## How the run is modelled

`Workflow.CanaryDeploymentWorkflow` keeps the source's state (status, updated and pending
servers, stage results, the abort flag) in fields. Every await may let an abort signal in.
What a run meets from outside is an `Environment`, indexed by the number of awaits made: it
says when signals arrive, what each checkpoint decides and puts on record, what health
checks find and do to statuses, whether the stage activity raises, what looks at the
engine's abort event find, and whether the delay between stages is over before an abort is
seen. Theorems hold for every environment, so for every interleaving of the abort signal
with the run's steps.

`Fates.CauseOf` and `Fates.EndOf` say, by the environment and by which stages report an
error, why the run stops, with which ending and after how many awaits; `RunDeployment`
is proved to end just so (`Foretold`). Two ghost histories go along. The *course* is the
sequence of positions (cluster and bookkeeping) that the run passes through;
`Courses.CourseStands` is the invariant of every course. The *journal* is the sequence of
pages that its log passes through; each event is noted with the position at which it was
recorded, and `Journals.BookKept` is the invariant of every journal. The workflow's methods
only show that each step is a legal move of both, and the theorems about whole runs
(`Outcomes`) are about what `RunDeployment` promises at its end.

Assumed throughout, as the source leaves it open: event ids are fresh, non-empty and never
`ROOT`; nobody else changes server versions or quarantines during a run (health checks may
change statuses); servers and quarantined regions have non-empty region names. The last one
matters: a quarantined region named by the empty string gives an empty recovery plan,
which reports success and rolls nothing back.

## Where the code does less than it seems to

Each of these is proved as it is in the code, with the condition under which the code does
meet the expectation, and with an input that shows it where one is named.

* An abort that comes in on one of the four awaits after the look at the flag at
  deploy/workflows.py:141 (the checkpoint, the snapshot and its event, the stage itself) is
  found only at line 210, and the run forgets what the stage deployed: those servers are not
  rolled back. `Fates.LostExactly` says when that happens, `Outcomes.UndoneExactly` that
  then just those servers keep the target version and that every other rollback restores
  all versions, `Outcomes.RestoredExactly` when nothing is lost, by the environment and the
  stages' shares alone. `OneServer.AbortAfter` runs a rollout of one server for each arrival
  of the signal, and loses it if the signal arrives after four to seven awaits.
* An abort after the last look at the flag (deploy/workflows.py:318) is lost on the next two
  awaits and relabels the finished run as aborted on the two after (`Outcomes.LateAbort`;
  arrivals 11 to 14 of `OneServer.AbortAfter`).
* Replay ends with the run's own status exactly if the run was not stopped by a policy, no
  abort came in by the end of a rollback, and none on the last awaits of another ending
  (`Outcomes.ReplayedStatus`; `OneServer.AbortAfter` has replay tell `rolled_back` of an
  aborted run, and `completed` of one relabelled). The README of the repository draws a
  `rolling_back` state; the run never enters it.
* Lineage verification also rejects a sound log in which an event named `ROOT` has a parent
  (`Lineage.SentinelNameRejected`); apart from that it decides exactly the lineage property
  (`Lineage.LineageVerdict`).
* Regions' shares may differ by more than one once a region has run out
  (`RoundRobin.GapOfTwo`); never by more than one plus the number of such regions
  (`RoundRobin.NearFair`). By the regions' sizes, `RoundRobin.EvenShares` says when none
  runs out, and that shares then differ by at most one.
* A failed snapshot restore leaves the cluster as it was exactly if it deleted nothing and
  made nothing before failing (`Snapshots.RestoreAtomic`); a live server that the snapshot
  does not list is gone either way (`Snapshots.DeletedForGood`). A successful restore gives
  back the capture exactly if no live server differs from its record in host name, address
  or region, which a restore leaves alone (`Snapshots.RoundTrip`).

## Model

| member | source | states |
|---|---|---|
| Workflow.CanaryDeploymentWorkflow.RunDeployment | deploy/workflows.py:36-485 | For every environment the run ends as its environment and its stages' errors foretell: the ending, the number of awaits, what of its stages is recorded and what is lost. Completed: just the servers outside the regions quarantined before the run are updated, on the target version and healthy, and the log's view shows exactly those at their real versions. Rolled back: every server but the lost ones is at its own version from before the run, the status is aborted or rolled_back by the flag, the view knows exactly the updated servers, at their real versions if the cluster was on the source version. Blocked or failed: the status is failed unless the last await relabels it, and the bookkeeping matches the cluster |
| Workflow.CanaryDeploymentWorkflow.EnterStage | deploy/workflows.py:141-191 | An abort heard by the look at the flag stops the run with nothing done, a checkpoint that blocks ends it, otherwise the stage is next after three awaits |
| Workflow.CanaryDeploymentWorkflow.MoveServers | deploy/workflows.py:190-252 | If an abort has been heard by the end of the stage's activity, the run stops and exactly what the activity deployed is lost; otherwise nothing is lost and the stage is recorded with its result, unless the cluster is empty, and a stage error stops the run with the text the flag decides |
| Workflow.CanaryDeploymentWorkflow.CheckHealth | deploy/workflows.py:254-316 | The run goes on exactly if the first check or one of at most max retries passes, after as many awaits as those take; otherwise just the unstable regions are quarantined besides those that were, and the run stops as unhealthy |
| Workflow.CanaryDeploymentWorkflow.LeaveStage | deploy/workflows.py:318-374 | Which of abort, violation, rollback and going on follows, by the flag, the checkpoint's decision and the delay before the next stage; after the last stage two awaits pass without a look at the flag |
| Workflow.CanaryDeploymentWorkflow.Handle | deploy/workflows.py:399-483 | An exception leads to a rollback, a violation or a failure exactly as its text, the flag and the rollback checkpoint decide, after the number of awaits that takes |
| Workflow.CanaryDeploymentWorkflow.RollBack | deploy/workflows.py:487-555 | The rollback restores versions and ends the log; the final status is aborted exactly if the flag is set by then |
| Fates.PassedOn | deploy/workflows.py:139-374 | A run gets to stage k if no stage before it is the last, and then the stages before have no part in why it stops |
| Fates.LostExactly | deploy/workflows.py:141-211 | Without errors, the runs that forget stage k are exactly those that get to it unrefused and whose first abort comes in on the four awaits after the look at the flag |
| Fates.SmoothCause | deploy/workflows.py:139-374 | Without signals, with checkpoints that allow and checks that pass, the stage loop runs to its end unless a stage reports an error |
| Fates.CompletesExactly | deploy/workflows.py:128-374 | A run completes exactly if the first checkpoint lets it start and in every stage no look finds an abort, both checkpoints let it go on, no error is reported, one of the checks passes and the delay ends before an abort is seen |
| Fates.AbortsFirst | deploy/workflows.py:141-371 | Whatever stops a run other than an abort, the look at the flag before it had found none; and an abort that stops it had come in by then |
| Fates.LookIs | deploy/workflows.py:139-374 | With checks that pass at once, the look at the flag before stage k comes after 4 + 10 k awaits |
| Outcomes.EndingFixesStatus | deploy/workflows.py:128-485 | Without an abort the closing event fixes the final status |
| Outcomes.EndsByCause | deploy/workflows.py:399-483 | The closing event for each reason to stop, and for each kind of stage error: shortfalls, failed updates, failing checks and mandated rollbacks are undone unless the rollback checkpoint refuses and no abort has come in, aborts are always undone, other exceptions end as failures |
| Outcomes.ShortfallUndone | deploy/workflows.py:428-477 | A run that lacks servers for a stage is rolled back, with every version as before the run, unless the rollback checkpoint refuses |
| Outcomes.StaysDeployed | deploy/workflows.py:450-483 | A run that ends in failure or violation leaves exactly the servers it has recorded on the target version |
| Outcomes.LateAbort | deploy/workflows.py:318-393 | A run that completes had heard no abort by its last look at the flag, four awaits before the end; its status is aborted exactly if a signal arrives on the last two |
| Outcomes.ReplayedStatus | resilience/replay.py:204-219 | Per ending, exactly when replay ends with the run's own status |
| Outcomes.UndoneExactly | deploy/workflows.py:210-217 | After a rollback all versions are restored unless the run stopped for an abort found right after a stage's activity; then exactly what that activity deployed is on the target version and all else restored |
| Outcomes.LossExactly | deploy/engine.py:176-241 | Undisturbed, such a stage deployed exactly the servers by which its share exceeds the one before |
| Outcomes.NoErrors | deploy/engine.py:195-236 | Undisturbed, no stage reports an error, so the environment alone decides why the run stops |
| Outcomes.RestoredExactly | deploy/workflows.py:141-217 | Undisturbed, a rollback restores every version exactly if each stage that the environment makes the run forget has no servers to deploy |
| Outcomes.SmoothRunCompletes | deploy/workflows.py:36-395 | Without aborts, refusals, failing checks and hindrances the run completes, with every server outside the quarantined regions on the target version and healthy |
| Outcomes.CompletionCovers | deploy/config.py:73-88 | Every completed run has every server outside the regions quarantined before it on the target version and healthy |
| Outcomes.SharesKept | deploy/workflows.py:213-237 | At the end of any run updated and pending servers partition the cluster; each stage stayed within its ceiling, out of the quarantined regions, and away from servers updated before |
| Outcomes.SharesExact | deploy/engine.py:176-192 | After each stage without error exactly ceil(n * p / 100) of the n servers outside the quarantined regions are updated |
| Outcomes.TransitionRebuilt | resilience/replay.py:223-274 | From any permutation of the whole log the state rebuilt at a stage's transition is exactly the servers updated by then, at the versions they had there, and the event tells that stage's result |
| Outcomes.EndRebuilt | resilience/replay.py:223-274 | ... and at the last event it is the run's final view, which shows exactly the updated servers at their real versions after a completion, or a rollback of a cluster on the source version |
| OneServer.AbortAfter | deploy/workflows.py:36-485 | One server, one stage, a signal after `at` awaits: the run's status, the server's version and the status that replay tells, for each arrival |
| Courses.CourseStands | deploy/workflows.py:139-374 | Invariant of every course: each updated server has been deployed exactly once over its version from before the run, all others are as they were but for status and readings, updated and pending partition the ids, every stage kept to its ceiling |
| Courses.WhenNoted | deploy/workflows.py:213-237 | Each result at the end was noted by one step of the course, which ran that stage on the cluster as it then was |
| Courses.WellProvisioned | deploy/engine.py:195-236 | If every eligible server takes updates and only stages change servers, no stage is under-provisioned |
| Courses.StandsUndone | deploy/activities.py:385-440 | Reverting what the run knows to have updated restores all versions but those of lost servers, and each can be reverted |
| Courses.CourseCovers | deploy/engine.py:172-192 | After all stages without error exactly the servers in the quarantined regions are left out, and the log's view shows exactly the updated servers at their real versions |
| Coverage.OutcomeWithinCeiling | deploy/engine.py:176-236 | A stage on the cluster as it stands keeps to the ceiling of the cluster at the start of the run |
| Coverage.ExactShare | deploy/config.py:73-88 | By induction over validated stages: the updated share is exactly the last percentage, rounded up |
| Coverage.AllStagesCover | deploy/config.py:87-88 | The last stage is 100%, so after all stages without error just the eligible servers are updated |
| Coverage.NeverTwice | deploy/engine.py:253-261 | No two stages update the same server |
| RunFacts.RevertProgress | cluster/state.py:278-319 | Reverting deployed servers restores each to its own earlier version, whatever health checks did to statuses |
| RunFacts.RollbackShows | resilience/replay.py:204-219 | Replaying the rollback's closing event gives exactly the updated servers at their real versions, on a cluster that was on the source version |
| RunFacts.ForwardShows | resilience/replay.py:190-203 | While the run goes forward the log's view holds exactly the updated servers at their real versions |
| RunFacts.StatusReplayed | resilience/replay.py:176-221 | What status replay makes of a run that has come so far |
| RunFacts.ServerTold | resilience/replay.py:190-219 | The same for the fold of one run's events, by induction |
| RunFacts.ClosesOnce | deploy/workflows.py:128-483 | A closing event occurs only at the end of a run's chain, and names its ending |
| RunFacts.HealthChecksNumbered | deploy/workflows.py:264-297 | A health check follows its stage's transition, or the failed check numbered one less, and its number is at most max retries |
| RunFacts.StagesInOrder | deploy/workflows.py:140-246 | Stage transitions count up from 0; a completed run has all of them |
| RunFacts.RollbackExcludesFailure | deploy/workflows.py:403-483 | ROLLBACK_INITIATED and DEPLOYMENT_FAILED never occur in one run |
| RunFacts.RollbackSequence | deploy/workflows.py:497-545 | A rollback on record ends with the four events initiated, snapshot, start, complete, in a row |
| RunFacts.Neighbours | deploy/workflows.py:168-246 | A snapshot directly precedes each stage transition; a noted abort is directly followed by the initiated rollback |
| RunFacts.MergedMultiset | deploy/activities.py:443-470 | A run's records are exactly its chain and the parentless records made on the side |
| Journals.BookKept | deploy/workflows.py:66-81 | Invariant of every journal: the chain links each event to the one before, tells the phase, folds to the view, and each stage transition shows just the servers updated at the position noted with it |
| Journals.TracksAt | deploy/workflows.py:239-246 | At any stage transition the fold so far knows exactly the ids updated by then, at the versions of the position noted with it, and the event tells that position's last result |
| Journals.Journal.Record | deploy/workflows.py:68-81 | Recording an event extends the chain, its phase and its view |
| RunLog.ScopeIsOwn | resilience/replay.py:88-98 | Of any permutation of a log shared with other deployments, scoping keeps exactly the run's own records |
| RunLog.ChainRecovered | resilience/replay.py:34-85 | From any permutation of the whole log the timeline holds the run's chain contiguously, in emission order, whatever the timestamps |
| RunLog.RunRebuilt | resilience/replay.py:223-274 | The state rebuilt from any permutation of the log at any event of the run is the fold of its chain up to there; at a stage transition it shows exactly the servers updated at the position noted with the event |
| RunLog.LastRebuilt | resilience/replay.py:223-274 | ... and at the last event it is the view that the run ended with |
| RunLog.HealthRebuilt | resilience/replay.py:190-219 | At any event of a run, from any permutation of the log: just the servers listed by a transition so far are known; one named by the closing rollback is healthy on the source version; any other is on the target version, and unhealthy exactly if a check has failed since the last transition that lists it |
| RunLog.RunAccepted | resilience/replay.py:117-174 | Lineage verification accepts every run's log, in any order |
| RunLog.RunGrammar | deploy/workflows.py:83-485 | A finished run's chain: start, snapshot, stages in order, exactly one closing event, the last; a rollback excludes DEPLOYMENT_FAILED |
| Lineage.VerifyEventLineage | resilience/replay.py:117-174 | The iterative search terminates and decides `Accepts` on every log |
| Lineage.Explore | resilience/replay.py:142-165 | One search from a start node: it reports a cycle only if there is one, and if it reports none all it visited is finished in an order where children come first; the path set is kept equal to the nodes with pending finish markers |
| Lineage.LineageVerdict | resilience/replay.py:117-174 | Accepted exactly if every event has an id, every named parent is logged, the parent relation has no cycle, and no event has the sentinel as its child |
| Lineage.SentinelNameRejected | resilience/replay.py:100-115 | A log without a cycle that is rejected because an event is named ROOT |
| Timeline.ReconstructTimeline | resilience/replay.py:34-85 | The imperative ordering computes `TimelineOf`, on every log |
| Timeline.TimelineIds | resilience/replay.py:34-85 | On any log, even with duplicate ids, the walk and the tail together hold each logged id exactly once |
| Timeline.KeyIs | resilience/replay.py:48-55 | An event is filed under the parent it names if some event of the log has that id, else under the root |
| Timeline.ReachedIffRooted | resilience/replay.py:56-80 | The walk reaches exactly the events whose parent chain ends at a root |
| Timeline.RootOrCycle | resilience/replay.py:48-55 | Every parent chain ends at a root or enters a cycle, never both |
| Timeline.ParentFirst | resilience/replay.py:61-80 | An event that the walk reaches comes after the logged event that it names as its parent |
| Timeline.SubtreeContiguous | resilience/replay.py:61-80 | A reached event and all its descendants are one contiguous block |
| Timeline.SiblingsInOrder | resilience/replay.py:73-80 | Of two events with the same logged parent, or both without, the one with the smaller timestamp comes first, and of equal timestamps the one logged later |
| Timeline.TailIsCyclic | resilience/replay.py:82-85 | The tail holds exactly the events whose parent chain enters a cycle, by ascending timestamp, and equal timestamps in log order |
| Timeline.TimelinePermutes | resilience/replay.py:34-85 | Each event with an id appears exactly once |
| Shuffle.ValidLogIsSorted | resilience/replay.py:34-174 | A lineage-valid log comes out as a topological permutation of itself |
| Shuffle.ShuffleRecovery | resilience/replay.py:56-85 | Any interleaving of a chain with parentless records is untangled: the chain is contiguous and in order |
| Shuffle.ReplayOfShuffle | resilience/replay.py:223-274 | The state rebuilt at a chain event depends on the chain alone |
| ReplayState.UpdateVirtualState | resilience/replay.py:176-221 | What each event does to each server: a transition puts those it lists on the target version, healthy; a failed check makes unhealthy those on the target version; a passing one changes none; a closing rollback puts those it names and that are known back, healthy |
| ReplayState.ReconstructStateAtStep | resilience/replay.py:223-274 | The fold of the timeline up to and including the step, or an error exactly if the step is not in it |
| Cluster.ClusterState.UpdateServerVersion | cluster/state.py:185-230 | Deploys: version set, previous version kept, status updating, one record appended, all else as before; false exactly if the server is unknown |
| Cluster.ClusterState.RollbackServer | cluster/state.py:265-319 | Goes back to the previous version, healthy, with one record appended, unless there is none or the last record is a rollback to the present version |
| Cluster.HistoryInvariant | cluster/state.py:118-319 | After any sequence of deploys, rollbacks, status and resource updates on a generated server the history is linked, its last record is the current version and tells the previous one |
| Cluster.ClampedIs | cluster/state.py:147-175 | A reading is kept within 0 and 100, and unchanged if it is within |
| Cluster.RollbacksCollapse | cluster/state.py:289-298 | One or more consecutive rollbacks equal one |
| Cluster.RollbackUndoesDeploy | cluster/state.py:210-319 | Any number of rollbacks after a deploy brings back the version before it |
| Cluster.ClusterHistoryInvariant | cluster/state.py:118-319 | The same for every server of a cluster under operations addressed to any of them |
| Deployment.CeilPercentIsCeiling | deploy/engine.py:190 | The stage target is the least whole number no less than the exact percentage |
| RoundRobin.Select | deploy/engine.py:262-286 | The loop that pops queues and rotates an index deals the schedule of regions |
| RoundRobin.ScheduleLength | deploy/engine.py:274-286 | Exactly min(count, candidates) servers are picked |
| RoundRobin.DealtPrefixes | deploy/engine.py:275-280 | Each region's picks are a prefix of its queue |
| RoundRobin.DealtDistinct | deploy/engine.py:274-286 | No server is picked twice |
| RoundRobin.NearFair | deploy/engine.py:274-286 | Two regions still holding servers differ by at most one plus the number of exhausted regions |
| RoundRobin.EvenShares | deploy/engine.py:274-286 | By the sizes: no region runs out exactly if count <= (size - 1) * regions + index for each, and then shares differ by at most one |
| RoundRobin.GapOfTwo | deploy/engine.py:275-282 | Three regions where the shares differ by two, as the index is not rebased |
| Grouping.SelectServers | deploy/engine.py:262-286 | Sorting, grouping and dealing together compute `Selection` |
| Grouping.SelectionFacts | deploy/engine.py:243-286 | Distinct candidates, min(count, candidates) of them |
| Grouping.SelectionByRegion | deploy/engine.py:262-280 | A region's picks are a prefix of its candidates' ids, as many as it has turns in the schedule; ids within a region and the regions themselves strictly ascend, character by character |
| Grouping.AtMostIs | deploy/engine.py:265 | The order sorted by: a prefix, or less at the first character where the two differ |
| Grouping.SelectionIndifferent | deploy/engine.py:262-286 | The selection is the same whatever the order in which the candidates are listed |
| Stage.ExecuteStage | deploy/engine.py:143-241 | A stage deploys distinct eligible candidates only, as many as its ceiling still needs or all there are, and just the first of the round-robin selection among them, all unless it sees an abort; it reports no error exactly if that suffices |
| Stage.StageDeploys | deploy/engine.py:195-236 | Only healthy or degraded pending servers outside the quarantined regions are deployed, each to the target version with its own as the previous one and status updating; no other server changes; servers lack only if all of those were deployed |
| Stage.CanaryCeiling | deploy/engine.py:176-236 | The updated eligible servers never exceed max(before, ceiling), and reach just that exactly if there is no error |
| Activities.CanaryDeploymentActivities.ExecuteStage | deploy/activities.py:154-256 | With or without an engine the activity's report and effect are those of a stage; an exception changes nothing |
| Activities.CanaryDeploymentActivities.RollbackUpdatedServers | deploy/activities.py:366-440 | By recovery plan or one by one, every updated server is reverted, and each that is back on the source version is listed |
| Activities.MintedUnique | deploy/audit.py:57-73 | Logged ids are distinct and never the sentinel |
| Quarantine.RegionQuarantineSystem.CheckAndAutoQuarantine | resilience/quarantine.py:75-108 | Quarantines exactly the unstable regions that are not quarantined yet, and lists those |
| Quarantine.UnstableIs | resilience/quarantine.py:86-100 | A region is unstable exactly if it has servers and the degraded or failed ones are at least the threshold percentage of them |
| Quarantine.RegionQuarantineSystem.ReleaseRegion | resilience/quarantine.py:47-62 | Releases an active region and touches no other |
| Recovery.RecoveryPlanningEngine.GeneratePlan | resilience/recovery.py:37-166 | Staged batches of at most two, and region plans, roll back each updated server by exactly one step; a partial rollback just the degraded or failed ones; a resumption releases the region, if named, and resumes; unknown strategies are refused |
| Recovery.RecoveryPlanningEngine.ExecuteRecoveryPlan | resilience/recovery.py:168-233 | Runs from where the plan stands to the first step not approved, and has done exactly those steps |
| Recovery.ResumedAsUninterrupted | resilience/recovery.py:168-233 | Any series of halted attempts followed by an approved one leaves cluster, quarantines and deployment as one uninterrupted execution |
| Recovery.DoStepsReverts | resilience/recovery.py:198-226 | A list of steps reverts exactly the servers it targets |
| Recovery.StagedDoes | resilience/recovery.py:198-226 | A staged plan rolls back each updated server, empties the updated set, and changes nothing else |
| Recovery.RegionDoes | resilience/recovery.py:198-226 | A plan for a region leaves exactly that region quarantined besides those that were |
| Recovery.ResumeDoes | resilience/recovery.py:198-226 | A resumption releases the region, sets the deployment in progress, and touches no server |
| Rollbacks.Rollback | deploy/rollback.py:177-278 | Without force one updated server that is missing or not on the target version stops it before any change, with just those reported; else each updated server not on the source version is reverted, the ids listed and the status tell which and whether all could be |
| Rollbacks.ValidateRollbackConsistency | deploy/rollback.py:131-174 | Reports exactly the updated servers that are missing or not on the target version, with the version found |
| Rollbacks.StepKept | deploy/rollback.py:225-253 | Every atomic step of every thread keeps the invariant, however stale its decision |
| Rollbacks.ConcurrentRollbacks | deploy/rollback.py:225-278 | Any number of threads in any interleaving: when all are done each present updated server is at its own earlier version, reverted at most once, and the deployment is ROLLED_BACK |
| Rollbacks.RolloutIsFresh | deploy/engine.py:216-226 | The servers of a rollout to another version are as concurrent rollbacks need them |
| Snapshots.ClusterSnapshotSystem.CreateSnapshot | resilience/snapshots.py:30-104 | A snapshot holds a full record of every server, and the deployment's state |
| Snapshots.ClusterSnapshotSystem.Restore | resilience/snapshots.py:106-250 | Success exactly if every record and the deployment section can be read; a failure rewinds surviving servers and the deployment |
| Snapshots.RoundTrip | resilience/snapshots.py:40-181 | A restore of a capture always succeeds on the servers; it gives back the captured ids and the captured map exactly if no live server of the same id differs in host name, address or region |
| Snapshots.RestoresExactly | resilience/snapshots.py:146-217 | A restore gets through exactly if every record has an id and all fields that are set, those that make a server where none is there by then, and the deployment section its status and stages |
| Snapshots.RestoredAfterChurn | resilience/snapshots.py:146-181 | After any operations, drift, removals and additions (of the same hosts) the restore gives back the captured map |
| Snapshots.DeploymentRoundTrip | resilience/snapshots.py:69-217 | Status, sets, stage index, error and stages come back |
| Snapshots.RestoreAtomic | resilience/snapshots.py:118-250 | A failed restore changes nothing exactly if the ids it leaves, told from ids and readability alone, are the live ones |
| Snapshots.EqualIdsAtomic | resilience/snapshots.py:118-250 | With equal id sets, or a record without id, a failed restore changes nothing |
| Snapshots.DeletedForGood | resilience/snapshots.py:152-238 | A live server that is not in the snapshot is gone however the restore ends |
| Governance.GovernanceCoordinator.EvaluateCheckpoint | governance/coordinator.py:190-368 | The decision is the worst verdict, a raising policy counting as BLOCK, with the gate consulted only if that is ALLOW and approval is wanted; it records the risk, each verdict, the approval if one is asked for, and the decision, all parentless and ignored by replay |
| Governance.JoinIs | governance/coordinator.py:239-294 | BLOCK exactly if some policy asks for it, ALLOW exactly if all do |
| Governance.DecisionIs | governance/coordinator.py:239-344 | BLOCK exactly if some policy raises or asks for it, or none objects but the approval policy flags it and approval is denied; ROLLBACK exactly if none of the first but some policy asks for it |
| Governance.RecordedTells | governance/coordinator.py:245-300 | A violation is on record exactly if some verdict did not pass |
| Governance.OrderIndifferent | governance/coordinator.py:245-344 | Any reordering of the policies gives the same decision |
| Governance.AllowedExactly | governance/policies.py:40-210 | With default policies and no callback: ALLOW exactly if risk is low or medium, no updated us-east-1 server is degraded or failed, the window is open and no ceiling is met |
| Governance.CheckpointAllows | governance/coordinator.py:190-368 | With default policies and critical regions and no callback, ALLOW exactly if 15 per degraded and 30 per failed server, 30 for full progress and 15 for a touched critical region add up to at most 50, no updated us-east-1 server is degraded or failed, it is neither weekend nor Friday from 15:00, and fewer than three recoveries, three rollbacks and two quarantines are counted |
| Governance.TallyIs | governance/coordinator.py:190-237 | The counts are the numbers of the deployment's own recovery and rollback events in the log |
| Governance.AllowAntitone | governance/risk.py:50-100 | Worse statuses or more updated servers never turn a refusal into ALLOW |
| Governance.DefaultJoin | resilience/policies.py:28-151 | When the default policies themselves all allow |
| Governance.RiskEngine.CalculateRisk | governance/risk.py:25-100 | The score is the written-out sum of weights, at most 100, and the category its band by 25, 50 and 75 |
| Governance.ApprovalGate.EvaluateRequest | governance/approvals.py:31-65 | Bypassed exactly if the category ranks below the threshold, approved exactly if not and the callback says so, else denied; the request's status is the decision |

## Left out

- Temporal's own behaviour: timeouts, failing or retried activities, workers and polling; an activity is one atomic step.
- A run without an audit logger, where every event id is empty.
- Wall-clock times, durations and event timestamps (arbitrary in the log), the time of a server's last health check, and generated ids (assumed fresh).
- The dashboard, command line, cluster inspector and generator, logging, and all JSON and file input and output.
- Health metrics: a health check is an oracle that may change any statuses, and no versions.
- The engine's legacy abort, rollback and wait helpers, which a run does not call.
- How the source version is chosen by majority, the reading of configuration other than the stages, and the delay and interval values.
- The run's error message and progress percentage (only that it needs a server), and which region each QUARANTINE_ACTIVATE event of a run names.
- The `health_check_passed` mark of a stage result; the log's health checks tell the same.
- Rounding: percentages are exact (whole-number ceiling, real risk scores).
- The order in which sets and dictionaries are iterated is arbitrary here; nothing proved depends on it.
- The reason texts of events and policies; the text an approval callback sees. Exceptions are told apart as the handler tells their texts apart.
- Activities.CanaryDeploymentActivities.ExecuteStage: an exception is modelled only before any server is updated, since nothing after that point raises; and an engine without a current configuration, which selects without regard to quarantine and does not occur on the way through `deploy()`, is not modelled.
- Activities.CanaryDeploymentActivities.RollbackUpdatedServers: the revert is promised only if no quarantined region has an empty name, since the plan made for such a region is empty.
- Workflow.CanaryDeploymentWorkflow.RunDeployment: the theorem assumes region names are not empty, for the reason above, and that nobody else quarantines or releases a region while the run goes on.
- Timeline.ParentFirst: like the other timeline theorems it assumes unique ids and no event named ROOT; the method itself is specified on every log.
- Snapshots.ClusterSnapshotSystem.Restore: a field that the source only copies (names, versions, readings) may be absent, but is taken to be of its own type when present.
- Which of a plan's steps a partial rollback takes first; its steps are in no promised order.
- Aliasing: histories and sets are values here, so sharing of one list between a server and a snapshot is not modelled.
