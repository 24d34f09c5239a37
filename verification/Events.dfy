/** Audit events (deploy/audit.py) as the replay engine reads them. */
module Events {
  import opened Base

  type EventId = string
  type ServerId = string
  type Region = string
  type Version = string

  // The sentinel key under which parentless events are filed.
  const ROOT: EventId := "ROOT"

  // The event type together with the details that some reader uses.
  datatype Body =
    | DeploymentStart(target: Version, source: Version)
    | SnapshotCreate
    | StageTransition(stage: nat, updated: seq<ServerId>)
    | HealthCheck(checkedStage: nat, passed: bool, retry: nat)
    | QuarantineActivate(region: Region)
    | PolicyViolation
    | AbortReceived
    | RollbackInitiated
    | RollbackStart
    | RollbackComplete(reverted: seq<ServerId>)
    | DeploymentCompleted
    | DeploymentFailed
    | RecoveryPlanExecute
    | RecoveryPlanComplete
    | Governance // the coordinator's own risk, policy, approval and decision records

  // An absent "event_id" or "parent_event_id" is the empty string: the replay
  // engine tests both only for being non-empty.
  datatype Event = Event(
    id: EventId,
    parent: EventId,
    timestamp: int,
    deployment: string,
    correlation: string,
    body: Body)
}
