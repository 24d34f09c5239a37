/** Servers (cluster/models.py) and the deployment lifecycle (deploy/state.py). */
module Models {
  import opened Base
  import opened Events

  datatype ServerStatus = Healthy | Degraded | Failing | Updating

  datatype Action = Deploy | Rollback

  // The outcome of a governance checkpoint.
  datatype Decision = Allow | Block | MandateRollback

  // One deployment_history record; its timestamp is not modelled.
  datatype Record = Record(version: Version, previousVersion: Version, action: Action)

  datatype Server = Server(
    id: ServerId,
    hostname: string,
    ipAddress: string,
    region: Region,
    version: Version,
    previous: Option<Version>,
    status: ServerStatus,
    cpu: real,
    memory: real,
    history: seq<Record>)
  {
    predicate IsUpdatable() {
      status == Healthy || status == Degraded
    }
  }

  datatype DeploymentStatus =
    | Pending | InProgress | Paused | Completed | RollingBack | RolledBack | Aborted | Failed
}
