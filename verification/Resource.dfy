/** The MariaDBHA resource: what the user declares and what the operator reports. */
module Resource {
  import opened Wrappers
  import opened Throttle
  import opened ServerConfig
  import opened Conditions

  /** `Unset` is the empty string of a resource that no pass has seen yet. */
  datatype Phase =
    | Unset
    | Initializing
    | Running
    | Failing
    | Failover
    | Recovering
    | Degraded
    | MaintenanceMode

  /** `timestamp` and `duration` are in seconds. */
  datatype FailoverEvent = FailoverEvent(
    timestamp: int,
    reason: string,
    oldPrimary: string,
    newPrimary: string,
    automatic: bool,
    duration: int)

  datatype Status = Status(
    phase: Phase,
    currentPrimary: string,
    currentSecondary: string,
    lastFailoverTime: Option<int>,
    replicationLag: Option<int32>,
    conditions: seq<Condition>,
    failoverHistory: seq<FailoverEvent>)

  datatype Resources = Resources(requests: map<string, string>, limits: map<string, string>)

  datatype Instance = Instance(config: Config, resources: Resources)

  /** The declared fields that the controller reads. */
  datatype Spec = Spec(
    common: Config,
    primary: Instance,
    secondary: Instance,
    replicationUser: string,
    automaticFailover: Option<bool>,
    maxLagSeconds: Option<int32>,
    promotionStrategy: string,
    minimumInterval: Option<int32>,
    automaticFailback: Option<bool>,
    readOnlyMode: Option<bool>)
  {
    function InstanceOf(isPrimary: bool): Instance {
      if isPrimary then primary else secondary
    }
  }
}
