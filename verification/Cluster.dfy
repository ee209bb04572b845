/** The API server's copy of a resource, the copies that passes work on, and the writes
    between them. What the environment answers is a parameter of every step. */
module Cluster {
  import opened Wrappers
  import opened Throttle
  import opened Resource
  import opened Conditions
  import opened FailureCount
  import opened Objects

  /** What is fixed during one pass: the resource's name and what its user declares. */
  datatype Request = Request(name: string, spec: Spec)

  datatype Author = Controller | Outsider

  /** One stored copy, when it was written and by whom. Its resource version is its place in
      the log, counted from one. */
  datatype Version = Version(
    status: Status, annotations: Annotations, finalizer: bool, deleting: bool, at: nat, author: Author)

  const BLANK := Version(Status(Unset, "", "", None, None, [], []), map[], false, false, 0, Outsider)

  /** Every copy the API server has ever stored; the last one is the current one. */
  type Log = l: seq<Version> | l != [] witness [BLANK]

  function Last(log: Log): Version { log[|log| - 1] }

  /** What the operator makes the secondary's database do in a failover. */
  datatype Statement = StopReplication | ResetReplication | SetReadOnly(on: bool)

  /** `now` is the clock in nanoseconds. `statements` lists what has been executed on the
      secondary's database so far. */
  datatype World = World(log: Log, now: nat, statements: seq<Statement>, store: Store)

  /** The in-memory copy of a pass. */
  datatype Copy = Copy(
    status: Status, annotations: Annotations, finalizer: bool, deleting: bool, version: nat)

  datatype Session = Session(api: World, copy: Copy)

  function Tick(s: Session, delay: nat): Session {
    s.(api := s.api.(now := s.api.now + delay))
  }

  function Execute(s: Session, statements: seq<Statement>): Session {
    s.(api := s.api.(statements := s.api.statements + statements))
  }

  function Seconds(now: int): int { now / SECOND }

  function WithStatus(s: Session, status: Status): Session {
    s.(copy := s.copy.(status := status))
  }

  /** A read may be answered from a cache that lags behind by some versions. */
  function Read(w: World, staleness: nat): Session {
    var version := if staleness < |w.log| then |w.log| - staleness else 1;
    var v := w.log[version - 1];
    Session(w, Copy(v.status, v.annotations, v.finalizer, v.deleting, version))
  }

  /** The copy stems from the current version. */
  predicate Fresh(s: Session) { s.copy.version == |s.api.log| }

  /** A status write stores the status and nothing else. It is refused when the copy is out of
      date, and may fail for other reasons (`!up`). */
  function Put(s: Session, author: Author, up: bool): (Session, bool) {
    if up && Fresh(s) then
      var last := Last(s.api.log);
      var v := last.(status := s.copy.status, at := s.api.now, author := author);
      (Session(s.api.(log := s.api.log + [v]), s.copy.(version := |s.api.log| + 1)), true)
    else (s, false)
  }

  /** A write of the resource itself stores everything in the copy but the status. */
  function PutFinalizer(s: Session, finalizer: bool, up: bool): (Session, bool) {
    if up && Fresh(s) then
      var v := Last(s.api.log).(
        finalizer := finalizer, annotations := s.copy.annotations, at := s.api.now, author := Controller);
      (Session(s.api.(log := s.api.log + [v]), s.copy.(finalizer := finalizer, version := |s.api.log| + 1)), true)
    else (s, false)
  }

  // ---------- the health of one instance ----------

  /** What `SHOW REPLICA STATUS` says. */
  datatype ReplicationAnswer = Unreadable | Readable(running: bool, lag: Option<int32>)

  datatype HealthReading = HealthReading(connection: bool, tcp: bool, sql: bool, replication: ReplicationAnswer)

  datatype Verdict = Verdict(healthy: bool, lag: Option<int32>, failed: bool)

  /** What the checks make of a reading. The maximal lag plays no part. */
  function Judge(isPrimary: bool, h: HealthReading): Verdict {
    if !h.connection then Verdict(false, None, true)
    else if !h.tcp || !h.sql then Verdict(false, None, false)
    else if isPrimary then Verdict(true, None, false)
    else if h.replication.Unreadable? then Verdict(true, None, true)
    else Verdict(true, h.replication.lag, false)
  }

  /** The instance answers all its checks: a secondary also needs a readable replication state. */
  predicate Answering(isPrimary: bool, h: HealthReading) {
    h.connection && h.tcp && h.sql && (isPrimary || h.replication.Readable?)
  }

  /** The verdict in terms of the answers: what counts as alive, what as a failed check, and the lag
      that is passed on, which is the one read, however large. */
  lemma VerdictIs(isPrimary: bool, h: HealthReading)
    ensures var v := Judge(isPrimary, h);
      && (v.healthy <==> h.connection && h.tcp && h.sql)
      && (v.failed <==> !h.connection || (!isPrimary && h.tcp && h.sql && h.replication.Unreadable?))
      && v.lag == (if !isPrimary && h.connection && h.tcp && h.sql && h.replication.Readable? then h.replication.lag else None)
      && (Healthy(isPrimary, h) <==> Answering(isPrimary, h))
  {
  }

  /** The same decision, branch by branch as the source takes it. */
  method ExecuteHealthChecks(spec: Spec, isPrimary: bool, h: HealthReading) returns (v: Verdict)
    ensures v == Judge(isPrimary, h)
    ensures v.healthy <==> h.connection && h.tcp && h.sql
    ensures v.failed <==> !h.connection || (!isPrimary && h.tcp && h.sql && h.replication.Unreadable?)
    ensures v.lag == if !isPrimary && h.connection && h.tcp && h.sql && h.replication.Readable? then h.replication.lag else None
  {
    if !h.connection { return Verdict(false, None, true); }
    if !h.tcp { return Verdict(false, None, false); }
    if !h.sql { return Verdict(false, None, false); }
    if !isPrimary {
      if h.replication.Unreadable? { return Verdict(true, None, true); }
      if !h.replication.running { return Verdict(true, h.replication.lag, false); }
      var maxLag := spec.maxLagSeconds.GetOr(30);
      if h.replication.lag.Some? && h.replication.lag.value > maxLag {
        return Verdict(true, h.replication.lag, false);
      }
      return Verdict(true, h.replication.lag, false);
    }
    return Verdict(true, None, false);
  }

  function Healthy(isPrimary: bool, h: HealthReading): bool {
    Judge(isPrimary, h).healthy && !Judge(isPrimary, h).failed
  }

  function InstanceCondition(isPrimary: bool, healthy: bool, now: int): Condition {
    var instance := if isPrimary then "L'instance primaire " else "L'instance secondaire ";
    Condition(
      if isPrimary then PRIMARY_READY else SECONDARY_READY,
      if healthy then True else False,
      0,
      if healthy then "InstanceHealthy" else "InstanceUnhealthy",
      instance + if healthy then "est en bon état" else "n'est pas en bon état",
      now)
  }

  /** The conditions after a check of one instance; a check that fails observes nothing. */
  function Noted(list: seq<Condition>, isPrimary: bool, h: HealthReading, now: nat): seq<Condition> {
    var v := Judge(isPrimary, h);
    if v.failed then list else Observe(list, InstanceCondition(isPrimary, v.healthy, Seconds(now)))
  }

  function WithConditions(s: Session, list: seq<Condition>): Session {
    WithStatus(s, s.copy.status.(conditions := list))
  }

  // ---------- triggers ----------

  predicate InProgress(phase: Phase) { phase == Failover || phase == Recovering }

  /** `isFailoverAllowed`. */
  predicate FailoverAllowed(spec: Spec, status: Status, now: nat) {
    && spec.automaticFailover == Some(true)
    && !InProgress(status.phase)
    && !TooSoon(status.lastFailoverTime, spec.minimumInterval, now)
  }

  /** A failover may start by itself exactly if that is declared, none is under way and the
      interval since the last one is over. */
  lemma FailoverAllowedIff(spec: Spec, status: Status, now: nat)
    ensures FailoverAllowed(spec, status, now) <==>
      && spec.automaticFailover == Some(true)
      && status.phase in {Unset, Initializing, Running, Failing, Degraded, MaintenanceMode}
      && IntervalOver(status.lastFailoverTime, spec.minimumInterval, now)
  {
    ThrottleIsExact(status.lastFailoverTime, spec.minimumInterval, now);
    hide TooSoon, IntervalOver;
  }

  /** One call of `ManualFailover` by whoever may call it. */
  datatype ManualCall = ManualCall(
    staleness: nat, gateDelay: nat, health: HealthReading, conditionDelay: nat, conditionUp: bool,
    phaseDelay: nat, phaseUp: bool)

  datatype ManualEnd = Rejected | NotStored | Started

  /** The health check of the secondary that precedes a manual failover. */
  function ManualCheck(s: Session, c: ManualCall): Session {
    var s1 := Tick(s, c.conditionDelay);
    var list := Noted(s1.copy.status.conditions, false, c.health, s1.api.now);
    if list != s1.copy.status.conditions then Put(WithConditions(s1, list), Outsider, c.conditionUp).0 else s1
  }

  function ManualFailoverOf(s0: Session, r: Request, c: ManualCall): (Session, ManualEnd) {
    var s := Tick(s0, c.gateDelay);
    var status := s.copy.status;
    if InProgress(status.phase) then (s, Rejected)
    else if TooSoon(status.lastFailoverTime, r.spec.minimumInterval, s.api.now) then (s, Rejected)
    else
      var s1 := ManualCheck(s, c);
      if !Healthy(false, c.health) then (s1, Rejected)
      else
        var s2 := Tick(s1, c.phaseDelay);
        var (s3, ok) := Put(WithStatus(s2, s2.copy.status.(phase := Failover)), Outsider, c.phaseUp);
        (s3, if ok then Started else NotStored)
  }

  function ManualFailover(w: World, r: Request, c: ManualCall): World {
    ManualFailoverOf(Read(w, c.staleness), r, c).0.api
  }

  /** What others may do while a pass is under way: trigger a failover by hand, or write the
      resource's metadata or specification, possibly to delete it. */
  datatype Interrupt = Trigger(call: ManualCall) | Touch(delay: nat, delete: bool, annotations: Option<Annotations>)

  function Interrupted1(w: World, r: Request, i: Interrupt): World {
    match i
    case Trigger(c) => ManualFailover(w, r, c)
    case Touch(delay, delete, annotations) =>
      var last := Last(w.log);
      var v := last.(deleting := last.deleting || delete, annotations := annotations.GetOr(last.annotations),
                     at := w.now + delay, author := Outsider);
      w.(now := w.now + delay, log := w.log + [v])
  }

  function Interrupted(w: World, r: Request, interrupts: seq<Interrupt>): World {
    if interrupts == [] then w
    else Interrupted1(Interrupted(w, r, interrupts[..|interrupts| - 1]), r, interrupts[|interrupts| - 1])
  }

  /** The answer to one write of a pass: who came in between, how long it took, and whether the
      server was able to accept it. */
  datatype WriteAnswer = WriteAnswer(interrupts: seq<Interrupt>, delay: nat, up: bool)

  function Await(s: Session, r: Request, a: WriteAnswer): Session {
    Tick(s.(api := Interrupted(s.api, r, a.interrupts)), a.delay)
  }

  /** Whether a write of the given version would be accepted: the server is able to, and nobody has
      written in between. */
  predicate Accepts(w: World, r: Request, version: nat, a: WriteAnswer) {
    a.up && |Interrupted(w, r, a.interrupts).log| == version
  }

  function StoreStatus(s: Session, r: Request, a: WriteAnswer): (Session, bool) {
    Put(Await(s, r, a), Controller, a.up)
  }
}
