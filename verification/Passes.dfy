/** What one pass of the controller does, as a function of the answers it gets. */
module Passes {
  import opened Wrappers
  import opened Throttle
  import opened Resource
  import opened Conditions
  import opened FailureCount
  import opened Objects
  import opened Cluster
  import opened Routing
  import opened Teardown

  // ---------- health ----------

  datatype InstanceAnswer = InstanceAnswer(health: HealthReading, delay: nat, write: WriteAnswer)

  datatype Checked = Checked(s: Session, healthy: bool, lag: Option<int32>)

  /** A refused condition write is only logged. */
  function CheckInstance(s: Session, r: Request, isPrimary: bool, a: InstanceAnswer): Checked {
    var s1 := Tick(s, a.delay);
    var list := Noted(s1.copy.status.conditions, isPrimary, a.health, s1.api.now);
    var s2 := if list != s1.copy.status.conditions then StoreStatus(WithConditions(s1, list), r, a.write).0 else s1;
    Checked(s2, Healthy(isPrimary, a.health), Judge(isPrimary, a.health).lag)
  }

  datatype CompleteAnswer = CompleteAnswer(
    primary: InstanceAnswer, secondary: InstanceAnswer, delay: nat, write: WriteAnswer)

  function ReplicationObserved(active: bool, now: int): Condition {
    Condition(REPLICATION_ACTIVE, if active then True else False, 0,
      if active then "ReplicationActive" else "ReplicationInactive",
      if active then "La réplication est active" else "La réplication n'est pas active", now)
  }

  datatype Report = Report(
    s: Session, primaryHealthy: bool, secondaryHealthy: bool, replicationHealthy: bool, lag: Option<int32>)

  function CompleteCheck(s: Session, r: Request, a: CompleteAnswer): Report {
    var p := CheckInstance(s, r, true, a.primary);
    var q := CheckInstance(p.s, r, false, a.secondary);
    var s1 := Tick(q.s, a.delay);
    var active := q.healthy && q.lag.Some?;
    var list := Observe(s1.copy.status.conditions, ReplicationObserved(active, Seconds(s1.api.now)));
    var s2 := if list != s1.copy.status.conditions then StoreStatus(WithConditions(s1, list), r, a.write).0 else s1;
    var s3 := s2.(copy := s2.copy.(annotations := CountCheck(s2.copy.annotations, p.healthy, q.healthy)));
    Report(s3, p.healthy, q.healthy, active, q.lag)
  }

  /** `trigger` is the choice of the undefined `handlePrimaryFailure`. */
  datatype HealthAnswer = HealthAnswer(
    complete: CompleteAnswer, trigger: bool, delay: nat, phase: WriteAnswer, lag: WriteAnswer)

  datatype HealthEnd = PrimaryFailed(triggered: bool) | Monitored | WriteRefused

  /** ASSUMPTION. `handlePrimaryFailure` is called by the source but not defined in it. It is
      taken to leave the status alone or to start a failover when `isFailoverAllowed` agrees. */
  function AssumedPrimaryFailure(s: Session, r: Request, a: HealthAnswer): (Session, HealthEnd) {
    var s1 := Tick(s, a.delay);
    if a.trigger && FailoverAllowed(r.spec, s1.copy.status, s1.api.now) then
      var (s2, ok) := StoreStatus(WithStatus(s1, s1.copy.status.(phase := Failover)), r, a.phase);
      (s2, if ok then PrimaryFailed(true) else WriteRefused)
    else (s1, PrimaryFailed(false))
  }

  function CheckHealth(s: Session, r: Request, a: HealthAnswer): (Session, HealthEnd) {
    var report := CompleteCheck(s, r, a.complete);
    if !report.primaryHealthy then AssumedPrimaryFailure(report.s, r, a)
    else
      var target := if report.secondaryHealthy && report.replicationHealthy then Running else Degraded;
      var status := report.s.copy.status;
      var (s1, ok) := if status.phase == target then (report.s, true)
                      else StoreStatus(WithStatus(report.s, status.(phase := target)), r, a.phase);
      if !ok then (s1, WriteRefused)
      else if report.lag.None? then (s1, Monitored)
      else
        var (s2, stored) := StoreStatus(WithStatus(s1, s1.copy.status.(replicationLag := report.lag)), r, a.lag);
        (s2, if stored then Monitored else WriteRefused)
  }

  // ---------- failover ----------

  /** How far stopping the replication gets: not at all, without the reset that follows, or to its end. */
  datatype StopAnswer = NotStopped | NotReset | StoppedAndReset

  datatype FailoverAnswer = FailoverAnswer(
    instance: InstanceAnswer, failing: WriteAnswer, connection: bool, replication: ReplicationAnswer,
    stop: StopAnswer, promoted: bool, redirect: RedirectAnswer,
    stampDelay: nat, measureDelay: nat, write: WriteAnswer)

  /** The ways out of `handleFailover`. */
  datatype FailoverEnd =
    | SecondaryUnhealthy
    | NoConnection
    | ReplicationUnknown
    | PromotionRefused
    | NotRecorded
    | Recorded

  predicate Safe(spec: Spec) { spec.promotionStrategy == "" || spec.promotionStrategy == "safe" }

  function Event(status: Status, stamp: int, duration: int): FailoverEvent {
    FailoverEvent(stamp, "PrimaryFailure", status.currentPrimary, status.currentSecondary, true, duration)
  }

  function AfterFailover(status: Status, stamp: int, duration: int): Status {
    status.(lastFailoverTime := Some(stamp),
            currentPrimary := status.currentSecondary,
            currentSecondary := "",
            phase := Recovering,
            failoverHistory := status.failoverHistory + [Event(status, stamp, duration)])
  }

  function ResetBoth(annotations: Annotations): Annotations {
    ResetFailureCount(ResetFailureCount(annotations, true), false)
  }

  /** A failure to stop replication is only logged. */
  function Stopped(a: FailoverAnswer): seq<Statement> {
    match a.stop
    case NotStopped => []
    case NotReset => [StopReplication]
    case StoppedAndReset => [StopReplication, ResetReplication]
  }

  function HandleFailover(s: Session, r: Request, a: FailoverAnswer): (Session, FailoverEnd) {
    var start := s.api.now;
    var c := CheckInstance(s, r, false, a.instance);
    if !c.healthy then
      (StoreStatus(WithStatus(c.s, c.s.copy.status.(phase := Failing)), r, a.failing).0, SecondaryUnhealthy)
    else if !a.connection then (c.s, NoConnection)
    else if Safe(r.spec) && a.replication.Unreadable? then (c.s, ReplicationUnknown)
    else if !a.promoted then (Execute(c.s, Stopped(a)), PromotionRefused)
    else
      var p := Execute(c.s, Stopped(a) + [SetReadOnly(r.spec.readOnlyMode.GetOr(false))]);
      var s0 := p.(api := p.api.(store := Redirect(p.api.store, r.name, a.redirect).0));
      var s1 := Tick(s0, a.stampDelay);
      var stamp := Seconds(s1.api.now);
      var s2 := Tick(s1, a.measureDelay);
      var status := AfterFailover(s2.copy.status, stamp, Seconds(s2.api.now - start));
      var s3 := s2.(copy := s2.copy.(status := status, annotations := ResetBoth(s2.copy.annotations)));
      var (s4, ok) := StoreStatus(s3, r, a.write);
      (s4, if ok then Recorded else NotRecorded)
  }

  // ---------- recovery ----------

  datatype RecoveryAnswer = RecoveryAnswer(podRunning: bool, connection: bool, tcp: bool, write: WriteAnswer)

  datatype RecoveryEnd = Rejoined | NotRejoined | Waiting

  function OldPrimary(history: seq<FailoverEvent>): string {
    if history == [] then "" else history[|history| - 1].oldPrimary
  }

  function HandleRecovery(s: Session, r: Request, a: RecoveryAnswer): (Session, RecoveryEnd) {
    var former := OldPrimary(s.copy.status.failoverHistory);
    if former != "" && a.podRunning && a.connection && a.tcp && r.spec.automaticFailback == Some(true) then
      var (s1, ok) := StoreStatus(WithStatus(s, s.copy.status.(currentSecondary := former, phase := Running)), r, a.write);
      (s1, if ok then Rejoined else NotRejoined)
    else (s, Waiting)
  }

  // ---------- the pass ----------

  datatype ReadyAnswer = ReadyAnswer(lookup: bool, readyReplicas: int)

  function IsReady(store: Store, key: string, a: ReadyAnswer): Option<bool> {
    if !a.lookup then None
    else Some(key in store.statefulSets && a.readyReplicas == store.statefulSets[key].replicas)
  }

  datatype SetsAnswer = SetsAnswer(sets: SetAnswers, primaryReady: ReadyAnswer, secondaryReady: ReadyAnswer, write: WriteAnswer)

  function ReconcileStatefulSets(s: Session, r: Request, a: SetsAnswer): (Session, Outcome) {
    var (store, out) := SyncStatefulSets(s.api.store, r.name, r.spec, a.sets);
    var s1 := s.(api := s.api.(store := store));
    if out != Proceed then (s1, out)
    else
      var p := IsReady(store, InstanceName(r.name, true), a.primaryReady);
      var q := IsReady(store, InstanceName(r.name, false), a.secondaryReady);
      if p.None? || q.None? then (s1, Failed)
      else if p.value && q.value && s1.copy.status.phase == Initializing then
        var (s2, ok) := StoreStatus(WithStatus(s1, s1.copy.status.(phase := Running)), r, a.write);
        (s2, if ok then Proceed else Failed)
      else (s1, Proceed)
  }

  function ReconcileServices(s: Session, r: Request, a: ServiceAnswers): (Session, Outcome) {
    var (store, out) := SyncServices(s.api.store, r.name, a);
    (s.(api := s.api.(store := store)), out)
  }

  datatype SetupAnswer = SetupAnswer(
    primaryReady: ReadyAnswer, secondaryReady: ReadyAnswer, primaryInfo: bool, secondaryInfo: bool,
    setup: bool, delay: nat, write: WriteAnswer)

  function Configured(now: int): Condition {
    Condition(REPLICATION_ACTIVE, True, 0, "ReplicationConfigured", "La réplication a été configurée avec succès", now)
  }

  /** Nothing here requeues at once: what cannot be done yet is left for a later pass, and the
      present pass goes on. */
  function ReconcileReplication(s: Session, r: Request, a: SetupAnswer): (Session, Outcome) {
    var p := IsReady(s.api.store, InstanceName(r.name, true), a.primaryReady);
    var q := IsReady(s.api.store, InstanceName(r.name, false), a.secondaryReady);
    if p.None? || q.None? then (s, Failed)
    else if !p.value || !q.value || SaysActive(s.copy.status.conditions) then (s, Proceed)
    else if !a.primaryInfo || !a.secondaryInfo || !a.setup then (s, Proceed)
    else
      var s1 := Tick(s, a.delay);
      var list := Replace(s1.copy.status.conditions, Configured(Seconds(s1.api.now)));
      var (s2, ok) := StoreStatus(WithConditions(s1, list), r, a.write);
      (s2, if ok then Proceed else Failed)
  }

  datatype GetAnswer = Found(staleness: nat) | Missing | Broken

  type DeleteAnswers = s: seq<DeleteAnswer> | |s| == 8 witness seq(8, _ => DeleteAnswer(true, true))

  datatype PassAnswer = PassAnswer(
    get: GetAnswer,
    finalizer: WriteAnswer,
    deletions: DeleteAnswers,
    init: WriteAnswer,
    sets: SetsAnswer,
    services: ServiceAnswers,
    setup: SetupAnswer,
    health: HealthAnswer,
    failover: FailoverAnswer,
    recovery: RecoveryAnswer)

  datatype PassEnd =
    | Absent
    | Errored
    | FinalizerAdded
    | TornDown
    | Initialized
    | ObjectsRequeued
    | HealthPass(health: HealthEnd)
    | FailoverPass(failover: FailoverEnd)
    | RecoveryPass(recovery: RecoveryEnd)
    | Idle

  function HandleDeletion(s: Session, r: Request, a: PassAnswer): (Session, PassEnd) {
    var (store, done) := DeleteFrom(s.api.store, Targets(r.name), a.deletions);
    var s1 := s.(api := s.api.(store := store));
    if !done then (s1, Errored)
    else
      var (s2, ok) := PutFinalizer(Await(s1, r, a.finalizer), false, a.finalizer.up);
      (s2, if ok then TornDown else Errored)
  }

  function Dispatch(s: Session, r: Request, a: PassAnswer): (Session, PassEnd) {
    match s.copy.status.phase
    case Running | Degraded => var (s1, end) := CheckHealth(s, r, a.health); (s1, HealthPass(end))
    case Failover => var (s1, end) := HandleFailover(s, r, a.failover); (s1, FailoverPass(end))
    case Recovering => var (s1, end) := HandleRecovery(s, r, a.recovery); (s1, RecoveryPass(end))
    case _ => (s, Idle)
  }

  function Pipeline(s: Session, r: Request, a: PassAnswer): (Session, PassEnd) {
    var (s1, out1) := ReconcileStatefulSets(s, r, a.sets);
    if out1 != Proceed then (s1, if out1 == Requeue then ObjectsRequeued else Errored) else
    var (s2, out2) := ReconcileServices(s1, r, a.services);
    if out2 != Proceed then (s2, if out2 == Requeue then ObjectsRequeued else Errored) else
    var (s3, out3) := ReconcileReplication(s2, r, a.setup);
    if out3 != Proceed then (s3, Errored) else
    Dispatch(s3, r, a)
  }

  function PassOn(s: Session, r: Request, a: PassAnswer): (Session, PassEnd) {
    if !s.copy.finalizer then
      var (s1, ok) := PutFinalizer(Await(s, r, a.finalizer), true, a.finalizer.up);
      (s1, if ok then FinalizerAdded else Errored)
    else if s.copy.deleting then HandleDeletion(s, r, a)
    else if s.copy.status.phase == Unset then
      var (s1, ok) := StoreStatus(WithStatus(s, s.copy.status.(phase := Initializing)), r, a.init);
      (s1, if ok then Initialized else Errored)
    else Pipeline(s, r, a)
  }

  function Reconcile(w: World, r: Request, a: PassAnswer): (World, PassEnd) {
    match a.get
    case Missing => (w, Absent)
    case Broken => (w, Errored)
    case Found(staleness) =>
      var (s, end) := PassOn(Read(w, staleness), r, a);
      (s.api, end)
  }
}
