/** What a pass that is left alone achieves, and how long a redirect of clients lasts. */
module Progress {
  import opened Wrappers
  import opened Throttle
  import opened Resource
  import opened Conditions
  import FailureCount
  import opened Objects
  import opened Cluster
  import opened Routing
  import opened Teardown
  import opened Passes
  import opened Safety
  import opened Runs
  import opened Lifecycle
  import opened Monitoring

  /** Nobody comes in between and the server is up. */
  predicate Quiet(a: WriteAnswer) { a.interrupts == [] && a.up }

  /** A quiet write from the current version is accepted. */
  lemma QuietWrite(s: Session, r: Request, a: WriteAnswer)
    requires Fresh(s) && Quiet(a)
    ensures var (t, ok) := StoreStatus(s, r, a);
      ok && Fresh(t) && t.copy == s.copy.(version := t.copy.version) && Last(t.api.log).status == s.copy.status
  {
  }

  /** The object stages have nothing to write, and the replication stage nothing to set up. */
  predicate StagesPass(w: World, r: Request, a: PassAnswer) {
    var (store, out) := SyncStatefulSets(w.store, r.name, r.spec, a.sets.sets);
    && out == Proceed
    && SyncServices(store, r.name, a.services).1 == Proceed
    && a.sets.primaryReady.lookup && a.sets.secondaryReady.lookup
    && a.setup.primaryReady.lookup && a.setup.secondaryReady.lookup
    && (SaysActive(Last(w.log).status.conditions) || !a.setup.setup)
  }

  predicate Live(v: Version) { v.finalizer && !v.deleting && v.status.phase != Unset && v.status.phase != Initializing }

  /** A pass whose earlier stages have nothing to do comes to its last stage with the current copy. */
  lemma PassReachesDispatch(w: World, r: Request, a: PassAnswer) returns (s: Session)
    requires a.get == Found(0) && Live(Last(w.log)) && StagesPass(w, r, a)
    ensures Fresh(s) && s.copy.status == Last(w.log).status && s.api.log == w.log && s.api.statements == w.statements
    ensures s.api.now == w.now
    ensures Reconcile(w, r, a) == (Dispatch(s, r, a).0.api, Dispatch(s, r, a).1)
  {
    hide Dispatch, SyncStatefulSets, SyncServices, SaysActive, StoreStatus;
    var s0 := Read(w, 0);
    var s1 := ReconcileStatefulSets(s0, r, a.sets).0;
    var s2 := ReconcileServices(s1, r, a.services).0;
    s := ReconcileReplication(s2, r, a.setup).0;
    assert s == s2;
  }

  /** Which stage a pass over settled objects comes to is told by the stored phase. */
  lemma LastStageByPhase(w: World, r: Request, a: PassAnswer)
    requires a.get == Found(0) && Live(Last(w.log)) && StagesPass(w, r, a)
    ensures var phase, end := Last(w.log).status.phase, Reconcile(w, r, a).1;
      && (end.HealthPass? <==> phase in {Running, Degraded})
      && (end.FailoverPass? <==> phase == Failover)
      && (end.RecoveryPass? <==> phase == Recovering)
      && (end.Idle? <==> phase in {Failing, MaintenanceMode})
  {
    hide Reconcile, CheckHealth, HandleFailover, HandleRecovery, StagesPass;
    var _ := PassReachesDispatch(w, r, a);
  }

  // ---------- monitoring ----------

  /** What a check says of a kind of condition: nothing, and the entry stays, or this. */
  ghost predicate Told(before: seq<Condition>, after: seq<Condition>, kind: string, truth: Option<bool>) {
    match truth
    case None =>
      && (kind in AsMap(after) <==> kind in AsMap(before))
      && (kind in AsMap(before) ==> AsMap(after)[kind] == AsMap(before)[kind])
    case Some(t) => Shows(after, kind, if t then True else False)
  }

  /** What the answers of one instance say of it. */
  function TruthOf(isPrimary: bool, h: HealthReading): Option<bool> {
    if !h.connection || (!isPrimary && h.tcp && h.sql && h.replication.Unreadable?) then None else Some(h.tcp && h.sql)
  }

  lemma ObserveTells(list: seq<Condition>, seen: Condition)
    requires seen.status in {True, False}
    ensures Told(list, Observe(list, seen), seen.kind, Some(seen.status == True))
    ensures forall other | other != seen.kind :: Told(list, Observe(list, seen), other, None)
  {
    ObserveRefinesMap(list, seen);
    hide AsMap, Observe;
  }

  lemma NotedTells(list: seq<Condition>, isPrimary: bool, h: HealthReading, now: nat)
    ensures Told(list, Noted(list, isPrimary, h, now), KindOf(isPrimary), TruthOf(isPrimary, h))
    ensures forall other | other != KindOf(isPrimary) :: Told(list, Noted(list, isPrimary, h, now), other, None)
  {
    VerdictIs(isPrimary, h);
    ObserveTells(list, InstanceCondition(isPrimary, Judge(isPrimary, h).healthy, Seconds(now)));
    hide AsMap, Observe, Judge;
  }

  lemma ToldThen(a: seq<Condition>, b: seq<Condition>, c: seq<Condition>, kind: string, x: Option<bool>, y: Option<bool>)
    requires Told(a, b, kind, x) && Told(b, c, kind, y) && (x.None? || y.None?)
    ensures Told(a, c, kind, if x.Some? then x else y)
  {
    hide AsMap;
  }

  /** The copy is the current version. */
  ghost predicate Current(s: Session) { Fresh(s) && s.copy.status == Last(s.api.log).status }

  lemma QuietNow(s: Session, r: Request, a: WriteAnswer)
    requires Current(s) && Quiet(a)
    ensures forall status :: var (t, ok) := StoreStatus(WithStatus(s, status), r, a);
      ok && Current(t) && t.copy.status == status && t.api.now == s.api.now + a.delay
  {
  }

  lemma QuietInstance(s: Session, r: Request, isPrimary: bool, a: InstanceAnswer)
    requires Current(s) && Quiet(a.write)
    ensures var t := CheckInstance(s, r, isPrimary, a).s;
      var before, after := s.copy.status, t.copy.status;
      && Current(t) && after == before.(conditions := after.conditions)
      && Told(before.conditions, after.conditions, KindOf(isPrimary), TruthOf(isPrimary, a.health))
      && forall other | other != KindOf(isPrimary) :: Told(before.conditions, after.conditions, other, None)
  {
    hide Noted, StoreStatus, Judge, Told, Healthy, TruthOf;
    var s1 := Tick(s, a.delay);
    NotedTells(s1.copy.status.conditions, isPrimary, a.health, s1.api.now);
    QuietNow(s1, r, a.write);
  }

  lemma QuietComplete(s: Session, r: Request, a: CompleteAnswer)
    requires Current(s) && Quiet(a.primary.write) && Quiet(a.secondary.write) && Quiet(a.write)
    ensures var t := CompleteCheck(s, r, a).s;
      var before, after := s.copy.status, t.copy.status;
      && Current(t) && after == before.(conditions := after.conditions)
      && Told(before.conditions, after.conditions, PRIMARY_READY, TruthOf(true, a.primary.health))
      && Told(before.conditions, after.conditions, SECONDARY_READY, TruthOf(false, a.secondary.health))
      && Told(before.conditions, after.conditions, REPLICATION_ACTIVE, Some(ActiveBy(a)))
  {
    KindsDiffer();
    hide StoreStatus, CheckInstance, Observe, Told, FailureCount.CountCheck, TruthOf;
    var p := CheckInstance(s, r, true, a.primary).s;
    QuietInstance(s, r, true, a.primary);
    var q := CheckInstance(p, r, false, a.secondary).s;
    QuietInstance(p, r, false, a.secondary);
    CheckInstanceAnswers(p, r, false, a.secondary);
    var s1 := Tick(q, a.delay);
    var seen := ReplicationObserved(ActiveBy(a), Seconds(s1.api.now));
    ObserveTells(s1.copy.status.conditions, seen);
    QuietNow(s1, r, a.write);
    var l0, l1, l2, l3 := s.copy.status.conditions, p.copy.status.conditions, q.copy.status.conditions,
                          Observe(q.copy.status.conditions, seen);
    ToldThen(l0, l1, l2, PRIMARY_READY, TruthOf(true, a.primary.health), None);
    ToldThen(l0, l2, l3, PRIMARY_READY, TruthOf(true, a.primary.health), None);
    ToldThen(l0, l1, l2, SECONDARY_READY, None, TruthOf(false, a.secondary.health));
    ToldThen(l0, l2, l3, SECONDARY_READY, TruthOf(false, a.secondary.health), None);
    ToldThen(l0, l1, l2, REPLICATION_ACTIVE, None, None);
    ToldThen(l0, l2, l3, REPLICATION_ACTIVE, None, Some(ActiveBy(a)));
  }

  /** All writes of the health stage are accepted as they come. */
  predicate QuietHealth(a: HealthAnswer) {
    && Quiet(a.complete.primary.write) && Quiet(a.complete.secondary.write) && Quiet(a.complete.write)
    && Quiet(a.phase) && Quiet(a.lag)
  }

  /** What the answers of both instances make of a status by `now`, and how the pass ends. With a
      primary that answers, the resource ends as running exactly if the secondary answers and shows
      a lag, which is stored, and as degraded otherwise. With one that does not, it stays as it is,
      unless a failover is asked for and allowed. Each condition says what the answers say. */
  ghost predicate MonitoredBy(r: Request, a: HealthAnswer, before: Status, after: Status, now: int, end: HealthEnd) {
    var p, q := a.complete.primary.health, a.complete.secondary.health;
    var answers := p.connection && p.tcp && p.sql;
    var active := q.connection && q.tcp && q.sql && q.replication.Readable? && q.replication.lag.Some?;
    var checked := now - if end == PrimaryFailed(true) then a.phase.delay else 0;
    var starts := a.trigger && r.spec.automaticFailover == Some(true)
                  && IntervalOver(before.lastFailoverTime, r.spec.minimumInterval, checked);
    && end == (if answers then Monitored else PrimaryFailed(starts))
    && after.phase == (if answers then (if active then Running else Degraded) else if starts then Failover else before.phase)
    && after.replicationLag == (if answers && active then q.replication.lag else before.replicationLag)
    && SameRoles(before, after)
    && Told(before.conditions, after.conditions, "PrimaryReady", if p.connection then Some(p.tcp && p.sql) else None)
    && Told(before.conditions, after.conditions, "SecondaryReady",
            if q.connection && !(q.tcp && q.sql && q.replication.Unreadable?) then Some(q.tcp && q.sql) else None)
    && Told(before.conditions, after.conditions, "ReplicationActive", Some(active))
  }

  /** A quiet pass over settled objects monitors a running or degraded resource so. */
  lemma MonitoringTells(w: World, r: Request, a: PassAnswer)
    requires a.get == Found(0) && Live(Last(w.log)) && StagesPass(w, r, a) && QuietHealth(a.health)
    requires Last(w.log).status.phase in {Running, Degraded}
    ensures var (v, end) := Reconcile(w, r, a);
      end.HealthPass? && MonitoredBy(r, a.health, Last(w.log).status, Last(v.log).status, v.now, end.health)
  {
    var s := PassReachesDispatch(w, r, a);
    hide Reconcile, Dispatch, CheckHealth, StagesPass, MonitoredBy, QuietHealth;
    DispatchDecides(s, r, a);
    QuietHealthStage(s, r, a.health);
  }

  lemma DispatchDecides(s: Session, r: Request, a: PassAnswer)
    ensures var (t, end) := Dispatch(s, r, a);
      && (s.copy.status.phase in {Running, Degraded} ==>
            var (u, health) := CheckHealth(s, r, a.health); t == u && end == HealthPass(health))
      && (s.copy.status.phase == Failover ==>
            var (u, failover) := HandleFailover(s, r, a.failover); t == u && end == FailoverPass(failover))
  {
    hide CheckHealth, HandleFailover, HandleRecovery;
  }

  lemma QuietHealthStage(s: Session, r: Request, a: HealthAnswer)
    requires Current(s) && QuietHealth(a) && s.copy.status.phase in {Running, Degraded}
    ensures var (t, end) := CheckHealth(s, r, a);
      MonitoredBy(r, a, s.copy.status, Last(t.api.log).status, t.api.now, end)
  {
    hide CompleteCheck, StoreStatus, Told, FailoverAllowed, IntervalOver;
    var report := CompleteCheck(s, r, a.complete);
    QuietComplete(s, r, a.complete);
    ReportAnswers(s, r, a.complete);
    QuietNow(Tick(report.s, a.delay), r, a.phase);
    FailoverAllowedIff(r.spec, report.s.copy.status, Tick(report.s, a.delay).api.now);
    QuietNow(report.s, r, a.phase);
    var target := if ActiveBy(a.complete) then Running else Degraded;
    var s1 := if report.s.copy.status.phase == target then report.s
              else StoreStatus(WithStatus(report.s, report.s.copy.status.(phase := target)), r, a.phase).0;
    QuietNow(s1, r, a.lag);
  }

  // ---------- failover ----------

  /** Everything a failover needs is there. */
  predicate FailoverFeasible(r: Request, a: FailoverAnswer) {
    && Answering(false, a.instance.health) && a.connection && a.promoted
    && (r.spec.promotionStrategy in {"", "safe"} ==> a.replication.Readable?)
  }

  /** What the answers make of a status with a failover under way, between `start` and `now`, and how
      the pass ends. Feasible, it is completed: the roles swap, and the event and the last failover
      time are stored, with the moment and the whole seconds it took. An unhealthy secondary makes
      it fail for good; in every other case it stays under way with the roles as they were. */
  ghost predicate FailsOverBy(
    r: Request, a: FailoverAnswer, before: Status, after: Status, start: int, now: int, end: FailoverEnd)
  {
    && (end == Recorded <==> FailoverFeasible(r, a)) && end != NotRecorded
    && after.phase == (if FailoverFeasible(r, a) then Recovering
                       else if Answering(false, a.instance.health) then Failover else Failing)
    && (if FailoverFeasible(r, a) then
          var measured := now - a.write.delay;
          var stamp := Seconds(measured - a.measureDelay);
          && after.currentPrimary == before.currentSecondary && after.currentSecondary == ""
          && after.lastFailoverTime == Some(stamp)
          && after.failoverHistory == before.failoverHistory
               + [FailoverEvent(stamp, "PrimaryFailure", before.currentPrimary, before.currentSecondary, true, Seconds(measured - start))]
        else SameRoles(before, after))
  }

  /** A quiet pass over settled objects carries out a failover under way so. */
  lemma FailoverIsCompletedIff(w: World, r: Request, a: PassAnswer)
    requires a.get == Found(0) && Live(Last(w.log)) && StagesPass(w, r, a)
    requires Last(w.log).status.phase == Failover
    requires Quiet(a.failover.instance.write) && Quiet(a.failover.failing) && Quiet(a.failover.write)
    ensures var (v, end) := Reconcile(w, r, a);
      && end.FailoverPass?
      && FailsOverBy(r, a.failover, Last(w.log).status, Last(v.log).status, w.now, v.now, end.failover)
      && Promotions(v.statements) == Promotions(w.statements) + if FailoverFeasible(r, a.failover) then 1 else 0
  {
    var s := PassReachesDispatch(w, r, a);
    hide Reconcile, Dispatch, CheckInstance, Answering, HandleFailover, StagesPass, Promotions, StatementsOf;
    DispatchDecides(s, r, a);
    QuietCheck(s, r, a.failover.instance);
    FailoverFromHere(s, r, a.failover);
    var (t, end) := HandleFailover(s, r, a.failover);
    PromotionsOfPass(w.statements, r.spec, a, FailoverPass(end));
    FeasiblePromotes(r, a.failover, s.copy.status, Last(t.api.log).status, s.api.now, t.api.now, end);
    hide FailsOverBy, FailoverFeasible;
  }

  lemma FeasiblePromotes(
    r: Request, a: FailoverAnswer, before: Status, after: Status, start: int, now: int, end: FailoverEnd)
    requires FailsOverBy(r, a, before, after, start, now, end)
    ensures Promotes(end) <==> FailoverFeasible(r, a)
  {
  }

  lemma QuietCheck(s: Session, r: Request, a: InstanceAnswer)
    requires Fresh(s) && Quiet(a.write) && s.copy.status == Last(s.api.log).status
    ensures var c := CheckInstance(s, r, false, a);
      && Fresh(c.s) && c.healthy == Answering(false, a.health)
      && c.s.copy.status == Last(c.s.api.log).status
      && SameRoles(s.copy.status, c.s.copy.status) && c.s.copy.status.phase == s.copy.status.phase
      && c.s.api.statements == s.api.statements
  {
    hide Noted, StoreStatus, Judge, Healthy;
    VerdictIs(false, a.health);
    var s1 := Tick(s, a.delay);
    var list := Noted(s1.copy.status.conditions, false, a.health, s1.api.now);
    QuietWrite(WithConditions(s1, list), r, a.write);
    StoreRunsNoStatement(WithConditions(s1, list), r, a.write);
  }

  lemma StoreRunsNoStatement(s: Session, r: Request, a: WriteAnswer)
    requires Quiet(a)
    ensures StoreStatus(s, r, a).0.api.statements == s.api.statements
  {
  }

  lemma QuietTakes(s: Session, r: Request, a: WriteAnswer)
    requires Quiet(a)
    ensures StoreStatus(s, r, a).0.api.now == s.api.now + a.delay
  {
  }

  /** The six ways out, from a copy that the check of the secondary has left current. */
  lemma FailoverFromHere(s: Session, r: Request, f: FailoverAnswer)
    requires var c := CheckInstance(s, r, false, f.instance);
      && Fresh(c.s) && c.healthy == Answering(false, f.instance.health)
      && c.s.copy.status == Last(c.s.api.log).status
      && SameRoles(s.copy.status, c.s.copy.status) && c.s.copy.status.phase == s.copy.status.phase == Failover
      && c.s.api.statements == s.api.statements
    requires Quiet(f.failing) && Quiet(f.write)
    ensures var (t, end) := HandleFailover(s, r, f);
      && FailsOverBy(r, f, s.copy.status, Last(t.api.log).status, s.api.now, t.api.now, end)
      && t.api.statements == s.api.statements + StatementsOf(r.spec, f, end)
  {
    hide CheckInstance, StoreStatus, Answering, Redirect, ResetBoth;
    var c := CheckInstance(s, r, false, f.instance);
    QuietWrite(WithStatus(c.s, c.s.copy.status.(phase := Failing)), r, f.failing);
    StoreRunsNoStatement(WithStatus(c.s, c.s.copy.status.(phase := Failing)), r, f.failing);
    var p := Execute(c.s, Stopped(f) + [SetReadOnly(r.spec.readOnlyMode.GetOr(false))]);
    var s1 := Tick(p.(api := p.api.(store := Redirect(p.api.store, r.name, f.redirect).0)), f.stampDelay);
    var s2 := Tick(s1, f.measureDelay);
    var status := AfterFailover(s2.copy.status, Seconds(s1.api.now), Seconds(s2.api.now - s.api.now));
    var s3 := s2.(copy := s2.copy.(status := status, annotations := ResetBoth(s2.copy.annotations)));
    QuietWrite(s3, r, f.write);
    StoreRunsNoStatement(s3, r, f.write);
    QuietTakes(s3, r, f.write);
  }

  /** A recovering resource runs again after a quiet pass over settled objects exactly if failback
      is declared and the former primary is named and answers. */
  lemma RecoveryEndsIff(w: World, r: Request, a: PassAnswer)
    requires a.get == Found(0) && Live(Last(w.log)) && StagesPass(w, r, a)
    requires Last(w.log).status.phase == Recovering && Quiet(a.recovery.write)
    ensures var v, before := Reconcile(w, r, a).0, Last(w.log).status;
      Last(v.log).status.phase == Running <==>
        r.spec.automaticFailback == Some(true) && OldPrimary(before.failoverHistory) != ""
        && a.recovery.podRunning && a.recovery.connection && a.recovery.tcp
  {
    var s := PassReachesDispatch(w, r, a);
    hide Reconcile, StoreStatus;
    var status := s.copy.status.(currentSecondary := OldPrimary(s.copy.status.failoverHistory), phase := Running);
    QuietWrite(WithStatus(s, status), r, a.recovery.write);
  }

  // ---------- triggers by hand ----------

  lemma AnsweringTells(h: HealthReading)
    ensures Answering(false, h) ==> TruthOf(false, h) == Some(true)
  {
  }

  /** A trigger by hand starts a failover exactly if none is under way, the interval is over, the
      secondary is healthy and its replication can be read, and the write is accepted, which takes
      the current version; then it changes the phase and conditions only. */
  lemma ManualFailoverStartsIff(w: World, r: Request, c: ManualCall)
    ensures var s := Read(w, c.staleness);
      var (t, end) := ManualFailoverOf(s, r, c);
      var last := s.copy.status.lastFailoverTime;
      && (end == Started <==>
            && s.copy.status.phase in {Unset, Initializing, Running, Failing, Degraded, MaintenanceMode}
            && IntervalOver(last, r.spec.minimumInterval, w.now + c.gateDelay)
            && c.health.connection && c.health.tcp && c.health.sql && c.health.replication.Readable?
            && c.phaseUp && (c.staleness == 0 || |w.log| == 1))
      && (end == Started ==>
            var before, after := Last(w.log).status, Last(t.api.log).status;
            && after == before.(phase := Failover, conditions := after.conditions)
            && Told(before.conditions, after.conditions, "SecondaryReady", Some(true))
            && Told(before.conditions, after.conditions, "PrimaryReady", None)
            && Told(before.conditions, after.conditions, "ReplicationActive", None))
  {
    hide TooSoon, IntervalOver, Noted, Told, TruthOf, Judge, Healthy;
    VerdictIs(false, c.health);
    AnsweringTells(c.health);
    KindsDiffer();
    NotedTells(Read(w, c.staleness).copy.status.conditions, false, c.health, w.now + c.gateDelay + c.conditionDelay);
    ThrottleIsExact(Read(w, c.staleness).copy.status.lastFailoverTime, r.spec.minimumInterval, w.now + c.gateDelay);
  }
}
