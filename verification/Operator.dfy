/** The controller as it runs: objects whose fields are updated step by step. Each method is
    proved to take the API server and the in-memory copy where the corresponding function of
    Cluster, Objects or Passes says. */
module Operator {
  import opened Wrappers
  import opened Throttle
  import opened ServerConfig
  import opened Resource
  import opened Conditions
  import FailureCount
  import opened Objects
  import opened Cluster
  import opened Routing
  import opened Teardown
  import opened Passes

  /** The in-memory copy of a resource. */
  class MariaDBHA {
    const name: string
    const spec: Spec
    var phase: Phase
    var currentPrimary: string
    var currentSecondary: string
    var lastFailoverTime: Option<int>
    var replicationLag: Option<int32>
    var conditions: seq<Condition>
    var failoverHistory: seq<FailoverEvent>
    var annotations: FailureCount.Annotations
    var finalizer: bool
    var deleting: bool
    var version: nat

    constructor (name: string, spec: Spec, read: Copy)
      ensures this.name == name && this.spec == spec && AsCopy() == read
    {
      this.name, this.spec := name, spec;
      phase, replicationLag := read.status.phase, read.status.replicationLag;
      currentPrimary, currentSecondary := read.status.currentPrimary, read.status.currentSecondary;
      lastFailoverTime, failoverHistory := read.status.lastFailoverTime, read.status.failoverHistory;
      conditions, annotations := read.status.conditions, read.annotations;
      finalizer, deleting, version := read.finalizer, read.deleting, read.version;
    }

    function AsRequest(): Request { Request(name, spec) }

    function AsStatus(): Status
      reads this
    {
      Status(phase, currentPrimary, currentSecondary, lastFailoverTime, replicationLag, conditions, failoverHistory)
    }

    function AsCopy(): Copy
      reads this
    {
      Copy(AsStatus(), annotations, finalizer, deleting, version)
    }

    method SaveFailureCount(isPrimary: bool, count: int)
      modifies this`annotations
      ensures annotations == FailureCount.SaveFailureCount(old(annotations), isPrimary, count)
    {
      var key := FailureCount.KeyOf(isPrimary);
      if count > 0 {
        annotations := annotations[key := FailureCount.Itoa(count)];
      } else {
        annotations := annotations - {key};
      }
    }

    method ResetFailureCount(isPrimary: bool)
      modifies this`annotations
      ensures annotations == FailureCount.ResetFailureCount(old(annotations), isPrimary)
      ensures FailureCount.GetFailureCount(annotations, isPrimary) == 0
      ensures FailureCount.GetFailureCount(annotations, !isPrimary) == FailureCount.GetFailureCount(old(annotations), !isPrimary)
    {
      FailureCount.ResetReadsZero(annotations, isPrimary);
      annotations := annotations - {FailureCount.KeyOf(isPrimary)};
    }
  }

  /** The API server, the database it leads to, and the clock. */
  class ApiServer {
    var log: Log
    var now: nat
    var statements: seq<Statement>
    var store: Store

    constructor (w: World)
      ensures AsWorld() == w
    {
      log, now, statements, store := w.log, w.now, w.statements, w.store;
    }

    function AsWorld(): World
      reads this
    {
      World(log, now, statements, store)
    }

    method Wait(delay: nat)
      modifies this`now
      ensures now == old(now) + delay
    {
      now := now + delay;
    }

    /** The environment's turn before an answer arrives. */
    method Await(r: Request, a: WriteAnswer)
      modifies this`log, this`now
      ensures var w := Interrupted(old(AsWorld()), r, a.interrupts);
        AsWorld() == w.(now := w.now + a.delay)
    {
      InterruptsKeepRest(AsWorld(), r, a.interrupts);
      var w := Interrupted(AsWorld(), r, a.interrupts);
      log, now := w.log, w.now + a.delay;
    }
  }

  lemma {:induction false} InterruptsKeepRest(w: World, r: Request, interrupts: seq<Interrupt>)
    ensures var v := Interrupted(w, r, interrupts);
      v.statements == w.statements && v.store == w.store
  {
    hide Noted, TooSoon;
    if interrupts != [] {
      InterruptsKeepRest(w, r, interrupts[..|interrupts| - 1]);
    }
  }

  /** Go's loop over a map, with its early exit; keys come in no particular order. */
  method MapsEqual(map1: map<string, string>, map2: map<string, string>) returns (equal: bool)
    ensures equal <==> map1 == map2
  {
    if |map1| != |map2| { return false; }
    var rest := map1.Keys;
    while rest != {}
      invariant rest <= map1.Keys
      invariant forall k | k in map1 && k !in rest :: k in map2 && map2[k] == map1[k]
      decreases |rest|
    {
      var k :| k in rest;
      if k !in map2 || map1[k] != map2[k] { return false; }
      rest := rest - {k};
    }
    SameSizeSubset(map1.Keys, map2.Keys);
    return true;
  }

  lemma SameSizeSubset<T>(a: set<T>, b: set<T>)
    requires a <= b && |a| == |b|
    ensures a == b
  {
    assert b == a + (b - a);
    assert |b| == |a| + |b - a|;
  }

  class MariaDBHAReconciler {
    const api: ApiServer

    constructor (api: ApiServer)
      ensures this.api == api
    {
      this.api := api;
    }

    function Now(ha: MariaDBHA): Session
      reads api, ha
    {
      Session(api.AsWorld(), ha.AsCopy())
    }

    /** `r.Status().Update`. */
    method UpdateStatus(ha: MariaDBHA, a: WriteAnswer) returns (ok: bool)
      modifies api, ha`version
      ensures (Now(ha), ok) == StoreStatus(old(Now(ha)), ha.AsRequest(), a)
    {
      hide Interrupted;
      api.Await(ha.AsRequest(), a);
      ok := a.up && ha.version == |api.log|;
      if ok {
        var last := Last(api.log);
        api.log := api.log + [last.(status := ha.AsStatus(), at := api.now, author := Controller)];
        ha.version := |api.log|;
      }
    }

    /** `r.Update`, with the finalizer set or removed. */
    method UpdateFinalizer(ha: MariaDBHA, finalizer: bool, a: WriteAnswer) returns (ok: bool)
      modifies api, ha`version, ha`finalizer
      ensures (Now(ha), ok) == PutFinalizer(Cluster.Await(old(Now(ha)), ha.AsRequest(), a), finalizer, a.up)
    {
      hide Interrupted;
      api.Await(ha.AsRequest(), a);
      ok := a.up && ha.version == |api.log|;
      if ok {
        var last := Last(api.log);
        api.log := api.log + [last.(
          finalizer := finalizer, annotations := ha.annotations, at := api.now, author := Controller)];
        ha.version := |api.log|;
        ha.finalizer := finalizer;
      }
    }

    // ---------- health ----------

    /** What the checks of an instance come to, up to the write of the conditions if these changed. */
    method NoteHealth(ha: MariaDBHA, isPrimary: bool, h: HealthReading, delay: nat) returns (v: Verdict, changed: bool)
      modifies api`now, ha`conditions
      ensures v == Judge(isPrimary, h)
      ensures var s := Tick(old(Now(ha)), delay);
        var list := Noted(old(ha.conditions), isPrimary, h, s.api.now);
        changed == (list != old(ha.conditions)) && Now(ha) == if changed then WithConditions(s, list) else s
    {
      hide Observe;
      v := ExecuteHealthChecks(ha.spec, isPrimary, h);
      api.Wait(delay);
      if v.failed { return v, false; }
      var seen := InstanceCondition(isPrimary, v.healthy, Seconds(api.now));
      ha.conditions, changed := ObserveInPlace(
        ha.conditions, seen.kind, seen.status, seen.reason, seen.message, seen.lastTransitionTime);
    }

    method CheckInstanceHealth(ha: MariaDBHA, isPrimary: bool, a: InstanceAnswer)
      returns (healthy: bool, lag: Option<int32>)
      modifies api, ha`version, ha`conditions
      ensures Checked(Now(ha), healthy, lag) == CheckInstance(old(Now(ha)), ha.AsRequest(), isPrimary, a)
    {
      hide StoreStatus, Noted;
      var v, changed := NoteHealth(ha, isPrimary, a.health, a.delay);
      if changed {
        var _ := UpdateStatus(ha, a.write);
      }
      return v.healthy && !v.failed, v.lag;
    }

    method UpdateCondition(ha: MariaDBHA, seen: Condition, a: WriteAnswer)
      requires seen.observedGeneration == 0
      modifies api, ha`version, ha`conditions
      ensures var before, list := old(Now(ha)), Observe(old(ha.conditions), seen);
        Now(ha) == if list != old(ha.conditions)
                   then StoreStatus(WithConditions(before, list), ha.AsRequest(), a).0
                   else before
    {
      hide StoreStatus, Observe;
      var list, changed := ObserveInPlace(
        ha.conditions, seen.kind, seen.status, seen.reason, seen.message, seen.lastTransitionTime);
      if changed {
        ha.conditions := list;
        var _ := UpdateStatus(ha, a);
      }
    }

    method CountFailures(ha: MariaDBHA, primaryHealthy: bool, secondaryHealthy: bool)
      modifies ha`annotations
      ensures Now(ha) == var before := old(Now(ha));
        before.(copy := before.copy.(annotations := FailureCount.CountCheck(before.copy.annotations, primaryHealthy, secondaryHealthy)))
    {
      hide FailureCount.GetFailureCount, FailureCount.SaveFailureCount;
      var primaryCount, secondaryCount := 0, 0;
      if !primaryHealthy {
        primaryCount := FailureCount.GetFailureCount(ha.annotations, true);
        primaryCount := Wrap64(primaryCount + 1);
      }
      if !secondaryHealthy {
        secondaryCount := FailureCount.GetFailureCount(ha.annotations, false);
        secondaryCount := Wrap64(secondaryCount + 1);
      }
      ha.SaveFailureCount(true, primaryCount);
      ha.SaveFailureCount(false, secondaryCount);
    }

    method PerformCompleteHealthCheck(ha: MariaDBHA, a: CompleteAnswer)
      returns (primaryHealthy: bool, secondaryHealthy: bool, replicationHealthy: bool, lag: Option<int32>)
      modifies api, ha`version, ha`conditions, ha`annotations
      ensures Report(Now(ha), primaryHealthy, secondaryHealthy, replicationHealthy, lag)
           == CompleteCheck(old(Now(ha)), ha.AsRequest(), a)
    {
      hide StoreStatus, Observe, CheckInstance, FailureCount.CountCheck;
      var primaryLag;
      primaryHealthy, primaryLag := CheckInstanceHealth(ha, true, a.primary);
      secondaryHealthy, lag := CheckInstanceHealth(ha, false, a.secondary);
      replicationHealthy := secondaryHealthy && lag.Some?;
      api.Wait(a.delay);
      UpdateCondition(ha, ReplicationObserved(replicationHealthy, Seconds(api.now)), a.write);
      CountFailures(ha, primaryHealthy, secondaryHealthy);
    }

    /** ASSUMPTION: stands for `handlePrimaryFailure`, which the source calls and does not define. */
    method HandlePrimaryFailure(ha: MariaDBHA, a: HealthAnswer) returns (end: HealthEnd)
      modifies api, ha`version, ha`phase
      ensures (Now(ha), end) == AssumedPrimaryFailure(old(Now(ha)), ha.AsRequest(), a)
    {
      hide StoreStatus, TooSoon;
      api.Wait(a.delay);
      if !a.trigger || !FailoverAllowed(ha.spec, ha.AsStatus(), api.now) {
        return PrimaryFailed(false);
      }
      ha.phase := Failover;
      var ok := UpdateStatus(ha, a.phase);
      end := if ok then PrimaryFailed(true) else WriteRefused;
    }

    method SetPhase(ha: MariaDBHA, phase: Phase, a: WriteAnswer) returns (ok: bool)
      modifies api, ha`version, ha`phase
      ensures (Now(ha), ok) == if old(ha.phase) == phase then (old(Now(ha)), true)
        else StoreStatus(WithStatus(old(Now(ha)), old(ha.AsStatus()).(phase := phase)), ha.AsRequest(), a)
    {
      hide StoreStatus;
      ok := true;
      if ha.phase != phase {
        ha.phase := phase;
        ok := UpdateStatus(ha, a);
      }
    }

    method StoreLag(ha: MariaDBHA, lag: Option<int32>, a: WriteAnswer) returns (ok: bool)
      modifies api, ha`version, ha`replicationLag
      ensures (Now(ha), ok)
        == StoreStatus(WithStatus(old(Now(ha)), old(ha.AsStatus()).(replicationLag := lag)), ha.AsRequest(), a)
    {
      hide StoreStatus;
      ha.replicationLag := lag;
      ok := UpdateStatus(ha, a);
    }

    method CheckHealth(ha: MariaDBHA, a: HealthAnswer) returns (end: HealthEnd)
      modifies api, ha
      ensures (Now(ha), end) == Passes.CheckHealth(old(Now(ha)), ha.AsRequest(), a)
    {
      hide StoreStatus, CompleteCheck, AssumedPrimaryFailure;
      var primaryHealthy, secondaryHealthy, replicationHealthy, lag := PerformCompleteHealthCheck(ha, a.complete);
      if !primaryHealthy {
        end := HandlePrimaryFailure(ha, a);
        return;
      }
      var ok;
      if !secondaryHealthy {
        ok := SetPhase(ha, Degraded, a.phase);
      } else if !replicationHealthy {
        ok := SetPhase(ha, Degraded, a.phase);
      } else {
        ok := SetPhase(ha, Running, a.phase);
      }
      if !ok { return WriteRefused; }
      if lag.Some? {
        ok := StoreLag(ha, lag, a.lag);
        if !ok { return WriteRefused; }
      }
      return Monitored;
    }

    // ---------- failover and recovery ----------

    method UpdateServicesAfterFailover(ha: MariaDBHA, a: RedirectAnswer) returns (ok: bool)
      modifies api`store
      ensures (api.store, ok) == Redirect(old(api.store), ha.name, a)
    {
      var key := ClusterName(ha.name);
      if !a.lookup { return false; }
      if key !in api.store.services { return true; }
      if a.pod.None? { return false; }
      var service := api.store.services[key].(selector := a.pod.value);
      if !a.write { return false; }
      api.store := api.store.(services := api.store.services[key := service]);
      return true;
    }

    /** Replication can be stopped and yet not reset; the caller is then told of a failure. */
    method StopReplicationOnSecondary(a: FailoverAnswer) returns (ok: bool)
      modifies api`statements
      ensures ok <==> a.stop == StoppedAndReset
      ensures api.statements == old(api.statements) + Stopped(a)
    {
      if a.stop == NotStopped { return false; }
      api.statements := api.statements + [StopReplication];
      if a.stop == NotReset { return false; }
      api.statements := api.statements + [ResetReplication];
      return true;
    }

    method PromoteSecondaryToPrimary(ha: MariaDBHA, promoted: bool) returns (ok: bool)
      modifies api`statements
      ensures ok == promoted
      ensures api.statements == if ok then old(api.statements) + [SetReadOnly(ha.spec.readOnlyMode.GetOr(false))] else old(api.statements)
    {
      if !promoted { return false; }
      var readOnlyMode := false;
      if ha.spec.readOnlyMode.Some? && ha.spec.readOnlyMode.value {
        readOnlyMode := true;
      }
      api.statements := api.statements + [SetReadOnly(readOnlyMode)];
      return true;
    }

    /** A failure to stop replication is only logged. */
    method SwitchDatabase(ha: MariaDBHA, a: FailoverAnswer) returns (ok: bool)
      modifies api`statements
      ensures ok == a.promoted
      ensures api.statements == old(api.statements)
        + if ok then Stopped(a) + [SetReadOnly(ha.spec.readOnlyMode.GetOr(false))] else Stopped(a)
    {
      var _ := StopReplicationOnSecondary(a);
      ok := PromoteSecondaryToPrimary(ha, a.promoted);
    }

    method RecordFailover(ha: MariaDBHA, stamp: int, duration: int)
      modifies ha
      ensures ha.AsCopy() == old(ha.AsCopy()).(status := AfterFailover(old(ha.AsStatus()), stamp, duration),
                                               annotations := ResetBoth(old(ha.annotations)))
    {
      var event := FailoverEvent(stamp, "PrimaryFailure", ha.currentPrimary, ha.currentSecondary, true, duration);
      ha.lastFailoverTime := Some(stamp);
      ha.currentPrimary := ha.currentSecondary;
      ha.currentSecondary := "";
      ha.phase := Recovering;
      ha.failoverHistory := ha.failoverHistory + [event];
      ha.ResetFailureCount(true);
      ha.ResetFailureCount(false);
    }

    method HandleFailover(ha: MariaDBHA, a: FailoverAnswer) returns (end: FailoverEnd)
      modifies api, ha
      ensures (Now(ha), end) == Passes.HandleFailover(old(Now(ha)), ha.AsRequest(), a)
    {
      hide StoreStatus, CheckInstance, Redirect, AfterFailover, ResetBoth;
      var start := api.now;
      var healthy, lag := CheckInstanceHealth(ha, false, a.instance);
      if !healthy {
        ha.phase := Failing;
        var _ := UpdateStatus(ha, a.failing);
        return SecondaryUnhealthy;
      }
      if !a.connection { return NoConnection; }
      if Safe(ha.spec) && a.replication.Unreadable? { return ReplicationUnknown; }
      var promoted := SwitchDatabase(ha, a);
      if !promoted { return PromotionRefused; }
      var redirected := UpdateServicesAfterFailover(ha, a.redirect);
      api.Wait(a.stampDelay);
      var stamp := Seconds(api.now);
      api.Wait(a.measureDelay);
      RecordFailover(ha, stamp, Seconds(api.now - start));
      var ok := UpdateStatus(ha, a.write);
      end := if ok then Recorded else NotRecorded;
    }

    method HandleRecovery(ha: MariaDBHA, a: RecoveryAnswer) returns (end: RecoveryEnd)
      modifies api, ha
      ensures (Now(ha), end) == Passes.HandleRecovery(old(Now(ha)), ha.AsRequest(), a)
    {
      hide StoreStatus;
      var available, former := false, "";
      if |ha.failoverHistory| > 0 {
        former := ha.failoverHistory[|ha.failoverHistory| - 1].oldPrimary;
      }
      if former != "" {
        if a.podRunning && a.connection {
          available := a.tcp;
        }
      }
      var failback := ha.spec.automaticFailback.GetOr(false);
      if available && failback {
        ha.currentSecondary := former;
        ha.phase := Running;
        var ok := UpdateStatus(ha, a.write);
        return if ok then Rejoined else NotRejoined;
      }
      return Waiting;
    }

    /** A status write of a caller outside the controller. */
    method UpdateStatusOutside(ha: MariaDBHA, up: bool) returns (ok: bool)
      modifies api`log, ha`version
      ensures (Now(ha), ok) == Put(old(Now(ha)), Outsider, up)
    {
      ok := up && ha.version == |api.log|;
      if ok {
        var last := Last(api.log);
        api.log := api.log + [last.(status := ha.AsStatus(), at := api.now, author := Outsider)];
        ha.version := |api.log|;
      }
    }

    method CheckSecondaryOutside(ha: MariaDBHA, c: ManualCall) returns (healthy: bool)
      modifies api, ha
      ensures Now(ha) == ManualCheck(old(Now(ha)), c) && healthy == Healthy(false, c.health)
    {
      hide Noted, Put;
      var v, changed := NoteHealth(ha, false, c.health, c.conditionDelay);
      if changed {
        var _ := UpdateStatusOutside(ha, c.conditionUp);
      }
      return v.healthy && !v.failed;
    }

    method ManualFailover(ha: MariaDBHA, c: ManualCall) returns (end: ManualEnd)
      modifies api, ha
      ensures (Now(ha), end) == ManualFailoverOf(old(Now(ha)), ha.AsRequest(), c)
    {
      hide TooSoon, Put, ManualCheck, Healthy;
      api.Wait(c.gateDelay);
      if ha.phase == Failover || ha.phase == Recovering { return Rejected; }
      if TooSoon(ha.lastFailoverTime, ha.spec.minimumInterval, api.now) { return Rejected; }
      var healthy := CheckSecondaryOutside(ha, c);
      if !healthy { return Rejected; }
      api.Wait(c.phaseDelay);
      ha.phase := Failover;
      var ok := UpdateStatusOutside(ha, c.phaseUp);
      end := if ok then Started else NotStored;
    }

    // ---------- objects ----------

    method CreateOrUpdateConfigMap(ha: MariaDBHA, isPrimary: bool, params: map<string, string>, order: seq<string>, a: ObjectAnswer)
      returns (ok: bool)
      requires params == Merge(ha.spec.common, ha.spec.InstanceOf(isPrimary).config).parameters
      requires Enumerates(order, params)
      modifies api`store
      ensures (api.store, ok) == SyncConfigMap(old(api.store), ConfigName(ha.name, isPrimary), Files(ha.spec, isPrimary, order), a)
    {
      hide Text, InitScript, Merge;
      var key := ConfigName(ha.name, isPrimary);
      var cnf := GenerateMariaDBConfig(isPrimary, params, order);
      var init := InitScript(isPrimary, ha.spec.replicationUser);
      if !a.lookup { return false; }
      if key !in api.store.configMaps {
        if !a.write { return false; }
        api.store := api.store.(configMaps := api.store.configMaps[key := ConfigMap(cnf, init)]);
        return true;
      }
      var found := api.store.configMaps[key];
      if found.cnf != cnf || found.init != init {
        if !a.write { return false; }
        found := ConfigMap(cnf, init);
        api.store := api.store.(configMaps := api.store.configMaps[key := found]);
      }
      return true;
    }

    method ReconcileInstanceStatefulSet(ha: MariaDBHA, isPrimary: bool, a: StatefulSetAnswer) returns (out: Outcome)
      requires Enumerates(a.order, Merge(ha.spec.common, ha.spec.InstanceOf(isPrimary).config).parameters)
      modifies api`store
      ensures (api.store, out) == SyncStatefulSet(old(api.store), ha.name, ha.spec, isPrimary, a)
    {
      hide Files, SyncConfigMap, Enumerates, NeedsUpdate, BuildStatefulSet;
      var key := InstanceName(ha.name, isPrimary);
      var merged := MergeMySQLConfigs(ha.spec.common, ha.spec.InstanceOf(isPrimary).config);
      if !a.lookup { return Failed; }
      if key !in api.store.statefulSets {
        var ok := CreateOrUpdateConfigMap(ha, isPrimary, merged.parameters, a.order, a.config);
        ConfigMapKeepsSets(old(api.store), ConfigName(ha.name, isPrimary), Files(ha.spec, isPrimary, a.order), a.config);
        if !ok || !a.write { return Failed; }
        var created := BuildStatefulSet(ha.spec, isPrimary, ConfigName(ha.name, isPrimary));
        api.store := api.store.(statefulSets := api.store.statefulSets[key := a.kept.GetOr(created)]);
        return Requeue;
      }
      var ok := CreateOrUpdateConfigMap(ha, isPrimary, merged.parameters, a.order, a.config);
      ConfigMapKeepsSets(old(api.store), ConfigName(ha.name, isPrimary), Files(ha.spec, isPrimary, a.order), a.config);
      if !ok { return Failed; }
      var desired := BuildStatefulSet(ha.spec, isPrimary, ConfigName(ha.name, isPrimary));
      if NeedsUpdate(api.store.statefulSets[key], desired) {
        if !a.write { return Failed; }
        api.store := api.store.(statefulSets := api.store.statefulSets[key := a.kept.GetOr(desired)]);
        return Requeue;
      }
      return Proceed;
    }

    ghost predicate OrdersFit(ha: MariaDBHA, a: SetAnswers) {
      && Enumerates(a.primary.order, Merge(ha.spec.common, ha.spec.primary.config).parameters)
      && Enumerates(a.secondary.order, Merge(ha.spec.common, ha.spec.secondary.config).parameters)
    }

    method IsStatefulSetReady(ha: MariaDBHA, isPrimary: bool, a: ReadyAnswer) returns (ready: Option<bool>)
      ensures ready == IsReady(api.store, InstanceName(ha.name, isPrimary), a)
    {
      var key := InstanceName(ha.name, isPrimary);
      if !a.lookup { return None; }
      if key !in api.store.statefulSets { return Some(false); }
      return Some(a.readyReplicas == api.store.statefulSets[key].replicas);
    }

    method ReconcileStatefulSets(ha: MariaDBHA, a: SetsAnswer) returns (out: Outcome)
      requires OrdersFit(ha, a.sets)
      modifies api, ha
      ensures (Now(ha), out) == Passes.ReconcileStatefulSets(old(Now(ha)), ha.AsRequest(), a)
    {
      hide SyncStatefulSet, StoreStatus, Enumerates, IsReady;
      out := ReconcileInstanceStatefulSet(ha, true, a.sets.primary);
      if out != Proceed { return; }
      out := ReconcileInstanceStatefulSet(ha, false, a.sets.secondary);
      if out != Proceed { return; }
      var primaryReady := IsStatefulSetReady(ha, true, a.primaryReady);
      if primaryReady.None? { return Failed; }
      var secondaryReady := IsStatefulSetReady(ha, false, a.secondaryReady);
      if secondaryReady.None? { return Failed; }
      if primaryReady.value && secondaryReady.value && ha.phase == Initializing {
        ha.phase := Running;
        var ok := UpdateStatus(ha, a.write);
        if !ok { return Failed; }
      }
      return Proceed;
    }

    method ReconcileHeadlessService(ha: MariaDBHA, isPrimary: bool, a: ObjectAnswer) returns (out: Outcome)
      modifies api`store
      ensures (api.store, out) == SyncHeadless(old(api.store), ha.name, isPrimary, a)
    {
      var key := InstanceName(ha.name, isPrimary);
      var service := Service(RoleSelector(ha.name, RoleOf(isPrimary)));
      if !a.lookup { return Failed; }
      if key !in api.store.services {
        if !a.write { return Failed; }
        api.store := api.store.(services := api.store.services[key := service]);
        return Requeue;
      }
      return Proceed;
    }

    /** `reconcileClusterService` and `reconcileReadOnlyService` differ in name and selector only. */
    method ReconcileClientService(key: string, selector: map<string, string>, a: ObjectAnswer) returns (out: Outcome)
      modifies api`store
      ensures (api.store, out) == SyncClient(old(api.store), key, selector, a)
    {
      if !a.lookup { return Failed; }
      if key !in api.store.services {
        if !a.write { return Failed; }
        api.store := api.store.(services := api.store.services[key := Service(selector)]);
        return Requeue;
      }
      var found := api.store.services[key];
      var equal := MapsEqual(found.selector, selector);
      if !equal {
        found := found.(selector := selector);
        if !a.write { return Failed; }
        api.store := api.store.(services := api.store.services[key := found]);
        return Requeue;
      }
      return Proceed;
    }

    method ReconcileServices(ha: MariaDBHA, a: ServiceAnswers) returns (out: Outcome)
      modifies api`store
      ensures (Now(ha), out) == Passes.ReconcileServices(old(Now(ha)), ha.AsRequest(), a)
    {
      hide SyncHeadless, SyncClient, RoleSelector;
      out := ReconcileHeadlessService(ha, true, a.headlessPrimary);
      if out != Proceed { return; }
      out := ReconcileHeadlessService(ha, false, a.headlessSecondary);
      if out != Proceed { return; }
      out := ReconcileClientService(ClusterName(ha.name), RoleSelector(ha.name, "primary"), a.cluster);
      if out != Proceed { return; }
      out := ReconcileClientService(ReadOnlyName(ha.name), RoleSelector(ha.name, "secondary"), a.readOnly);
    }

    method ReconcileReplication(ha: MariaDBHA, a: SetupAnswer) returns (out: Outcome)
      modifies api, ha
      ensures (Now(ha), out) == Passes.ReconcileReplication(old(Now(ha)), ha.AsRequest(), a)
    {
      hide StoreStatus, IsReady, Replace, SaysActive;
      var primaryReady := IsStatefulSetReady(ha, true, a.primaryReady);
      if primaryReady.None? { return Failed; }
      var secondaryReady := IsStatefulSetReady(ha, false, a.secondaryReady);
      if secondaryReady.None? { return Failed; }
      if !primaryReady.value || !secondaryReady.value { return Proceed; }
      var configured := FindActive(ha.conditions);
      if configured { return Proceed; }
      if !a.primaryInfo { return Proceed; }
      if !a.secondaryInfo { return Proceed; }
      if !a.setup { return Proceed; }
      api.Wait(a.delay);
      ha.conditions := ReplaceInPlace(ha.conditions, Configured(Seconds(api.now)));
      var ok := UpdateStatus(ha, a.write);
      return if ok then Proceed else Failed;
    }

    // ---------- deletion ----------

    method DeleteObject(t: Target, a: DeleteAnswer) returns (ok: bool)
      modifies api`store
      ensures (api.store, ok) == DeleteOne(old(api.store), t, a)
    {
      if !a.lookup || !Exists(api.store, t) { return true; }
      if !a.removed { return false; }
      api.store := Remove(api.store, t);
      return true;
    }

    /** Delete the next object; `rest` is what the objects from it on will come to. */
    method DeleteNext(name: string, i: nat, t: Target, answers: DeleteAnswers, ghost rest: (Store, bool)) returns (ok: bool)
      requires i < 8 && t == Targets(name)[i]
      requires rest == DeleteFrom(api.store, Targets(name)[i..], answers[i..])
      modifies api`store
      ensures ok ==> rest == DeleteFrom(api.store, Targets(name)[i + 1..], answers[i + 1..])
      ensures !ok ==> rest == (api.store, false)
    {
      hide DeleteOne;
      DeleteStep(api.store, Targets(name), answers, i);
      ok := DeleteObject(t, answers[i]);
    }

    method HandleDeletion(ha: MariaDBHA, a: PassAnswer) returns (end: PassEnd)
      modifies api, ha
      ensures (Now(ha), end) == Passes.HandleDeletion(old(Now(ha)), ha.AsRequest(), a)
    {
      hide DeleteFrom, Interrupted, InstanceName, ConfigName, ClusterName, ReadOnlyName;
      var name, answers := ha.name, a.deletions;
      ghost var all := DeleteFrom(api.store, Targets(name), answers);
      assert Targets(name)[0..] == Targets(name) && answers[0..] == answers;
      var ok := DeleteNext(name, 0, StatefulSetOf(InstanceName(name, true)), answers, all);
      if !ok { return Errored; }
      ok := DeleteNext(name, 1, StatefulSetOf(InstanceName(name, false)), answers, all);
      if !ok { return Errored; }
      ok := DeleteNext(name, 2, ServiceOf(InstanceName(name, true)), answers, all);
      if !ok { return Errored; }
      ok := DeleteNext(name, 3, ServiceOf(InstanceName(name, false)), answers, all);
      if !ok { return Errored; }
      ok := DeleteNext(name, 4, ServiceOf(ClusterName(name)), answers, all);
      if !ok { return Errored; }
      ok := DeleteNext(name, 5, ServiceOf(ReadOnlyName(name)), answers, all);
      if !ok { return Errored; }
      ok := DeleteNext(name, 6, ConfigMapOf(ConfigName(name, true)), answers, all);
      if !ok { return Errored; }
      ok := DeleteNext(name, 7, ConfigMapOf(ConfigName(name, false)), answers, all);
      if !ok { return Errored; }
      NothingLeftToDelete(api.store, Targets(name)[8..], answers[8..]);
      ok := UpdateFinalizer(ha, false, a.finalizer);
      end := if ok then TornDown else Errored;
    }

    // ---------- the pass ----------

    method RunPipeline(ha: MariaDBHA, a: PassAnswer) returns (end: PassEnd)
      requires OrdersFit(ha, a.sets.sets)
      modifies api, ha
      ensures (Now(ha), end) == Pipeline(old(Now(ha)), ha.AsRequest(), a)
    {
      hide Passes.ReconcileStatefulSets, Passes.ReconcileServices, Passes.ReconcileReplication;
      hide Passes.CheckHealth, Passes.HandleFailover, Passes.HandleRecovery;
      var out := ReconcileStatefulSets(ha, a.sets);
      if out == Failed { return Errored; }
      if out == Requeue { return ObjectsRequeued; }
      out := ReconcileServices(ha, a.services);
      if out == Failed { return Errored; }
      if out == Requeue { return ObjectsRequeued; }
      out := ReconcileReplication(ha, a.setup);
      if out != Proceed { return Errored; }
      if ha.phase == Running || ha.phase == Degraded {
        var health := CheckHealth(ha, a.health);
        return HealthPass(health);
      }
      if ha.phase == Failover {
        var failover := HandleFailover(ha, a.failover);
        return FailoverPass(failover);
      }
      if ha.phase == Recovering {
        var recovery := HandleRecovery(ha, a.recovery);
        return RecoveryPass(recovery);
      }
      return Idle;
    }

    method ReconcileCopy(ha: MariaDBHA, a: PassAnswer) returns (end: PassEnd)
      requires OrdersFit(ha, a.sets.sets)
      modifies api, ha
      ensures (Now(ha), end) == PassOn(old(Now(ha)), ha.AsRequest(), a)
    {
      hide Pipeline, Passes.HandleDeletion, StoreStatus, Cluster.Await;
      if !ha.finalizer {
        var ok := UpdateFinalizer(ha, true, a.finalizer);
        return if ok then FinalizerAdded else Errored;
      }
      if ha.deleting {
        end := HandleDeletion(ha, a);
        return;
      }
      if ha.phase == Unset {
        ha.phase := Initializing;
        var ok := UpdateStatus(ha, a.init);
        return if ok then Initialized else Errored;
      }
      end := RunPipeline(ha, a);
    }

    /** One pass over the resource `name`, declared as `spec` at this moment. */
    method Reconcile(name: string, spec: Spec, a: PassAnswer) returns (end: PassEnd)
      requires Enumerates(a.sets.sets.primary.order, Merge(spec.common, spec.primary.config).parameters)
      requires Enumerates(a.sets.sets.secondary.order, Merge(spec.common, spec.secondary.config).parameters)
      modifies api
      ensures (api.AsWorld(), end) == Passes.Reconcile(old(api.AsWorld()), Request(name, spec), a)
    {
      hide PassOn, Enumerates;
      match a.get
      case Missing => return Absent;
      case Broken => return Errored;
      case Found(staleness) =>
        var ha := new MariaDBHA(name, spec, Read(api.AsWorld(), staleness).copy);
        end := ReconcileCopy(ha, a);
    }
  }

  lemma NothingLeftToDelete(store: Store, targets: seq<Target>, answers: seq<DeleteAnswer>)
    requires targets == [] && answers == []
    ensures DeleteFrom(store, targets, answers) == (store, true)
  {
  }

  lemma ConfigMapKeepsSets(store: Store, key: string, files: ConfigMap, a: ObjectAnswer)
    ensures SyncConfigMap(store, key, files, a).0.statefulSets == store.statefulSets
  {
  }
}
