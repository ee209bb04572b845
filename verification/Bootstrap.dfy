/** How a resource gets from its creation to being monitored, pass by pass. */
module Bootstrap {
  import opened Wrappers
  import opened Throttle
  import opened Resource
  import opened Conditions
  import opened Objects
  import opened Cluster
  import opened Routing
  import opened Teardown
  import opened Passes
  import opened Safety
  import opened Runs
  import opened Lifecycle
  import opened Progress

  // ---------- single stages ----------

  /** An initialising resource runs exactly if both stateful sets are there as wanted and have
      their one replica ready. */
  lemma StartsRunningIff(s: Session, r: Request, a: SetsAnswer)
    requires s.copy.status.phase == Initializing
    ensures var (t, out) := ReconcileStatefulSets(s, r, a);
      && (t.copy.status.phase == Running <==>
            SyncStatefulSets(s.api.store, r.name, r.spec, a.sets).1 == Proceed && Up(a.primaryReady) && Up(a.secondaryReady))
      && (t.copy.status.phase == Running && out == Proceed ==> Last(t.api.log).status == t.copy.status)
      && (t.copy.status.phase != Running ==> t.copy == s.copy && t.api.log == s.api.log)
  {
    hide SyncStatefulSets, StoreStatus, IsReady, SetDebt, TouchesOnly, Keeps;
    SetsStageMeasure(s.api.store, r.name, r.spec, a.sets);
    var (store, out) := SyncStatefulSets(s.api.store, r.name, r.spec, a.sets);
    if out == Proceed {
      ProceedKeepsSettled(s.api.store, r.name, r.spec, a.sets);
      SettledReady(store, r.name, r.spec, true, a.primaryReady);
      SettledReady(store, r.name, r.spec, false, a.secondaryReady);
    }
    var s1 := WithStatus(s.(api := s.api.(store := store)), s.copy.status.(phase := Running));
    StoreKeepsCopy(s1, r, a.write);
    StoredIsCopied(s1, r, a.write);
  }

  /** The instance's stateful set is there and has as many replicas ready as it has. */
  predicate InstanceReady(store: Store, name: string, isPrimary: bool, a: ReadyAnswer) {
    var key := name + if isPrimary then "-primary" else "-secondary";
    a.lookup && key in store.statefulSets && a.readyReplicas == store.statefulSets[key].replicas
  }

  /** Both instances are ready, no condition says yet that replication is active, and everything
      that the setup needs answers. */
  predicate SetupDue(s: Session, r: Request, a: SetupAnswer) {
    && InstanceReady(s.api.store, r.name, true, a.primaryReady) && InstanceReady(s.api.store, r.name, false, a.secondaryReady)
    && (forall c | c in s.copy.status.conditions && c.kind == "ReplicationActive" :: c.status != True)
    && a.primaryInfo && a.secondaryInfo && a.setup
  }

  /** Replication is set up exactly when that is due; the condition then says so. The stage never
      requeues, and fails only on a broken lookup or a refused write; all else is left for later. */
  lemma SetupRunsIff(s: Session, r: Request, a: SetupAnswer)
    ensures var (t, out) := ReconcileReplication(s, r, a);
      var before, after := s.copy.status.conditions, t.copy.status.conditions;
      && (after != before <==> SetupDue(s, r, a))
      && (SetupDue(s, r, a) ==> AsMap(after) == AsMap(before)["ReplicationActive" := Condition(
            "ReplicationActive", True, 0, "ReplicationConfigured", "La réplication a été configurée avec succès",
            (s.api.now + a.delay) / 1_000_000_000)])
      && out == (if !a.primaryReady.lookup || !a.secondaryReady.lookup then Failed
                 else if SetupDue(s, r, a) && !Accepts(Tick(s, a.delay).api, r, s.copy.version, a.write) then Failed
                 else Proceed)
      && (SetupDue(s, r, a) && out == Proceed ==> Last(t.api.log).status == t.copy.status)
  {
    hide StoreStatus, Replace, SaysActive, AsMap, Accepts;
    var before, s1 := s.copy.status.conditions, Tick(s, a.delay);
    var seen := Configured(Seconds(s1.api.now));
    var list := Replace(before, seen);
    NothingActive(before);
    ReplacedSaysActive(before, seen);
    if !SaysActive(before) { ReplaceRefinesMap(before, seen); }
    StoreKeepsCopy(WithConditions(s1, list), r, a.write);
    StoredIsCopied(WithConditions(s1, list), r, a.write);
    LaterAccepts(s, r, list, a);
  }

  /** A pass goes no further than the replication stage where this cannot see whether an instance is
      ready, or has set up replication and cannot store that. */
  lemma SetupFailureStops(w: World, r: Request, a: PassAnswer)
    requires a.get.Found?
    requires
      || !a.setup.primaryReady.lookup || !a.setup.secondaryReady.lookup
      || (&& a.setup.primaryReady.readyReplicas == 1 && a.setup.secondaryReady.readyReplicas == 1
          && a.setup.primaryInfo && a.setup.secondaryInfo && a.setup.setup && !a.setup.write.up
          && forall c | c in Read(w, a.get.staleness).copy.status.conditions && c.kind == "ReplicationActive" :: c.status != True)
    ensures !PastObjects(Reconcile(w, r, a).1)
  {
    hide Dispatch, SyncStatefulSets, SyncServices, StoreStatus, IsReady, SaysActive, Replace, SetDebt, TouchesOnly;
    var s := Read(w, a.get.staleness);
    NothingActive(s.copy.status.conditions);
    var (store, out) := SyncStatefulSets(w.store, r.name, r.spec, a.sets.sets);
    if out == Proceed {
      ProceedKeepsSettled(w.store, r.name, r.spec, a.sets.sets);
      StoreKeepsStore(s.(api := s.api.(store := store)), r, a.sets.write);
      StoreKeepsCopy(WithStatus(s.(api := s.api.(store := store)), s.copy.status.(phase := Running)), r, a.sets.write);
      var s2 := ReconcileServices(ReconcileStatefulSets(s, r, a.sets).0, r, a.services).0;
      ServicesStageMeasure(store, r.name, r.spec, a.services);
      SetDebtIgnoresServices(store, s2.api.store, r.name, r.spec);
      SettledReady(s2.api.store, r.name, r.spec, true, a.setup.primaryReady);
      SettledReady(s2.api.store, r.name, r.spec, false, a.setup.secondaryReady);
      RefusedWrite(WithConditions(Tick(s2, a.setup.delay),
        Replace(s2.copy.status.conditions, Configured(Seconds(Tick(s2, a.setup.delay).api.now)))), r, a.setup.write);
    }
  }

  lemma RefusedWrite(s: Session, r: Request, a: WriteAnswer)
    ensures !a.up ==> !StoreStatus(s, r, a).1
  {
  }

  lemma NothingActive(list: seq<Condition>)
    ensures !SaysActive(list) <==> forall c | c in list && c.kind == "ReplicationActive" :: c.status != True
  {
  }

  lemma LaterAccepts(s: Session, r: Request, list: seq<Condition>, a: SetupAnswer)
    ensures StoreStatus(WithConditions(Tick(s, a.delay), list), r, a.write).1
      <==> Accepts(Tick(s, a.delay).api, r, s.copy.version, a.write)
  {
  }

  lemma ReplacedSaysActive(list: seq<Condition>, seen: Condition)
    requires seen.kind == REPLICATION_ACTIVE && seen.status == True
    ensures SaysActive(Replace(list, seen))
  {
    var n := IndexOf(list, seen.kind);
    assert Replace(list, seen)[n] == seen;
  }

  lemma StoredIsCopied(s: Session, r: Request, a: WriteAnswer)
    ensures var (t, ok) := StoreStatus(s, r, a); ok ==> Last(t.api.log).status == s.copy.status
  {
  }

  // ---------- passes that get what they need ----------

  /** A pass that reads the current version, gets every answer up to the last stage and is not
      interrupted before it; both instances are ready. */
  predicate Good(r: Request, a: PassAnswer) {
    && a.get == Found(0)
    && Quiet(a.finalizer) && Quiet(a.init) && Quiet(a.sets.write) && Quiet(a.setup.write)
    && SetsAnswered(a.sets.sets) && Keeps(r.name, r.spec, a.sets.sets) && ServicesAnswered(a.services)
    && Up(a.sets.primaryReady) && Up(a.sets.secondaryReady)
    && a.setup.primaryReady.lookup && a.setup.secondaryReady.lookup
  }

  /** How many passes separate a resource from the last stage: one for the finalizer, one for the
      first phase, one for each object that is missing or not as wanted. */
  function Distance(w: World, r: Request): (n: nat)
    ensures n <= 8
  {
    Debt(!Last(w.log).finalizer) + Debt(Last(w.log).status.phase == Unset) + Measure(w.store, r.name, r.spec)
  }

  /** A resource on its way to its first health check. */
  predicate Young(phase: Phase) { phase in {Unset, Initializing, Running} }

  /** What a pass may do to the stored version before its last stage. */
  ghost predicate MovesOn(b: Version, a: Version) {
    && a.finalizer == b.finalizer && a.deleting == b.deleting
    && (a.status.phase == b.status.phase || (b.status.phase == Initializing && a.status.phase == Running))
  }

  lemma QuietStore(s: Session, r: Request, a: WriteAnswer)
    requires Fresh(s) && Quiet(a)
    ensures var (t, ok) := StoreStatus(s, r, a);
      && ok && Fresh(t) && t.copy.status == s.copy.status && t.api.store == s.api.store
      && Last(t.api.log).status == s.copy.status
      && Last(t.api.log).finalizer == Last(s.api.log).finalizer && Last(t.api.log).deleting == Last(s.api.log).deleting
  {
  }

  /** The object stages of a good pass never fail, and leave a started resource that is not initialising. */
  lemma GoodPipeline(s: Session, r: Request, a: PassAnswer)
    requires Good(r, a) && Fresh(s) && s.copy.status == Last(s.api.log).status && s.copy.status.phase != Unset
    ensures var (t, end) := Pipeline(s, r, a);
      && (end == ObjectsRequeued || PastObjects(end))
      && (end == ObjectsRequeued ==> MovesOn(Last(s.api.log), Last(t.api.log)))
      && (PastObjects(end) && Young(s.copy.status.phase) ==> end.HealthPass?)
  {
    hide SyncStatefulSets, SyncServices, Dispatch, StoreStatus, IsReady, SaysActive, Replace;
    hide SetsAnswered, ServicesAnswered, Keeps, SetDebt, TouchesOnly;
    var name, store := r.name, s.api.store;
    var (store1, out1) := SyncStatefulSets(store, name, r.spec, a.sets.sets);
    SetsStageMeasure(store, name, r.spec, a.sets.sets);
    if out1 == Proceed {
      GoodSetsStage(s, r, a);
      var s1 := ReconcileStatefulSets(s, r, a.sets).0;
      ServicesStageMeasure(s1.api.store, name, r.spec, a.services);
      var s2 := ReconcileServices(s1, r, a.services).0;
      GoodSetupStage(s2, r, a);
      DispatchByPhase(ReconcileReplication(s2, r, a.setup).0, r, a);
    }
  }

  lemma GoodSetsStage(s: Session, r: Request, a: PassAnswer)
    requires Good(r, a) && Fresh(s) && s.copy.status == Last(s.api.log).status && s.copy.status.phase != Unset
    requires SyncStatefulSets(s.api.store, r.name, r.spec, a.sets.sets).1 == Proceed
    ensures var (t, out) := ReconcileStatefulSets(s, r, a.sets);
      && out == Proceed && Fresh(t) && t.copy.status == Last(t.api.log).status
      && MovesOn(Last(s.api.log), Last(t.api.log)) && t.copy.status.phase != Initializing
  {
    hide SyncStatefulSets, StoreStatus, IsReady, SetDebt, Keeps, SetsAnswered, ServicesAnswered;
    var store := SyncStatefulSets(s.api.store, r.name, r.spec, a.sets.sets).0;
    ProceedKeepsSettled(s.api.store, r.name, r.spec, a.sets.sets);
    SettledReady(store, r.name, r.spec, true, a.sets.primaryReady);
    SettledReady(store, r.name, r.spec, false, a.sets.secondaryReady);
    QuietStore(WithStatus(s.(api := s.api.(store := store)), s.copy.status.(phase := Running)), r, a.sets.write);
  }

  lemma GoodSetupStage(s: Session, r: Request, a: PassAnswer)
    requires Good(r, a) && Fresh(s)
    ensures var (t, out) := ReconcileReplication(s, r, a.setup);
      out == Proceed && t.copy.status.phase == s.copy.status.phase
  {
    hide StoreStatus, SaysActive, Replace, Keeps, SetsAnswered, ServicesAnswered;
    var s1 := Tick(s, a.setup.delay);
    var list := Replace(s1.copy.status.conditions, Configured(Seconds(s1.api.now)));
    QuietStore(WithConditions(s1, list), r, a.setup.write);
  }

  lemma DispatchByPhase(s: Session, r: Request, a: PassAnswer)
    ensures var end := Dispatch(s, r, a).1;
      PastObjects(end) && (s.copy.status.phase == Running ==> end.HealthPass?)
  {
    hide CheckHealth, HandleFailover, HandleRecovery;
  }

  /** A good pass over a resource that is not being deleted gets exactly one step closer, or, with
      nothing left to do, gets to its last stage. */
  lemma GoodPassAdvances(w: World, r: Request, a: PassAnswer)
    requires WorldSound(w) && Good(r, a) && !Last(w.log).deleting
    ensures var (v, end) := Reconcile(w, r, a);
      && (PastObjects(end) <==> Distance(w, r) == 0)
      && (Distance(w, r) == 0 && Young(Last(w.log).status.phase) ==> end.HealthPass?)
      && (Distance(w, r) > 0 ==>
            && Distance(v, r) == Distance(w, r) - 1
            && !Last(v.log).deleting && WorldSound(v)
            && (Young(Last(w.log).status.phase) ==> Young(Last(v.log).status.phase)))
  {
    hide Pipeline, StoreStatus, Measure, Keeps, SetsAnswered, ServicesAnswered, TouchesOnly;
    var s := Read(w, 0);
    PassMeasure(w, r, a);
    if Last(w.log).finalizer {
      if Last(w.log).status.phase == Unset {
        QuietStore(WithStatus(s, s.copy.status.(phase := Initializing)), r, a.init);
      } else {
        GoodPipeline(s, r, a);
      }
    }
    PassEndsWithStore(w, r, a, 0);
  }

  lemma {:induction false} GoodRunAdvances(w: World, r: Request, steps: seq<Step>, i: nat)
    requires WorldSound(w) && !Last(w.log).deleting && i <= |steps| && i <= Distance(w, r)
    requires forall k | 0 <= k < |steps| :: steps[k].Pass? && steps[k].r == r && Good(r, steps[k].a)
    ensures var v := Run(w, steps[..i]);
      && WorldSound(v) && !Last(v.log).deleting && Distance(v, r) == Distance(w, r) - i
      && (Young(Last(w.log).status.phase) ==> Young(Last(v.log).status.phase))
  {
    hide Reconcile, Distance, Good, Young;
    if i > 0 {
      GoodRunAdvances(w, r, steps, i - 1);
      GoodPassAdvances(Run(w, steps[..i - 1]), r, steps[i - 1].a);
      assert steps[..i][..i - 1] == steps[..i - 1];
    }
  }

  /** Among good passes in a row, the one that first gets to its last stage is exactly the one
      after as many as the distance at the start: at the latest the ninth, and for a resource
      that was just created it is the ninth, and a health pass. */
  lemma LastStageIsReached(w: World, r: Request, steps: seq<Step>)
    requires WorldSound(w) && !Last(w.log).deleting && |steps| > Distance(w, r)
    requires forall k | 0 <= k < |steps| :: steps[k].Pass? && steps[k].r == r && Good(r, steps[k].a)
    ensures forall i | 0 <= i <= Distance(w, r) ::
      PastObjects(EndOf(Run(w, steps[..i]), steps[i])) <==> i == Distance(w, r)
    ensures Young(Last(w.log).status.phase) ==> EndOf(Run(w, steps[..Distance(w, r)]), steps[Distance(w, r)]).HealthPass?
    ensures w.store == NOTHING && !Last(w.log).finalizer && Last(w.log).status.phase == Unset ==> Distance(w, r) == 8
  {
    hide Reconcile, Good, Run, PastObjects;
    forall i | 0 <= i <= Distance(w, r)
      ensures PastObjects(EndOf(Run(w, steps[..i]), steps[i])) <==> i == Distance(w, r)
      ensures i == Distance(w, r) && Young(Last(w.log).status.phase) ==> EndOf(Run(w, steps[..i]), steps[i]).HealthPass?
    {
      GoodRunAdvances(w, r, steps, i);
      GoodPassAdvances(Run(w, steps[..i]), r, steps[i].a);
    }
  }
}
