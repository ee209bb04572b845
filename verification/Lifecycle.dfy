/** The operator's objects over whole runs: convergence, removal, and what other resources see. */
module Lifecycle {
  import opened Wrappers
  import opened Throttle
  import opened Resource
  import opened Conditions
  import opened Objects
  import opened Cluster
  import opened Routing
  import opened Teardown
  import opened Passes
  import opened Safety
  import opened Runs

  /** Rules that every pass of a specification obeys. */
  function RulesOf(spec: Spec): Rules { Rules(Interval(spec.minimumInterval), true, true) }

  lemma PassEndsWithStore(w: World, r: Request, a: PassAnswer, staleness: nat)
    requires WorldSound(w) && a.get == Found(staleness)
    ensures Reconcile(w, r, a).0.store == PassEffects(Read(w, staleness), r, a).store
    ensures WorldSound(Reconcile(w, r, a).0)
  {
    hide PassOn, PassEffects, Continues, Grows;
    ReadIsExact(w, staleness, 0);
    PassOnIsLegal(RulesOf(r.spec), Read(w, staleness), r, a);
  }

  // ---------- convergence ----------

  predicate PastObjects(end: PassEnd) { end.HealthPass? || end.FailoverPass? || end.RecoveryPass? || end.Idle? }

  /** The store after the main pipeline, stage by stage. */
  lemma PipelineMeasure(s: Session, r: Request, a: PassAnswer)
    requires Keeps(r.name, r.spec, a.sets.sets)
    ensures var after, end := PipelineEffects(s, r, a).store, Pipeline(s, r, a).1;
      var m, n := Measure(s.api.store, r.name, r.spec), Measure(after, r.name, r.spec);
      && TouchesOnly(r.name, s.api.store, after)
      && (PastObjects(end) ==> m == 0)
      && (!Promoted(end) ==> n == m - Debt(end == ObjectsRequeued))
      && (Promoted(end) ==> n <= 1)
      && (end == ObjectsRequeued ==> m > 0)
  {
    hide SyncStatefulSets, SyncServices, Dispatch, Redirect, Measure, TouchesOnly, StoreStatus, IsReady;
    hide ReconcileReplication, Keeps, SetDebt, ServiceDebt;
    var store0 := s.api.store;
    SetsStageMeasure(store0, r.name, r.spec, a.sets.sets);
    var (store1, out1) := SyncStatefulSets(store0, r.name, r.spec, a.sets.sets);
    var (s1, o1) := ReconcileStatefulSets(s, r, a.sets);
    assert o1 == Requeue <==> out1 == Requeue;
    StoreKeepsStore(s.(api := s.api.(store := store1)), r, a.sets.write);
    assert s1.api.store == store1;
    if o1 == Proceed {
      ServicesStageMeasure(store1, r.name, r.spec, a.services);
      var (store2, out2) := SyncServices(store1, r.name, a.services);
      TouchesOnlyIsTransitive(r.name, store0, store1, store2);
      OnlyServicesOwe(store0, store1, r.name, r.spec);
      if out2 == Proceed {
        RedirectTouchesOnly(store2, r.name, r.spec, a.failover.redirect);
        TouchesOnlyIsTransitive(r.name, store0, store2, Redirect(store2, r.name, a.failover.redirect).0);
        DispatchEnds(ReconcileReplication(ReconcileServices(s1, r, a.services).0, r, a.setup).0, r, a);
      }
    }
  }

  lemma StoreKeepsStore(s: Session, r: Request, a: WriteAnswer)
    ensures forall status :: StoreStatus(WithStatus(s, status), r, a).0.api.store == s.api.store
  {
    InterruptsKeepStore(s.api, r, a.interrupts);
  }

  lemma {:induction false} InterruptsKeepStore(w: World, r: Request, interrupts: seq<Interrupt>)
    ensures Interrupted(w, r, interrupts).store == w.store
  {
    hide Noted, TooSoon;
    if interrupts != [] {
      InterruptsKeepStore(w, r, interrupts[..|interrupts| - 1]);
    }
  }

  lemma TouchesOnlyIsTransitive(name: string, a: Store, b: Store, c: Store)
    requires TouchesOnly(name, a, b) && TouchesOnly(name, b, c)
    ensures TouchesOnly(name, a, c)
  {
  }

  lemma OnlyServicesOwe(before: Store, after: Store, name: string, spec: Spec)
    requires SetDebt(before, name, spec, true) == SetDebt(before, name, spec, false) == 0
    requires before.services == after.services
    ensures Measure(before, name, spec) == ServiceDebt(after, name)
  {
  }

  lemma DispatchEnds(s: Session, r: Request, a: PassAnswer)
    ensures PastObjects(Dispatch(s, r, a).1)
  {
  }

  /** Some pass reads a version whose finalizer is set and whose deletion is not requested. */
  predicate ReadsLive(w: World, staleness: nat) {
    Read(w, staleness).copy.finalizer && !Read(w, staleness).copy.deleting
  }

  /** One pass: a requeue for the sake of objects pays exactly one debt; only a pass without debt
      gets past the objects; a redirect makes at most one debt; nothing else changes any. */
  lemma PassMeasure(w: World, r: Request, a: PassAnswer)
    requires WorldSound(w) && Keeps(r.name, r.spec, a.sets.sets)
    requires a.get.Found? ==> !Read(w, a.get.staleness).copy.deleting
    ensures var (v, end) := Reconcile(w, r, a);
      var m, n := Measure(w.store, r.name, r.spec), Measure(v.store, r.name, r.spec);
      && TouchesOnly(r.name, w.store, v.store)
      && (PastObjects(end) ==> m == 0)
      && (!Promoted(end) ==> n == m - Debt(end == ObjectsRequeued))
      && (Promoted(end) ==> n <= 1)
      && (end == ObjectsRequeued ==> m > 0)
  {
    hide Measure, Pipeline, PipelineEffects, TouchesOnly, Keeps;
    NothingTouched(r.name, w.store);
    if a.get.Found? {
      var s := Read(w, a.get.staleness);
      PassEndsWithStore(w, r, a, a.get.staleness);
      PipelineMeasure(s, r, a);
    }
  }

  lemma NothingTouched(name: string, store: Store)
    ensures TouchesOnly(name, store, store)
  {
  }

  // What others do does not depend on the operator's objects.

  function WithStore(s: Session, store: Store): Session { s.(api := s.api.(store := store)) }

  lemma ManualCheckIgnoresStore(s: Session, store: Store, c: ManualCall)
    ensures ManualCheck(WithStore(s, store), c) == WithStore(ManualCheck(s, c), store)
  {
    hide Noted;
  }

  lemma ManualFailoverIgnoresStore(s: Session, store: Store, r: Request, c: ManualCall)
    ensures ManualFailoverOf(WithStore(s, store), r, c).0 == WithStore(ManualFailoverOf(s, r, c).0, store)
  {
    hide ManualCheck, TooSoon, Healthy;
    ManualCheckIgnoresStore(Tick(s, c.gateDelay), store, c);
  }

  lemma InterruptIgnoresStore(w: World, store: Store, r: Request, i: Interrupt)
    ensures Interrupted1(w.(store := store), r, i) == Interrupted1(w, r, i).(store := store)
  {
    hide ManualFailoverOf;
    if i.Trigger? {
      ManualFailoverIgnoresStore(Read(w, i.call.staleness), store, r, i.call);
    }
  }

  lemma {:induction false} InterruptsIgnoreStore(w: World, store: Store, r: Request, interrupts: seq<Interrupt>)
    ensures Interrupted(w.(store := store), r, interrupts) == Interrupted(w, r, interrupts).(store := store)
  {
    hide Interrupted1;
    if interrupts != [] {
      var init := interrupts[..|interrupts| - 1];
      InterruptsIgnoreStore(w, store, r, init);
      InterruptIgnoresStore(Interrupted(w, r, init), store, r, interrupts[|interrupts| - 1]);
    }
  }

  lemma AcceptedIff(s: Session, store: Store, r: Request, status: Status, a: WriteAnswer)
    ensures StoreStatus(WithStatus(s.(api := s.api.(store := store)), status), r, a).1
      <==> Accepts(s.api, r, s.copy.version, a)
  {
    InterruptsIgnoreStore(s.api, store, r, a.interrupts);
  }

  predicate Up(a: ReadyAnswer) { a.lookup && a.readyReplicas == 1 }

  lemma SettledReady(store: Store, name: string, spec: Spec, isPrimary: bool, a: ReadyAnswer)
    requires SetDebt(store, name, spec, isPrimary) == 0
    ensures IsReady(store, InstanceName(name, isPrimary), a) == if a.lookup then Some(a.readyReplicas == 1) else None
  {
    hide InstanceName, ConfigName;
  }

  lemma ProceedKeepsSettled(store: Store, name: string, spec: Spec, a: SetAnswers)
    requires SyncStatefulSets(store, name, spec, a).1 == Proceed
    ensures Settled(SyncStatefulSets(store, name, spec, a).0, name, spec)
  {
    hide SyncStatefulSet, SetDebt, KeepsOne, TouchesOnly, Installed;
    SetStep(store, name, spec, true, a.primary);
    var (s, _) := SyncStatefulSet(store, name, spec, true, a.primary);
    SetStep(s, name, spec, false, a.secondary);
  }

  /** An initialising resource with both instances ready cannot store that it runs. */
  predicate Stalled(w: World, r: Request, copy: Copy, a: SetsAnswer) {
    && copy.status.phase == Initializing && Up(a.primaryReady) && Up(a.secondaryReady)
    && !Accepts(w, r, copy.version, a.write)
  }

  /** Everything that the first stage needs in order to go on. */
  predicate SetsStagePasses(w: World, r: Request, copy: Copy, a: SetsAnswer) {
    && Settled(w.store, r.name, r.spec)
    && FilesPass(w.store, r.name, r.spec, true, a.sets.primary) && FilesPass(w.store, r.name, r.spec, false, a.sets.secondary)
    && a.primaryReady.lookup && a.secondaryReady.lookup && !Stalled(w, r, copy, a)
  }

  lemma SetsStagePassesIff(s: Session, r: Request, a: SetsAnswer)
    ensures ReconcileStatefulSets(s, r, a).1 == Proceed <==> SetsStagePasses(s.api, r, s.copy, a)
  {
    hide SyncStatefulSets, StoreStatus, IsReady, SetDebt, FilesPass, Accepts;
    var (store, out) := SyncStatefulSets(s.api.store, r.name, r.spec, a.sets);
    SetsProceedIff(s.api.store, r.name, r.spec, a.sets);
    if out == Proceed {
      ProceedKeepsSettled(s.api.store, r.name, r.spec, a.sets);
      SettledReady(store, r.name, r.spec, true, a.primaryReady);
      SettledReady(store, r.name, r.spec, false, a.secondaryReady);
      AcceptedIff(s, store, r, s.copy.status.(phase := Running), a.write);
    }
  }

  /** A pass that reads a live, started resource and gets every object answered requeues for the
      sake of objects exactly if there is a debt, unless the stateful sets are in order and it
      stops at the write that ends the initialisation. */
  lemma PassRequeuesIffOwing(w: World, r: Request, a: PassAnswer)
    requires WorldSound(w) && Keeps(r.name, r.spec, a.sets.sets) && a.get.Found?
    requires ReadsLive(w, a.get.staleness) && Read(w, a.get.staleness).copy.status.phase != Unset
    requires SetsAnswered(a.sets.sets) && ServicesAnswered(a.services)
    requires a.sets.primaryReady.lookup && a.sets.secondaryReady.lookup
    ensures Reconcile(w, r, a).1 == ObjectsRequeued <==>
      && Measure(w.store, r.name, r.spec) > 0
      && !(Settled(w.store, r.name, r.spec) && Stalled(w, r, Read(w, a.get.staleness).copy, a.sets))
  {
    hide SyncStatefulSets, SyncServices, Dispatch, ReconcileReplication, Keeps, SetDebt, ServiceDebt, TouchesOnly;
    hide StoreStatus, IsReady, Settled, Stalled;
    var s := Read(w, a.get.staleness);
    PassMeasure(w, r, a);
    SetsStageMeasure(s.api.store, r.name, r.spec, a.sets.sets);
    AnsweredProceedsIff(s.api.store, r.name, r.spec, a.sets.sets);
    SetsStagePassesIff(s, r, a.sets);
    SettledOwesNothing(s.api.store, r.name, r.spec);
    var (s1, out) := ReconcileStatefulSets(s, r, a.sets);
    if out == Proceed {
      StoreKeepsStore(s.(api := s.api.(store := SyncStatefulSets(s.api.store, r.name, r.spec, a.sets.sets).0)), r, a.sets.write);
      ServicesStageMeasure(s1.api.store, r.name, r.spec, a.services);
      DispatchEnds(ReconcileReplication(ReconcileServices(s1, r, a.services).0, r, a.setup).0, r, a);
      OnlySetsMatter(s.api.store, s1.api.store, r.name);
    }
  }

  lemma SettledOwesNothing(store: Store, name: string, spec: Spec)
    ensures !Settled(store, name, spec) ==> Measure(store, name, spec) > 0
    ensures Settled(store, name, spec) ==> Measure(store, name, spec) == ServiceDebt(store, name)
  {
  }

  lemma OnlySetsMatter(before: Store, after: Store, name: string)
    requires before.services == after.services
    ensures ServiceDebt(before, name) == ServiceDebt(after, name)
  {
  }

  /** A run of one resource with one specification, whose server keeps what is written and whose
      passes all read versions before any deletion. */
  ghost predicate Undisturbed(w: World, r: Request, steps: seq<Step>) {
    steps == [] ||
    (var init, last := steps[..|steps| - 1], steps[|steps| - 1];
     && Undisturbed(w, r, init)
     && last.r == r
     && (last.Pass? ==> Keeps(r.name, r.spec, last.a.sets.sets))
     && (last.Pass? && last.a.get.Found? ==> !Read(Run(w, init), last.a.get.staleness).copy.deleting))
  }

  /** How many passes of a run requeued for the sake of objects. */
  function Requeues(w: World, steps: seq<Step>): nat {
    if steps == [] then 0
    else
      var init := steps[..|steps| - 1];
      Requeues(w, init) + Debt(EndOf(Run(w, init), steps[|steps| - 1]) == ObjectsRequeued)
  }

  /** In every such run the requeues are paid for by the debts at the start and one per promotion:
      at most six requeues while no failover happens. */
  lemma {:induction false} RequeuesAreBounded(w: World, r: Request, steps: seq<Step>)
    requires WorldSound(w) && Undisturbed(w, r, steps)
    ensures var v := Run(w, steps);
      && WorldSound(v) && Promotions(w.statements) <= Promotions(v.statements)
      && Requeues(w, steps) + Measure(v.store, r.name, r.spec)
           <= Measure(w.store, r.name, r.spec) + Promotions(v.statements) - Promotions(w.statements)
      && Requeues(w, steps) <= 6 + Promotions(v.statements) - Promotions(w.statements)
  {
    hide Measure, Reconcile, Interrupted1, Keeps;
    if steps != [] {
      var init, last := steps[..|steps| - 1], steps[|steps| - 1];
      RequeuesAreBounded(w, r, init);
      var v := Run(w, init);
      match last {
        case Pass(_, a) =>
          PassMeasure(v, r, a);
          PassConservesPromotions(RulesOf(r.spec), v, r, a);
          PromotionsOfPass(v.statements, r.spec, a, Reconcile(v, r, a).1);
          ReconcileWritesAreLegal(RulesOf(r.spec), v, r, a);
        case Outside(_, i) =>
          InterruptIsLegal(RulesOf(r.spec), v, r, i);
      }
    }
  }

  // ---------- non-interference ----------

  lemma {:induction false} DeletionTouchesOnly(name: string, store: Store, targets: seq<Target>, answers: seq<DeleteAnswer>)
    requires |targets| == |answers| && forall t | t in targets :: t in Targets(name)
    ensures TouchesOnly(name, store, DeleteFrom(store, targets, answers).0)
    decreases |targets|
  {
    hide TouchesOnly, Targets, DeleteOne;
    NothingTouched(name, store);
    if targets != [] {
      var (s, ok) := DeleteOne(store, targets[0], answers[0]);
      DeleteOneTouchesOnly(name, store, targets[0], answers[0]);
      if ok {
        DeletionTouchesOnly(name, s, targets[1..], answers[1..]);
        TouchesOnlyIsTransitive(name, store, s, DeleteFrom(s, targets[1..], answers[1..]).0);
      }
    }
  }

  lemma DeleteOneTouchesOnly(name: string, store: Store, t: Target, a: DeleteAnswer)
    requires t in Targets(name)
    ensures TouchesOnly(name, store, DeleteOne(store, t, a).0)
  {
  }

  lemma EightTargets(name: string)
    ensures |Targets(name)| == 8
  {
  }

  lemma StageTouchesOnly(s: Session, r: Request, a: PassAnswer)
    ensures TouchesOnly(r.name, s.api.store, PassEffects(s, r, a).store)
  {
    hide SyncStatefulSets, SyncServices, Redirect, TouchesOnly, Targets, DeleteFrom, Pipeline, ReconcileStatefulSets;
    EightTargets(r.name);
    NothingTouched(r.name, s.api.store);
    DeletionTouchesOnly(r.name, s.api.store, Targets(r.name), a.deletions);
    SetsStageMeasure(s.api.store, r.name, r.spec, a.sets.sets);
    var store1 := SyncStatefulSets(s.api.store, r.name, r.spec, a.sets.sets).0;
    ServicesStageMeasure(store1, r.name, r.spec, a.services);
    var store2 := SyncServices(store1, r.name, a.services).0;
    TouchesOnlyIsTransitive(r.name, s.api.store, store1, store2);
    RedirectTouchesOnly(store2, r.name, r.spec, a.failover.redirect);
    TouchesOnlyIsTransitive(r.name, s.api.store, store2, Redirect(store2, r.name, a.failover.redirect).0);
  }

  /** No step on one resource, be it a pass, a failover or a deletion, changes an object of another. */
  lemma StepTouchesOnly(w: World, step: Step)
    requires WorldSound(w)
    ensures TouchesOnly(step.r.name, w.store, Next(w, step).store)
    ensures forall other | other != step.r.name :: Belongings(Next(w, step).store, other) == Belongings(w.store, other)
    ensures WorldSound(Next(w, step))
  {
    hide Reconcile, Interrupted1, PassEffects, TouchesOnly, Belongings;
    NothingTouched(step.r.name, w.store);
    match step {
      case Pass(r, a) =>
        if a.get.Found? {
          PassEndsWithStore(w, r, a, a.get.staleness);
          StageTouchesOnly(Read(w, a.get.staleness), r, a);
        } else {
          UnreadPass(w, r, a);
        }
      case Outside(r, i) => InterruptIsLegal(RulesOf(r.spec), w, r, i);
    }
    forall other | other != step.r.name {
      OthersAreUntouched(step.r.name, other, w.store, Next(w, step).store);
    }
  }

  lemma UnreadPass(w: World, r: Request, a: PassAnswer)
    requires !a.get.Found?
    ensures Reconcile(w, r, a) == (w, if a.get.Missing? then Absent else Errored)
  {
  }

  lemma {:induction false} RunTouchesOnly(w: World, name: string, steps: seq<Step>)
    requires WorldSound(w) && forall i | 0 <= i < |steps| :: steps[i].r.name == name
    ensures TouchesOnly(name, w.store, Run(w, steps).store) && WorldSound(Run(w, steps))
  {
    hide TouchesOnly, Next;
    NothingTouched(name, w.store);
    if steps != [] {
      var init, last := steps[..|steps| - 1], steps[|steps| - 1];
      RunTouchesOnly(w, name, init);
      StepTouchesOnly(Run(w, init), last);
      TouchesOnlyIsTransitive(name, w.store, Run(w, init).store, Run(w, steps).store);
    }
  }

  // ---------- removal ----------

  /** A pass that reads a version whose deletion is requested creates nothing. */
  lemma DeletingPassOnlyRemoves(w: World, r: Request, a: PassAnswer, t: Target)
    requires WorldSound(w)
    requires a.get.Found? ==> Read(w, a.get.staleness).copy.deleting
    ensures Exists(Reconcile(w, r, a).0.store, t) ==> Exists(w.store, t)
  {
    if a.get.Found? {
      PassEndsWithStore(w, r, a, a.get.staleness);
      TargetsDistinct(r.name);
      hide Reconcile, Targets, DeleteFrom, Exists;
      WhatIsLeft(w.store, Targets(r.name), a.deletions, t);
    }
  }

  /** Every pass of the run reads a version whose deletion is requested. */
  ghost predicate ReadsDeleting(w: World, steps: seq<Step>) {
    steps == [] ||
    (var init, last := steps[..|steps| - 1], steps[|steps| - 1];
     && ReadsDeleting(w, init)
     && (last.Pass? && last.a.get.Found? ==> Read(Run(w, init), last.a.get.staleness).copy.deleting))
  }

  /** Once deletion is requested nothing comes back, over any number of passes that fail midway. */
  lemma {:induction false} NothingComesBack(w: World, steps: seq<Step>, t: Target)
    requires WorldSound(w) && ReadsDeleting(w, steps)
    ensures Exists(Run(w, steps).store, t) ==> Exists(w.store, t)
    ensures WorldSound(Run(w, steps))
  {
    hide Reconcile, Interrupted1, Exists, TouchesOnly;
    if steps != [] {
      var init, last := steps[..|steps| - 1], steps[|steps| - 1];
      NothingComesBack(w, init, t);
      StepTouchesOnly(Run(w, init), last);
      match last {
        case Pass(r, a) => DeletingPassOnlyRemoves(Run(w, init), r, a, t);
        case Outside(r, i) => InterruptIsLegal(RulesOf(r.spec), Run(w, init), r, i);
      }
    }
  }

  /** A pass that takes the finalizer off leaves none of the resource's objects, exactly if the
      lookups of those that existed were answered. */
  lemma TornDownIffLookupsAnswered(w: World, r: Request, a: PassAnswer)
    requires WorldSound(w) && Reconcile(w, r, a).1 == TornDown
    ensures AllGone(Reconcile(w, r, a).0.store, r.name) <==> LookupsAnswered(w.store, r.name, a.deletions)
  {
    hide Pipeline, StoreStatus, PutFinalizer, Await, AllGone, LookupsAnswered, Targets, DeleteFrom;
    PassEndsWithStore(w, r, a, a.get.staleness);
    PipelineEnds(Read(w, a.get.staleness), r, a);
    CompleteIffLookupsAnswered(w.store, r.name, a.deletions);
  }

  lemma PipelineEnds(s: Session, r: Request, a: PassAnswer)
    ensures Pipeline(s, r, a).1 !in {FinalizerAdded, TornDown}
  {
    hide Dispatch, ReconcileStatefulSets, ReconcileServices, ReconcileReplication;
    var s1 := ReconcileStatefulSets(s, r, a.sets).0;
    DispatchEnds(ReconcileReplication(ReconcileServices(s1, r, a.services).0, r, a.setup).0, r, a);
  }

  /** The pass sees the deletion, can remove every object that it sees, and its last write is accepted. */
  predicate TearsDown(w: World, r: Request, a: PassAnswer) {
    && a.get.Found?
    && var copy := Read(w, a.get.staleness).copy;
    && copy.finalizer && copy.deleting
    && |Targets(r.name)| == 8
    && (forall i | 0 <= i < 8 :: Exists(w.store, Targets(r.name)[i]) && a.deletions[i].lookup ==> a.deletions[i].removed)
    && Accepts(w, r, copy.version, a.finalizer)
  }

  lemma TearsDownIff(w: World, r: Request, a: PassAnswer)
    ensures Reconcile(w, r, a).1 == TornDown <==> TearsDown(w, r, a)
  {
    hide Pipeline, StoreStatus, Interrupted, DeleteFrom, Targets, Exists;
    if a.get.Found? {
      var s := Read(w, a.get.staleness);
      PipelineEnds(s, r, a);
      EightTargets(r.name);
      TargetsDistinct(r.name);
      DoneIff(w.store, Targets(r.name), a.deletions);
      InterruptsIgnoreStore(w, DeleteFrom(w.store, Targets(r.name), a.deletions).0, r, a.finalizer.interrupts);
    }
  }

  /** Whatever a resource's life was, started from an empty store: when its finalizer comes off
      after answered lookups, the store is empty again. */
  lemma LifeLeavesNothing(w: World, r: Request, steps: seq<Step>, a: PassAnswer)
    requires WorldSound(w) && w.store == NOTHING
    requires forall i | 0 <= i < |steps| :: steps[i].r.name == r.name
    requires var v := Run(w, steps);
      Reconcile(v, r, a).1 == TornDown && LookupsAnswered(v.store, r.name, a.deletions)
    ensures Reconcile(Run(w, steps), r, a).0.store == NOTHING
  {
    hide Reconcile, AllGone, LookupsAnswered, TouchesOnly, Run;
    var v := Run(w, steps);
    RunTouchesOnly(w, r.name, steps);
    StepTouchesOnly(v, Pass(r, a));
    var u := Reconcile(v, r, a).0;
    TouchesOnlyIsTransitive(r.name, w.store, v.store, u.store);
    TornDownIffLookupsAnswered(v, r, a);
    GoneAndOwned(r.name, u.store);
  }

  lemma GoneAndOwned(name: string, store: Store)
    requires AllGone(store, name) && TouchesOnly(name, NOTHING, store)
    ensures store == NOTHING
  {
    hide Targets, OwnedStatefulSets, OwnedServices, OwnedConfigs;
    forall k ensures k !in store.statefulSets && k !in store.services && k !in store.configMaps {
      TargetsAreOwned(name, StatefulSetOf(k));
      TargetsAreOwned(name, ServiceOf(k));
      TargetsAreOwned(name, ConfigMapOf(k));
      assert k in OwnedStatefulSets(name) ==> !Exists(store, StatefulSetOf(k));
      assert k in OwnedServices(name) ==> !Exists(store, ServiceOf(k));
      assert k in OwnedConfigs(name) ==> !Exists(store, ConfigMapOf(k));
      assert k !in store.statefulSets - OwnedStatefulSets(name);
      assert k !in store.services - OwnedServices(name);
      assert k !in store.configMaps - OwnedConfigs(name);
    }
  }
}
