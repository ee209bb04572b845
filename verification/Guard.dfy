/** The finalizer as a guard of the operator's objects, and deletion as a one-way street. */
module Guard {
  import opened Wrappers
  import opened Throttle
  import opened Resource
  import opened Conditions
  import opened FailureCount
  import opened Objects
  import opened Cluster
  import opened Routing
  import opened Teardown
  import opened Passes
  import opened Safety
  import opened Runs
  import opened Lifecycle
  import opened Progress

  // ---------- what status writes leave alone ----------

  /** The finalizer stays as it is, and a requested deletion stays requested. */
  ghost predicate MetaKept(w: World, v: World) {
    && Last(v.log).finalizer == Last(w.log).finalizer
    && (Last(w.log).deleting ==> Last(v.log).deleting)
  }

  lemma InterruptKeepsMeta(w: World, r: Request, i: Interrupt)
    ensures MetaKept(w, Interrupted1(w, r, i))
  {
    hide Noted, TooSoon, Healthy;
  }

  lemma {:induction false} InterruptsKeepMeta(w: World, r: Request, interrupts: seq<Interrupt>)
    ensures MetaKept(w, Interrupted(w, r, interrupts))
  {
    hide Interrupted1;
    if interrupts != [] {
      var init := interrupts[..|interrupts| - 1];
      InterruptsKeepMeta(w, r, init);
      InterruptKeepsMeta(Interrupted(w, r, init), r, interrupts[|interrupts| - 1]);
    }
  }

  lemma StoresKeepMeta()
    ensures forall s: Session, r, a :: MetaKept(s.api, StoreStatus(s, r, a).0.api)
  {
    forall s: Session, r, a: WriteAnswer {
      InterruptsKeepMeta(s.api, r, a.interrupts);
    }
  }

  lemma ChecksKeepMeta(s: Session, r: Request, isPrimary: bool, a: InstanceAnswer)
    ensures MetaKept(s.api, CheckInstance(s, r, isPrimary, a).s.api)
  {
    hide StoreStatus, Noted;
    StoresKeepMeta();
  }

  lemma HealthKeepsMeta(s: Session, r: Request, a: HealthAnswer)
    ensures MetaKept(s.api, CheckHealth(s, r, a).0.api)
  {
    hide StoreStatus, CheckInstance, FailoverAllowed, Observe, CountCheck;
    StoresKeepMeta();
    ChecksKeepMeta(s, r, true, a.complete.primary);
    ChecksKeepMeta(CheckInstance(s, r, true, a.complete.primary).s, r, false, a.complete.secondary);
  }

  lemma FailoverKeepsMeta(s: Session, r: Request, a: FailoverAnswer)
    ensures MetaKept(s.api, HandleFailover(s, r, a).0.api)
  {
    hide StoreStatus, CheckInstance, Redirect, AfterFailover, ResetBoth;
    StoresKeepMeta();
    ChecksKeepMeta(s, r, false, a.instance);
  }

  lemma DispatchKeepsMeta(s: Session, r: Request, a: PassAnswer)
    ensures MetaKept(s.api, Dispatch(s, r, a).0.api)
  {
    hide StoreStatus, CheckHealth, HandleFailover;
    StoresKeepMeta();
    HealthKeepsMeta(s, r, a.health);
    FailoverKeepsMeta(s, r, a.failover);
  }

  lemma PipelineKeepsMeta(s: Session, r: Request, a: PassAnswer)
    ensures MetaKept(s.api, Pipeline(s, r, a).0.api)
  {
    hide StoreStatus, Dispatch, SyncStatefulSets, SyncServices, IsReady;
    StoresKeepMeta();
    var s1 := ReconcileStatefulSets(s, r, a.sets).0;
    DispatchKeepsMeta(ReconcileReplication(ReconcileServices(s1, r, a.services).0, r, a.setup).0, r, a);
  }

  /** Only the two writes of the finalizer change it, and the way a pass ends tells which. */
  lemma PassMeta(s: Session, r: Request, a: PassAnswer)
    ensures var (t, end) := PassOn(s, r, a);
      && Last(t.api.log).finalizer
           == (if end == FinalizerAdded then true else if end == TornDown then false else Last(s.api.log).finalizer)
      && (Last(s.api.log).deleting ==> Last(t.api.log).deleting)
  {
    hide StoreStatus, Pipeline, DeleteFrom, Interrupted;
    StoresKeepMeta();
    InterruptsKeepMeta(s.api, r, a.finalizer.interrupts);
    var s1 := s.(api := s.api.(store := DeleteFrom(s.api.store, Targets(r.name), a.deletions).0));
    InterruptsKeepMeta(s1.api, r, a.finalizer.interrupts);
    PipelineKeepsMeta(s, r, a);
    PipelineEnds(s, r, a);
  }

  // ---------- the guard ----------

  /** While any object of the resource exists, the stored resource carries the finalizer. */
  ghost predicate Guarded(w: World, name: string) {
    !AllGone(w.store, name) ==> Last(w.log).finalizer
  }

  /** The pass works on a live copy of a resource whose finalizer has meanwhile come off. */
  predicate Fooled(w: World, a: PassAnswer) {
    && !Last(w.log).finalizer
    && a.get.Found? && ReadsLive(w, a.get.staleness)
    && Read(w, a.get.staleness).copy.status.phase != Unset
  }

  /** The first write of a pass to an empty store: the primary's configuration files. */
  predicate FilesWritten(a: PassAnswer) {
    a.sets.sets.primary.lookup && Answered(a.sets.sets.primary.config)
  }

  /** A pass leaves an object without the finalizer in two cases and no other: it takes the
      finalizer off although the lookup of an object that is there broke, or it works on a copy older than the finalizer's
      removal and its first write is accepted. */
  lemma GuardBreaksIff(w: World, r: Request, a: PassAnswer)
    requires WorldSound(w) && Guarded(w, r.name)
    ensures var v := Reconcile(w, r, a).0;
      !Guarded(v, r.name) <==>
        || (TearsDown(w, r, a) && !LookupsAnswered(w.store, r.name, a.deletions))
        || (Fooled(w, a) && FilesWritten(a))
  {
    hide PassOn, PassEffects, AllGone, LookupsAnswered, Reconcile, TearsDown;
    TearsDownIff(w, r, a);
    if a.get.Found? {
      PassReads(w, r, a);
      var s := Read(w, a.get.staleness);
      PassMeta(s, r, a);
      EndsTellCopy(s, r, a);
      PassEndsWithStore(w, r, a, a.get.staleness);
      if Reconcile(w, r, a).1 == TornDown {
        TornDownIffLookupsAnswered(w, r, a);
      } else {
        if !Last(w.log).finalizer { StoreWhileGone(s, r, a); }
      }
    } else {
      UnreadPass(w, r, a);
      NotTornDown(w, r, a);
    }
  }

  lemma PassReads(w: World, r: Request, a: PassAnswer)
    requires a.get.Found?
    ensures var (t, end) := PassOn(Read(w, a.get.staleness), r, a); Reconcile(w, r, a) == (t.api, end)
  {
  }

  lemma NotTornDown(w: World, r: Request, a: PassAnswer)
    requires !a.get.Found?
    ensures Reconcile(w, r, a).1 != TornDown
  {
  }

  lemma EndsTellCopy(s: Session, r: Request, a: PassAnswer)
    ensures var end := PassOn(s, r, a).1;
      && (end == TornDown ==> s.copy.finalizer && s.copy.deleting)
      && (end == FinalizerAdded ==> !s.copy.finalizer)
  {
    hide Pipeline, StoreStatus, PutFinalizer, DeleteFrom;
    PipelineEnds(s, r, a);
  }

  /** On an empty store the first stage stops at the primary, after writing its files if it can. */
  lemma EmptyStage(store: Store, name: string, spec: Spec, a: PassAnswer)
    requires AllGone(store, name)
    ensures var (after, out) := SyncStatefulSets(store, name, spec, a.sets.sets);
      && out != Proceed
      && (FilesWritten(a) ==> Exists(after, ConfigMapOf(ConfigName(name, true))))
      && (!FilesWritten(a) ==> after == store)
  {
    hide InstanceName, ConfigName, Files, NeedsUpdate, BuildStatefulSet;
    assert StatefulSetOf(InstanceName(name, true)) in Targets(name);
    assert ConfigMapOf(ConfigName(name, true)) in Targets(name);
    assert !Exists(store, StatefulSetOf(InstanceName(name, true)));
    assert !Exists(store, ConfigMapOf(ConfigName(name, true)));
  }

  /** Where nothing is left, only a pass on a live and started copy whose first write is accepted
      makes anything. */
  lemma StoreWhileGone(s: Session, r: Request, a: PassAnswer)
    requires AllGone(s.api.store, r.name)
    ensures AllGone(PassEffects(s, r, a).store, r.name)
      <==> !(s.copy.finalizer && !s.copy.deleting && s.copy.status.phase != Unset && FilesWritten(a))
  {
    hide SyncStatefulSets, Targets, DeleteFrom, Exists, DispatchEffects, SyncServices, FilesWritten, ReconcileServices;
    var name, store := r.name, s.api.store;
    if s.copy.finalizer && s.copy.deleting {
      TargetsDistinct(name);
      EightTargets(name);
      forall t | t in Targets(name) ensures !Exists(DeleteFrom(store, Targets(name), a.deletions).0, t) {
        WhatIsLeft(store, Targets(name), a.deletions, t);
      }
    } else if s.copy.finalizer && s.copy.status.phase != Unset {
      EmptyStage(store, name, r.spec, a);
      ConfigIsTarget(name);
    }
  }

  lemma ConfigIsTarget(name: string)
    ensures ConfigMapOf(ConfigName(name, true)) in Targets(name)
  {
  }

  // ---------- over runs ----------

  /** No pass of the run is fooled by an old copy, and none takes a broken lookup of an existing
      object for its absence while tearing down. */
  ghost predicate Unfooled(w: World, steps: seq<Step>) {
    steps == [] ||
    (var init, last := steps[..|steps| - 1], steps[|steps| - 1];
     var v := Run(w, init);
     && Unfooled(w, init)
     && (last.Pass? ==>
           && !Fooled(v, last.a)
           && (TearsDown(v, last.r, last.a) ==> LookupsAnswered(v.store, last.r.name, last.a.deletions))))
  }

  /** In every such run, at every moment, whatever fails and whoever comes in between: as long as
      any object of the resource exists, the stored resource carries the finalizer. */
  lemma {:induction false} ObjectsAreGuarded(w: World, name: string, steps: seq<Step>)
    requires WorldSound(w) && Guarded(w, name) && Unfooled(w, steps)
    requires forall i | 0 <= i < |steps| :: steps[i].r.name == name
    ensures Guarded(Run(w, steps), name) && WorldSound(Run(w, steps))
  {
    hide Reconcile, Interrupted1, AllGone, LookupsAnswered, Fooled, TouchesOnly, TearsDown;
    if steps != [] {
      var init, last := steps[..|steps| - 1], steps[|steps| - 1];
      ObjectsAreGuarded(w, name, init);
      var v := Run(w, init);
      StepTouchesOnly(v, last);
      match last {
        case Pass(r, a) => GuardBreaksIff(v, r, a);
        case Outside(r, i) =>
          InterruptKeepsMeta(v, r, i);
          InterruptIsLegal(RulesOf(r.spec), v, r, i);
      }
    }
  }

  /** A requested deletion is never taken back. */
  lemma {:induction false} DeletionIsFinal(w: World, steps: seq<Step>)
    requires Last(w.log).deleting
    ensures Last(Run(w, steps).log).deleting
  {
    hide PassOn, Interrupted1;
    if steps != [] {
      var init, last := steps[..|steps| - 1], steps[|steps| - 1];
      DeletionIsFinal(w, init);
      var v := Run(w, init);
      match last {
        case Pass(r, a) => if a.get.Found? { PassMeta(Read(v, a.get.staleness), r, a); }
        case Outside(r, i) => InterruptKeepsMeta(v, r, i);
      }
    }
  }

  /** Once deletion is requested, a run whose passes read the current version only removes:
      nothing comes back, however often it fails midway. */
  lemma DeletionIsOneWay(w: World, steps: seq<Step>, t: Target)
    requires WorldSound(w) && Last(w.log).deleting
    requires forall i | 0 <= i < |steps| && steps[i].Pass? && steps[i].a.get.Found? :: steps[i].a.get.staleness == 0
    ensures Exists(Run(w, steps).store, t) ==> Exists(w.store, t)
  {
    CurrentReadsSeeDeletion(w, steps);
    NothingComesBack(w, steps, t);
  }

  lemma {:induction false} CurrentReadsSeeDeletion(w: World, steps: seq<Step>)
    requires Last(w.log).deleting
    requires forall i | 0 <= i < |steps| && steps[i].Pass? && steps[i].a.get.Found? :: steps[i].a.get.staleness == 0
    ensures ReadsDeleting(w, steps)
  {
    hide Run;
    if steps != [] {
      var init, last := steps[..|steps| - 1], steps[|steps| - 1];
      CurrentReadsSeeDeletion(w, init);
      DeletionIsFinal(w, init);
    }
  }

  /** An uninterrupted pass that sees the deletion takes the finalizer off exactly if every object
      that it sees can be removed; if it sees all there are, nothing is left. */
  lemma DeletionIsCompletedIff(w: World, r: Request, a: PassAnswer)
    requires WorldSound(w) && a.get == Found(0) && Last(w.log).finalizer && Last(w.log).deleting
    requires Quiet(a.finalizer)
    ensures var (v, end) := Reconcile(w, r, a);
      && (end == TornDown <==>
            forall i | 0 <= i < 8 ::
              Exists(w.store, Targets(r.name)[i]) && a.deletions[i].lookup ==> a.deletions[i].removed)
      && (end == TornDown <==> !Last(v.log).finalizer)
      && (end == TornDown && LookupsAnswered(w.store, r.name, a.deletions) ==> AllGone(v.store, r.name))
  {
    hide Pipeline, AllGone, LookupsAnswered, Targets, DeleteFrom, Exists;
    EightTargets(r.name);
    TargetsDistinct(r.name);
    DoneIff(w.store, Targets(r.name), a.deletions);
    if Reconcile(w, r, a).1 == TornDown {
      TornDownIffLookupsAnswered(w, r, a);
    }
  }

  /** After a complete teardown, a pass that still reads a live copy brings an object back, and
      nothing guards it. */
  lemma StaleReadBringsBack(w: World, r: Request, a: PassAnswer)
    requires WorldSound(w) && AllGone(w.store, r.name) && !Last(w.log).finalizer
    requires Fooled(w, a) && FilesWritten(a)
    ensures var v := Reconcile(w, r, a).0;
      !AllGone(v.store, r.name) && !Last(v.log).finalizer
  {
    hide AllGone, Reconcile, Fooled, FilesWritten, TearsDown;
    GuardBreaksIff(w, r, a);
  }
}
