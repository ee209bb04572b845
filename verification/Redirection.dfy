/** How long clients stay redirected to the promoted pod. */
module Redirection {
  import opened Wrappers
  import opened Throttle
  import opened Resource
  import opened Conditions
  import opened Objects
  import opened Cluster
  import opened Routing
  import opened Teardown
  import opened Passes
  import opened Safety
  import opened Runs
  import opened Lifecycle

  // ---------- what a pass does to a standing redirect ----------

  /** The pass gets to the service stage, and this puts the selector of the client service back. */
  predicate Undoes(w: World, r: Request, a: PassAnswer) {
    && a.get.Found? && ReadsLive(w, a.get.staleness)
    && var copy := Read(w, a.get.staleness).copy;
    && copy.status.phase != Unset
    && SetsStagePasses(w, r, copy, a.sets)
    && StageUndoes(w.store, r.name, a.services)
  }

  /** The pass deletes, gets past the client service, which is the fifth object, and sees it. */
  predicate Removes(w: World, r: Request, a: PassAnswer) {
    && a.get.Found?
    && var copy := Read(w, a.get.staleness).copy;
    && copy.finalizer && copy.deleting
    && |Targets(r.name)| == |a.deletions|
    && StopsAt(w.store, Targets(r.name), a.deletions) > 4 && a.deletions[4].lookup
  }

  lemma {:induction false} DeletionKeepsServices(store: Store, targets: seq<Target>, answers: seq<DeleteAnswer>)
    requires |targets| == |answers|
    ensures var after := DeleteFrom(store, targets, answers).0;
      forall k | k in after.services :: k in store.services && after.services[k] == store.services[k]
    decreases |targets|
  {
    if targets != [] {
      var (s, ok) := DeleteOne(store, targets[0], answers[0]);
      if ok { DeletionKeepsServices(s, targets[1..], answers[1..]); }
    }
  }

  lemma DeletionAndClientService(store: Store, name: string, answers: DeleteAnswers)
    requires ClusterName(name) in store.services
    ensures |Targets(name)| == 8
    ensures var after, key := DeleteFrom(store, Targets(name), answers).0, ClusterName(name);
      if StopsAt(store, Targets(name), answers) > 4 && answers[4].lookup then key !in after.services
      else key in after.services && after.services[key] == store.services[key]
  {
    TargetsDistinct(name);
    var t := ServiceOf(ClusterName(name));
    assert Targets(name)[4] == t;
    WhatIsLeft(store, Targets(name), answers, t);
    DeletionKeepsServices(store, Targets(name), answers);
    hide DeleteFrom, StopsAt, ClusterName, InstanceName, ReadOnlyName, ConfigName;
  }

  lemma PipelineAndRedirect(s: Session, r: Request, a: PassAnswer)
    requires Redirected(s.api.store, r.name)
    ensures var after, key := PipelineEffects(s, r, a).store, ClusterName(r.name);
      key in after.services && after.services[key]
        == if SetsStagePasses(s.api, r, s.copy, a.sets) && StageUndoes(s.api.store, r.name, a.services)
           then Service(RoleSelector(r.name, "primary")) else s.api.store.services[key]
  {
    hide SyncStatefulSets, SyncServices, DispatchEffects, TouchesOnly, Measure, StoreStatus, IsReady, Pipeline;
    hide SetsStagePasses, StageUndoes, RoleSelector, ClusterName, Keeps, SetDebt, ServiceDebt;
    var store1 := SyncStatefulSets(s.api.store, r.name, r.spec, a.sets.sets).0;
    SetsStageMeasure(s.api.store, r.name, r.spec, a.sets.sets);
    SetsStagePassesIff(s, r, a.sets);
    StoreKeepsStore(s.(api := s.api.(store := store1)), r, a.sets.write);
    SameServices(s.api.store, store1, r.name, a.services);
    RedirectIsUndoneIff(store1, r.name, a.services);
  }

  lemma SameServices(before: Store, after: Store, name: string, a: ServiceAnswers)
    requires before.services == after.services
    ensures Redirected(before, name) == Redirected(after, name) && StageUndoes(before, name, a) == StageUndoes(after, name, a)
  {
  }

  /** Exactly three things can happen to a redirect in a pass: it is undone, the client service is
      removed with the resource, or it stands. The answers tell which. */
  lemma PassAndRedirect(w: World, r: Request, a: PassAnswer)
    requires WorldSound(w) && Redirected(w.store, r.name)
    ensures var v, key := Reconcile(w, r, a).0, ClusterName(r.name);
      if Removes(w, r, a) then key !in v.store.services
      else key in v.store.services && v.store.services[key]
             == if Undoes(w, r, a) then Service(RoleSelector(r.name, "primary")) else w.store.services[key]
  {
    hide PipelineEffects, Reconcile, Targets, StopsAt, DeleteFrom, Redirected, SetsStagePasses, StageUndoes;
    hide ClusterName, RoleSelector;
    ClientIsThere(w.store, r.name);
    if a.get.Found? {
      var s := Read(w, a.get.staleness);
      PassEndsWithStore(w, r, a, a.get.staleness);
      DeletionAndClientService(w.store, r.name, a.deletions);
      PipelineAndRedirect(s, r, a);
    } else {
      UnreadPass(w, r, a);
    }
  }

  lemma ClientIsThere(store: Store, name: string)
    requires Redirected(store, name)
    ensures ClusterName(name) in store.services
  {
  }

  // ---------- over runs ----------

  predicate EndsRedirect(w: World, step: Step) {
    match step
    case Pass(r, a) => Undoes(w, r, a) || Removes(w, r, a)
    case Outside(_, _) => false
  }

  /** One step ends a standing redirect exactly if it is such a pass. */
  lemma StepAndRedirect(w: World, step: Step)
    requires WorldSound(w) && Redirected(w.store, step.r.name)
    ensures var v, key := Next(w, step), ClusterName(step.r.name);
      && WorldSound(v)
      && (EndsRedirect(w, step) <==> !(key in v.store.services && v.store.services[key] == w.store.services[key]))
  {
    hide Reconcile, Interrupted1, Undoes, Removes, TouchesOnly, Belongings;
    StepTouchesOnly(w, step);
    match step
    case Pass(r, a) => PassAndRedirect(w, r, a);
    case Outside(r, i) => InterruptIsLegal(RulesOf(r.spec), w, r, i);
  }

  /** A standing redirect stands, through whatever comes, until the first pass that undoes it or
      removes the service; and that one ends it. */
  lemma {:induction false} RedirectStandsUntil(w: World, name: string, steps: seq<Step>, n: nat)
    requires WorldSound(w) && Redirected(w.store, name) && n <= |steps|
    requires forall i | 0 <= i < |steps| :: steps[i].r.name == name
    requires forall i | 0 <= i < n :: !EndsRedirect(Run(w, steps[..i]), steps[i])
    ensures var v, key := Run(w, steps[..n]), ClusterName(name);
      && WorldSound(v) && key in v.store.services && v.store.services[key] == w.store.services[key]
      && (n < |steps| ==>
            var u := Next(v, steps[n]);
            WorldSound(u) && (EndsRedirect(v, steps[n]) <==> !(key in u.store.services && u.store.services[key] == w.store.services[key])))
  {
    hide EndsRedirect, Next, ClusterName, RoleSelector, Redirected;
    ClientIsThere(w.store, name);
    if n > 0 {
      RedirectStandsUntil(w, name, steps, n - 1);
      assert steps[..n][..n - 1] == steps[..n - 1] && steps[..n][n - 1] == steps[n - 1];
    }
    if n < |steps| {
      StandsStill(w.store, Run(w, steps[..n]).store, name);
      StepAndRedirect(Run(w, steps[..n]), steps[n]);
    }
  }

  /** A recorded failover whose redirect was written sends writers to the promoted pod and to no
      pod of role primary. This lasts, through any further steps, exactly until the first pass that
      gets to the service stage and may write there, which sends them back to role primary, the
      role of the failed instance, or until the resource's services are removed. */
  lemma RedirectLastsUntilUndone(w: World, r: Request, a: PassAnswer, steps: seq<Step>, n: nat)
    requires WorldSound(w) && Reconcile(w, r, a).1 == FailoverPass(Recorded)
    requires var redirect := a.failover.redirect;
      redirect.lookup && redirect.write && redirect.pod.Some? && HasRole(redirect.pod.value, "secondary")
    requires n < |steps| && forall i | 0 <= i < |steps| :: steps[i].r.name == r.name
    requires forall i | 0 <= i < n :: !EndsRedirect(Run(Reconcile(w, r, a).0, steps[..i]), steps[i])
    ensures var v, key := Run(Reconcile(w, r, a).0, steps[..n]), ClusterName(r.name);
      var u, labels := Next(v, steps[n]), a.failover.redirect.pod.value;
      && key in v.store.services && v.store.services[key].selector == labels
      && Selects(labels, labels) && (forall pod | HasRole(pod, "primary") :: !Selects(labels, pod))
      && (EndsRedirect(v, steps[n]) <==> !(key in u.store.services && u.store.services[key].selector == labels))
      && (EndsRedirect(v, steps[n]) && key in u.store.services ==>
            u.store.services[key].selector == RoleSelector(r.name, "primary")
            && !Selects(u.store.services[key].selector, labels))
  {
    hide Reconcile, Redirect, Selects, HasRole, ServiceDebt, Undoes, Removes, Run, Redirected;
    hide RoleSelector, ClusterName, InstanceName;
    var v0, labels := Reconcile(w, r, a).0, a.failover.redirect.pod.value;
    var store := RecordedPassStore(w, r, a);
    RedirectSends(store, r, a.failover.redirect);
    ReconcileWritesAreLegal(RulesOf(r.spec), w, r, a);
    RedirectStandsUntil(v0, r.name, steps, n);
    PrimarySelectorMisses(r, labels);
    var v := Run(v0, steps[..n]);
    match steps[n] {
      case Pass(r1, b) =>
        StandsStill(v0.store, v.store, r.name);
        PassAndRedirect(v, r1, b);
      case Outside(_, _) =>
    }
  }

  lemma StandsStill(before: Store, after: Store, name: string)
    requires Redirected(before, name) && ClusterName(name) in after.services
    requires after.services[ClusterName(name)] == before.services[ClusterName(name)]
    ensures Redirected(after, name)
  {
  }

  lemma RedirectSends(store: Store, r: Request, a: RedirectAnswer)
    requires ServiceDebt(store, r.name) == 0
    requires a.lookup && a.write && a.pod.Some? && HasRole(a.pod.value, "secondary")
    ensures var after, key, labels := Redirect(store, r.name, a).0, ClusterName(r.name), a.pod.value;
      && Redirected(after, r.name)
      && key in after.services && after.services[key].selector == labels
      && Selects(labels, labels) && (forall pod | HasRole(pod, "primary") :: !Selects(labels, pod))
  {
  }

  lemma PrimarySelectorMisses(r: Request, pod: Labels)
    requires HasRole(pod, "secondary")
    ensures !Selects(RoleSelector(r.name, "primary"), pod)
  {
  }

  /** What a recorded failover found before it redirected: all services in order. */
  lemma RecordedPassStore(w: World, r: Request, a: PassAnswer) returns (store: Store)
    requires WorldSound(w) && Reconcile(w, r, a).1 == FailoverPass(Recorded)
    ensures Reconcile(w, r, a).0.store == Redirect(store, r.name, a.failover.redirect).0
    ensures ServiceDebt(store, r.name) == 0
  {
    hide Pipeline, PipelineEffects, StoreStatus, PutFinalizer, Cluster.Await, Redirect, ServiceDebt;
    hide HandleDeletion;
    var s := Read(w, a.get.staleness);
    PassEndsWithStore(w, r, a, a.get.staleness);
    NoDeletionRecords(s, r, a);
    store := PipelineRecords(s, r, a);
  }

  lemma NoDeletionRecords(s: Session, r: Request, a: PassAnswer)
    ensures !HandleDeletion(s, r, a).1.FailoverPass?
  {
  }

  lemma PipelineRecords(s: Session, r: Request, a: PassAnswer) returns (store: Store)
    requires Pipeline(s, r, a).1 == FailoverPass(Recorded)
    ensures PipelineEffects(s, r, a).store == Redirect(store, r.name, a.failover.redirect).0
    ensures ServiceDebt(store, r.name) == 0
  {
    hide SyncStatefulSets, SyncServices, Dispatch, Redirect, TouchesOnly, StoreStatus, IsReady;
    hide ReconcileReplication, Keeps, SetDebt, ServiceDebt;
    var store1 := SyncStatefulSets(s.api.store, r.name, r.spec, a.sets.sets).0;
    store := SyncServices(store1, r.name, a.services).0;
    StoreKeepsStore(s.(api := s.api.(store := store1)), r, a.sets.write);
    ServicesStageMeasure(store1, r.name, r.spec, a.services);
    SetDebtIgnoresServices(store1, store, r.name, r.spec);
  }
}
