/** Where client traffic goes: service selectors against pod labels. */
module Routing {
  import opened Wrappers
  import opened Objects

  const ROLE := "mariadb.cpf-it.fr/role"

  type Labels = map<string, string>

  /** Kubernetes service selection; a service without selector selects nothing. */
  predicate Selects(selector: map<string, string>, labels: Labels) {
    selector != map[] && forall k | k in selector :: k in labels && labels[k] == selector[k]
  }

  /** `pod` is what the lookup of the promoted pod finds: its labels, or nothing. */
  datatype RedirectAnswer = RedirectAnswer(lookup: bool, pod: Option<Labels>, write: bool)

  /** The redirect after a promotion: the client service takes the promoted pod's labels. */
  function Redirect(store: Store, name: string, a: RedirectAnswer): (Store, bool) {
    var key := ClusterName(name);
    if !a.lookup then (store, false)
    else if key !in store.services then (store, true)
    else if a.pod.None? || !a.write then (store, false)
    else (store.(services := store.services[key := Service(a.pod.value)]), true)
  }

  ghost predicate HasRole(labels: Labels, role: string) { ROLE in labels && labels[ROLE] == role }

  /** What a redirect leaves in the store, and whether it reports success: the client service takes
      the pod's labels exactly if it is found, the pod is found and the write is accepted; a missing
      service is no failure, everything else is, and then nothing has changed. */
  lemma RedirectIff(store: Store, name: string, a: RedirectAnswer)
    ensures var (after, ok) := Redirect(store, name, a);
      var key := name + "-mariadb";
      && (ok <==> a.lookup && (key !in store.services || (a.pod.Some? && a.write)))
      && (if a.lookup && key in store.services && a.pod.Some? && a.write then
            after.services == store.services[key := Service(a.pod.value)]
            && after.statefulSets == store.statefulSets && after.configMaps == store.configMaps
          else after == store)
  {
  }

  /** A redirect that is written sends clients to the promoted pod, and to no pod of role primary. */
  lemma RedirectReachesPromotedPod(store: Store, name: string, a: RedirectAnswer, other: Labels)
    requires ClusterName(name) in store.services && a.lookup && a.write && a.pod.Some?
    requires HasRole(a.pod.value, "secondary")
    ensures var selector := Redirect(store, name, a).0.services[ClusterName(name)].selector;
      && Selects(selector, a.pod.value)
      && (HasRole(other, "primary") ==> !Selects(selector, other))
  {
  }

  lemma RedirectTouchesOnly(store: Store, name: string, spec: Resource.Spec, a: RedirectAnswer)
    ensures TouchesOnly(name, store, Redirect(store, name, a).0)
    ensures Measure(store, name, spec) <= Measure(Redirect(store, name, a).0, name, spec) + 1
    ensures Measure(Redirect(store, name, a).0, name, spec) <= Measure(store, name, spec) + 1
  {
  }

  /** The labels that pods of one role of one cluster carry. */
  predicate Marked(pod: Labels, name: string, role: string) {
    && "app" in pod && pod["app"] == "mariadb"
    && "mariadb.cpf-it.fr/cluster" in pod && pod["mariadb.cpf-it.fr/cluster"] == name
    && "mariadb.cpf-it.fr/role" in pod && pod["mariadb.cpf-it.fr/role"] == role
  }

  lemma RoleSelectorSelects(name: string, role: string, pod: Labels)
    ensures Selects(RoleSelector(name, role), pod) <==> Marked(pod, name, role)
  {
    var selector := RoleSelector(name, role);
    var app, cluster, r := "app", "mariadb.cpf-it.fr/cluster", "mariadb.cpf-it.fr/role";
    assert |app| != |cluster| && |app| != |r| && cluster[18] != r[18];
    assert selector.Keys == {app, cluster, r};
    assert selector[app] == "mariadb" && selector[cluster] == name && selector[r] == role;
  }

  /** A service stage that proceeds leaves clients on disjoint sets of pods, those of this cluster:
      writers exactly on its role primary, readers exactly on its role secondary. */
  lemma SettledServicesSplitPods(store: Store, name: string, a: ServiceAnswers, pod: Labels)
    requires SyncServices(store, name, a).1 == Proceed
    ensures name + "-mariadb" in store.services && name + "-mariadb-ro" in store.services
    ensures var rw, ro := store.services[name + "-mariadb"].selector, store.services[name + "-mariadb-ro"].selector;
      && (Selects(rw, pod) <==> Marked(pod, name, "primary"))
      && (Selects(ro, pod) <==> Marked(pod, name, "secondary"))
      && !(Selects(rw, pod) && Selects(ro, pod))
  {
    RoleSelectorSelects(name, "primary", pod);
    RoleSelectorSelects(name, "secondary", pod);
    assert "primary"[0] != "secondary"[0];
    SettledSelectors(store, name, a);
    hide SyncServices, RoleSelector, Selects;
  }

  lemma SettledSelectors(store: Store, name: string, a: ServiceAnswers)
    requires SyncServices(store, name, a).1 == Proceed
    ensures ClusterName(name) in store.services && ReadOnlyName(name) in store.services
    ensures store.services[ClusterName(name)].selector == RoleSelector(name, "primary")
    ensures store.services[ReadOnlyName(name)].selector == RoleSelector(name, "secondary")
  {
    hide RoleSelector;
  }

  /** Where the services of two resources have settled, no pod gets client traffic of both. */
  lemma ClustersDoNotShareClients(
    store: Store, name: string, a: ServiceAnswers, other: string, b: ServiceAnswers, pod: Labels)
    requires name != other
    requires SyncServices(store, name, a).1 == Proceed && SyncServices(store, other, b).1 == Proceed
    ensures forall key, key0 | key in {name + "-mariadb", name + "-mariadb-ro"} && key0 in {other + "-mariadb", other + "-mariadb-ro"} ::
      && key in store.services && key0 in store.services
      && !(Selects(store.services[key].selector, pod) && Selects(store.services[key0].selector, pod))
  {
    SettledServicesSplitPods(store, name, a, pod);
    SettledServicesSplitPods(store, other, b, pod);
    hide SyncServices, Selects;
  }

  /** A headless service is created exactly if it is missing and the answers let it, for the pods of
      its instance; one that is there is never changed. */
  lemma HeadlessServiceIff(store: Store, name: string, isPrimary: bool, a: ObjectAnswer, pod: Labels)
    ensures var (after, out) := SyncHeadless(store, name, isPrimary, a);
      var key := name + if isPrimary then "-primary" else "-secondary";
      if key !in store.services && a.lookup && a.write then
        && out == Requeue && key in after.services && after.services - {key} == store.services - {key}
        && (Selects(after.services[key].selector, pod) <==> Marked(pod, name, if isPrimary then "primary" else "secondary"))
      else
        after == store && (out == Proceed <==> a.lookup && key in store.services)
  {
    RoleSelectorSelects(name, RoleOf(isPrimary), pod);
    hide RoleSelector, Selects;
  }

  /** The client service is there and does not have the selector that the service stage wants. */
  predicate Redirected(store: Store, name: string) {
    ClusterName(name) in store.services
    && store.services[ClusterName(name)].selector != RoleSelector(name, "primary")
  }

  /** The service stage gets to the client service and may write it. */
  predicate StageUndoes(store: Store, name: string, a: ServiceAnswers) {
    && InstanceName(name, true) in store.services && a.headlessPrimary.lookup
    && InstanceName(name, false) in store.services && a.headlessSecondary.lookup
    && Answered(a.cluster)
  }

  /** A service stage that finds the redirect never proceeds. It puts the selector back, and does
      nothing else, exactly if both headless services are seen and the client service is answered;
      otherwise it leaves the client service as it is. */
  lemma RedirectIsUndoneIff(store: Store, name: string, a: ServiceAnswers)
    requires Redirected(store, name)
    ensures var (after, out) := SyncServices(store, name, a);
      var key := ClusterName(name);
      && out != Proceed
      && (if StageUndoes(store, name, a) then
            out == Requeue && after == store.(services := store.services[key := Service(RoleSelector(name, "primary"))])
          else key in after.services && after.services[key] == store.services[key])
  {
    OwnNamesDiffer(name);
    hide InstanceName, ClusterName, ReadOnlyName;
  }
}
