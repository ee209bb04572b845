/** The Kubernetes objects that the operator keeps for a resource: their names, the steps that
    bring them to the wanted state one write at a time, and their removal. */
module Objects {
  import opened Wrappers
  import Lines
  import opened ServerConfig
  import opened Resource

  datatype Container = Container(image: string, resources: Resources)

  /** The fields that `needsUpdate` compares; volumes are (name, config map) pairs. */
  datatype StatefulSet = StatefulSet(replicas: int, containers: seq<Container>, volumes: seq<(string, string)>)

  datatype Service = Service(selector: map<string, string>)

  datatype ConfigMap = ConfigMap(cnf: string, init: string)

  datatype Store = Store(
    statefulSets: map<string, StatefulSet>,
    services: map<string, Service>,
    configMaps: map<string, ConfigMap>)

  // ---------- names ----------

  function InstanceName(name: string, isPrimary: bool): string {
    name + if isPrimary then "-primary" else "-secondary"
  }

  function ConfigName(name: string, isPrimary: bool): string { InstanceName(name, isPrimary) + "-config" }

  function ClusterName(name: string): string { name + "-mariadb" }

  function ReadOnlyName(name: string): string { name + "-mariadb-ro" }

  function OwnedStatefulSets(name: string): set<string> { {InstanceName(name, true), InstanceName(name, false)} }

  function OwnedServices(name: string): set<string> {
    {InstanceName(name, true), InstanceName(name, false), ClusterName(name), ReadOnlyName(name)}
  }

  function OwnedConfigs(name: string): set<string> { {ConfigName(name, true), ConfigName(name, false)} }

  lemma DifferentTails(a: string, b: string, s: string, t: string, k: nat)
    requires k < |s| && k < |t| && s[|s| - 1 - k] != t[|t| - 1 - k]
    ensures a + s != b + t
  {
    assert (a + s)[|a + s| - 1 - k] == s[|s| - 1 - k];
    assert (b + t)[|b + t| - 1 - k] == t[|t| - 1 - k];
  }

  lemma SameTails(a: string, b: string, s: string)
    requires a + s == b + s
    ensures a == b
  {
    assert (a + s)[..|a|] == a && (b + s)[..|b|] == b;
  }

  /** The four suffixes of services; none is a suffix of another. */
  lemma SuffixesDiffer(a: string, b: string)
    ensures a + "-primary" != b + "-secondary"
    ensures a + "-primary" != b + "-mariadb" && a + "-secondary" != b + "-mariadb"
    ensures a + "-primary" != b + "-mariadb-ro" && a + "-secondary" != b + "-mariadb-ro"
    ensures a + "-mariadb" != b + "-mariadb-ro"
  {
    DifferentTails(a, b, "-primary", "-secondary", 3);
    DifferentTails(a, b, "-primary", "-mariadb", 0);
    DifferentTails(a, b, "-secondary", "-mariadb", 0);
    DifferentTails(a, b, "-primary", "-mariadb-ro", 0);
    DifferentTails(a, b, "-secondary", "-mariadb-ro", 0);
    DifferentTails(a, b, "-mariadb", "-mariadb-ro", 0);
  }

  lemma EqualNamesEqualOwners(a: string, b: string, isPrimary: bool)
    ensures InstanceName(a, isPrimary) == InstanceName(b, isPrimary) ==> a == b
    ensures ClusterName(a) == ClusterName(b) ==> a == b
    ensures ReadOnlyName(a) == ReadOnlyName(b) ==> a == b
  {
    var s := if isPrimary then "-primary" else "-secondary";
    if a + s == b + s { SameTails(a, b, s); }
    if a + "-mariadb" == b + "-mariadb" { SameTails(a, b, "-mariadb"); }
    if a + "-mariadb-ro" == b + "-mariadb-ro" { SameTails(a, b, "-mariadb-ro"); }
  }

  lemma EqualConfigNames(a: string, p: bool, b: string, q: bool)
    requires ConfigName(a, p) == ConfigName(b, q)
    ensures InstanceName(a, p) == InstanceName(b, q)
  {
    SameTails(InstanceName(a, p), InstanceName(b, q), "-config");
  }

  /** Distinct resources never share an object of the same kind. */
  lemma OwnersAreDisjoint(a: string, b: string)
    requires a != b
    ensures OwnedStatefulSets(a) !! OwnedStatefulSets(b)
    ensures OwnedServices(a) !! OwnedServices(b)
    ensures OwnedConfigs(a) !! OwnedConfigs(b)
  {
    EqualNamesEqualOwners(a, b, true);
    EqualNamesEqualOwners(a, b, false);
    SuffixesDiffer(a, b);
    SuffixesDiffer(b, a);
    forall p, q: bool | ConfigName(a, p) == ConfigName(b, q) ensures false {
      EqualConfigNames(a, p, b, q);
    }
  }

  /** The objects of one resource have different names within each kind. */
  lemma OwnNamesDiffer(name: string)
    ensures InstanceName(name, true) != InstanceName(name, false)
    ensures ConfigName(name, true) != ConfigName(name, false)
    ensures forall isPrimary :: InstanceName(name, isPrimary) != ClusterName(name)
    ensures forall isPrimary :: InstanceName(name, isPrimary) != ReadOnlyName(name)
    ensures ClusterName(name) != ReadOnlyName(name)
  {
    SuffixesDiffer(name, name);
    assert InstanceName(name, true) == name + "-primary" && InstanceName(name, false) == name + "-secondary";
    if ConfigName(name, true) == ConfigName(name, false) {
      EqualConfigNames(name, true, name, false);
    }
  }

  /** Nothing but objects owned by `name` differs. */
  ghost predicate TouchesOnly(name: string, before: Store, after: Store) {
    && before.statefulSets - OwnedStatefulSets(name) == after.statefulSets - OwnedStatefulSets(name)
    && before.services - OwnedServices(name) == after.services - OwnedServices(name)
    && before.configMaps - OwnedConfigs(name) == after.configMaps - OwnedConfigs(name)
  }

  /** The part of a store that belongs to `name`. */
  ghost function Belongings(store: Store, name: string): Store {
    Store(map k | k in store.statefulSets && k in OwnedStatefulSets(name) :: store.statefulSets[k],
          map k | k in store.services && k in OwnedServices(name) :: store.services[k],
          map k | k in store.configMaps && k in OwnedConfigs(name) :: store.configMaps[k])
  }

  /** A step on one resource changes nothing that belongs to another. */
  lemma OthersAreUntouched(name: string, other: string, before: Store, after: Store)
    requires name != other && TouchesOnly(name, before, after)
    ensures Belongings(after, other) == Belongings(before, other)
  {
    OwnersAreDisjoint(name, other);
    DisjointRestriction(before.statefulSets, after.statefulSets, OwnedStatefulSets(name), OwnedStatefulSets(other));
    DisjointRestriction(before.services, after.services, OwnedServices(name), OwnedServices(other));
    DisjointRestriction(before.configMaps, after.configMaps, OwnedConfigs(name), OwnedConfigs(other));
  }

  lemma DisjointRestriction<V>(m: map<string, V>, n: map<string, V>, a: set<string>, b: set<string>)
    requires m - a == n - a && a !! b
    ensures (map k | k in m && k in b :: m[k]) == (map k | k in n && k in b :: n[k])
  {
    forall k | k in b ensures (k in m <==> k in n) && (k in m ==> m[k] == n[k]) {
      assert k in m <==> k in m - a;
      assert k in n <==> k in n - a;
      if k in m {
        assert (m - a)[k] == m[k] && (n - a)[k] == n[k];
      }
    }
  }

  // ---------- one step of each kind ----------

  datatype Outcome = Proceed | Requeue | Failed

  /** The API server's answers about one object: whether the lookup is answered (found or not
      found) rather than broken, and whether the write that may follow is accepted. */
  datatype ObjectAnswer = ObjectAnswer(lookup: bool, write: bool)

  /** `kept` is what the server stores instead of the stateful set that it accepts, if anything; `order` is the
      iteration order of the parameter map in this pass. */
  datatype StatefulSetAnswer = StatefulSetAnswer(
    lookup: bool, config: ObjectAnswer, order: seq<string>, write: bool, kept: Option<StatefulSet>)

  predicate NeedsUpdate(current: StatefulSet, desired: StatefulSet) {
    || current.replicas != desired.replicas
    || (|current.containers| > 0 && |desired.containers| > 0
        && (current.containers[0].image != desired.containers[0].image
            || current.containers[0].resources != desired.containers[0].resources))
    || current.volumes != desired.volumes
  }

  function BuildStatefulSet(spec: Spec, isPrimary: bool, configMap: string): StatefulSet {
    var instance := spec.InstanceOf(isPrimary);
    StatefulSet(
      1,
      [Container(ContainerImage(spec.common, instance.config), instance.resources)],
      [("config", configMap), ("init-scripts", configMap)])
  }

  function InitScript(isPrimary: bool, user: string): string {
    "-- Script d'initialisation MariaDB\n"
    + if !isPrimary then "" else
        var u := if user != "" then user else "replicator";
        "-- Création de l'utilisateur de réplication\n"
        + "CREATE USER IF NOT EXISTS '" + u + "'@'%' IDENTIFIED BY '${MARIADB_REPLICATION_PASSWORD}';\n"
        + "GRANT REPLICATION SLAVE ON *.* TO '" + u + "'@'%';\n"
        + "FLUSH PRIVILEGES;\n"
  }

  /** The primary's script creates the declared replication user, else `replicator`, and grants it
      replication; the secondary's does nothing. */
  lemma InitScriptCreatesUser(user: string)
    ensures var u := if user != "" then user else "replicator";
      exists comment: string :: Lines.Lacks(';', comment) && InitScript(true, user) == comment
        + "CREATE USER IF NOT EXISTS '" + u + "'@'%' IDENTIFIED BY '${MARIADB_REPLICATION_PASSWORD}';\n"
        + "GRANT REPLICATION SLAVE ON *.* TO '" + u + "'@'%';\n" + "FLUSH PRIVILEGES;\n"
    ensures Lines.Lacks(';', InitScript(false, user))
  {
    hide Lines.Lacks;
    var u := if user != "" then user else "replicator";
    var head, note := "-- Script d'initialisation MariaDB\n", "-- Création de l'utilisateur de réplication\n";
    CommentsLack();
    assert InitScript(false, user) == head + "" == head;
    Prepended(head, note, "CREATE USER IF NOT EXISTS '", u, "'@'%' IDENTIFIED BY '${MARIADB_REPLICATION_PASSWORD}';\n",
      "GRANT REPLICATION SLAVE ON *.* TO '", "'@'%';\n", "FLUSH PRIVILEGES;\n");
  }

  lemma CommentsLack()
    ensures Lines.Lacks(';', "-- Script d'initialisation MariaDB\n")
    ensures Lines.Lacks(';', "-- Script d'initialisation MariaDB\n" + "-- Création de l'utilisateur de réplication\n")
  {
    assert Lines.Lacks(';', "-- Création de l'utilisateur de réplication\n");
  }

  lemma Prepended(h: string, n: string, a: string, u: string, b: string, c: string, d: string, e: string)
    ensures h + (n + a + u + b + c + u + d + e) == (h + n) + a + u + b + c + u + d + e
  {
  }

  /** The configuration files of an instance, given the iteration order of this pass. */
  function Files(spec: Spec, isPrimary: bool, order: seq<string>): ConfigMap {
    ConfigMap(
      Text(isPrimary, Merge(spec.common, spec.InstanceOf(isPrimary).config).parameters, order),
      InitScript(isPrimary, spec.replicationUser))
  }

  /** The config map is brought up to date within the pass, without a requeue. */
  function SyncConfigMap(store: Store, name: string, files: ConfigMap, a: ObjectAnswer): (Store, bool) {
    if !a.lookup then (store, false)
    else if name in store.configMaps && store.configMaps[name] == files then (store, true)
    else if a.write then (store.(configMaps := store.configMaps[name := files]), true)
    else (store, false)
  }

  function SyncStatefulSet(store: Store, name: string, spec: Spec, isPrimary: bool, a: StatefulSetAnswer): (Store, Outcome) {
    if !a.lookup then (store, Failed)
    else
      var key, config := InstanceName(name, isPrimary), ConfigName(name, isPrimary);
      var (s, ok) := SyncConfigMap(store, config, Files(spec, isPrimary, a.order), a.config);
      if !ok then (s, Failed)
      else
        var desired := BuildStatefulSet(spec, isPrimary, config);
        if key in s.statefulSets && !NeedsUpdate(s.statefulSets[key], desired) then (s, Proceed)
        else if a.write then (s.(statefulSets := s.statefulSets[key := a.kept.GetOr(desired)]), Requeue)
        else (s, Failed)
  }

  function RoleSelector(name: string, role: string): map<string, string> {
    map["app" := "mariadb", "mariadb.cpf-it.fr/cluster" := name, "mariadb.cpf-it.fr/role" := role]
  }

  function RoleOf(isPrimary: bool): string { if isPrimary then "primary" else "secondary" }

  /** A headless service is created when missing and never changed. */
  function SyncHeadless(store: Store, name: string, isPrimary: bool, a: ObjectAnswer): (Store, Outcome) {
    var key := InstanceName(name, isPrimary);
    if !a.lookup then (store, Failed)
    else if key in store.services then (store, Proceed)
    else if a.write then
      (store.(services := store.services[key := Service(RoleSelector(name, RoleOf(isPrimary)))]), Requeue)
    else (store, Failed)
  }

  /** A client service is created when missing, and its selector overwritten when it differs. */
  function SyncClient(store: Store, key: string, selector: map<string, string>, a: ObjectAnswer): (Store, Outcome) {
    if !a.lookup then (store, Failed)
    else if key in store.services && store.services[key].selector == selector then (store, Proceed)
    else if a.write then (store.(services := store.services[key := Service(selector)]), Requeue)
    else (store, Failed)
  }

  // ---------- the two stages of a pass ----------

  datatype SetAnswers = SetAnswers(primary: StatefulSetAnswer, secondary: StatefulSetAnswer)

  datatype ServiceAnswers = ServiceAnswers(
    headlessPrimary: ObjectAnswer, headlessSecondary: ObjectAnswer, cluster: ObjectAnswer, readOnly: ObjectAnswer)

  function SyncStatefulSets(store: Store, name: string, spec: Spec, a: SetAnswers): (Store, Outcome) {
    var (s, out) := SyncStatefulSet(store, name, spec, true, a.primary);
    if out != Proceed then (s, out) else SyncStatefulSet(s, name, spec, false, a.secondary)
  }

  function SyncServices(store: Store, name: string, a: ServiceAnswers): (Store, Outcome) {
    var (s1, out1) := SyncHeadless(store, name, true, a.headlessPrimary);
    if out1 != Proceed then (s1, out1) else
    var (s2, out2) := SyncHeadless(s1, name, false, a.headlessSecondary);
    if out2 != Proceed then (s2, out2) else
    var (s3, out3) := SyncClient(s2, ClusterName(name), RoleSelector(name, "primary"), a.cluster);
    if out3 != Proceed then (s3, out3) else
    SyncClient(s3, ReadOnlyName(name), RoleSelector(name, "secondary"), a.readOnly)
  }

  // ---------- convergence ----------

  function Debt(owed: bool): nat { if owed then 1 else 0 }

  function SetDebt(store: Store, name: string, spec: Spec, isPrimary: bool): nat {
    var key := InstanceName(name, isPrimary);
    Debt(key !in store.statefulSets
         || NeedsUpdate(store.statefulSets[key], BuildStatefulSet(spec, isPrimary, ConfigName(name, isPrimary))))
  }

  function ServiceDebt(store: Store, name: string): nat {
    Debt(InstanceName(name, true) !in store.services)
    + Debt(InstanceName(name, false) !in store.services)
    + Debt(ClusterName(name) !in store.services
           || store.services[ClusterName(name)].selector != RoleSelector(name, "primary"))
    + Debt(ReadOnlyName(name) !in store.services
           || store.services[ReadOnlyName(name)].selector != RoleSelector(name, "secondary"))
  }

  /** How many of the six objects are missing or not as wanted. */
  function Measure(store: Store, name: string, spec: Spec): (n: nat)
    ensures n <= 6
  {
    SetDebt(store, name, spec, true) + SetDebt(store, name, spec, false) + ServiceDebt(store, name)
  }

  /** The server keeps what is written, as far as `needsUpdate` can see. */
  predicate Keeps(name: string, spec: Spec, a: SetAnswers) {
    KeepsOne(name, spec, true, a.primary) && KeepsOne(name, spec, false, a.secondary)
  }

  predicate Answered(a: ObjectAnswer) { a.lookup && a.write }

  predicate SetsAnswered(a: SetAnswers) {
    && a.primary.lookup && a.primary.write && Answered(a.primary.config)
    && a.secondary.lookup && a.secondary.write && Answered(a.secondary.config)
  }

  predicate ServicesAnswered(a: ServiceAnswers) {
    Answered(a.headlessPrimary) && Answered(a.headlessSecondary) && Answered(a.cluster) && Answered(a.readOnly)
  }

  predicate KeepsOne(name: string, spec: Spec, isPrimary: bool, a: StatefulSetAnswer) {
    var desired := BuildStatefulSet(spec, isPrimary, ConfigName(name, isPrimary));
    !NeedsUpdate(a.kept.GetOr(desired), desired)
  }

  predicate Installed(store: Store, name: string, isPrimary: bool, files: ConfigMap) {
    ConfigName(name, isPrimary) in store.configMaps && store.configMaps[ConfigName(name, isPrimary)] == files
  }

  lemma SetStep(store: Store, name: string, spec: Spec, isPrimary: bool, a: StatefulSetAnswer)
    ensures var (after, out) := SyncStatefulSet(store, name, spec, isPrimary, a);
      && SetDebt(after, name, spec, isPrimary)
           == (if out == Requeue then Debt(!KeepsOne(name, spec, isPrimary, a)) else SetDebt(store, name, spec, isPrimary))
      && SetDebt(after, name, spec, !isPrimary) == SetDebt(store, name, spec, !isPrimary)
      && (out == Proceed ==> SetDebt(store, name, spec, isPrimary) == 0)
      && (out == Requeue ==> SetDebt(store, name, spec, isPrimary) == 1)
      && (out == Proceed ==> Installed(after, name, isPrimary, Files(spec, isPrimary, a.order)))
      && after.configMaps - {ConfigName(name, isPrimary)} == store.configMaps - {ConfigName(name, isPrimary)}
      && (a.lookup && a.write && Answered(a.config) ==> out != Failed)
      && after.services == store.services
      && TouchesOnly(name, store, after)
  {
    OwnNamesDiffer(name);
    hide InstanceName, ConfigName, BuildStatefulSet, Files, NeedsUpdate;
  }

  /** A requeue pays exactly one debt, anything else none; only a stage without debt proceeds. */
  lemma SetsStageMeasure(store: Store, name: string, spec: Spec, a: SetAnswers)
    ensures var (after, out) := SyncStatefulSets(store, name, spec, a);
      && (Keeps(name, spec, a) ==>
            Measure(after, name, spec) == Measure(store, name, spec) - Debt(out == Requeue))
      && (out == Proceed ==> SetDebt(store, name, spec, true) == SetDebt(store, name, spec, false) == 0)
      && (SetsAnswered(a) ==> out != Failed)
      && after.services == store.services
      && TouchesOnly(name, store, after)
  {
    SetStep(store, name, spec, true, a.primary);
    var (s, _) := SyncStatefulSet(store, name, spec, true, a.primary);
    SetStep(s, name, spec, false, a.secondary);
    hide SyncStatefulSet, SetDebt, NeedsUpdate, BuildStatefulSet, InstanceName, ConfigName, OwnedStatefulSets;
    hide OwnedServices, OwnedConfigs;
  }

  predicate ServiceOwed(store: Store, key: string, selector: Option<map<string, string>>) {
    key !in store.services || (selector.Some? && store.services[key].selector != selector.value)
  }

  /** One step on a service: it pays for its own key and leaves every other key alone. */
  ghost predicate PaysFor(before: Store, after: Store, out: Outcome, key: string, selector: Option<map<string, string>>, a: ObjectAnswer) {
    && Debt(ServiceOwed(after, key, selector)) == Debt(ServiceOwed(before, key, selector)) - Debt(out == Requeue)
    && (out == Proceed <==> a.lookup && !ServiceOwed(before, key, selector))
    && (Answered(a) ==> out != Failed)
    && before.services - {key} == after.services - {key}
    && after.statefulSets == before.statefulSets && after.configMaps == before.configMaps
  }

  lemma OtherDebtsStay(name: string, before: Store, after: Store, key: string)
    requires before.services - {key} == after.services - {key} && key in OwnedServices(name)
    ensures forall other, selector | other != key :: ServiceOwed(after, other, selector) == ServiceOwed(before, other, selector)
    ensures before.services - OwnedServices(name) == after.services - OwnedServices(name)
  {
    assert forall other | other in before.services && other != key :: other in before.services - {key};
    assert forall other | other in after.services && other != key :: other in after.services - {key};
    assert before.services - OwnedServices(name) == (before.services - {key}) - OwnedServices(name);
    assert after.services - OwnedServices(name) == (after.services - {key}) - OwnedServices(name);
  }

  lemma HeadlessPays(store: Store, name: string, isPrimary: bool, a: ObjectAnswer)
    ensures var (after, out) := SyncHeadless(store, name, isPrimary, a);
      PaysFor(store, after, out, InstanceName(name, isPrimary), None, a)
  {
  }

  lemma ClientPays(store: Store, key: string, selector: map<string, string>, a: ObjectAnswer)
    ensures var (after, out) := SyncClient(store, key, selector, a);
      PaysFor(store, after, out, key, Some(selector), a)
  {
  }

  lemma ServicesStageMeasure(store: Store, name: string, spec: Spec, a: ServiceAnswers)
    ensures var (after, out) := SyncServices(store, name, a);
      && Measure(after, name, spec) == Measure(store, name, spec) - Debt(out == Requeue)
      && (out == Proceed ==> ServiceDebt(store, name) == 0)
      && (ServicesAnswered(a) ==> out != Failed)
      && after.statefulSets == store.statefulSets && after.configMaps == store.configMaps
      && TouchesOnly(name, store, after)
  {
    hide SyncHeadless, SyncClient, ServiceOwed, ServiceDebt, RoleSelector, NeedsUpdate, BuildStatefulSet;
    hide InstanceName, ClusterName, ReadOnlyName, SetDebt, OwnedServices;
    var (s1, out1) := SyncHeadless(store, name, true, a.headlessPrimary);
    var (s2, out2) := SyncHeadless(s1, name, false, a.headlessSecondary);
    var (s3, out3) := SyncClient(s2, ClusterName(name), RoleSelector(name, "primary"), a.cluster);
    var (s4, out4) := SyncClient(s3, ReadOnlyName(name), RoleSelector(name, "secondary"), a.readOnly);
    HeadlessPays(store, name, true, a.headlessPrimary);
    HeadlessPays(s1, name, false, a.headlessSecondary);
    ClientPays(s2, ClusterName(name), RoleSelector(name, "primary"), a.cluster);
    ClientPays(s3, ReadOnlyName(name), RoleSelector(name, "secondary"), a.readOnly);
    ServiceNamesOwned(name);
    OwnNamesDiffer(name);
    OtherDebtsStay(name, store, s1, InstanceName(name, true));
    OtherDebtsStay(name, s1, s2, InstanceName(name, false));
    OtherDebtsStay(name, s2, s3, ClusterName(name));
    OtherDebtsStay(name, s3, s4, ReadOnlyName(name));
    DebtBySlots(store, name);
    DebtBySlots(s1, name);
    DebtBySlots(s2, name);
    DebtBySlots(s3, name);
    DebtBySlots(s4, name);
    SetDebtIgnoresServices(store, SyncServices(store, name, a).0, name, spec);
  }

  lemma ServiceNamesOwned(name: string)
    ensures {InstanceName(name, true), InstanceName(name, false), ClusterName(name), ReadOnlyName(name)} == OwnedServices(name)
  {
  }

  lemma SetDebtIgnoresServices(before: Store, after: Store, name: string, spec: Spec)
    requires before.statefulSets == after.statefulSets
    ensures forall isPrimary :: SetDebt(after, name, spec, isPrimary) == SetDebt(before, name, spec, isPrimary)
  {
  }

  lemma DebtBySlots(store: Store, name: string)
    ensures ServiceDebt(store, name)
         == Debt(ServiceOwed(store, InstanceName(name, true), None))
          + Debt(ServiceOwed(store, InstanceName(name, false), None))
          + Debt(ServiceOwed(store, ClusterName(name), Some(RoleSelector(name, "primary"))))
          + Debt(ServiceOwed(store, ReadOnlyName(name), Some(RoleSelector(name, "secondary"))))
  {
  }

  const NOTHING := Store(map[], map[], map[])

  /** The store after passes of the first stage with these answers. */
  function Rounds(store: Store, name: string, spec: Spec, answers: seq<SetAnswers>): Store {
    if answers == [] then store
    else
      var n := |answers| - 1;
      SyncStatefulSets(Rounds(store, name, spec, answers[..n]), name, spec, answers[n]).0
  }

  predicate Settled(store: Store, name: string, spec: Spec) {
    SetDebt(store, name, spec, true) == 0 && SetDebt(store, name, spec, false) == 0
  }

  /** What an answered pass of the first stage does to the two debts. */
  lemma SetsStageDebts(store: Store, name: string, spec: Spec, a: SetAnswers)
    requires SetsAnswered(a)
    ensures var after := SyncStatefulSets(store, name, spec, a).0;
      var p, q := SetDebt(store, name, spec, true), SetDebt(store, name, spec, false);
      && SetDebt(after, name, spec, true) == (if p == 1 then Debt(!KeepsOne(name, spec, true, a.primary)) else 0)
      && SetDebt(after, name, spec, false)
           == (if p == 1 then q else if q == 1 then Debt(!KeepsOne(name, spec, false, a.secondary)) else 0)
  {
    hide SyncStatefulSet, NeedsUpdate, BuildStatefulSet, InstanceName, ConfigName, Files, Installed, KeepsOne;
    hide TouchesOnly;
    SetStep(store, name, spec, true, a.primary);
    var (s, _) := SyncStatefulSet(store, name, spec, true, a.primary);
    SetStep(s, name, spec, false, a.secondary);
    hide SetDebt;
  }

  /** The primary's stateful set was in order, or the server has kept one that was written. */
  ghost predicate PrimaryKept(store: Store, name: string, spec: Spec, answers: seq<SetAnswers>) {
    SetDebt(store, name, spec, true) == 0
    || exists i | 0 <= i < |answers| :: KeepsOne(name, spec, true, answers[i].primary)
  }

  /** The same of the secondary, which is written only once the primary is in order. */
  ghost predicate SecondaryKept(store: Store, name: string, spec: Spec, answers: seq<SetAnswers>) {
    SetDebt(store, name, spec, false) == 0
    || exists j | 0 <= j < |answers| ::
         PrimaryKept(store, name, spec, answers[..j]) && KeepsOne(name, spec, false, answers[j].secondary)
  }

  lemma OneMorePrimary(store: Store, name: string, spec: Spec, init: seq<SetAnswers>, last: SetAnswers)
    ensures PrimaryKept(store, name, spec, init + [last])
      <==> PrimaryKept(store, name, spec, init) || KeepsOne(name, spec, true, last.primary)
  {
    hide KeepsOne, SetDebt;
    var all := init + [last];
    assert all[|init|] == last;
    assert forall i | 0 <= i < |init| :: all[i] == init[i];
  }

  lemma OneMoreSecondary(store: Store, name: string, spec: Spec, init: seq<SetAnswers>, last: SetAnswers)
    ensures SecondaryKept(store, name, spec, init + [last])
      <==> SecondaryKept(store, name, spec, init)
           || (PrimaryKept(store, name, spec, init) && KeepsOne(name, spec, false, last.secondary))
  {
    hide KeepsOne, SetDebt, PrimaryKept;
    var all := init + [last];
    assert all[|init|] == last && all[..|init|] == init;
    assert forall j | 0 <= j < |init| :: all[j] == init[j] && all[..j] == init[..j];
  }

  lemma {:induction false} RoundsDebt(store: Store, name: string, spec: Spec, answers: seq<SetAnswers>)
    requires forall a | a in answers :: SetsAnswered(a)
    ensures var after := Rounds(store, name, spec, answers);
      && SetDebt(after, name, spec, true) == Debt(!PrimaryKept(store, name, spec, answers))
      && SetDebt(after, name, spec, false) == Debt(!SecondaryKept(store, name, spec, answers))
  {
    hide SyncStatefulSets, KeepsOne, SetsAnswered, NeedsUpdate, BuildStatefulSet, InstanceName, ConfigName;
    if answers != [] {
      var init, last := answers[..|answers| - 1], answers[|answers| - 1];
      assert answers == init + [last];
      RoundsDebt(store, name, spec, init);
      SetsStageDebts(Rounds(store, name, spec, init), name, spec, last);
      OneMorePrimary(store, name, spec, init, last);
      OneMoreSecondary(store, name, spec, init, last);
      hide PrimaryKept, SecondaryKept, SetDebt;
    }
  }

  /** From any store, and whatever the server answers from pass to pass: the stateful sets settle,
      and the next stage is reached, exactly if each one that was owed has once been stored as
      written in every field that `needsUpdate` compares, the secondary's after the primary was in
      order. A server that always fills in such a field keeps the operator writing for ever. */
  lemma SettlesIffServerKeeps(store: Store, name: string, spec: Spec, answers: seq<SetAnswers>, next: SetAnswers)
    requires (forall a | a in answers :: SetsAnswered(a)) && SetsAnswered(next)
    ensures var after := Rounds(store, name, spec, answers);
      && (Settled(after, name, spec) <==>
            PrimaryKept(store, name, spec, answers) && SecondaryKept(store, name, spec, answers))
      && (SyncStatefulSets(after, name, spec, next).1 == Proceed <==> Settled(after, name, spec))
  {
    hide Rounds, KeepsOne, SetsAnswered, PrimaryKept, SecondaryKept, SyncStatefulSets, TouchesOnly, Keeps;
    RoundsDebt(store, name, spec, answers);
    AnsweredProceedsIff(Rounds(store, name, spec, answers), name, spec, next);
    hide SetDebt;
  }

  /** The answers about one stateful set's lookup and files let the stage go on. */
  predicate FilesPass(store: Store, name: string, spec: Spec, isPrimary: bool, a: StatefulSetAnswer) {
    a.lookup && a.config.lookup && (a.config.write || Installed(store, name, isPrimary, Files(spec, isPrimary, a.order)))
  }

  lemma SetStepProceedsIff(store: Store, name: string, spec: Spec, isPrimary: bool, a: StatefulSetAnswer)
    ensures SyncStatefulSet(store, name, spec, isPrimary, a).1 == Proceed
      <==> SetDebt(store, name, spec, isPrimary) == 0 && FilesPass(store, name, spec, isPrimary, a)
  {
    hide InstanceName, ConfigName, BuildStatefulSet, Files, NeedsUpdate;
  }

  /** The stage proceeds exactly if both stateful sets are in order and the answers let it. */
  lemma SetsProceedIff(store: Store, name: string, spec: Spec, a: SetAnswers)
    ensures SyncStatefulSets(store, name, spec, a).1 == Proceed
      <==> Settled(store, name, spec) && FilesPass(store, name, spec, true, a.primary)
           && FilesPass(store, name, spec, false, a.secondary)
  {
    hide SyncStatefulSet, SetDebt, KeepsOne, TouchesOnly, InstanceName, ConfigName, Files;
    var (s, _) := SyncStatefulSet(store, name, spec, true, a.primary);
    SetStep(store, name, spec, true, a.primary);
    SetStepProceedsIff(store, name, spec, true, a.primary);
    SetStepProceedsIff(s, name, spec, false, a.secondary);
    OwnNamesDiffer(name);
    var key, other := ConfigName(name, false), ConfigName(name, true);
    if key in store.configMaps { KeptElsewhere(store.configMaps, s.configMaps, other, key); }
    if key in s.configMaps { KeptElsewhere(s.configMaps, store.configMaps, other, key); }
  }

  // ---------- what is declared ----------

  /** The stateful set that an instance's declaration asks for: the instance's image before the
      common one before the default, its own resources, and both volumes from its own files. */
  function Declared(name: string, spec: Spec, isPrimary: bool): StatefulSet {
    var key, instance := name + (if isPrimary then "-primary" else "-secondary"), if isPrimary then spec.primary else spec.secondary;
    var image :=
      if instance.config.image != "" then instance.config.image
      else if spec.common.image != "" then spec.common.image
      else "mariadb:10.5";
    StatefulSet(1, [Container(image, instance.resources)], [("config", key + "-config"), ("init-scripts", key + "-config")])
  }

  /** A stored stateful set is as declared: replicas and volumes, and its first container, if any. */
  predicate AsDeclared(store: Store, name: string, spec: Spec, isPrimary: bool) {
    var key, declared := name + (if isPrimary then "-primary" else "-secondary"), Declared(name, spec, isPrimary);
    && key in store.statefulSets
    && store.statefulSets[key].replicas == declared.replicas
    && store.statefulSets[key].volumes == declared.volumes
    && (store.statefulSets[key].containers != [] ==> store.statefulSets[key].containers[0] == declared.containers[0])
  }

  /** A stateful set is written exactly if it is not as declared and the answers let it; what is
      written is what is declared. */
  lemma StatefulSetIsWrittenIff(store: Store, name: string, spec: Spec, isPrimary: bool, a: StatefulSetAnswer)
    ensures var (after, out) := SyncStatefulSet(store, name, spec, isPrimary, a);
      var key := name + if isPrimary then "-primary" else "-secondary";
      && (out == Requeue <==> !AsDeclared(store, name, spec, isPrimary) && FilesPass(store, name, spec, isPrimary, a) && a.write)
      && (out == Proceed <==> AsDeclared(store, name, spec, isPrimary) && FilesPass(store, name, spec, isPrimary, a))
      && after.statefulSets
           == if out == Requeue then store.statefulSets[key := a.kept.GetOr(Declared(name, spec, isPrimary))]
              else store.statefulSets
  {
    hide Files;
  }

  /** The stage proceeds exactly if both stateful sets are as declared and the answers about their
      lookups and files let it. */
  lemma StageProceedsIffDeclared(store: Store, name: string, spec: Spec, a: SetAnswers)
    ensures SyncStatefulSets(store, name, spec, a).1 == Proceed <==>
      && AsDeclared(store, name, spec, true) && FilesPass(store, name, spec, true, a.primary)
      && AsDeclared(store, name, spec, false) && FilesPass(store, name, spec, false, a.secondary)
  {
    hide SyncStatefulSets, FilesPass, SetDebt, AsDeclared;
    SetsProceedIff(store, name, spec, a);
    SettledIffDeclared(store, name, spec, true);
    SettledIffDeclared(store, name, spec, false);
  }

  lemma SettledIffDeclared(store: Store, name: string, spec: Spec, isPrimary: bool)
    ensures SetDebt(store, name, spec, isPrimary) == 0 <==> AsDeclared(store, name, spec, isPrimary)
  {
  }

  /** The specification with another image for one instance. */
  function WithImage(spec: Spec, isPrimary: bool, image: string): Spec {
    if isPrimary then spec.(primary := spec.primary.(config := spec.primary.config.(image := image)))
    else spec.(secondary := spec.secondary.(config := spec.secondary.config.(image := image)))
  }

  /** Where everything is as declared, a change of one instance's declared image alone makes the
      next answered pass write that instance's stateful set with the new image, and requeue. */
  lemma ImageChangeIsRolledOut(store: Store, name: string, spec: Spec, isPrimary: bool, image: string, a: SetAnswers)
    requires AsDeclared(store, name, spec, true) && AsDeclared(store, name, spec, false) && SetsAnswered(a)
    requires var key := name + if isPrimary then "-primary" else "-secondary";
      store.statefulSets[key].containers != [] && image != "" && store.statefulSets[key].containers[0].image != image
    ensures var (after, out) := SyncStatefulSets(store, name, WithImage(spec, isPrimary, image), a);
      var key := name + if isPrimary then "-primary" else "-secondary";
      var old0, kept := Declared(name, spec, isPrimary), if isPrimary then a.primary.kept else a.secondary.kept;
      && out == Requeue
      && after.statefulSets == store.statefulSets[key :=
           kept.GetOr(old0.(containers := [Container(image, old0.containers[0].resources)]))]
  {
    hide SyncStatefulSet, FilesPass, Installed;
    var changed := WithImage(spec, isPrimary, image);
    assert !AsDeclared(store, name, changed, isPrimary);
    assert AsDeclared(store, name, changed, !isPrimary);
    hide AsDeclared;
    var (s, _) := SyncStatefulSet(store, name, changed, true, a.primary);
    StatefulSetIsWrittenIff(store, name, changed, true, a.primary);
    AnsweredFilesPass(store, name, changed, a);
    if !isPrimary {
      AnsweredFilesPass(s, name, changed, a);
      SameSetsAsDeclared(store, s, name, changed);
      StatefulSetIsWrittenIff(s, name, changed, false, a.secondary);
    }
  }

  lemma AnsweredFilesPass(store: Store, name: string, spec: Spec, a: SetAnswers)
    requires SetsAnswered(a)
    ensures FilesPass(store, name, spec, true, a.primary) && FilesPass(store, name, spec, false, a.secondary)
  {
  }

  lemma SameSetsAsDeclared(before: Store, after: Store, name: string, spec: Spec)
    requires before.statefulSets == after.statefulSets
    ensures forall isPrimary :: AsDeclared(before, name, spec, isPrimary) == AsDeclared(after, name, spec, isPrimary)
  {
  }

  lemma AnsweredProceedsIff(store: Store, name: string, spec: Spec, a: SetAnswers)
    requires SetsAnswered(a)
    ensures SyncStatefulSets(store, name, spec, a).1 == Proceed <==> Settled(store, name, spec)
  {
    hide SyncStatefulSets, Settled, Installed;
    SetsProceedIff(store, name, spec, a);
  }

  /** A stage that proceeds has installed, for each instance, a file that means: defaults of the
      role, overridden by the common parameters, overridden by the instance's own. It does so
      exactly if the merged parameters can be written. */
  lemma InstalledConfiguration(store: Store, name: string, spec: Spec, a: SetAnswers, isPrimary: bool)
    requires SyncStatefulSets(store, name, spec, a).1 == Proceed
    requires Enumerates(if isPrimary then a.primary.order else a.secondary.order,
                        Merge(spec.common, spec.InstanceOf(isPrimary).config).parameters)
    ensures var after, key := SyncStatefulSets(store, name, spec, a).0, name + (if isPrimary then "-primary" else "-secondary") + "-config";
      && key in after.configMaps
      && after.configMaps[key].init == InitScript(isPrimary, spec.replicationUser)
      && (ReadText(after.configMaps[key].cnf)
            == Defaults(isPrimary) + Normalised(Trim, spec.common.parameters)
               + Normalised(Trim, spec.InstanceOf(isPrimary).config.parameters)
          <==> ParametersOk(Merge(spec.common, spec.InstanceOf(isPrimary).config).parameters))
  {
    var order := if isPrimary then a.primary.order else a.secondary.order;
    CompilationPreservesMeaning(isPrimary, spec.common, spec.InstanceOf(isPrimary).config, order);
    FilesAreInstalled(store, name, spec, a, isPrimary);
    hide SyncStatefulSets, Text, ReadText, Merge, Normalised, Trim, Defaults, InitScript, ParametersOk;
  }

  lemma FilesAreInstalled(store: Store, name: string, spec: Spec, a: SetAnswers, isPrimary: bool)
    requires SyncStatefulSets(store, name, spec, a).1 == Proceed
    ensures Installed(SyncStatefulSets(store, name, spec, a).0, name, isPrimary,
                      Files(spec, isPrimary, if isPrimary then a.primary.order else a.secondary.order))
  {
    hide SyncStatefulSet, Files, SetDebt, KeepsOne, TouchesOnly, InstanceName, ConfigName;
    SetStep(store, name, spec, true, a.primary);
    var (s, _) := SyncStatefulSet(store, name, spec, true, a.primary);
    SetStep(s, name, spec, false, a.secondary);
    OwnNamesDiffer(name);
    if isPrimary {
      KeptElsewhere(s.configMaps, SyncStatefulSets(store, name, spec, a).0.configMaps, ConfigName(name, false), ConfigName(name, true));
    }
  }

  /** With the specification unchanged, an answered pass writes the files again exactly if the map
      is iterated in another order than when they were written. */
  lemma FilesRewrittenIff(
    store: Store, name: string, spec: Spec, isPrimary: bool, stored: seq<string>, order: seq<string>, a: ObjectAnswer)
    requires var params := Merge(spec.common, spec.InstanceOf(isPrimary).config).parameters;
      ParametersOk(params) && Enumerates(stored, params) && Enumerates(order, params)
    requires Installed(store, name, isPrimary, Files(spec, isPrimary, stored))
    ensures var (after, ok) := SyncConfigMap(store, ConfigName(name, isPrimary), Files(spec, isPrimary, order), a);
      && (after != store <==> Answered(a) && order != stored)
      && (ok <==> a.lookup && (order == stored || a.write))
      && Installed(after, name, isPrimary, Files(spec, isPrimary, if after != store then order else stored))
  {
    hide Text, ConfigName, InitScript, Merge, ParametersOk, Enumerates;
    TextsAgreeIff(isPrimary, Merge(spec.common, spec.InstanceOf(isPrimary).config).parameters, order, stored);
    var key, files := ConfigName(name, isPrimary), Files(spec, isPrimary, order);
    assert store.(configMaps := store.configMaps[key := files]).configMaps[key] == files;
  }

  lemma KeptElsewhere<V>(m: map<string, V>, n: map<string, V>, changed: string, key: string)
    requires m - {changed} == n - {changed} && key != changed && key in m
    ensures key in n && n[key] == m[key]
  {
    assert key in m - {changed} && (m - {changed})[key] == m[key];
    assert key in n - {changed} && (n - {changed})[key] == n[key];
  }
}
