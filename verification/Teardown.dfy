/** Removal of everything the operator created, object by object. */
module Teardown {
  import opened Objects

  datatype Target = StatefulSetOf(key: string) | ServiceOf(key: string) | ConfigMapOf(key: string)

  /** In the order of the source. */
  function Targets(name: string): seq<Target> {
    [StatefulSetOf(InstanceName(name, true)), StatefulSetOf(InstanceName(name, false)),
     ServiceOf(InstanceName(name, true)), ServiceOf(InstanceName(name, false)),
     ServiceOf(ClusterName(name)), ServiceOf(ReadOnlyName(name)),
     ConfigMapOf(ConfigName(name, true)), ConfigMapOf(ConfigName(name, false))]
  }

  /** `lookup`: the lookup is answered, found or not found. `removed`: the deletion that may
      follow is accepted, or finds the object already gone. */
  datatype DeleteAnswer = DeleteAnswer(lookup: bool, removed: bool)

  predicate Exists(store: Store, t: Target) {
    match t
    case StatefulSetOf(k) => k in store.statefulSets
    case ServiceOf(k) => k in store.services
    case ConfigMapOf(k) => k in store.configMaps
  }

  function Remove(store: Store, t: Target): Store {
    match t
    case StatefulSetOf(k) => store.(statefulSets := store.statefulSets - {k})
    case ServiceOf(k) => store.(services := store.services - {k})
    case ConfigMapOf(k) => store.(configMaps := store.configMaps - {k})
  }

  /** A lookup that breaks is taken for an absent object; only a refused deletion stops the pass. */
  function DeleteOne(store: Store, t: Target, a: DeleteAnswer): (Store, bool) {
    if !a.lookup || !Exists(store, t) then (store, true)
    else if a.removed then (Remove(store, t), true)
    else (store, false)
  }

  function DeleteFrom(store: Store, targets: seq<Target>, answers: seq<DeleteAnswer>): (Store, bool)
    requires |targets| == |answers|
    decreases |targets|
  {
    if targets == [] then (store, true)
    else
      var (s, ok) := DeleteOne(store, targets[0], answers[0]);
      if ok then DeleteFrom(s, targets[1..], answers[1..]) else (s, false)
  }

  lemma DeleteStep(store: Store, targets: seq<Target>, answers: seq<DeleteAnswer>, i: nat)
    requires i < |targets| == |answers|
    ensures var (s, ok) := DeleteOne(store, targets[i], answers[i]);
      DeleteFrom(store, targets[i..], answers[i..])
      == if ok then DeleteFrom(s, targets[i + 1..], answers[i + 1..]) else (s, false)
  {
  }

  // ---------- what a deletion leaves ----------

  ghost predicate Distinct(targets: seq<Target>) {
    forall i, j | 0 <= i < j < |targets| :: targets[i] != targets[j]
  }

  lemma RemoveOnlyOne(store: Store, t: Target, u: Target)
    ensures Exists(Remove(store, t), u) <==> Exists(store, u) && u != t
  {
  }

  /** Where a deletion stops: at the first object that is seen and cannot be removed. */
  function StopsAt(store: Store, targets: seq<Target>, answers: seq<DeleteAnswer>): (n: nat)
    requires |targets| == |answers|
    ensures n <= |targets|
    ensures forall i | 0 <= i < n :: Exists(store, targets[i]) && answers[i].lookup ==> answers[i].removed
    ensures n < |targets| ==> Exists(store, targets[n]) && answers[n].lookup && !answers[n].removed
    decreases |targets|
  {
    if targets == [] || (Exists(store, targets[0]) && answers[0].lookup && !answers[0].removed) then 0
    else 1 + StopsAt(store, targets[1..], answers[1..])
  }

  lemma StopsAtSame(store: Store, after: Store, targets: seq<Target>, answers: seq<DeleteAnswer>)
    requires |targets| == |answers|
    requires forall t | t in targets :: Exists(store, t) <==> Exists(after, t)
    ensures StopsAt(store, targets, answers) == StopsAt(after, targets, answers)
  {
    var m, n := StopsAt(store, targets, answers), StopsAt(after, targets, answers);
    assert !(m < n) && !(n < m);
  }

  /** What becomes of each object, also of a deletion that stops midway: before the place where it
      stops, exactly those that are seen are gone; from there on, and elsewhere, all is as before. */
  lemma {:induction false} WhatIsLeft(store: Store, targets: seq<Target>, answers: seq<DeleteAnswer>, t: Target)
    requires |targets| == |answers| && Distinct(targets)
    ensures var (after, done) := DeleteFrom(store, targets, answers);
      var n := StopsAt(store, targets, answers);
      && (done <==> n == |targets|)
      && (t !in targets ==> (Exists(after, t) <==> Exists(store, t)))
      && (forall i | 0 <= i < |targets| && targets[i] == t ::
            Exists(after, t) <==> Exists(store, t) && !(i < n && answers[i].lookup))
      && (Exists(after, t) ==> Exists(store, t))
    decreases |targets|
  {
    hide Remove, Exists;
    if targets != [] {
      var (s, ok) := DeleteOne(store, targets[0], answers[0]);
      RemoveOnlyOne(store, targets[0], t);
      if ok {
        var rest := targets[1..];
        WhatIsLeft(s, rest, answers[1..], t);
        forall u | u in rest ensures Exists(store, u) <==> Exists(s, u) {
          RemoveOnlyOne(store, targets[0], u);
        }
        StopsAtSame(store, s, rest, answers[1..]);
        assert forall i | 1 <= i < |targets| :: targets[i] == rest[i - 1] && answers[i] == answers[1..][i - 1];
      }
    }
  }

  /** A deletion gets to its end exactly if each object that is seen to exist can be removed. */
  lemma DoneIff(store: Store, targets: seq<Target>, answers: seq<DeleteAnswer>)
    requires |targets| == |answers| && Distinct(targets)
    ensures DeleteFrom(store, targets, answers).1 <==>
      forall i | 0 <= i < |targets| :: Exists(store, targets[i]) && answers[i].lookup ==> answers[i].removed
  {
    if targets != [] { WhatIsLeft(store, targets, answers, targets[0]); }
  }

  lemma TargetsDistinct(name: string)
    ensures Distinct(Targets(name))
  {
    OwnNamesDiffer(name);
    hide InstanceName, ConfigName, ClusterName, ReadOnlyName;
  }

  /** The targets are exactly the objects that can belong to the resource. */
  lemma TargetsAreOwned(name: string, t: Target)
    ensures t in Targets(name) <==>
      match t
      case StatefulSetOf(k) => k in OwnedStatefulSets(name)
      case ServiceOf(k) => k in OwnedServices(name)
      case ConfigMapOf(k) => k in OwnedConfigs(name)
  {
  }

  ghost predicate AllGone(store: Store, name: string) {
    forall t | t in Targets(name) :: !Exists(store, t)
  }

  /** The lookup of every object that exists is answered. */
  predicate LookupsAnswered(store: Store, name: string, answers: seq<DeleteAnswer>)
    requires |answers| == 8
  {
    forall i | 0 <= i < 8 :: Exists(store, Targets(name)[i]) ==> answers[i].lookup
  }

  /** A pass that reaches the finalizer leaves nothing behind exactly if no lookup of an
      existing object broke. */
  lemma CompleteIffLookupsAnswered(store: Store, name: string, answers: seq<DeleteAnswer>)
    requires |answers| == 8 && DeleteFrom(store, Targets(name), answers).1
    ensures AllGone(DeleteFrom(store, Targets(name), answers).0, name) <==> LookupsAnswered(store, name, answers)
  {
    hide InstanceName, ConfigName, ClusterName, ReadOnlyName;
    var targets := Targets(name);
    var after := DeleteFrom(store, targets, answers).0;
    TargetsDistinct(name);
    forall i | 0 <= i < 8 ensures Exists(after, targets[i]) <==> Exists(store, targets[i]) && !answers[i].lookup {
      WhatIsLeft(store, targets, answers, targets[i]);
    }
    hide Targets, DeleteFrom, Exists;
    assert AllGone(after, name) <==> forall i | 0 <= i < 8 :: !Exists(after, targets[i]);
  }

  /** An object whose lookup breaks outlives a deletion that reports success. */
  lemma BrokenLookupLeavesObject(name: string, set0: StatefulSet)
    ensures var store := NOTHING.(statefulSets := map[InstanceName(name, true) := set0]);
      exists answers: seq<DeleteAnswer> :: |answers| == 8
        && var (after, done) := DeleteFrom(store, Targets(name), answers);
           done && InstanceName(name, true) in after.statefulSets
  {
    var store := NOTHING.(statefulSets := map[InstanceName(name, true) := set0]);
    var answers := seq(8, _ => DeleteAnswer(false, true));
    var t := StatefulSetOf(InstanceName(name, true));
    NoLookupNoDeletion(store, Targets(name), answers);
    assert DeleteFrom(store, Targets(name), answers) == (store, true);
  }

  lemma {:induction false} NoLookupNoDeletion(store: Store, targets: seq<Target>, answers: seq<DeleteAnswer>)
    requires |targets| == |answers| && forall a | a in answers :: !a.lookup
    ensures DeleteFrom(store, targets, answers) == (store, true)
    decreases |targets|
  {
    if targets != [] {
      NoLookupNoDeletion(store, targets[1..], answers[1..]);
    }
  }
}
