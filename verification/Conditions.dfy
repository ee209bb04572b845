/** The condition list of a resource's status: three writers update it in place, and it
    behaves as a map from condition types to conditions. */
module Conditions {

  datatype Truth = True | False | Unknown

  /** `lastTransitionTime` is in seconds, as it is stored. */
  datatype Condition = Condition(
    kind: string,
    status: Truth,
    observedGeneration: int,
    reason: string,
    message: string,
    lastTransitionTime: int)

  const PRIMARY_READY := "PrimaryReady"
  const SECONDARY_READY := "SecondaryReady"
  const REPLICATION_ACTIVE := "ReplicationActive"
  const OPERATOR_KINDS := {PRIMARY_READY, SECONDARY_READY, REPLICATION_ACTIVE}

  /** The first entry of a kind, or the length of the list. */
  function IndexOf(list: seq<Condition>, kind: string): (n: nat)
    ensures n <= |list|
    ensures forall i | 0 <= i < n :: list[i].kind != kind
    ensures n < |list| ==> list[n].kind == kind
  {
    if list == [] || list[0].kind == kind then 0 else 1 + IndexOf(list[1..], kind)
  }

  /** What the health checks do with an observation: nothing when the status is already
      there, otherwise update the entry in place, or append a new one. */
  function Observe(list: seq<Condition>, seen: Condition): seq<Condition> {
    var n := IndexOf(list, seen.kind);
    if n == |list| then list + [seen]
    else if list[n].status == seen.status then list
    else list[n := seen.(observedGeneration := list[n].observedGeneration)]
  }

  /** What the replication setup does: overwrite the whole entry, or append it. */
  function Replace(list: seq<Condition>, seen: Condition): seq<Condition> {
    var n := IndexOf(list, seen.kind);
    if n == |list| then list + [seen] else list[n := seen]
  }

  /** The loop of the two health check writers; `changed` says whether a status write follows. */
  method ObserveInPlace(list: seq<Condition>, kind: string, status: Truth, reason: string, message: string, now: int)
    returns (result: seq<Condition>, changed: bool)
    ensures result == Observe(list, Condition(kind, status, 0, reason, message, now))
    ensures changed <==> result != list
  {
    var seen := Condition(kind, status, 0, reason, message, now);
    result := list;
    for i := 0 to |list|
      invariant forall j | 0 <= j < i :: list[j].kind != kind
      invariant result == list
    {
      if list[i].kind == kind && list[i].status == status {
        assert IndexOf(list, kind) == i;
        return list, false;
      } else if list[i].kind == kind {
        assert IndexOf(list, kind) == i;
        result := result[i := result[i].(status := status)];
        result := result[i := result[i].(reason := reason)];
        result := result[i := result[i].(message := message)];
        result := result[i := result[i].(lastTransitionTime := now)];
        assert result == Observe(list, seen);
        assert result[i].status != list[i].status;
        return result, true;
      }
    }
    result := result + [seen];
    changed := true;
  }

  /** The loop of the replication setup, with its `updated` flag. */
  method ReplaceInPlace(list: seq<Condition>, seen: Condition) returns (result: seq<Condition>)
    ensures result == Replace(list, seen)
  {
    result := list;
    var updated := false;
    var i := 0;
    while i < |list| && !updated
      invariant 0 <= i <= |list|
      invariant updated ==> result == Replace(list, seen)
      invariant !updated ==> result == list && forall j | 0 <= j < i :: list[j].kind != seen.kind
    {
      if list[i].kind == seen.kind {
        assert IndexOf(list, seen.kind) == i;
        result := result[i := seen];
        updated := true;
      }
      i := i + 1;
    }
    if !updated {
      result := result + [seen];
    }
  }

  /** Whether some entry says that replication is active. */
  predicate SaysActive(list: seq<Condition>) {
    exists i | 0 <= i < |list| :: list[i].kind == REPLICATION_ACTIVE && list[i].status == True
  }

  method FindActive(list: seq<Condition>) returns (found: bool)
    ensures found <==> SaysActive(list)
  {
    found := false;
    var i := 0;
    while i < |list| && !found
      invariant 0 <= i <= |list|
      invariant found ==> SaysActive(list)
      invariant !found ==> forall j | 0 <= j < i :: !(list[j].kind == REPLICATION_ACTIVE && list[j].status == True)
    {
      found := list[i].kind == REPLICATION_ACTIVE && list[i].status == True;
      i := i + 1;
    }
  }

  // ---------- the list as a map ----------

  function KindSet(list: seq<Condition>): (kinds: set<string>)
    ensures forall kind :: kind in kinds <==> IndexOf(list, kind) < |list|
  {
    set i | 0 <= i < |list| :: list[i].kind
  }

  /** What the list says: the first entry of each kind. */
  function AsMap(list: seq<Condition>): map<string, Condition> {
    map kind | kind in KindSet(list) :: list[IndexOf(list, kind)]
  }

  ghost predicate Unique(list: seq<Condition>) {
    forall i, j | 0 <= i < j < |list| :: list[i].kind != list[j].kind
  }

  lemma IndexIs(list: seq<Condition>, kind: string, n: nat)
    requires n <= |list| && (n < |list| ==> list[n].kind == kind)
    requires forall i | 0 <= i < n :: list[i].kind != kind
    ensures IndexOf(list, kind) == n
  {
  }

  function Place(list: seq<Condition>, entry: Condition): seq<Condition> {
    var n := IndexOf(list, entry.kind);
    if n == |list| then list + [entry] else list[n := entry]
  }

  lemma PlacedIndex(list: seq<Condition>, entry: Condition, kind: string)
    ensures var n, placed := IndexOf(list, kind), Place(list, entry);
      IndexOf(placed, kind) == if kind != entry.kind && n == |list| then |placed| else n
  {
    hide IndexOf;
    var placed := Place(list, entry);
    assert forall i | 0 <= i < |list| :: placed[i].kind == list[i].kind;
    var n := IndexOf(list, kind);
    IndexIs(placed, kind, if kind != entry.kind && n == |list| then |placed| else n);
  }

  /** Updating an entry in place, or appending one, updates the map at its key and nowhere else. */
  lemma PlacedInMap(list: seq<Condition>, entry: Condition)
    ensures AsMap(Place(list, entry)) == AsMap(list)[entry.kind := entry]
    ensures Unique(list) ==> Unique(Place(list, entry))
  {
    hide IndexOf;
    forall kind: string {
      PlacedIndex(list, entry, kind);
    }
  }

  lemma InMap(list: seq<Condition>, kind: string)
    ensures var n := IndexOf(list, kind);
      (kind in AsMap(list) <==> n < |list|) && (n < |list| ==> AsMap(list)[kind] == list[n])
  {
  }

  /** An observation leaves other kinds alone, and its own too where the status is already there.
      Otherwise the entry becomes what was seen, transition time included; only the generation of
      an entry that was there is kept. */
  lemma ObserveRefinesMap(list: seq<Condition>, seen: Condition)
    ensures var before, after := AsMap(list), AsMap(Observe(list, seen));
      && (seen.kind in before && before[seen.kind].status == seen.status ==> after == before)
      && (seen.kind in before && before[seen.kind].status != seen.status ==>
            after == before[seen.kind := Condition(seen.kind, seen.status, before[seen.kind].observedGeneration,
                                                   seen.reason, seen.message, seen.lastTransitionTime)])
      && (seen.kind !in before ==> after == before[seen.kind := seen])
    ensures Unique(list) ==> Unique(Observe(list, seen))
  {
    hide AsMap, IndexOf, Unique;
    var n := IndexOf(list, seen.kind);
    InMap(list, seen.kind);
    if n == |list| {
      PlacedInMap(list, seen);
    } else if list[n].status != seen.status {
      PlacedInMap(list, seen.(observedGeneration := list[n].observedGeneration));
    }
  }

  /** The replication setup runs only when no entry says active, so it too flips what it finds. */
  lemma ReplaceRefinesMap(list: seq<Condition>, seen: Condition)
    requires seen.kind == REPLICATION_ACTIVE && seen.status == True && !SaysActive(list)
    ensures AsMap(Replace(list, seen)) == AsMap(list)[seen.kind := seen]
    ensures seen.kind in AsMap(list) ==> AsMap(list)[seen.kind].status != seen.status
    ensures Unique(list) ==> Unique(Replace(list, seen))
  {
    PlacedInMap(list, seen);
  }

  // ---------- how the list grows ----------

  /** Entries keep their place and kind; what is added is of the operator's kinds, each once. */
  ghost predicate Grows(before: seq<Condition>, after: seq<Condition>) {
    && |before| <= |after|
    && (forall i | 0 <= i < |before| :: after[i].kind == before[i].kind)
    && (forall i | |before| <= i < |after| :: after[i].kind in OPERATOR_KINDS)
    && (forall i, j | 0 <= i < j < |after| && |before| <= j :: after[i].kind != after[j].kind)
  }

  lemma GrowsIsTransitive(a: seq<Condition>, b: seq<Condition>, c: seq<Condition>)
    requires Grows(a, b) && Grows(b, c)
    ensures Grows(a, c)
  {
  }

  /** At most one entry differs, one of this kind: its status has flipped at the given time, or it is new. */
  ghost predicate Notes(list: seq<Condition>, after: seq<Condition>, kind: string, at: int) {
    && Grows(list, after)
    && (forall i | 0 <= i < |list| && after[i] != list[i] ::
          list[i].kind == kind && after[i].status != list[i].status && after[i].lastTransitionTime == at)
    && (forall i | |list| <= i < |after| :: after[i].kind == kind && after[i].lastTransitionTime == at)
  }

  lemma WritersNote(list: seq<Condition>, seen: Condition)
    requires seen.kind in OPERATOR_KINDS
    ensures Notes(list, Observe(list, seen), seen.kind, seen.lastTransitionTime)
    ensures seen.kind == REPLICATION_ACTIVE && seen.status == True && !SaysActive(list) ==>
      Notes(list, Replace(list, seen), seen.kind, seen.lastTransitionTime)
  {
  }

  /** What stored lists do between two versions: an entry differs only if its status has flipped,
      and its transition time then lies between the versions, as that of every new entry does. */
  ghost predicate Evolves(before: seq<Condition>, after: seq<Condition>, from: int, to: int) {
    && Grows(before, after)
    && (forall i | 0 <= i < |before| && after[i] != before[i] ::
          after[i].status != before[i].status && from <= after[i].lastTransitionTime <= to)
    && (forall i | |before| <= i < |after| :: from <= after[i].lastTransitionTime <= to)
  }

  lemma EvolvesLater(before: seq<Condition>, after: seq<Condition>, from: int, to: int, later: int)
    requires Evolves(before, after, from, to) && to <= later
    ensures Evolves(before, after, from, later)
  {
  }

  ghost predicate Untouched(before: seq<Condition>, after: seq<Condition>, kind: string) {
    forall i | 0 <= i < |before| && before[i].kind == kind :: i < |after| && after[i] == before[i]
  }

  /** One more observation keeps this, if its kind has not been observed since the stored version. */
  lemma EvolvesThenNotes(
    p: seq<Condition>, q: seq<Condition>, l: seq<Condition>, kind: string, from: int, to: int)
    requires Evolves(p, q, from, to) && Notes(q, l, kind, to) && from <= to && Untouched(p, q, kind)
    ensures Evolves(p, l, from, to)
    ensures forall other | other != kind && Untouched(p, q, other) :: Untouched(p, l, other)
  {
    GrowsIsTransitive(p, q, l);
  }

  /** Any number of writes adds at most three entries and keeps kinds unique. */
  lemma GrowthIsBounded(before: seq<Condition>, after: seq<Condition>)
    requires Grows(before, after)
    ensures |after| <= |before| + 3
    ensures Unique(before) ==> Unique(after)
  {
    var added := set i | |before| <= i < |after| :: after[i].kind;
    assert added <= OPERATOR_KINDS;
    DistinctKindsCount(after, |before|, added);
    SubsetSize(added, OPERATOR_KINDS);
    assert |OPERATOR_KINDS| <= 3 by {
      assert OPERATOR_KINDS == {PRIMARY_READY} + {SECONDARY_READY} + {REPLICATION_ACTIVE};
    }
    if Unique(before) {
      forall i, j | 0 <= i < j < |after| ensures after[i].kind != after[j].kind {
        if j < |before| {
          assert after[i].kind == before[i].kind && after[j].kind == before[j].kind;
        }
      }
    }
  }

  lemma {:induction false} DistinctKindsCount(list: seq<Condition>, from: nat, kinds: set<string>)
    requires from <= |list|
    requires kinds == set i | from <= i < |list| :: list[i].kind
    requires forall i, j | from <= i < j < |list| :: list[i].kind != list[j].kind
    ensures |kinds| == |list| - from
    decreases |list| - from
  {
    if from < |list| {
      var rest := set i | from + 1 <= i < |list| :: list[i].kind;
      DistinctKindsCount(list, from + 1, rest);
      assert kinds == rest + {list[from].kind};
    }
  }

  lemma SubsetSize<T>(a: set<T>, b: set<T>)
    requires a <= b
    ensures |a| <= |b|
  {
    assert |b| == |a| + |b - a| by {
      assert b == a + (b - a);
    }
  }
}
