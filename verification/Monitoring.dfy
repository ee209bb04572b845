/** What the health passes tell: phase against conditions, and counters against history. */
module Monitoring {
  import opened Wrappers
  import opened Throttle
  import opened Resource
  import opened Conditions
  import opened FailureCount
  import opened Objects
  import opened Cluster
  import opened Passes
  import opened Safety
  import opened Runs

  // ---------- phase and conditions ----------

  predicate Shows(list: seq<Condition>, kind: string, status: Truth) {
    kind in AsMap(list) && AsMap(list)[kind].status == status
  }

  /** Replication is active: the secondary is healthy and its lag is known, however large. */
  predicate ActiveBy(a: CompleteAnswer) {
    Answering(false, a.secondary.health) && a.secondary.health.replication.lag.Some?
  }

  lemma StoreKeepsStatus(s: Session, r: Request, a: WriteAnswer)
    ensures StoreStatus(s, r, a).0.copy.status == s.copy.status
    ensures StoreStatus(s, r, a).0.copy.annotations == s.copy.annotations
    ensures StoreStatus(s, r, a).1 ==> Last(StoreStatus(s, r, a).0.api.log).status == s.copy.status
  {
  }

  lemma CheckInstanceKeeps(s: Session, r: Request, isPrimary: bool, a: InstanceAnswer)
    ensures var t := CheckInstance(s, r, isPrimary, a).s;
      && t.copy.status == s.copy.status.(conditions := Noted(s.copy.status.conditions, isPrimary, a.health, s.api.now + a.delay))
      && t.copy.annotations == s.copy.annotations
  {
    hide Noted, StoreStatus;
    var s1 := Tick(s, a.delay);
    StoreKeepsStatus(WithConditions(s1, Noted(s.copy.status.conditions, isPrimary, a.health, s1.api.now)), r, a.write);
  }

  /** What one check of an instance leaves in the condition list of the copy, entry by entry: nothing
      new if the check itself fails or the status is already there; else the whole entry. */
  lemma CheckNotes(s: Session, r: Request, isPrimary: bool, a: InstanceAnswer)
    ensures var before, after := AsMap(s.copy.status.conditions), AsMap(CheckInstance(s, r, isPrimary, a).s.copy.status.conditions);
      var h, kind := a.health, if isPrimary then "PrimaryReady" else "SecondaryReady";
      var alive := h.tcp && h.sql;
      var status := if alive then True else False;
      if !h.connection || (!isPrimary && alive && h.replication.Unreadable?) || (kind in before && before[kind].status == status) then
        after == before
      else
        after == before[kind := Condition(
          kind, status, if kind in before then before[kind].observedGeneration else 0,
          if alive then "InstanceHealthy" else "InstanceUnhealthy",
          (if isPrimary then "L'instance primaire " else "L'instance secondaire ")
            + (if alive then "est en bon état" else "n'est pas en bon état"),
          (s.api.now + a.delay) / 1_000_000_000)]
  {
    hide StoreStatus, AsMap, Observe, Noted;
    CheckInstanceKeeps(s, r, isPrimary, a);
    NotedAsMap(s.copy.status.conditions, isPrimary, a.health, s.api.now + a.delay);
  }

  lemma NotedAsMap(list: seq<Condition>, isPrimary: bool, h: HealthReading, now: nat)
    ensures var v := Judge(isPrimary, h);
      var seen := InstanceCondition(isPrimary, v.healthy, Seconds(now));
      var before, after := AsMap(list), AsMap(Noted(list, isPrimary, h, now));
      && (v.healthy <==> h.connection && h.tcp && h.sql)
      && (v.failed <==> !h.connection || (!isPrimary && h.tcp && h.sql && h.replication.Unreadable?))
      && after == if v.failed || (seen.kind in before && before[seen.kind].status == seen.status) then before
                  else if seen.kind in before then before[seen.kind := seen.(observedGeneration := before[seen.kind].observedGeneration)]
                  else before[seen.kind := seen]
  {
    hide AsMap, Observe;
    VerdictIs(isPrimary, h);
    ObserveRefinesMap(list, InstanceCondition(isPrimary, Judge(isPrimary, h).healthy, Seconds(now)));
  }

  /** A complete check changes conditions and counters only; the replication condition then says
      what was observed, and the counters have moved by one check. */
  lemma CompleteCheckShows(s: Session, r: Request, a: CompleteAnswer)
    ensures var t := CompleteCheck(s, r, a).s;
      && t.copy.status == s.copy.status.(conditions := t.copy.status.conditions)
      && Shows(t.copy.status.conditions, REPLICATION_ACTIVE, if ActiveBy(a) then True else False)
      && t.copy.annotations == CountCheck(s.copy.annotations, Answering(true, a.primary.health), Answering(false, a.secondary.health))
  {
    hide Noted, StoreStatus, Observe, CheckInstance, AsMap, CountCheck, Judge;
    var p := CheckInstance(s, r, true, a.primary);
    CheckInstanceKeeps(s, r, true, a.primary);
    var q := CheckInstance(p.s, r, false, a.secondary);
    CheckInstanceKeeps(p.s, r, false, a.secondary);
    CheckInstanceAnswers(s, r, true, a.primary);
    CheckInstanceAnswers(p.s, r, false, a.secondary);
    var s1 := Tick(q.s, a.delay);
    var seen := ReplicationObserved(ActiveBy(a), Seconds(s1.api.now));
    ObserveRefinesMap(s1.copy.status.conditions, seen);
    StoreKeepsStatus(WithConditions(s1, Observe(s1.copy.status.conditions, seen)), r, a.write);
  }

  lemma CheckInstanceAnswers(s: Session, r: Request, isPrimary: bool, a: InstanceAnswer)
    ensures CheckInstance(s, r, isPrimary, a).healthy == Answering(isPrimary, a.health)
    ensures CheckInstance(s, r, isPrimary, a).lag
         == if !isPrimary && Answering(false, a.health) then a.health.replication.lag else None
  {
    hide Noted, StoreStatus, Healthy, Judge;
    VerdictIs(isPrimary, a.health);
  }

  /** A health pass takes the primary for failed exactly if its connection, its TCP or its SQL check
      fails; then, and only then, a failover may start, and if its write is refused the pass fails. */
  lemma PrimaryFailsIff(s: Session, r: Request, a: HealthAnswer)
    ensures var (t, end) := CheckHealth(s, r, a);
      var h, checked := a.complete.primary.health, Tick(CompleteCheck(s, r, a.complete).s, a.delay);
      var allowed := FailoverAllowed(r.spec, checked.copy.status, checked.api.now);
      && (end == PrimaryFailed(false) <==> !(h.connection && h.tcp && h.sql) && !(a.trigger && allowed))
      && (end == PrimaryFailed(true) ==> !(h.connection && h.tcp && h.sql) && a.trigger && allowed)
      && (!(h.connection && h.tcp && h.sql) && a.trigger && allowed ==>
            end in {PrimaryFailed(true), WriteRefused} && t.copy.status.phase == Failover)
  {
    hide CompleteCheck, StoreStatus, FailoverAllowed;
    ReportAnswers(s, r, a.complete);
    var s1 := Tick(CompleteCheck(s, r, a.complete).s, a.delay);
    StoreKeepsStatus(WithStatus(s1, s1.copy.status.(phase := Failover)), r, a.phase);
  }

  /** After a health pass that found the primary healthy, whatever the phase and the conditions
      were before: Running exactly if the replication condition is true, exactly if the secondary
      is healthy with a known lag; Degraded otherwise. */
  lemma PhaseAgreesWithConditions(s: Session, r: Request, a: HealthAnswer)
    requires Answering(true, a.complete.primary.health)
    ensures var (t, end) := CheckHealth(s, r, a);
      && t.copy.status.phase == (if ActiveBy(a.complete) then Running else Degraded)
      && (Shows(t.copy.status.conditions, REPLICATION_ACTIVE, True) <==> ActiveBy(a.complete))
      && (end == Monitored && ActiveBy(a.complete) ==> Last(t.api.log).status == t.copy.status)
      && (end == Monitored && s.copy.status.phase != t.copy.status.phase ==> Last(t.api.log).status == t.copy.status)
  {
    hide CompleteCheck, StoreStatus, AsMap;
    var report := CompleteCheck(s, r, a.complete);
    CompleteCheckShows(s, r, a.complete);
    ReportAnswers(s, r, a.complete);
    var target := if ActiveBy(a.complete) then Running else Degraded;
    var status := report.s.copy.status;
    StoreKeepsStatus(WithStatus(report.s, status.(phase := target)), r, a.phase);
    var s1 := if status.phase == target then report.s
              else StoreStatus(WithStatus(report.s, status.(phase := target)), r, a.phase).0;
    StoreKeepsStatus(WithStatus(s1, s1.copy.status.(replicationLag := report.lag)), r, a.lag);
  }

  lemma ReportAnswers(s: Session, r: Request, a: CompleteAnswer)
    ensures var report := CompleteCheck(s, r, a);
      && report.primaryHealthy == Answering(true, a.primary.health)
      && report.secondaryHealthy == Answering(false, a.secondary.health)
      && report.replicationHealthy == ActiveBy(a)
      && report.lag == (if Answering(false, a.secondary.health) then a.secondary.health.replication.lag else None)
  {
    hide CheckInstance, StoreStatus, Observe, CountCheck;
    CheckInstanceAnswers(s, r, true, a.primary);
    CheckInstanceAnswers(CheckInstance(s, r, true, a.primary).s, r, false, a.secondary);
  }

  /** What the end of a complete check leaves of the replication condition: what it was, where the
      status is already there; else the whole entry, by both answers of the secondary. */
  lemma ReplicationNotes(s: Session, r: Request, a: CompleteAnswer)
    ensures var q := CheckInstance(CheckInstance(s, r, true, a.primary).s, r, false, a.secondary).s;
      var before, after := AsMap(q.copy.status.conditions), AsMap(CompleteCheck(s, r, a).s.copy.status.conditions);
      var kind, status := "ReplicationActive", if ActiveBy(a) then True else False;
      after == if kind in before && before[kind].status == status then before
               else before[kind := Condition(
                 kind, status, if kind in before then before[kind].observedGeneration else 0,
                 if ActiveBy(a) then "ReplicationActive" else "ReplicationInactive",
                 if ActiveBy(a) then "La réplication est active" else "La réplication n'est pas active",
                 (q.api.now + a.delay) / 1_000_000_000)]
  {
    hide StoreStatus, AsMap, Observe, CheckInstance, CountCheck;
    var p := CheckInstance(s, r, true, a.primary).s;
    CheckInstanceAnswers(p, r, false, a.secondary);
    var s1 := Tick(CheckInstance(p, r, false, a.secondary).s, a.delay);
    var seen := ReplicationObserved(ActiveBy(a), Seconds(s1.api.now));
    ObserveRefinesMap(s1.copy.status.conditions, seen);
    StoreKeepsStatus(WithConditions(s1, Observe(s1.copy.status.conditions, seen)), r, a.write);
  }

  // ---------- the stored copy ----------

  /** Nobody else writes while the pass's writes are under way; the server may still refuse them. */
  predicate Alone(a: HealthAnswer) {
    && a.complete.primary.write.interrupts == [] && a.complete.secondary.write.interrupts == []
    && a.complete.write.interrupts == [] && a.phase.interrupts == [] && a.lag.interrupts == []
  }

  lemma PlainStore(s: Session, r: Request, a: WriteAnswer)
    requires Fresh(s) && a.interrupts == []
    ensures var (t, ok) := StoreStatus(s, r, a);
      && ok == a.up && Fresh(t) && t.copy.status == s.copy.status
      && Last(t.api.log).status == if ok then s.copy.status else Last(s.api.log).status
  {
  }

  predicate SaysReplicating(list: seq<Condition>) { Shows(list, REPLICATION_ACTIVE, True) }

  /** The current version has this phase and says this of the replication, and so does the copy. */
  ghost predicate Agreed(s: Session, phase: Phase, says: bool) {
    && Fresh(s) && s.copy.status.phase == phase && Last(s.api.log).status.phase == phase
    && SaysReplicating(s.copy.status.conditions) == says
    && SaysReplicating(Last(s.api.log).status.conditions) == says
  }

  lemma OtherKindsSayTheSame(list: seq<Condition>, seen: Condition)
    ensures seen.kind != REPLICATION_ACTIVE ==> SaysReplicating(Observe(list, seen)) == SaysReplicating(list)
    ensures seen.kind == REPLICATION_ACTIVE ==> SaysReplicating(Observe(list, seen)) == (seen.status == True)
    ensures seen.kind == REPLICATION_ACTIVE && Observe(list, seen) == list ==> SaysReplicating(list) == (seen.status == True)
  {
    hide AsMap, Observe;
    ObserveRefinesMap(list, seen);
  }

  lemma CheckKeepsAgreement(s: Session, r: Request, isPrimary: bool, a: InstanceAnswer, phase: Phase, says: bool)
    requires Agreed(s, phase, says) && a.write.interrupts == []
    ensures Agreed(CheckInstance(s, r, isPrimary, a).s, phase, says)
  {
    KindsDiffer();
    hide StoreStatus, Judge, Observe, SaysReplicating;
    var s1 := Tick(s, a.delay);
    var list := Noted(s1.copy.status.conditions, isPrimary, a.health, s1.api.now);
    OtherKindsSayTheSame(s1.copy.status.conditions,
      InstanceCondition(isPrimary, Judge(isPrimary, a.health).healthy, Seconds(s1.api.now)));
    PlainStore(WithConditions(s1, list), r, a.write);
  }

  /** After a complete check the copy says what was observed; the stored version does if the last
      write was accepted, and otherwise says what it said. */
  lemma CheckAndStored(s: Session, r: Request, a: CompleteAnswer, phase: Phase, says: bool)
    requires Agreed(s, phase, says)
    requires a.primary.write.interrupts == [] && a.secondary.write.interrupts == [] && a.write.interrupts == []
    ensures var t := CompleteCheck(s, r, a).s;
      && Fresh(t) && t.copy.status.phase == phase && Last(t.api.log).status.phase == phase
      && SaysReplicating(t.copy.status.conditions) == ActiveBy(a)
      && SaysReplicating(Last(t.api.log).status.conditions) == if a.write.up then ActiveBy(a) else says
  {
    hide StoreStatus, Judge, Observe, CheckInstance, SaysReplicating, CountCheck;
    var p := CheckInstance(s, r, true, a.primary).s;
    CheckKeepsAgreement(s, r, true, a.primary, phase, says);
    CheckKeepsAgreement(p, r, false, a.secondary, phase, says);
    CheckInstanceAnswers(p, r, false, a.secondary);
    var s1 := Tick(CheckInstance(p, r, false, a.secondary).s, a.delay);
    var seen := ReplicationObserved(ActiveBy(a), Seconds(s1.api.now));
    OtherKindsSayTheSame(s1.copy.status.conditions, seen);
    PlainStore(WithConditions(s1, Observe(s1.copy.status.conditions, seen)), r, a.write);
  }

  /** Writes can be refused and the pass goes on, so the stored version can show a phase next to a
      condition that contradicts it. With the primary healthy and nobody else writing, phase and
      condition agree in the stored version exactly if the phase write, where one is due, was
      accepted, and so was one of the writes that carry the condition, unless it was right before. */
  lemma StoredAgreesIff(s: Session, r: Request, a: HealthAnswer)
    requires Fresh(s) && s.copy.status == Last(s.api.log).status
    requires Answering(true, a.complete.primary.health) && Alone(a)
    ensures var before, stored := s.copy.status, Last(CheckHealth(s, r, a).0.api.log).status;
      var active := ActiveBy(a.complete);
      var target := if active then Running else Degraded;
      stored.phase == target && SaysReplicating(stored.conditions) == active <==>
        && (before.phase == target || a.phase.up)
        && (|| SaysReplicating(before.conditions) == active || a.complete.write.up
            || before.phase != target || (active && a.lag.up))
  {
    hide CompleteCheck, StoreStatus, SaysReplicating;
    var report := CompleteCheck(s, r, a.complete);
    CheckAndStored(s, r, a.complete, s.copy.status.phase, SaysReplicating(s.copy.status.conditions));
    ReportAnswers(s, r, a.complete);
    var target := if ActiveBy(a.complete) then Running else Degraded;
    var s0 := WithStatus(report.s, report.s.copy.status.(phase := target));
    PlainStore(s0, r, a.phase);
    var s1 := if report.s.copy.status.phase == target then report.s else StoreStatus(s0, r, a.phase).0;
    PlainStore(WithStatus(s1, s1.copy.status.(replicationLag := report.lag)), r, a.lag);
  }

  // ---------- counters ----------

  /** Health checks one after the other on the same in-memory object; nothing in the source
      saves the counters in between. */
  function CheckAll(s: Session, r: Request, checks: seq<CompleteAnswer>): Session {
    if checks == [] then s
    else CompleteCheck(CheckAll(s, r, checks[..|checks| - 1]), r, checks[|checks| - 1]).s
  }

  function Outcome(check: CompleteAnswer, isPrimary: bool): bool {
    Answering(isPrimary, if isPrimary then check.primary.health else check.secondary.health)
  }

  /** How many of the latest checks found the instance failing, without interruption. */
  function TrailingFailures(checks: seq<CompleteAnswer>, isPrimary: bool): nat {
    if checks == [] || Outcome(checks[|checks| - 1], isPrimary) then 0
    else 1 + TrailingFailures(checks[..|checks| - 1], isPrimary)
  }

  /** Over any sequence of checks each counter is the number of consecutive latest failures. A
      run of failures that reaches back to the start adds to the count found there, if that is
      positive; a negative one is dropped at the first failure, which then goes uncounted. Other
      annotations stay. */
  lemma {:induction false} CounterIsTrailingFailures(s: Session, r: Request, checks: seq<CompleteAnswer>, isPrimary: bool)
    requires |checks| + GetFailureCount(s.copy.annotations, isPrimary) <= MAX_INT64 && |checks| <= MAX_INT64
    ensures var t, n, c := CheckAll(s, r, checks), TrailingFailures(checks, isPrimary), GetFailureCount(s.copy.annotations, isPrimary);
      && n <= |checks|
      && GetFailureCount(t.copy.annotations, isPrimary)
         == (if n < |checks| then n else if c >= 0 then c + n else if n == 0 then c else n - 1)
      && t.copy.annotations - {PRIMARY_COUNT, SECONDARY_COUNT} == s.copy.annotations - {PRIMARY_COUNT, SECONDARY_COUNT}
  {
    hide CompleteCheck, GetFailureCount, CountCheck, Outcome;
    if checks != [] {
      var init, last := checks[..|checks| - 1], checks[|checks| - 1];
      CounterIsTrailingFailures(s, r, init, isPrimary);
      CounterStep(CheckAll(s, r, init), r, last, isPrimary);
    }
  }

  lemma CounterStep(s: Session, r: Request, check: CompleteAnswer, isPrimary: bool)
    requires GetFailureCount(s.copy.annotations, isPrimary) < MAX_INT64
    ensures var t, c := CompleteCheck(s, r, check).s, GetFailureCount(s.copy.annotations, isPrimary);
      && GetFailureCount(t.copy.annotations, isPrimary) == (if Outcome(check, isPrimary) || c < 0 then 0 else c + 1)
      && t.copy.annotations - {PRIMARY_COUNT, SECONDARY_COUNT} == s.copy.annotations - {PRIMARY_COUNT, SECONDARY_COUNT}
  {
    hide CompleteCheck, GetFailureCount, CountCheck, Answering;
    CountFits(s.copy.annotations, isPrimary);
    CompleteCheckShows(s, r, check);
    CheckMovesCounters(s.copy.annotations, Outcome(check, true), Outcome(check, false));
  }

  lemma CountFits(annotations: Annotations, isPrimary: bool)
    ensures MIN_INT64 <= GetFailureCount(annotations, isPrimary) <= MAX_INT64
  {
  }

  /** In every run, no write of the controller changes the stored annotations: status writes leave
      them alone, and the two full updates send back the ones that were read. */
  lemma NoPassSavesAnnotations(rules: Rules, w: World, steps: seq<Step>, i: nat)
    requires WorldSound(w) && AllObey(rules, steps)
    requires |w.log| <= i < |Run(w, steps).log| && Run(w, steps).log[i].author == Controller
    ensures Run(w, steps).log[i].annotations == Run(w, steps).log[i - 1].annotations
  {
    hide Run, Grows;
    RunWritesAreLegal(rules, w, steps);
    var log := Run(w, steps).log;
    assert Legal(rules, log[i - 1], log[i]);
  }

  /** Whoever else edits annotations stores no counter. */
  ghost predicate OthersCountNothing(log: Log, later: Log, isPrimary: bool) {
    forall i | |log| <= i < |later| && later[i].author == Outsider && later[i].annotations != later[i - 1].annotations ::
      GetFailureCount(later[i].annotations, isPrimary) == 0
  }

  lemma {:induction false} NothingIsCounted(rules: Rules, log: Log, later: Log, isPrimary: bool, i: nat)
    requires Continues(rules, log, later) && i < |later|
    requires forall v | v in log :: GetFailureCount(v.annotations, isPrimary) == 0
    requires OthersCountNothing(log, later, isPrimary)
    ensures GetFailureCount(later[i].annotations, isPrimary) == 0
  {
    hide GetFailureCount, Grows;
    if i < |log| {
      assert later[i] == log[i];
    } else {
      NothingIsCounted(rules, log, later, isPrimary, i - 1);
      assert Legal(rules, later[i - 1], later[i]);
    }
  }

  /** The counters live in the copy of one pass. Whatever a run did before, a health pass starts
      from stored annotations again; where nobody else stores a counter they hold none, and a
      failing instance is counted once, however long it has been failing. */
  lemma CountersRestartEveryPass(
    rules: Rules, w: World, steps: seq<Step>, staleness: nat, r: Request, check: CompleteAnswer, isPrimary: bool)
    requires WorldSound(w) && AllObey(rules, steps)
    requires forall v | v in w.log :: GetFailureCount(v.annotations, isPrimary) == 0
    requires OthersCountNothing(w.log, Run(w, steps).log, isPrimary)
    ensures var t := CompleteCheck(Read(Run(w, steps), staleness), r, check).s;
      GetFailureCount(t.copy.annotations, isPrimary) == if Outcome(check, isPrimary) then 0 else 1
  {
    hide Run, CompleteCheck, GetFailureCount, Outcome, OthersCountNothing;
    RunWritesAreLegal(rules, w, steps);
    var s := Read(Run(w, steps), staleness);
    NothingIsCounted(rules, w.log, Run(w, steps).log, isPrimary, s.copy.version - 1);
    CounterStep(s, r, check, isPrimary);
  }

  /** A failover that promotes resets both counters of its copy, saved or not; any other way out
      leaves them alone. */
  lemma FailoverResetsCounters(s: Session, r: Request, a: FailoverAnswer, isPrimary: bool)
    ensures var (t, end) := HandleFailover(s, r, a);
      GetFailureCount(t.copy.annotations, isPrimary)
        == if end in {Recorded, NotRecorded} then 0 else GetFailureCount(s.copy.annotations, isPrimary)
  {
    hide CheckInstance, StoreStatus, GetFailureCount, ResetFailureCount;
    CheckInstanceKeeps(s, r, false, a.instance);
    forall t: Session, w: WriteAnswer {
      StoreKeepsStatus(t, r, w);
    }
    var annotations := s.copy.annotations;
    ResetReadsZero(annotations, true);
    ResetReadsZero(ResetFailureCount(annotations, true), false);
  }

  // ---------- condition lists over runs ----------

  lemma {:induction false} ConditionsOverRuns(rules: Rules, log: Log, later: Log, i: nat)
    requires Continues(rules, log, later) && |log| - 1 <= i < |later|
    ensures Grows(Last(log).status.conditions, later[i].status.conditions)
    decreases i
  {
    if i == |log| - 1 {
      assert later[i] == Last(log);
    } else {
      ConditionsOverRuns(rules, log, later, i - 1);
      assert Legal(rules, later[i - 1], later[i]);
      LegalGrows(rules, later[i - 1], later[i]);
      GrowsIsTransitive(Last(log).status.conditions, later[i - 1].status.conditions, later[i].status.conditions);
    }
  }

  lemma LegalGrows(rules: Rules, b: Version, a: Version)
    requires Legal(rules, b, a)
    ensures Grows(b.status.conditions, a.status.conditions)
  {
  }

  /** In every run the stored condition list keeps its entries in place, gains at most the
      operator's three, and keeps one entry per kind if it started so. */
  lemma ConditionListsStaySmall(rules: Rules, w: World, steps: seq<Step>)
    requires WorldSound(w) && AllObey(rules, steps)
    ensures var before, after := Last(w.log).status.conditions, Last(Run(w, steps).log).status.conditions;
      && Grows(before, after)
      && |after| <= |before| + 3
      && (Unique(before) ==> Unique(after))
  {
    hide Run, Grows, Unique;
    RunWritesAreLegal(rules, w, steps);
    var later := Run(w, steps).log;
    ConditionsOverRuns(rules, w.log, later, |later| - 1);
    GrowthIsBounded(Last(w.log).status.conditions, Last(later).status.conditions);
  }

  /** In every run, from one stored version to the next, an entry changes only if its status flips,
      and its transition time is then a moment between the two; so is that of a new entry. */
  lemma TransitionTimesTell(rules: Rules, w: World, steps: seq<Step>, i: nat)
    requires WorldSound(w) && AllObey(rules, steps)
    requires |w.log| <= i < |Run(w, steps).log|
    ensures var b, a := Run(w, steps).log[i - 1], Run(w, steps).log[i];
      Evolves(b.status.conditions, a.status.conditions, Seconds(b.at), Seconds(a.at))
  {
    hide Run, Evolves;
    RunWritesAreLegal(rules, w, steps);
    var log := Run(w, steps).log;
    assert Legal(rules, log[i - 1], log[i]);
  }

  ghost predicate HoldsStatus(log: Log, k: nat, status: Truth, i: nat, j: nat)
    requires j < |log|
  {
    forall m | i <= m <= j ::
      k < |log[m].status.conditions| && log[m].status.conditions[k].status == status
  }

  /** While the status of an entry stays the same from version to version, all of it does, its
      transition time included: the time stored is that of the last flip. */
  lemma {:induction false} UnflippedIsUnchanged(
    rules: Rules, log: Log, later: Log, k: nat, status: Truth, i: nat, j: nat)
    requires Continues(rules, log, later) && |log| - 1 <= i <= j < |later|
    requires HoldsStatus(later, k, status, i, j)
    ensures later[j].status.conditions[k] == later[i].status.conditions[k]
    decreases j
  {
    hide Grows;
    if i < j {
      UnflippedIsUnchanged(rules, log, later, k, status, i, j - 1);
      assert Legal(rules, later[j - 1], later[j]);
    }
  }
}
