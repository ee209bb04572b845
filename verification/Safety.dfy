/** What any accepted write may do to the stored copy of a resource, proved of every write of
    every pass and trigger, whatever the environment answers and whoever comes in between. */
module Safety {
  import opened Wrappers
  import opened Throttle
  import opened Resource
  import opened Conditions
  import opened Objects
  import opened Cluster
  import opened Passes
  import opened Routing
  import opened Teardown
  import opened FailureCount

  /** What the specifications in force allow: the least interval between failovers, whether
      failovers may start by themselves, and whether a former primary may rejoin. */
  datatype Rules = Rules(interval: int, automatic: bool, failback: bool)

  ghost predicate Obeys(rules: Rules, spec: Spec) {
    && Interval(spec.minimumInterval) >= rules.interval
    && (spec.automaticFailover == Some(true) ==> rules.automatic)
    && (spec.automaticFailback == Some(true) ==> rules.failback)
  }

  /** The fields that failovers and recoveries change, apart from the phase. */
  ghost predicate SameRoles(p: Status, q: Status) {
    && q.currentPrimary == p.currentPrimary && q.currentSecondary == p.currentSecondary
    && q.lastFailoverTime == p.lastFailoverTime && q.failoverHistory == p.failoverHistory
  }

  /** The interval since the last failover is over. */
  ghost predicate GateOpen(interval: int, last: Option<int>, at: int) {
    last.Some? ==> at >= (last.value + interval) * SECOND
  }

  ghost predicate Enters(rules: Rules, b: Version, a: Version) {
    && !InProgress(b.status.phase) && a.status.phase == Failover
    && SameRoles(b.status, a.status)
    && GateOpen(rules.interval, b.status.lastFailoverTime, a.at)
  }

  /** A failover is recorded: the roles swap and the history grows by one event, stamped
      between the previous write and this one. */
  ghost predicate Records(b: Version, a: Version) {
    var p, q := b.status, a.status;
    && p.phase == Failover && q.phase == Recovering
    && q.currentPrimary == p.currentSecondary && q.currentSecondary == ""
    && |q.failoverHistory| == |p.failoverHistory| + 1
    && var event := q.failoverHistory[|p.failoverHistory|];
    && q.failoverHistory == p.failoverHistory + [event]
    && event == FailoverEvent(event.timestamp, "PrimaryFailure", p.currentPrimary, p.currentSecondary, true, event.duration)
    && q.lastFailoverTime == Some(event.timestamp)
    && Seconds(b.at) <= event.timestamp <= Seconds(a.at)
    && event.duration >= 0
  }

  /** A former primary rejoins as secondary. */
  ghost predicate Rejoins(rules: Rules, b: Version, a: Version) {
    var p, q := b.status, a.status;
    && rules.failback
    && p.phase == Recovering && q.phase == Running
    && p.failoverHistory != [] && OldPrimary(p.failoverHistory) != ""
    && SameRoles(p.(currentSecondary := OldPrimary(p.failoverHistory)), q)
  }

  /** The phase changes of a pass that leave the roles alone. */
  predicate PassPhases(p: Phase, q: Phase) {
    || p == q
    || (p == Unset && q == Initializing)
    || (p == Initializing && q == Running)
    || (p == Running && q == Degraded)
    || (p == Degraded && q == Running)
    || (p == Failover && q == Failing)
  }

  ghost predicate Ordered(b: Version, a: Version) {
    b.at <= a.at && Evolves(b.status.conditions, a.status.conditions, Seconds(b.at), Seconds(a.at))
  }

  /** What a write of the controller may do; it never changes the stored annotations. */
  ghost predicate PassWrite(rules: Rules, b: Version, a: Version) {
    && Ordered(b, a) && a.annotations == b.annotations
    && ( || (PassPhases(b.status.phase, a.status.phase) && SameRoles(b.status, a.status))
         || (rules.automatic && b.status.phase in {Running, Degraded} && Enters(rules, b, a))
         || Records(b, a)
         || Rejoins(rules, b, a))
  }

  /** What a write of anyone else may do. */
  ghost predicate OutsideWrite(rules: Rules, b: Version, a: Version) {
    && Ordered(b, a)
    && ((a.status.phase == b.status.phase && SameRoles(b.status, a.status)) || Enters(rules, b, a))
  }

  ghost predicate Legal(rules: Rules, b: Version, a: Version) {
    if a.author == Controller then PassWrite(rules, b, a) else OutsideWrite(rules, b, a)
  }

  /** `later` continues `log` by legal writes. */
  ghost predicate Continues(rules: Rules, log: Log, later: Log) {
    && log <= later
    && forall i | |log| <= i < |later| :: Legal(rules, later[i - 1], later[i])
  }

  function History(log: Log): seq<FailoverEvent> { Last(log).status.failoverHistory }

  lemma ContinuesIsTransitive(rules: Rules, a: Log, b: Log, c: Log)
    requires Continues(rules, a, b) && Continues(rules, b, c)
    ensures Continues(rules, a, c)
  {
  }

  // ---------- one write ----------

  /** The clock is not behind the log, and a copy has been read from it. */
  ghost predicate Sound(s: Session) {
    && Last(s.api.log).at <= s.api.now
    && 1 <= s.copy.version <= |s.api.log|
  }

  /** Between two writes a pass has changed nothing in its copy but conditions. */
  ghost predicate Pending(s: Session) {
    && Sound(s)
    && (Fresh(s) ==>
          var p, q := Last(s.api.log).status, s.copy.status;
          && q == p.(conditions := q.conditions)
          && Evolves(p.conditions, q.conditions, Seconds(Last(s.api.log).at), Seconds(s.api.now)))
  }

  /** A pass has changed nothing in its copy. */
  ghost predicate Exact(s: Session) {
    Sound(s) && (Fresh(s) ==> s.copy.status == Last(s.api.log).status)
  }

  /** The entries of this kind are as stored. */
  ghost predicate Pristine(s: Session, kind: string) {
    Fresh(s) ==> Untouched(Last(s.api.log).status.conditions, s.copy.status.conditions, kind)
  }

  /** A step leaves entries of other kinds as they are. */
  ghost predicate Spares(s: Session, t: Session, kind: string) {
    forall other | other != kind && Pristine(s, other) :: Pristine(t, other)
  }

  lemma ExactIsPending(s: Session)
    requires Exact(s)
    ensures Pending(s) && forall kind :: Pristine(s, kind)
  {
    GrowsIsReflexive(s.copy.status.conditions);
    hide Grows;
  }

  /** The version that a write of the session's copy would store now. */
  ghost function Draft(s: Session, author: Author): Version {
    Last(s.api.log).(status := s.copy.status, at := s.api.now, author := author)
  }

  lemma LegalLater(rules: Rules, b: Version, a: Version, at: nat)
    requires a.at <= at && Legal(rules, b, a)
    ensures Legal(rules, b, a.(at := at))
  {
  }

  lemma PutIsLegal(rules: Rules, s: Session, author: Author, up: bool)
    requires Sound(s) && (Fresh(s) ==> Legal(rules, Last(s.api.log), Draft(s, author)))
    ensures var (t, ok) := Put(s, author, up);
      && Continues(rules, s.api.log, t.api.log) && Sound(t)
      && (if ok then Exact(t) && Pending(t) && History(t.api.log) == s.copy.status.failoverHistory else t == s)
  {
    var (t, ok) := Put(s, author, up);
    if ok { ExactIsPending(t); }
    hide Legal, Grows, Evolves;
  }

  lemma GateIsKept(rules: Rules, spec: Spec, status: Status, now: nat)
    requires Obeys(rules, spec) && !TooSoon(status.lastFailoverTime, spec.minimumInterval, now)
    ensures GateOpen(rules.interval, status.lastFailoverTime, now)
  {
  }

  function KindOf(isPrimary: bool): string { if isPrimary then PRIMARY_READY else SECONDARY_READY }

  lemma NotedNotes(list: seq<Condition>, isPrimary: bool, h: HealthReading, now: nat)
    ensures Notes(list, Noted(list, isPrimary, h, now), KindOf(isPrimary), Seconds(now))
  {
    var v := Judge(isPrimary, h);
    GrowsIsReflexive(list);
    WritersNote(list, InstanceCondition(isPrimary, v.healthy, Seconds(now)));
    hide Observe, Grows;
  }

  // ---------- writes of others ----------

  ghost predicate WorldSound(w: World) { Last(w.log).at <= w.now }

  /** Either nothing was written, or the log is longer than before. */
  ghost predicate Advances(rules: Rules, w: World, v: World) {
    && Continues(rules, w.log, v.log) && WorldSound(v) && w.now <= v.now
    && (|v.log| == |w.log| ==> v.log == w.log)
    && v.statements == w.statements && v.store == w.store
    && History(v.log) == History(w.log)
    && forall i | |w.log| <= i < |v.log| :: v.log[i].author == Outsider
  }

  /** Noting conditions in the copy is a legal draft, and may also wait for the next write. */
  lemma NoteIsLegal(rules: Rules, s: Session, list: seq<Condition>, kind: string, author: Author)
    requires Pending(s) && Pristine(s, kind) && Notes(s.copy.status.conditions, list, kind, Seconds(s.api.now))
    ensures Pending(WithConditions(s, list)) && Spares(s, WithConditions(s, list), kind)
    ensures Fresh(s) ==> Legal(rules, Last(s.api.log), Draft(WithConditions(s, list), author))
  {
    if Fresh(s) {
      var last := Last(s.api.log);
      EvolvesThenNotes(last.status.conditions, s.copy.status.conditions, list, kind, Seconds(last.at), Seconds(s.api.now));
    }
    hide Evolves, Untouched, Notes;
  }

  /** A trigger by hand, once the throttle has let it pass at some earlier time. */
  lemma TriggerIsLegal(rules: Rules, s: Session)
    requires Pending(s) && !InProgress(s.copy.status.phase)
    requires GateOpen(rules.interval, s.copy.status.lastFailoverTime, s.api.now)
    ensures Fresh(s) ==> Legal(rules, Last(s.api.log), Draft(WithStatus(s, s.copy.status.(phase := Failover)), Outsider))
  {
  }

  /** What a step that may write leaves behind: a legal continuation and a copy that has only
      conditions pending. */
  ghost predicate StepsLegally(rules: Rules, s: Session, t: Session) {
    && Continues(rules, s.api.log, t.api.log) && Pending(t) && s.api.now <= t.api.now
    && t.copy.status == s.copy.status.(conditions := t.copy.status.conditions)
    && t.api.statements == s.api.statements && t.api.store == s.api.store
    && History(t.api.log) == History(s.api.log)
  }

  lemma ManualCheckIsLegal(rules: Rules, s: Session, c: ManualCall)
    requires Exact(s)
    ensures var t := ManualCheck(s, c);
      && StepsLegally(rules, s, t)
      && Advances(rules, s.api, t.api)
  {
    var s1 := Tick(s, c.conditionDelay);
    var list := Noted(s1.copy.status.conditions, false, c.health, s1.api.now);
    ExactIsPending(s1);
    NotedNotes(s1.copy.status.conditions, false, c.health, s1.api.now);
    hide Noted, Notes, Evolves, Untouched, Legal, Exact, Pending;
    NoteIsLegal(rules, s1, list, SECONDARY_READY, Outsider);
    PutIsLegal(rules, WithConditions(s1, list), Outsider, c.conditionUp);
  }

  lemma ReadIsExact(w: World, staleness: nat, delay: nat)
    requires WorldSound(w)
    ensures var s := Tick(Read(w, staleness), delay); Exact(s) && AsRead(s)
  {
  }

  lemma ManualWritesAreLegal(rules: Rules, w: World, r: Request, c: ManualCall)
    requires WorldSound(w) && Obeys(rules, r.spec)
    ensures Advances(rules, w, ManualFailover(w, r, c))
  {
    hide TooSoon, Healthy, Grows, Legal, Obeys, ManualCheck, GateOpen, Continues;
    var s := Tick(Read(w, c.staleness), c.gateDelay);
    ReadIsExact(w, c.staleness, c.gateDelay);
    ContinuesIsReflexive(rules, w.log);
    var status := s.copy.status;
    if !InProgress(status.phase) && !TooSoon(status.lastFailoverTime, r.spec.minimumInterval, s.api.now) {
      ManualCheckIsLegal(rules, s, c);
      var s2 := Tick(ManualCheck(s, c), c.phaseDelay);
      var s3 := WithStatus(s2, s2.copy.status.(phase := Failover));
      GateIsKept(rules, r.spec, status, s.api.now);
      GateStaysOpen(rules.interval, status.lastFailoverTime, s.api.now, s2.api.now);
      TriggerIsLegal(rules, s2);
      PutIsLegal(rules, s3, Outsider, c.phaseUp);
      AdvancesIsTransitive(rules, w, s2.api, Put(s3, Outsider, c.phaseUp).0.api);
    }
  }

  lemma ContinuesIsReflexive(rules: Rules, log: Log)
    ensures Continues(rules, log, log)
  {
  }

  lemma GateStaysOpen(interval: int, last: Option<int>, at: int, later: int)
    requires GateOpen(interval, last, at) && at <= later
    ensures GateOpen(interval, last, later)
  {
  }

  lemma GrowsIsReflexive(list: seq<Condition>)
    ensures Grows(list, list)
  {
  }

  lemma TouchIsLegal(rules: Rules, w: World, r: Request, delay: nat, delete: bool, annotations: Option<Annotations>)
    requires WorldSound(w)
    ensures Advances(rules, w, Interrupted1(w, r, Touch(delay, delete, annotations)))
  {
    GrowsIsReflexive(Last(w.log).status.conditions);
    hide Grows;
  }

  lemma AdvancesIsTransitive(rules: Rules, u: World, v: World, w: World)
    requires Advances(rules, u, v) && Advances(rules, v, w)
    ensures Advances(rules, u, w)
  {
  }

  lemma {:induction false} InterruptsAreLegal(rules: Rules, w: World, r: Request, interrupts: seq<Interrupt>)
    requires WorldSound(w) && Obeys(rules, r.spec)
    ensures Advances(rules, w, Interrupted(w, r, interrupts))
  {
    hide ManualFailover, Legal, Interrupted1;
    if interrupts != [] {
      var init, last := interrupts[..|interrupts| - 1], interrupts[|interrupts| - 1];
      InterruptsAreLegal(rules, w, r, init);
      InterruptIsLegal(rules, Interrupted(w, r, init), r, last);
      AdvancesIsTransitive(rules, w, Interrupted(w, r, init), Interrupted1(Interrupted(w, r, init), r, last));
    }
  }

  lemma InterruptIsLegal(rules: Rules, w: World, r: Request, i: Interrupt)
    requires WorldSound(w) && Obeys(rules, r.spec)
    ensures Advances(rules, w, Interrupted1(w, r, i))
  {
    hide ManualFailover, Legal;
    match i
    case Trigger(c) => ManualWritesAreLegal(rules, w, r, c);
    case Touch(delay, delete, annotations) => TouchIsLegal(rules, w, r, delay, delete, annotations);
  }

  /** What waiting for an answer does: others may write, and then the copy is out of date. */
  lemma AwaitAdvances(rules: Rules, s: Session, r: Request, a: WriteAnswer)
    requires Sound(s) && Obeys(rules, r.spec)
    ensures var t := Await(s, r, a);
      Sound(t) && Advances(rules, s.api, t.api) && t.copy == s.copy
  {
    InterruptsAreLegal(rules, s.api, r, a.interrupts);
  }

  /** A write whose draft is legal now is legal when it is accepted. */
  lemma StoreIsLegal(rules: Rules, s: Session, r: Request, a: WriteAnswer)
    requires Sound(s) && Obeys(rules, r.spec)
    requires Fresh(s) ==> Legal(rules, Last(s.api.log), Draft(s, Controller))
    ensures var (t, ok) := StoreStatus(s, r, a);
      && Continues(rules, s.api.log, t.api.log) && Sound(t) && s.api.now <= t.api.now
      && t.api.statements == s.api.statements && t.api.store == s.api.store
      && (if ok then Fresh(s) && Exact(t) && Pending(t) && History(t.api.log) == s.copy.status.failoverHistory
          else t.copy == s.copy && (Fresh(t) ==> t.api.log == s.api.log) && History(t.api.log) == History(s.api.log))
  {
    var t := Await(s, r, a);
    AwaitAdvances(rules, s, r, a);
    if Fresh(t) {
      LegalLater(rules, Last(s.api.log), Draft(s, Controller), t.api.now);
    }
    PutIsLegal(rules, t, Controller, a.up);
    ContinuesIsTransitive(rules, s.api.log, t.api.log, Put(t, Controller, a.up).0.api.log);
  }

  // ---------- the stages of a pass ----------

  /** A condition write: legal, and whatever becomes of it the pass may go on. */
  lemma ConditionWrite(rules: Rules, s: Session, r: Request, list: seq<Condition>, kind: string, a: WriteAnswer)
    requires Pending(s) && Obeys(rules, r.spec)
    requires Pristine(s, kind) && Notes(s.copy.status.conditions, list, kind, Seconds(s.api.now))
    ensures var (t, ok) := StoreStatus(WithConditions(s, list), r, a);
      StepsLegally(rules, s, t) && Spares(s, t, kind) && (ok ==> Exact(t))
  {
    hide Notes, Evolves, Untouched, Legal, StoreStatus, Obeys;
    NoteIsLegal(rules, s, list, kind, Controller);
    StoreIsLegal(rules, WithConditions(s, list), r, a);
    StoreKeepsCopy(WithConditions(s, list), r, a);
    var (t, ok) := StoreStatus(WithConditions(s, list), r, a);
    if ok { ExactIsPending(t); }
    else if Fresh(t) {
      var last := Last(s.api.log);
      EvolvesLater(last.status.conditions, list, Seconds(last.at), Seconds(s.api.now), Seconds(t.api.now));
    }
  }

  lemma StoreKeepsCopy(s: Session, r: Request, a: WriteAnswer)
    ensures StoreStatus(s, r, a).0.copy.status == s.copy.status
    ensures StoreStatus(s, r, a).0.copy.annotations == s.copy.annotations
  {
  }

  lemma StepsAreTransitive(rules: Rules, s: Session, t: Session, u: Session)
    requires StepsLegally(rules, s, t) && StepsLegally(rules, t, u)
    ensures StepsLegally(rules, s, u)
  {
  }

  lemma WaitIsLegal(rules: Rules, s: Session, delay: nat)
    requires Pending(s)
    ensures StepsLegally(rules, s, Tick(s, delay))
    ensures forall kind :: Pristine(s, kind) ==> Pristine(Tick(s, delay), kind)
  {
  }

  lemma CheckInstanceIsLegal(rules: Rules, s: Session, r: Request, isPrimary: bool, a: InstanceAnswer)
    requires Pending(s) && Obeys(rules, r.spec) && Pristine(s, KindOf(isPrimary))
    ensures var t := CheckInstance(s, r, isPrimary, a).s;
      StepsLegally(rules, s, t) && Spares(s, t, KindOf(isPrimary))
  {
    WaitIsLegal(rules, s, a.delay);
    var s1 := Tick(s, a.delay);
    PendingAfter(rules, s, s1);
    var list := Noted(s1.copy.status.conditions, isPrimary, a.health, s1.api.now);
    NotedNotes(s1.copy.status.conditions, isPrimary, a.health, s1.api.now);
    hide Noted, Notes, Untouched, Legal, StoreStatus, Obeys, StepsLegally, Judge, Healthy, Pending;
    ConditionWrite(rules, s1, r, list, KindOf(isPrimary), a.write);
    StepsAreTransitive(rules, s, s1, StoreStatus(WithConditions(s1, list), r, a.write).0);
  }

  lemma PendingAfter(rules: Rules, s: Session, t: Session)
    requires StepsLegally(rules, s, t)
    ensures Pending(t)
  {
  }

  lemma KindsDiffer()
    ensures PRIMARY_READY != SECONDARY_READY && REPLICATION_ACTIVE != PRIMARY_READY && REPLICATION_ACTIVE != SECONDARY_READY
  {
    assert PRIMARY_READY[0] != SECONDARY_READY[0] && REPLICATION_ACTIVE[0] != PRIMARY_READY[0];
  }

  /** After both instances have been checked, the replication condition is still as stored. */
  lemma TwoChecksAreLegal(rules: Rules, s: Session, r: Request, a: CompleteAnswer)
    requires Exact(s) && Obeys(rules, r.spec)
    ensures var p := CheckInstance(s, r, true, a.primary).s;
      var t := Tick(CheckInstance(p, r, false, a.secondary).s, a.delay);
      StepsLegally(rules, s, t) && Pristine(t, REPLICATION_ACTIVE)
  {
    ExactIsPending(s);
    KindsDiffer();
    hide StepsLegally, CheckInstance, Pending, Exact, Obeys, Pristine;
    var p := CheckInstance(s, r, true, a.primary).s;
    var q := CheckInstance(p, r, false, a.secondary).s;
    CheckInstanceIsLegal(rules, s, r, true, a.primary);
    PendingAfter(rules, s, p);
    CheckInstanceIsLegal(rules, p, r, false, a.secondary);
    PendingAfter(rules, p, q);
    WaitIsLegal(rules, q, a.delay);
    StepsAreTransitive(rules, s, p, q);
    StepsAreTransitive(rules, s, q, Tick(q, a.delay));
  }

  lemma CompleteCheckIsLegal(rules: Rules, s: Session, r: Request, a: CompleteAnswer)
    requires Exact(s) && Obeys(rules, r.spec)
    ensures StepsLegally(rules, s, CompleteCheck(s, r, a).s)
  {
    TwoChecksAreLegal(rules, s, r, a);
    hide Notes, StoreStatus, Obeys, StepsLegally, CheckInstance, Observe, Pending, Pristine, Spares, Exact;
    var c := CheckInstance(CheckInstance(s, r, true, a.primary).s, r, false, a.secondary);
    var s1 := Tick(c.s, a.delay);
    PendingAfter(rules, s, s1);
    var seen := ReplicationObserved(c.healthy && c.lag.Some?, Seconds(s1.api.now));
    var list := Observe(s1.copy.status.conditions, seen);
    WritersNote(s1.copy.status.conditions, seen);
    ConditionWrite(rules, s1, r, list, REPLICATION_ACTIVE, a.write);
    var s2 := StoreStatus(WithConditions(s1, list), r, a.write).0;
    StepsAreTransitive(rules, s, s1, s2);
    AnnotationsDoNotMatter(rules, s, if list != s1.copy.status.conditions then s2 else s1, CompleteCheck(s, r, a).s);
  }

  lemma AnnotationsDoNotMatter(rules: Rules, s: Session, t: Session, u: Session)
    requires StepsLegally(rules, s, t) && u.api == t.api
    requires u.copy == t.copy.(annotations := u.copy.annotations)
    ensures StepsLegally(rules, s, u)
  {
  }

  /** What a stretch of a pass does apart from legal writes: how many events it records,
      which statements it executes, and which store it ends with. */
  datatype Effects = Effects(records: nat, executed: seq<Statement>, store: Store)

  ghost predicate Achieves(rules: Rules, s: Session, t: Session, e: Effects) {
    && Continues(rules, s.api.log, t.api.log) && Sound(t) && s.api.now <= t.api.now
    && |History(t.api.log)| == |History(s.api.log)| + e.records
    && t.api.statements == s.api.statements + e.executed
    && t.api.store == e.store
  }

  /** What the last write of a pass leaves behind, unless it records a failover. */
  ghost predicate Concludes(rules: Rules, s: Session, t: Session) {
    Achieves(rules, s, t, Effects(0, [], s.api.store))
  }

  lemma StepsConclude(rules: Rules, s: Session, t: Session)
    requires StepsLegally(rules, s, t)
    ensures Concludes(rules, s, t)
  {
  }

  lemma StepsThenConclude(rules: Rules, s: Session, t: Session, u: Session)
    requires StepsLegally(rules, s, t) && Concludes(rules, t, u)
    ensures Concludes(rules, s, u)
  {
  }

  lemma StepsThenAchieve(rules: Rules, s: Session, t: Session, u: Session, e: Effects)
    requires StepsLegally(rules, s, t) && Achieves(rules, t, u, e)
    ensures Achieves(rules, s, u, e)
  {
  }

  /** A write of a new status from a session that has only conditions pending. */
  lemma StatusWrite(rules: Rules, s: Session, r: Request, status: Status, a: WriteAnswer)
    requires Pending(s) && Obeys(rules, r.spec)
    requires Fresh(s) ==> Legal(rules, Last(s.api.log), Draft(WithStatus(s, status), Controller))
    requires status.failoverHistory == s.copy.status.failoverHistory
    ensures var (t, ok) := StoreStatus(WithStatus(s, status), r, a);
      Concludes(rules, s, t) && (ok ==> Exact(t) && Pending(t)) && t.copy.status == status
  {
    hide Grows, Legal, StoreStatus, Obeys;
    StoreIsLegal(rules, WithStatus(s, status), r, a);
    StoreKeepsCopy(WithStatus(s, status), r, a);
  }

  /** Drafts that change the phase, and possibly the lag, but no role. */
  lemma PhaseDraft(rules: Rules, s: Session, status: Status)
    requires Pending(s)
    requires SameRoles(s.copy.status, status) && status.conditions == s.copy.status.conditions
    requires PassPhases(s.copy.status.phase, status.phase)
    ensures Fresh(s) ==> Legal(rules, Last(s.api.log), Draft(WithStatus(s, status), Controller))
  {
  }

  lemma AutomaticDraft(rules: Rules, s: Session, r: Request)
    requires Pending(s) && Obeys(rules, r.spec) && s.copy.status.phase in {Running, Degraded}
    requires FailoverAllowed(r.spec, s.copy.status, s.api.now)
    ensures Fresh(s) ==>
      Legal(rules, Last(s.api.log), Draft(WithStatus(s, s.copy.status.(phase := Failover)), Controller))
  {
  }

  lemma CheckHealthIsLegal(rules: Rules, s: Session, r: Request, a: HealthAnswer)
    requires Exact(s) && Obeys(rules, r.spec) && s.copy.status.phase in {Running, Degraded}
    ensures Concludes(rules, s, CheckHealth(s, r, a).0)
  {
    hide Grows, Legal, StoreStatus, CompleteCheck, FailoverAllowed;
    var report := CompleteCheck(s, r, a.complete);
    CompleteCheckIsLegal(rules, s, r, a.complete);
    StepsConclude(rules, s, report.s);
    var s0 := report.s;
    if !report.primaryHealthy {
      var s1 := Tick(s0, a.delay);
      WaitIsLegal(rules, s0, a.delay);
      StepsAreTransitive(rules, s, s0, s1);
      StepsConclude(rules, s, s1);
      if a.trigger && FailoverAllowed(r.spec, s1.copy.status, s1.api.now) {
        AutomaticDraft(rules, s1, r);
        StatusWrite(rules, s1, r, s1.copy.status.(phase := Failover), a.phase);
        StepsThenConclude(rules, s, s1, StoreStatus(WithStatus(s1, s1.copy.status.(phase := Failover)), r, a.phase).0);
      }
    } else {
      var target := if report.secondaryHealthy && report.replicationHealthy then Running else Degraded;
      var status := s0.copy.status;
      PhaseDraft(rules, s0, status.(phase := target));
      StatusWrite(rules, s0, r, status.(phase := target), a.phase);
      var (s1, ok) := if status.phase == target then (s0, true)
                      else StoreStatus(WithStatus(s0, status.(phase := target)), r, a.phase);
      StepsThenConclude(rules, s, s0, s1);
      if ok && report.lag.Some? {
        PhaseDraft(rules, s1, s1.copy.status.(replicationLag := report.lag));
        StatusWrite(rules, s1, r, s1.copy.status.(replicationLag := report.lag), a.lag);
        ContinuesIsTransitive(rules, s.api.log, s1.api.log,
          StoreStatus(WithStatus(s1, s1.copy.status.(replicationLag := report.lag)), r, a.lag).0.api.log);
      }
    }
  }

  lemma RecordDraft(rules: Rules, s: Session, stamp: int, duration: int)
    requires Pending(s) && s.copy.status.phase == Failover
    requires Seconds(Last(s.api.log).at) <= stamp <= Seconds(s.api.now) && duration >= 0
    ensures Fresh(s) ==>
      Legal(rules, Last(s.api.log), Draft(WithStatus(s, AfterFailover(s.copy.status, stamp, duration)), Controller))
  {
  }

  lemma RejoinDraft(rules: Rules, s: Session)
    requires Pending(s) && s.copy.status.phase == Recovering && rules.failback
    requires OldPrimary(s.copy.status.failoverHistory) != ""
    ensures var status := s.copy.status.(currentSecondary := OldPrimary(s.copy.status.failoverHistory), phase := Running);
      Fresh(s) ==> Legal(rules, Last(s.api.log), Draft(WithStatus(s, status), Controller))
  {
  }

  /** A write that records a failover, if it is accepted. */
  lemma RecordWrite(rules: Rules, s: Session, r: Request, stamp: int, duration: int, a: WriteAnswer)
    requires Pending(s) && Obeys(rules, r.spec) && s.copy.status.phase == Failover
    requires Seconds(Last(s.api.log).at) <= stamp <= Seconds(s.api.now) && duration >= 0
    ensures var (t, ok) := StoreStatus(WithStatus(s, AfterFailover(s.copy.status, stamp, duration)), r, a);
      Achieves(rules, s, t, Effects(if ok then 1 else 0, [], s.api.store))
  {
    var status := AfterFailover(s.copy.status, stamp, duration);
    RecordDraft(rules, s, stamp, duration);
    hide Grows, Legal, StoreStatus, Obeys;
    StoreIsLegal(rules, WithStatus(s, status), r, a);
  }

  predicate Promotes(end: FailoverEnd) { end == Recorded || end == NotRecorded }

  /** What is executed, by the way a failover ends. A refused promotion leaves replication stopped. */
  function StatementsOf(spec: Spec, a: FailoverAnswer, end: FailoverEnd): seq<Statement> {
    if Promotes(end) then Stopped(a) + [SetReadOnly(spec.readOnlyMode.GetOr(false))]
    else if end == PromotionRefused then Stopped(a)
    else []
  }

  /** Recorded events, statements and the redirect, by the way a failover ends. */
  function FailoverEffects(store: Store, r: Request, a: FailoverAnswer, end: FailoverEnd): Effects {
    Effects(if end == Recorded then 1 else 0, StatementsOf(r.spec, a, end),
            if Promotes(end) then Redirect(store, r.name, a.redirect).0 else store)
  }

  lemma HandleFailoverIsLegal(rules: Rules, s: Session, r: Request, a: FailoverAnswer)
    requires Exact(s) && Obeys(rules, r.spec) && s.copy.status.phase == Failover
    ensures var (t, end) := HandleFailover(s, r, a);
      Achieves(rules, s, t, FailoverEffects(s.api.store, r, a, end))
  {
    hide Grows, Legal, StoreStatus, CheckInstance, Redirect, Continues, ResetBoth, AfterFailover, Stopped;
    var c := CheckInstance(s, r, false, a.instance);
    ExactIsPending(s);
    CheckInstanceIsLegal(rules, s, r, false, a.instance);
    StepsConclude(rules, s, c.s);
    if !c.healthy {
      PhaseDraft(rules, c.s, c.s.copy.status.(phase := Failing));
      StatusWrite(rules, c.s, r, c.s.copy.status.(phase := Failing), a.failing);
      StepsThenConclude(rules, s, c.s, StoreStatus(WithStatus(c.s, c.s.copy.status.(phase := Failing)), r, a.failing).0);
    } else if a.connection && !(Safe(r.spec) && a.replication.Unreadable?) && a.promoted {
      var p := Execute(c.s, Stopped(a) + [SetReadOnly(r.spec.readOnlyMode.GetOr(false))]);
      var s0 := p.(api := p.api.(store := Redirect(p.api.store, r.name, a.redirect).0));
      var s1 := Tick(s0, a.stampDelay);
      var s2 := Tick(s1, a.measureDelay);
      var s3 := s2.(copy := s2.copy.(annotations := ResetBoth(s2.copy.annotations)));
      var duration := Seconds(s2.api.now - s.api.now);
      RecordWrite(rules, s3, r, Seconds(s1.api.now), duration, a.write);
      var (u, ok) := StoreStatus(WithStatus(s3, AfterFailover(s2.copy.status, Seconds(s1.api.now), duration)), r, a.write);
      assert Achieves(rules, c.s, u, FailoverEffects(s.api.store, r, a, if ok then Recorded else NotRecorded));
      StepsThenAchieve(rules, s, c.s, u, FailoverEffects(s.api.store, r, a, if ok then Recorded else NotRecorded));
    }
  }

  lemma HandleRecoveryIsLegal(rules: Rules, s: Session, r: Request, a: RecoveryAnswer)
    requires Exact(s) && Obeys(rules, r.spec) && s.copy.status.phase == Recovering
    ensures Concludes(rules, s, HandleRecovery(s, r, a).0)
  {
    ContinuesIsReflexive(rules, s.api.log);
    hide Grows, Legal, StoreStatus, Continues;
    var former := OldPrimary(s.copy.status.failoverHistory);
    if former != "" && r.spec.automaticFailback == Some(true) {
      ExactIsPending(s);
      RejoinDraft(rules, s);
      StatusWrite(rules, s, r, s.copy.status.(currentSecondary := former, phase := Running), a.write);
    }
  }

  lemma StatefulSetsStageIsLegal(rules: Rules, s: Session, r: Request, a: SetsAnswer)
    requires Exact(s) && Obeys(rules, r.spec)
    ensures var (t, out) := ReconcileStatefulSets(s, r, a);
      && Achieves(rules, s, t, Effects(0, [], SyncStatefulSets(s.api.store, r.name, r.spec, a.sets).0))
      && (out == Proceed ==> Exact(t))
  {
    ContinuesIsReflexive(rules, s.api.log);
    hide Grows, Legal, StoreStatus, Continues, SyncStatefulSets, IsReady;
    var s1 := s.(api := s.api.(store := SyncStatefulSets(s.api.store, r.name, r.spec, a.sets).0));
    if s.copy.status.phase == Initializing {
      ExactIsPending(s1);
      PhaseDraft(rules, s1, s1.copy.status.(phase := Running));
      StatusWrite(rules, s1, r, s1.copy.status.(phase := Running), a.write);
    }
  }

  lemma ServicesStageIsLegal(rules: Rules, s: Session, r: Request, a: ServiceAnswers)
    requires Exact(s)
    ensures var t := ReconcileServices(s, r, a).0;
      Achieves(rules, s, t, Effects(0, [], SyncServices(s.api.store, r.name, a).0)) && Exact(t)
  {
  }

  lemma ReplicationStageIsLegal(rules: Rules, s: Session, r: Request, a: SetupAnswer)
    requires Exact(s) && Obeys(rules, r.spec)
    ensures var (t, out) := ReconcileReplication(s, r, a);
      Concludes(rules, s, t) && (out == Proceed ==> Exact(t))
  {
    ContinuesIsReflexive(rules, s.api.log);
    var s1 := Tick(s, a.delay);
    var seen := Configured(Seconds(s1.api.now));
    WritersNote(s1.copy.status.conditions, seen);
    ExactIsPending(s);
    WaitIsLegal(rules, s, a.delay);
    hide Grows, Legal, StoreStatus, Continues, Replace, IsReady, SaysActive, Notes, Untouched, Evolves;
    var list := Replace(s1.copy.status.conditions, seen);
    if !SaysActive(s.copy.status.conditions) {
      ConditionWrite(rules, s1, r, list, REPLICATION_ACTIVE, a.write);
      StepsConclude(rules, s1, StoreStatus(WithConditions(s1, list), r, a.write).0);
    }
  }

  lemma AchievesIsTransitive(rules: Rules, s: Session, t: Session, u: Session, e: Effects, f: Effects)
    requires Achieves(rules, s, t, e) && Achieves(rules, t, u, f)
    ensures Achieves(rules, s, u, Effects(e.records + f.records, e.executed + f.executed, f.store))
  {
  }

  function DispatchEffects(store: Store, r: Request, a: PassAnswer, end: PassEnd): Effects {
    if end.FailoverPass? then FailoverEffects(store, r, a.failover, end.failover) else Effects(0, [], store)
  }

  lemma DispatchIsLegal(rules: Rules, s: Session, r: Request, a: PassAnswer)
    requires Exact(s) && Obeys(rules, r.spec)
    ensures var (t, end) := Dispatch(s, r, a);
      Achieves(rules, s, t, DispatchEffects(s.api.store, r, a, end))
  {
    ContinuesIsReflexive(rules, s.api.log);
    hide Continues, CheckHealth, HandleFailover, HandleRecovery, Obeys, Grows;
    match s.copy.status.phase
    case Running | Degraded => CheckHealthIsLegal(rules, s, r, a.health);
    case Failover => HandleFailoverIsLegal(rules, s, r, a.failover);
    case Recovering => HandleRecoveryIsLegal(rules, s, r, a.recovery);
    case _ =>
  }

  /** The effects of the main pipeline, in terms of where it ends. */
  function PipelineEffects(s: Session, r: Request, a: PassAnswer): Effects {
    var sets := SyncStatefulSets(s.api.store, r.name, r.spec, a.sets.sets).0;
    var (s1, out1) := ReconcileStatefulSets(s, r, a.sets);
    if out1 != Proceed then Effects(0, [], sets) else
    var services := SyncServices(sets, r.name, a.services).0;
    if ReconcileServices(s1, r, a.services).1 != Proceed then Effects(0, [], services) else
    DispatchEffects(services, r, a, Pipeline(s, r, a).1)
  }

  lemma PipelineIsLegal(rules: Rules, s: Session, r: Request, a: PassAnswer)
    requires Exact(s) && Obeys(rules, r.spec)
    ensures Achieves(rules, s, Pipeline(s, r, a).0, PipelineEffects(s, r, a))
  {
    hide ReconcileStatefulSets, ReconcileReplication, Dispatch, Pending, Obeys, SyncStatefulSets, SyncServices;
    hide Continues;
    var (s1, out1) := ReconcileStatefulSets(s, r, a.sets);
    StatefulSetsStageIsLegal(rules, s, r, a.sets);
    if out1 == Proceed {
      var (s2, out2) := ReconcileServices(s1, r, a.services);
      ServicesStageIsLegal(rules, s1, r, a.services);
      var e := Effects(0, [], s2.api.store);
      AchievesIsTransitive(rules, s, s1, s2, Effects(0, [], s1.api.store), e);
      if out2 == Proceed {
        var (s3, out3) := ReconcileReplication(s2, r, a.setup);
        ReplicationStageIsLegal(rules, s2, r, a.setup);
        AchievesIsTransitive(rules, s, s2, s3, e, e);
        if out3 == Proceed {
          DispatchIsLegal(rules, s3, r, a);
          var (s4, end) := Dispatch(s3, r, a);
          AchievesIsTransitive(rules, s, s3, s4, e, DispatchEffects(s3.api.store, r, a, end));
        }
      }
    }
  }

  /** The annotations in the copy are those of the version it stems from. */
  ghost predicate AsRead(s: Session) {
    Sound(s) && s.copy.annotations == s.api.log[s.copy.version - 1].annotations
  }

  /** A full update sends the annotations of the copy, which at this point are the stored ones. */
  lemma FinalizerWriteIsLegal(rules: Rules, s: Session, r: Request, finalizer: bool, a: WriteAnswer)
    requires AsRead(s) && Obeys(rules, r.spec)
    ensures Concludes(rules, s, PutFinalizer(Await(s, r, a), finalizer, a.up).0)
  {
    hide Await, Obeys;
    var t := Await(s, r, a);
    AwaitAdvances(rules, s, r, a);
    var u := PutFinalizer(t, finalizer, a.up).0;
    GrowsIsReflexive(Last(t.api.log).status.conditions);
    assert Continues(rules, t.api.log, u.api.log);
    ContinuesIsTransitive(rules, s.api.log, t.api.log, u.api.log);
  }

  function PassEffects(s: Session, r: Request, a: PassAnswer): Effects {
    if !s.copy.finalizer then Effects(0, [], s.api.store)
    else if s.copy.deleting then Effects(0, [], DeleteFrom(s.api.store, Targets(r.name), a.deletions).0)
    else if s.copy.status.phase == Unset then Effects(0, [], s.api.store)
    else PipelineEffects(s, r, a)
  }

  lemma PassOnIsLegal(rules: Rules, s: Session, r: Request, a: PassAnswer)
    requires Exact(s) && AsRead(s) && Obeys(rules, r.spec)
    ensures Achieves(rules, s, PassOn(s, r, a).0, PassEffects(s, r, a))
  {
    hide Grows, Legal, Pipeline, PipelineEffects, StoreStatus, PutFinalizer, Await, DeleteFrom, Obeys;
    ContinuesIsReflexive(rules, s.api.log);
    if !s.copy.finalizer {
      FinalizerWriteIsLegal(rules, s, r, true, a.finalizer);
    } else if s.copy.deleting {
      var s1 := s.(api := s.api.(store := DeleteFrom(s.api.store, Targets(r.name), a.deletions).0));
      FinalizerWriteIsLegal(rules, s1, r, false, a.finalizer);
    } else if s.copy.status.phase == Unset {
      ExactIsPending(s);
      PhaseDraft(rules, s, s.copy.status.(phase := Initializing));
      StatusWrite(rules, s, r, s.copy.status.(phase := Initializing), a.init);
    } else {
      PipelineIsLegal(rules, s, r, a);
    }
  }

  /** Every write of a pass is legal, and so is every write that comes in between. */
  lemma ReconcileWritesAreLegal(rules: Rules, w: World, r: Request, a: PassAnswer)
    requires WorldSound(w) && Obeys(rules, r.spec)
    ensures var v := Reconcile(w, r, a).0;
      Continues(rules, w.log, v.log) && WorldSound(v) && w.now <= v.now
  {
    ContinuesIsReflexive(rules, w.log);
    if a.get.Found? {
      ReadIsExact(w, a.get.staleness, 0);
      hide Grows, Legal, Continues, PassOn, PassEffects;
      PassOnIsLegal(rules, Read(w, a.get.staleness), r, a);
    }
  }
}
