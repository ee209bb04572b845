/** Whole runs: any sequence of passes, triggers by hand and outside writes, with any answers. */
module Runs {
  import opened Wrappers
  import opened Throttle
  import opened Resource
  import opened Conditions
  import opened Objects
  import opened Cluster
  import opened Passes
  import opened Routing
  import opened Safety

  /** A step of a run. Each step carries the specification in force, so it may be edited at any time. */
  datatype Step = Pass(r: Request, a: PassAnswer) | Outside(r: Request, i: Interrupt)

  function Next(w: World, step: Step): World {
    match step
    case Pass(r, a) => Reconcile(w, r, a).0
    case Outside(r, i) => Interrupted1(w, r, i)
  }

  function Run(w: World, steps: seq<Step>): World {
    if steps == [] then w else Next(Run(w, steps[..|steps| - 1]), steps[|steps| - 1])
  }

  ghost predicate AllObey(rules: Rules, steps: seq<Step>) {
    forall i | 0 <= i < |steps| :: Obeys(rules, steps[i].r.spec)
  }

  /** In every run, every stored version but the first ones came about by a legal write. */
  lemma {:induction false} RunWritesAreLegal(rules: Rules, w: World, steps: seq<Step>)
    requires WorldSound(w) && AllObey(rules, steps)
    ensures var v := Run(w, steps);
      Continues(rules, w.log, v.log) && WorldSound(v) && w.now <= v.now
  {
    hide Legal, Reconcile, Interrupted1, Obeys, Continues;
    if steps == [] {
      ContinuesIsReflexive(rules, w.log);
    } else {
      var init, last := steps[..|steps| - 1], steps[|steps| - 1];
      assert Obeys(rules, last.r.spec);
      assert AllObey(rules, init);
      RunWritesAreLegal(rules, w, init);
      var v := Run(w, init);
      match last {
        case Pass(r, a) => ReconcileWritesAreLegal(rules, v, r, a);
        case Outside(r, i) => InterruptIsLegal(rules, v, r, i);
      }
      ContinuesIsTransitive(rules, w.log, v.log, Next(v, last).log);
    }
  }

  // ---------- roles ----------

  /** Two distinct instances, the first of them primary, and no failover under way. */
  ghost predicate Begins(p: string, q: string, v: Version) {
    && p != q && p != "" && q != ""
    && v.status.currentPrimary == p && v.status.currentSecondary == q
    && !InProgress(v.status.phase)
  }

  /** The primary after `n` failovers. */
  function Turn(p: string, q: string, n: nat): string { if n % 2 == 0 then p else q }

  /** The roles that a stored status shows, `known` events having been there at the start. */
  ghost predicate RolesFit(p: string, q: string, known: nat, s: Status) {
    && known <= |s.failoverHistory|
    && var n := |s.failoverHistory| - known;
    && s.currentPrimary == Turn(p, q, n)
    && s.currentSecondary == (if s.phase == Recovering then "" else Turn(p, q, n + 1))
    && (s.phase == Recovering ==> n > 0)
    && forall i | known <= i < |s.failoverHistory| ::
         s.failoverHistory[i].oldPrimary == Turn(p, q, i - known)
         && s.failoverHistory[i].newPrimary == Turn(p, q, i - known + 1)
  }

  lemma RecordKeepsRoles(p: string, q: string, known: nat, b: Version, a: Version)
    requires RolesFit(p, q, known, b.status) && Records(b, a)
    ensures RolesFit(p, q, known, a.status)
    ensures b.status.failoverHistory <= a.status.failoverHistory
  {
  }

  lemma RejoinKeepsRoles(rules: Rules, p: string, q: string, known: nat, b: Version, a: Version)
    requires RolesFit(p, q, known, b.status) && Rejoins(rules, b, a)
    ensures RolesFit(p, q, known, a.status)
  {
    var m := |b.status.failoverHistory|;
    assert OldPrimary(b.status.failoverHistory) == Turn(p, q, m - known - 1) == Turn(p, q, m - known + 1);
  }

  lemma OthersKeepRoles(p: string, q: string, known: nat, b: Status, a: Status)
    requires RolesFit(p, q, known, b) && SameRoles(b, a) && (b.phase == Recovering <==> a.phase == Recovering)
    ensures RolesFit(p, q, known, a)
  {
  }

  lemma RolesAreKept(rules: Rules, p: string, q: string, known: nat, b: Version, a: Version)
    requires RolesFit(p, q, known, b.status) && Legal(rules, b, a)
    ensures RolesFit(p, q, known, a.status)
    ensures b.status.failoverHistory <= a.status.failoverHistory
  {
    hide Grows, GateOpen, RolesFit;
    if a.author == Controller && Records(b, a) {
      RecordKeepsRoles(p, q, known, b, a);
    } else if a.author == Controller && Rejoins(rules, b, a) {
      RejoinKeepsRoles(rules, p, q, known, b, a);
    } else {
      OthersKeepRoles(p, q, known, b.status, a.status);
    }
  }

  /** In every stored version of every run: the names swap with each recorded failover, each
      event's old primary is the previous event's new one, the secondary is missing exactly
      while recovering, and the history only grows at its end. */
  lemma {:induction false} RolesOverRuns(rules: Rules, p: string, q: string, log: Log, later: Log, i: nat)
    requires Continues(rules, log, later) && Begins(p, q, Last(log))
    requires |log| - 1 <= i < |later|
    ensures RolesFit(p, q, |History(log)|, later[i].status)
    ensures History(log) <= later[i].status.failoverHistory
    decreases i
  {
    hide Legal, RolesFit;
    if i == |log| - 1 {
      assert later[i] == Last(log);
      RolesFitAtFirst(p, q, Last(log));
    } else {
      RolesOverRuns(rules, p, q, log, later, i - 1);
      assert Legal(rules, later[i - 1], later[i]);
      RolesAreKept(rules, p, q, |History(log)|, later[i - 1], later[i]);
    }
  }

  lemma RolesFitAtFirst(p: string, q: string, v: Version)
    requires Begins(p, q, v)
    ensures RolesFit(p, q, |v.status.failoverHistory|, v.status)
  {
  }

  // ---------- spacing ----------

  /** The stamps of the events recorded since the start. */
  function Stamps(history: seq<FailoverEvent>, known: nat): seq<int>
    requires known <= |history|
  {
    seq(|history| - known, i requires 0 <= i < |history| - known => history[known + i].timestamp)
  }

  /** The last failover time is the last stamp; while a failover is under way the interval is over. */
  ghost predicate StampsFit(interval: int, start: Status, v: Version) {
    var s, known := v.status, |start.failoverHistory|;
    && known <= |s.failoverHistory|
    && var stamps := Stamps(s.failoverHistory, known);
    && Spaced(stamps, interval)
    && s.lastFailoverTime == (if stamps == [] then start.lastFailoverTime else Some(stamps[|stamps| - 1]))
    && (stamps != [] && start.lastFailoverTime.Some? ==> stamps[0] >= start.lastFailoverTime.value + interval)
    && (s.phase == Failover ==> GateOpen(interval, s.lastFailoverTime, v.at))
  }

  lemma StampsAreKept(rules: Rules, start: Status, b: Version, a: Version)
    requires StampsFit(rules.interval, start, b) && Legal(rules, b, a)
    ensures StampsFit(rules.interval, start, a)
  {
    hide Grows;
    var known := |start.failoverHistory|;
    if a.author == Controller && Records(b, a) {
      var m := |b.status.failoverHistory|;
      var event := a.status.failoverHistory[m];
      var before, stamps := Stamps(b.status.failoverHistory, known), Stamps(a.status.failoverHistory, known);
      assert stamps == before + [event.timestamp];
      if b.status.lastFailoverTime.Some? {
        SecondsReach(b.at, b.status.lastFailoverTime.value + rules.interval);
      }
    } else {
      assert Stamps(a.status.failoverHistory, known) == Stamps(b.status.failoverHistory, known);
    }
  }

  lemma SecondsReach(now: int, seconds: int)
    requires now >= seconds * SECOND
    ensures Seconds(now) >= seconds
  {
  }

  lemma {:induction false} StampsOverRuns(rules: Rules, log: Log, later: Log, i: nat)
    requires Continues(rules, log, later) && |log| - 1 <= i < |later|
    requires StampsFit(rules.interval, Last(log).status, Last(log))
    ensures StampsFit(rules.interval, Last(log).status, later[i])
    decreases i
  {
    hide Legal, StampsFit;
    if i == |log| - 1 {
      assert later[i] == Last(log);
    } else {
      StampsOverRuns(rules, log, later, i - 1);
      StampsAreKept(rules, Last(log).status, later[i - 1], later[i]);
    }
  }

  /** In every run, the events recorded since the start are spaced by the interval, also from
      the failover before the start. The gate is checked in one step and the event stamped in
      another; yet no pair is closer. */
  lemma RecordedFailoversAreSpaced(rules: Rules, w: World, steps: seq<Step>)
    requires WorldSound(w) && AllObey(rules, steps) && Last(w.log).status.phase != Failover
    ensures var history, known := History(Run(w, steps).log), |History(w.log)|;
      && known <= |history|
      && Spaced(Stamps(history, known), rules.interval)
      && (known < |history| && Last(w.log).status.lastFailoverTime.Some? ==>
            history[known].timestamp >= Last(w.log).status.lastFailoverTime.value + rules.interval)
  {
    hide Run, Grows, GateOpen, Legal;
    var later := Run(w, steps).log;
    RunWritesAreLegal(rules, w, steps);
    StampsOverRuns(rules, w.log, later, |later| - 1);
  }

  /** Any window of any run holds at most (length / interval) + 1 newly recorded failovers. */
  lemma FailoverRateIsBounded(rules: Rules, w: World, steps: seq<Step>, lo: int, hi: int)
    requires WorldSound(w) && AllObey(rules, steps) && Last(w.log).status.phase != Failover
    requires rules.interval > 0 && lo <= hi
    ensures var history, known := History(Run(w, steps).log), |History(w.log)|;
      known <= |history| && CountIn(Stamps(history, known), lo, hi) <= (hi - lo) / rules.interval + 1
  {
    hide Run;
    RecordedFailoversAreSpaced(rules, w, steps);
    RateBound(Stamps(History(Run(w, steps).log), |History(w.log)|), rules.interval, lo, hi);
  }

  /** The chain of roles at the end of a run. */
  lemma RolesAfterRun(p: string, q: string, rules: Rules, w: World, steps: seq<Step>)
    requires WorldSound(w) && AllObey(rules, steps) && Begins(p, q, Last(w.log))
    ensures var v := Run(w, steps);
      && History(w.log) <= History(v.log)
      && RolesFit(p, q, |History(w.log)|, Last(v.log).status)
  {
    hide Run, Begins, Legal, RolesFit;
    var later := Run(w, steps).log;
    RunWritesAreLegal(rules, w, steps);
    RolesOverRuns(rules, p, q, w.log, later, |later| - 1);
  }

  // ---------- phases ----------

  /** The phase changes that stored versions can show, by author. */
  predicate PhaseMoves(rules: Rules, author: Author, p: Phase, q: Phase) {
    || p == q
    || (author == Outsider && !InProgress(p) && q == Failover)
    || (author == Controller
        && match (p, q)
           case (Unset, Initializing) => true
           case (Initializing, Running) => true
           case (Running, Degraded) => true
           case (Degraded, Running) => true
           case (Running, Failover) => rules.automatic
           case (Degraded, Failover) => rules.automatic
           case (Failover, Failing) => true
           case (Failover, Recovering) => true
           case (Recovering, Running) => rules.failback
           case _ => false)
  }

  /** Every phase change of every run is one of these: passes leave Recovering only to Running
      and only where failback is declared, leave Failover only to Recovering or Failing, never
      leave Failing or MaintenanceMode; and nobody enters a failover while one is under way. */
  lemma PhasesOverRuns(rules: Rules, w: World, steps: seq<Step>, i: nat)
    requires WorldSound(w) && AllObey(rules, steps)
    requires |w.log| <= i < |Run(w, steps).log|
    ensures var log := Run(w, steps).log;
      PhaseMoves(rules, log[i].author, log[i - 1].status.phase, log[i].status.phase)
  {
    hide Run, Grows;
    RunWritesAreLegal(rules, w, steps);
    var log := Run(w, steps).log;
    assert Legal(rules, log[i - 1], log[i]);
  }

  /** Without failback, whatever has been recorded once keeps the resource recovering. */
  lemma {:induction false} NoFailbackOverRuns(rules: Rules, log: Log, later: Log, i: nat)
    requires Continues(rules, log, later) && |log| - 1 <= i < |later| && !rules.failback
    ensures var n, recovering := |later[i].status.failoverHistory| - |History(log)|, Last(log).status.phase == Recovering;
      && 0 <= n <= (if recovering then 0 else 1)
      && (n == 1 || recovering ==> later[i].status.phase == Recovering)
    decreases i
  {
    hide Grows, GateOpen;
    if i == |log| - 1 {
      assert later[i] == Last(log);
    } else {
      NoFailbackOverRuns(rules, log, later, i - 1);
      assert Legal(rules, later[i - 1], later[i]);
    }
  }

  /** Where failback is never declared, a run records at most one failover, and none once recovering. */
  lemma AtMostOneFailoverWithoutFailback(rules: Rules, w: World, steps: seq<Step>)
    requires WorldSound(w) && AllObey(rules, steps) && !rules.failback
    ensures var n := |History(Run(w, steps).log)| - |History(w.log)|;
      0 <= n <= if Last(w.log).status.phase == Recovering then 0 else 1
  {
    hide Run, Legal;
    RunWritesAreLegal(rules, w, steps);
    var log := Run(w, steps).log;
    NoFailbackOverRuns(rules, w.log, log, |log| - 1);
  }

  /** No role has a name, and nothing recorded so far names a former primary. */
  ghost predicate Nameless(s: Status) {
    s.currentPrimary == "" && s.currentSecondary == "" && OldPrimary(s.failoverHistory) == ""
  }

  lemma NamelessIsKept(rules: Rules, b: Version, a: Version)
    requires Legal(rules, b, a) && Nameless(b.status)
    ensures Nameless(a.status) && (b.status.phase == Recovering ==> a.status.phase == Recovering)
    ensures |a.status.failoverHistory| > |b.status.failoverHistory| ==>
      b.status.phase == Failover && a.status.phase == Recovering
      && |a.status.failoverHistory| == |b.status.failoverHistory| + 1
  {
  }

  lemma {:induction false} NamelessOverRuns(rules: Rules, log: Log, later: Log, i: nat)
    requires Continues(rules, log, later) && |log| - 1 <= i < |later| && Nameless(Last(log).status)
    ensures var s, n := later[i].status, |later[i].status.failoverHistory| - |History(log)|;
      Nameless(s) && n <= 1 && (n == 1 ==> s.phase == Recovering)
    decreases i
  {
    hide Legal, Nameless;
    if i == |log| - 1 {
      assert later[i] == Last(log);
    } else {
      NamelessOverRuns(rules, log, later, i - 1);
      NamelessIsKept(rules, later[i - 1], later[i]);
    }
  }

  /** No step ever gives the roles a name. Started without names, a run never has any; and then
      the first recorded failover is also the last, failback or not, because no former primary
      can be found. */
  lemma RolesAreNeverInitialised(rules: Rules, w: World, steps: seq<Step>)
    requires WorldSound(w) && AllObey(rules, steps) && Nameless(Last(w.log).status)
    ensures var s, n := Last(Run(w, steps).log).status, |History(Run(w, steps).log)| - |History(w.log)|;
      Nameless(s) && n <= 1 && (n == 1 ==> s.phase == Recovering)
  {
    hide Run, Legal, Nameless;
    RunWritesAreLegal(rules, w, steps);
    var log := Run(w, steps).log;
    NamelessOverRuns(rules, w.log, log, |log| - 1);
  }

  // ---------- conservation ----------

  function EndOf(w: World, step: Step): PassEnd {
    match step
    case Pass(r, a) => Reconcile(w, r, a).1
    case Outside(_, _) => Idle
  }

  /** How many passes of a run ended with an unrecorded promotion: the last write was refused. */
  function Unrecorded(w: World, steps: seq<Step>): nat {
    if steps == [] then 0
    else
      var init := steps[..|steps| - 1];
      Unrecorded(w, init)
      + if EndOf(Run(w, init), steps[|steps| - 1]) == FailoverPass(NotRecorded) then 1 else 0
  }

  function RecordsOf(end: PassEnd): nat { if end == FailoverPass(Recorded) then 1 else 0 }

  function ExecutedBy(spec: Spec, a: PassAnswer, end: PassEnd): seq<Statement> {
    if end.FailoverPass? then StatementsOf(spec, a.failover, end.failover) else []
  }

  predicate Promoted(end: PassEnd) { end.FailoverPass? && Promotes(end.failover) }

  function Promotions(statements: seq<Statement>): nat {
    if statements == [] then 0
    else Promotions(statements[..|statements| - 1]) + if statements[|statements| - 1].SetReadOnly? then 1 else 0
  }

  lemma {:induction false} PromotionsAppend(a: seq<Statement>, b: seq<Statement>)
    ensures Promotions(a + b) == Promotions(a) + Promotions(b)
  {
    if b == [] {
      assert a + b == a;
    } else {
      assert (a + b)[..|a + b| - 1] == a + b[..|b| - 1];
      PromotionsAppend(a, b[..|b| - 1]);
    }
  }

  /** A pass executes at most one promotion, namely when it ends promoted. */
  lemma PromotionsOfPass(before: seq<Statement>, spec: Spec, a: PassAnswer, end: PassEnd)
    ensures Promotions(before + ExecutedBy(spec, a, end)) == Promotions(before) + if Promoted(end) then 1 else 0
  {
    var stop := Stopped(a.failover);
    PromotionsAppend(before, ExecutedBy(spec, a, end));
    assert Promotions(stop) == 0 by {
      assert Promotions([]) == 0;
      if stop != [] {
        assert stop[..1] == [StopReplication] && [StopReplication][..0] == [];
        assert Promotions([StopReplication]) == 0;
      }
    }
    var set1 := [SetReadOnly(spec.readOnlyMode.GetOr(false))];
    PromotionsAppend(stop, set1);
    assert set1[..0] == [];
  }

  /** Only the last stage of a pass records or promotes, and the way it ends tells. */
  lemma EffectsByEnd(s: Session, r: Request, a: PassAnswer)
    ensures var e, end := PassEffects(s, r, a), PassOn(s, r, a).1;
      e.records == RecordsOf(end) && e.executed == ExecutedBy(r.spec, a, end)
  {
    hide ReconcileStatefulSets, ReconcileReplication, SyncStatefulSets, SyncServices, Dispatch;
    hide Redirect, StoreStatus, PutFinalizer, Await;
    if s.copy.finalizer && !s.copy.deleting && s.copy.status.phase != Unset {
      var (s1, out1) := ReconcileStatefulSets(s, r, a.sets);
      var (s2, out2) := ReconcileServices(s1, r, a.services);
      var (s3, out3) := ReconcileReplication(s2, r, a.setup);
      assert Pipeline(s, r, a).1 == if out1 == Proceed && out2 == Proceed && out3 == Proceed then Dispatch(s3, r, a).1
                                    else if out1 == Requeue || (out1 == Proceed && out2 == Requeue) then ObjectsRequeued else Errored;
    }
  }

  /** One pass: an event is recorded exactly by a pass that ends so, and only in a pass that has
      set the secondary's database to the declared read-only mode. */
  lemma PassConservesPromotions(rules: Rules, w: World, r: Request, a: PassAnswer)
    requires WorldSound(w) && Obeys(rules, r.spec)
    ensures var (v, end) := Reconcile(w, r, a);
      && |History(v.log)| == |History(w.log)| + RecordsOf(end)
      && v.statements == w.statements + ExecutedBy(r.spec, a, end)
  {
    hide PassOn, PassEffects, Continues, Grows;
    if a.get.Found? {
      ReadIsExact(w, a.get.staleness, 0);
      var s := Read(w, a.get.staleness);
      PassOnIsLegal(rules, s, r, a);
      EffectsByEnd(s, r, a);
    }
  }

  /** In every run: promotions carried out = events recorded + passes whose last write was refused. */
  lemma {:induction false} PromotionsAreConserved(rules: Rules, w: World, steps: seq<Step>)
    requires WorldSound(w) && AllObey(rules, steps)
    ensures var v := Run(w, steps);
      && w.statements <= v.statements
      && Promotions(v.statements) - Promotions(w.statements) == |History(v.log)| - |History(w.log)| + Unrecorded(w, steps)
  {
    hide Reconcile, Interrupted1, Obeys, Continues;
    if steps != [] {
      var init, last := steps[..|steps| - 1], steps[|steps| - 1];
      assert Obeys(rules, last.r.spec);
      assert AllObey(rules, init);
      PromotionsAreConserved(rules, w, init);
      RunWritesAreLegal(rules, w, init);
      var v := Run(w, init);
      match last {
        case Pass(r, a) =>
          PassConservesPromotions(rules, v, r, a);
          PromotionsOfPass(v.statements, r.spec, a, Reconcile(v, r, a).1);
        case Outside(r, i) => InterruptIsLegal(rules, v, r, i);
      }
    }
  }

  // ---------- the statements themselves ----------

  /** What a pass executes, by the way it ends and how far stopping the replication got: a promotion
      stops and resets replication before it sets the declared mode, as far as that succeeds; a
      refused promotion has done the same without the last; nothing else executes anything. */
  function Executes(spec: Spec, stop: StopAnswer, end: PassEnd): seq<Statement> {
    if end == FailoverPass(Recorded) || end == FailoverPass(NotRecorded) then
      match stop
      case NotStopped => [SetReadOnly(spec.readOnlyMode == Some(true))]
      case NotReset => [StopReplication, SetReadOnly(spec.readOnlyMode == Some(true))]
      case StoppedAndReset => [StopReplication, ResetReplication, SetReadOnly(spec.readOnlyMode == Some(true))]
    else if end == FailoverPass(PromotionRefused) then
      match stop
      case NotStopped => []
      case NotReset => [StopReplication]
      case StoppedAndReset => [StopReplication, ResetReplication]
    else []
  }

  lemma PassStatements(w: World, r: Request, a: PassAnswer)
    requires WorldSound(w)
    ensures var (v, end) := Reconcile(w, r, a);
      v.statements == w.statements + Executes(r.spec, a.failover.stop, end)
  {
    hide Reconcile;
    var rules := Rules(Interval(r.spec.minimumInterval), true, true);
    PassConservesPromotions(rules, w, r, a);
  }

  /** What a stop gets done before a promotion. */
  function StopsBefore(stop: StopAnswer): seq<Statement> {
    match stop
    case NotStopped => []
    case NotReset => [StopReplication]
    case StoppedAndReset => [StopReplication, ResetReplication]
  }

  lemma AtPromotion(before: seq<Statement>, spec: Spec, stop: StopAnswer, end: PassEnd, i: nat)
    requires |before| <= i < |before + Executes(spec, stop, end)| && (before + Executes(spec, stop, end))[i].SetReadOnly?
    ensures var all := before + Executes(spec, stop, end);
      all[i] == SetReadOnly(spec.readOnlyMode == Some(true)) && all[|before|..i] == StopsBefore(stop)
  {
  }

  /** In every run each promotion belongs to a pass, which has first stopped and reset the
      replication, as far as that succeeded, with nothing in between. */
  lemma {:induction false} PromotionsStopFirst(rules: Rules, w: World, steps: seq<Step>, i: nat) returns (k: nat)
    requires WorldSound(w) && AllObey(rules, steps)
    requires |w.statements| <= i < |Run(w, steps).statements| && Run(w, steps).statements[i].SetReadOnly?
    ensures k < |steps| && steps[k].Pass?
    ensures var before, all := |Run(w, steps[..k]).statements|, Run(w, steps).statements;
      && before <= i
      && all[i] == SetReadOnly(steps[k].r.spec.readOnlyMode == Some(true))
      && all[before..i] == StopsBefore(steps[k].a.failover.stop)
  {
    hide Reconcile, Interrupted1, Obeys, Continues, Executes, StopsBefore;
    if steps == [] {
      assert false;
    } else {
      var init, last := steps[..|steps| - 1], steps[|steps| - 1];
      assert Obeys(rules, last.r.spec);
      RunWritesAreLegal(rules, w, init);
      var v := Run(w, init);
      match last {
        case Pass(r, a) => PassStatements(v, r, a);
        case Outside(r, j) => InterruptIsLegal(rules, v, r, j);
      }
      if i < |v.statements| {
        k := PromotionsStopFirst(rules, w, init, i);
        assert init[..k] == steps[..k];
      } else {
        k := |steps| - 1;
        match last {
          case Pass(r, a) => AtPromotion(v.statements, r.spec, a.failover.stop, Reconcile(v, r, a).1, i);
          case Outside(_, _) =>
        }
      }
    }
  }
}
