# MariaDB HA operator: failover protocol and desired state, verified

The operator keeps a primary and a secondary MariaDB instance for each `MariaDBHA`
resource, monitors them, promotes the secondary when told to, and keeps the Kubernetes
objects of the resource as declared. This project models that controller and proves what its
writes can and cannot do, over single passes and over whole runs.

Two layers describe the same thing.

* The controller as it runs: the classes of `Operator.dfy` (`MariaDBHA`, the in-memory copy of a
  pass; `ApiServer`, what is stored; `MariaDBHAReconciler`, the controller) and the loops of
  `Conditions.dfy`, `ServerConfig.dfy` and `Operator.MapsEqual`. Methods update fields step by step.
* What each step comes to: functions in `Cluster.dfy`, `Objects.dfy`, `Routing.dfy`, `Teardown.dfy`
  and `Passes.dfy`. Each method is proved equal to its function; all further theorems are about
  the functions.

**Environment.** Every external answer is a parameter: TCP and SQL checks, pod lookups, readiness,
each lookup and each write of an object, the iteration order of maps, and the delays between
clock readings. The clock never goes back. A saved time stamp is a whole number of seconds, as
`metav1.Time` is serialised; the clock itself runs in nanoseconds.

**Concurrency.** The API server keeps a log of all versions of a resource; the resource version is
the place in the log. A read may come from a cache that lags by any number of versions. Before
any write of a pass is answered, others may trigger a failover by hand or edit the resource any
number of times. A write is accepted only from the current version, and may fail for other reasons as
well. A status write stores the status alone, a full update everything else in the copy, annotations included. Each version records its author, so that what passes do can be told from what
others do.

**Runs.** A run is any sequence of passes, manual triggers and outside edits, each with its own
specification and answers. `Safety.dfy` proves that every accepted write of every pass or trigger is one of a
few legal changes; `Runs.dfy`, `Monitoring.dfy` and `Lifecycle.dfy` derive whole-run theorems from that.
`Guard.dfy` adds what the finalizer protects, `Redirection.dfy` how long a redirect lasts, `Progress.dfy` and
`Bootstrap.dfy` what passes achieve when they are left alone.

**Findings.** Some expectations fail for the code as it stands. Each is stated as a lemma with its exact
condition or its consequence:

* `Teardown.CompleteIffLookupsAnswered`: deletion takes a broken lookup for an absent object, so the
  finalizer can come off while an object remains (`Teardown.BrokenLookupLeavesObject`).
* `Guard.GuardBreaksIff`: an object can also be left without the finalizer by a pass that works on a copy older
  than the finalizer's removal; it then writes configuration files again (`Guard.StaleReadBringsBack`).
* `Redirection.RedirectLastsUntilUndone`: the redirect to the promoted pod is undone by the first pass that gets to
  the services and may write there.
* `Objects.SettlesIffServerKeeps`: a server that always fills in a compared field of a stateful set keeps
  the operator rewriting it for ever.
* `Monitoring.CountersRestartEveryPass`: failure counters never accumulate across passes: no write of the
  controller changes stored annotations (`Monitoring.NoPassSavesAnnotations`).
* `Monitoring.StoredAgreesIff`: a refused condition write is only logged, so the stored phase can stand next to a
  condition that contradicts it.
* `Runs.RolesAreNeverInitialised`: no code names the roles; without names no former primary can rejoin.
* `Runs.AtMostOneFailoverWithoutFailback`: without failback a recorded failover is the last one.
* `ServerConfig.TextMeansIff`: keys and values are written unquoted; the text means what is declared exactly if each
  setting can be written so. A line break in a value, for one, makes two settings of it
  (`ServerConfig.LineBreakMakesTwoSettings`).
* `ServerConfig.TextsAgreeIff`: the text follows the iteration order of the parameters, so files are rewritten
  without a change of meaning whenever the order differs (`Objects.FilesRewrittenIff`).

**Assumptions.** `handlePrimaryFailure` is called by the controller and defined nowhere in the
repository; it is taken to leave the status alone or to start a failover when `isFailoverAllowed`
agrees (`Passes.AssumedPrimaryFailure`). The theorems on role names start from two distinct names. The
theorems on requeues assume that the server keeps what is written in the compared fields.

## Model

| member | source | states |
|---|---|---|
| Throttle.ThrottleIsExact | internal/controller/failover.go:465-480 | the throttle in 64-bit durations (wrapping product, saturating difference) is the comparison over the integers, for every 32-bit interval, with 300 s where none is declared |
| Runs.RecordedFailoversAreSpaced | internal/controller/failover.go:409-423 | in every run, consecutive recorded failovers, and the first one after an earlier failover, are at least the interval apart, though gate and stamp belong to different steps |
| Runs.FailoverRateIsBounded | internal/controller/failover.go:465-480 | any time window of any run holds at most length/interval + 1 newly recorded failovers |
| Runs.RolesAfterRun | internal/controller/failover.go:108-147 | after n recorded failovers the primary is the first name for even n and the second for odd n; each event's old primary is the previous one's new primary; the secondary is empty exactly while recovering; the history only grows at its end |
| Runs.RolesOverRuns | internal/controller/failover.go:279-320 | the same of every stored version on the way, whatever writes are refused |
| Runs.RolesAreNeverInitialised | internal/controller/failover.go:279-296 | started without names, no version ever names a role, and a recorded failover is the last |
| Runs.PhasesOverRuns | internal/controller/mariadbha_controller.go:103-146 | the table of phase changes that stored versions can show: Recovering is left only to Running with failback, Failover only to Recovering or Failing, Failing and MaintenanceMode by no pass; no trigger during a failover |
| Runs.AtMostOneFailoverWithoutFailback | internal/controller/failover.go:304-339 | without failback a run records at most one failover, none once recovering |
| Runs.PassConservesPromotions | internal/controller/failover.go:81-147 | an event is recorded exactly by a pass that ends so |
| Runs.PassStatements | internal/controller/failover.go:81-96 | the statements that a pass executes, in order: a promotion stops and resets replication, as far as that succeeds, before it sets the declared read-only mode; a refused promotion has stopped and reset; any other end executes nothing |
| Runs.PromotionsStopFirst | internal/controller/failover.go:158-227 | in every run each promotion belongs to a pass that has just stopped and reset replication, as far as that succeeded |
| Runs.PromotionsAreConserved | internal/controller/failover.go:90-147 | in every run: promotions carried out = events recorded + passes whose last status write was refused |
| Runs.RunWritesAreLegal | internal/controller/mariadbha_controller.go:69-147 | in every run every stored version came about by a legal write of its author |
| Safety.ReconcileWritesAreLegal | internal/controller/mariadbha_controller.go:69-147 | every write of a pass, from stale copies and with others in between, is legal |
| Safety.ManualWritesAreLegal | internal/controller/failover.go:398-446 | every write of a manual trigger keeps the roles, and enters a failover only outside one and after the interval |
| Safety.CheckHealthIsLegal | internal/controller/mariadbha_controller.go:478-540 | a health pass records nothing, executes nothing and only moves between Running, Degraded and a permitted Failover |
| Safety.HandleFailoverIsLegal | internal/controller/failover.go:23-155 | a failover pass swaps the roles, clears the secondary and appends one event stamped within the pass, or fails, or leaves the stored roles alone; what it executed follows from how it ended |
| Safety.HandleRecoveryIsLegal | internal/controller/failover.go:271-342 | a recovery pass makes the last event's old primary the secondary, and nothing else |
| Progress.LastStageByPhase | internal/controller/mariadbha_controller.go:130-146 | a pass over settled objects checks health exactly when running or degraded, fails over exactly when that is under way, recovers exactly when recovering, and else does nothing |
| Progress.MonitoringTells | internal/controller/mariadbha_controller.go:478-540 | an uninterrupted pass in either phase, by the instances' answers: the phase and lag it stores, whether a failover starts, and what each of the three conditions says |
| Progress.FailoverIsCompletedIff | internal/controller/failover.go:23-155 | an uninterrupted pass over settled objects completes a failover under way exactly if secondary, connection, replication state and promotion answer, with the event, its moment and its duration; an unhealthy secondary ends it in Failing, anything else leaves it under way with the roles as they were |
| Progress.ManualFailoverStartsIff | internal/controller/failover.go:398-446 | a trigger by hand starts a failover exactly if none is under way, the interval is over, the secondary is healthy and readable, and the write from the current version is accepted; it changes the phase, and notes that the secondary is ready |
| Progress.RecoveryEndsIff | internal/controller/failover.go:298-339 | recovery ends exactly if failback is declared and the former primary is named and answers |
| Redirection.RedirectLastsUntilUndone | internal/controller/failover.go:245-262 | after a recorded and redirected failover writers reach the promoted pod and no pod of role primary, through any further steps, exactly until the first pass that gets to the service stage and may write there, which sends them to role primary, or that removes the service |
| Redirection.RedirectStandsUntil | internal/controller/service.go:120-193 | over any run a selector other than the wanted one stands until the first such pass, and that one ends it |
| Redirection.PassAndRedirect | internal/controller/mariadbha_controller.go:86-128 | what any one pass does to a redirect, by its answers: undoes it, removes the service, or leaves it |
| Monitoring.PhaseAgreesWithConditions | internal/controller/mariadbha_controller.go:478-540 | with a primary that answers: in the copy, Running iff ReplicationActive is true iff the secondary answers and shows a lag, else Degraded, from any earlier phase and conditions |
| Monitoring.PrimaryFailsIff | internal/controller/mariadbha_controller.go:490-493 | the primary is taken for failed exactly if its connection, TCP or SQL check fails, and only then may a failover start |
| Monitoring.CheckNotes | internal/controller/health_check.go:336-403 | what one check of an instance leaves in the condition list: the whole entry where its status changes, nothing if the check itself fails |
| Monitoring.ReplicationNotes | internal/controller/health_check.go:425-478 | the same of the replication condition after both checks |
| Monitoring.StoredAgreesIff | internal/controller/mariadbha_controller.go:478-540 | with nobody else writing, the stored phase and condition agree exactly if the phase write, where due, and one of the writes carrying the condition were accepted, unless it was right before |
| Monitoring.CounterIsTrailingFailures | internal/controller/health_check.go:480-493 | over any sequence of checks of one object each counter is the number of its consecutive latest failures; other annotations stay |
| Monitoring.NoPassSavesAnnotations | internal/controller/mariadbha_controller.go:86-95 | in every run no write of the controller, full updates included, changes stored annotations |
| Monitoring.CountersRestartEveryPass | internal/controller/health_check.go:491-493 | after any run in which nobody else stores a counter, a health pass counts a failing instance once |
| Monitoring.TransitionTimesTell | internal/controller/health_check.go:361-396 | over any run an entry changes from one stored version to the next only if its status flips, and its transition time then lies between the two |
| Monitoring.UnflippedIsUnchanged | internal/controller/health_check.go:361-396 | while a stored status stays the same, so does its transition time |
| Monitoring.ConditionListsStaySmall | internal/controller/health_check.go:361-396 | over any run entries keep place and kind, at most three are added, kinds stay unique |
| FailureCount.AtoiRoundTrip | internal/controller/health_check.go:515-525 | a saved count is read back as itself, up to the 64-bit limit |
| FailureCount.AtoiReads | internal/controller/health_check.go:515-525 | signs are read; any other character that is no digit makes the text unreadable |
| FailureCount.CountIsRead | internal/controller/health_check.go:505-525 | each counter is read from its own annotation, zero where that is missing or unreadable |
| FailureCount.SaveReadsBack | internal/controller/health_check.go:528-544 | saving one counter is read back and leaves the other counter and all other annotations alone |
| FailureCount.CheckMovesCounters | internal/controller/health_check.go:480-493 | one check moves each counter to zero or one up, independently |
| FailureCount.ResetReadsZero | internal/controller/health_check.go:547-558 | a reset counter reads zero; the other counter and every other annotation stay |
| Monitoring.FailoverResetsCounters | internal/controller/failover.go:135-137 | a failover that promotes resets both counters of its copy, any other way out leaves them |
| Conditions.ObserveInPlace | internal/controller/health_check.go:361-396 | the loop updates the first entry of the kind in place if its status differs, appends if there is none, and says whether it changed anything |
| Conditions.ReplaceInPlace | internal/controller/mariadbha_controller.go:324-336 | the loop with the `updated` flag overwrites the first entry of the kind or appends one |
| Conditions.FindActive | internal/controller/mariadbha_controller.go:279-291 | found exactly if some entry says that replication is active |
| Conditions.ObserveRefinesMap | internal/controller/health_check.go:448-472 | as a map: other kinds untouched, own kind ends with the observed status, transition time set exactly when the status flips, kinds stay unique |
| Conditions.ReplaceRefinesMap | internal/controller/mariadbha_controller.go:315-336 | as a map: an update at one key, which always flips what it finds |
| Conditions.GrowthIsBounded | internal/controller/mariadbha_controller.go:47-50 | any number of writes adds at most the three operator kinds |
| ServerConfig.MergeMySQLConfigs | internal/controller/statefulset.go:577-615 | the merge is a right-biased override in every field, for every iteration order |
| ServerConfig.MergeIsAMonoid | internal/controller/statefulset.go:577-615 | the merge is associative with the empty configuration as identity |
| ServerConfig.ResolutionAgreesWithMerge | internal/controller/health_check.go:44-71 | image and credentials resolved separately agree with the merged configuration; the keys of the secret and their defaults |
| ServerConfig.GenerateMariaDBConfig | internal/controller/statefulset.go:491-529 | the text produced for an iteration order |
| ServerConfig.LineRoundTrip | internal/controller/statefulset.go:523-526 | a written setting reads back as its key and trimmed value exactly for keys without outer blanks, separator or comment start |
| ServerConfig.TextMeansIff | internal/controller/statefulset.go:491-529 | for every iteration order the text means role defaults overridden by the parameters, exactly if each parameter fits on a line of its own and its key reads back |
| ServerConfig.CompilationPreservesMeaning | internal/controller/statefulset.go:93-103 | merging and then printing means role defaults, overridden by common, overridden by instance parameters, exactly if the merged parameters can be written |
| ServerConfig.TextsAgreeIff | internal/controller/statefulset.go:523-526 | two iteration orders of the same parameters give the same text only if they are the same |
| Objects.FilesRewrittenIff | internal/controller/statefulset.go:475-487 | with the specification unchanged, an answered pass rewrites the files exactly if its iteration order differs from the one they were written with |
| Objects.InstalledConfiguration | internal/controller/statefulset.go:130-157 | a pass that proceeds has installed files with that meaning, exactly if the merged parameters can be written |
| Objects.StageProceedsIffDeclared | internal/controller/statefulset.go:618-644 | the stage proceeds exactly if both stored sets have the declared replica, image, resources and volumes, and the answers about lookups and files let it |
| Objects.StatefulSetIsWrittenIff | internal/controller/statefulset.go:78-158 | a set is written exactly if it is not as declared and the answers let it, and what is written is what is declared |
| Objects.ImageChangeIsRolledOut | internal/controller/statefulset.go:625-629 | a change of one instance's image alone makes the next answered pass write that set with it, and requeue |
| Objects.InitScriptCreatesUser | internal/controller/statefulset.go:531-549 | the primary's script creates the declared replication user and grants it replication, the secondary's does nothing |
| Objects.SetsProceedIff | internal/controller/statefulset.go:78-158 | the stage proceeds exactly if both stateful sets are in order and the answers about lookups and files let it |
| Objects.SetsStageMeasure | internal/controller/statefulset.go:78-158 | a requeue of this stage pays exactly one debt; it proceeds only without debt; it fails only on a refused answer; only own objects are touched |
| Objects.ServicesStageMeasure | internal/controller/service.go:21-52 | the same for the four services |
| Objects.SettlesIffServerKeeps | internal/controller/statefulset.go:618-644 | from any store and with answers that vary: stateful sets settle, and the next stage is reached, exactly if each owed one was once stored as compared, the secondary's after the primary was in order |
| Objects.OwnersAreDisjoint | internal/controller/service.go:63-124 | generated names of distinct resources never coincide within a kind |
| Lifecycle.PassMeasure | internal/controller/mariadbha_controller.go:114-128 | one pass: requeues pay exactly one debt, only a pass without debt goes further, a promotion makes at most one debt |
| Lifecycle.PassRequeuesIffOwing | internal/controller/mariadbha_controller.go:114-123 | an answered pass requeues for objects exactly if something is missing or wrong, unless it stops at a refused end of the initialisation |
| Lifecycle.RequeuesAreBounded | internal/controller/mariadbha_controller.go:114-128 | over a run: requeues for objects at most six plus the number of promotions |
| Lifecycle.StepTouchesOnly | internal/controller/mariadbha_controller.go:69-147 | no step on one resource changes an object of another |
| Lifecycle.NothingComesBack | internal/controller/mariadbha_controller.go:97-100 | once passes see the deletion request, nothing is created again over any number of failing passes |
| Lifecycle.TearsDownIff | internal/controller/mariadbha_controller.go:150-254 | a pass takes the finalizer off exactly if it sees the deletion, can remove every object that it sees, and nobody has written since it read |
| Lifecycle.TornDownIffLookupsAnswered | internal/controller/mariadbha_controller.go:150-254 | a pass that takes the finalizer off leaves no owned object exactly if the lookups of those that existed were answered |
| Lifecycle.LifeLeavesNothing | internal/controller/mariadbha_controller.go:150-254 | after any life from an empty store, such a pass leaves the store empty |
| Guard.ObjectsAreGuarded | internal/controller/mariadbha_controller.go:86-100 | over every run, whatever fails and whoever comes in between: while an object of the resource exists, the stored resource carries the finalizer, unless a pass meets one of the two cases of GuardBreaksIff |
| Guard.GuardBreaksIff | internal/controller/mariadbha_controller.go:86-100 | a pass breaks that guard exactly if it takes the finalizer off after a broken lookup of an existing object, or works on a live copy older than the finalizer's removal and its first write is accepted |
| Guard.StaleReadBringsBack | internal/controller/mariadbha_controller.go:97-125 | after a complete teardown such a stale pass brings an unguarded object back |
| Guard.DeletionIsOneWay | internal/controller/mariadbha_controller.go:97-100 | once deletion is stored, no run of passes with current copies brings any object back, however often they fail |
| Guard.DeletionIsFinal | internal/controller/mariadbha_controller.go:69-147 | no step takes a requested deletion back |
| Guard.DeletionIsCompletedIff | internal/controller/mariadbha_controller.go:150-254 | an uninterrupted pass takes the finalizer off exactly if every object that it sees can be removed, and leaves nothing if it sees all |
| Bootstrap.LastStageIsReached | internal/controller/mariadbha_controller.go:86-146 | among answered passes in a row exactly the one after `Distance` many is the first to reach the last stage, the ninth for a new resource, and it is a health pass |
| Bootstrap.GoodPassAdvances | internal/controller/mariadbha_controller.go:86-128 | each such pass gets exactly one step closer: finalizer, first phase, then one object |
| Bootstrap.StartsRunningIff | internal/controller/statefulset.go:39-65 | an initialising resource runs exactly if both stateful sets are as wanted and have their replica ready |
| Bootstrap.SetupRunsIff | internal/controller/mariadbha_controller.go:257-347 | replication is set up exactly when both instances are ready, no condition says active and all answers come; what the condition then says; the stage fails only on a broken lookup or a refused write |
| Bootstrap.SetupFailureStops | internal/controller/mariadbha_controller.go:125-128 | a pass does not get past a replication stage that cannot see readiness or cannot store what it set up |
| Teardown.DoneIff | internal/controller/mariadbha_controller.go:154-243 | the eight deletions get to their end exactly if each object that is seen can be removed |
| Teardown.CompleteIffLookupsAnswered | internal/controller/mariadbha_controller.go:154-243 | the same of the eight deletions by themselves |
| Teardown.WhatIsLeft | internal/controller/mariadbha_controller.go:154-243 | each object's fate in a deletion that ends or stops midway: gone exactly if it comes before the stop and is seen, otherwise as before |
| Teardown.BrokenLookupLeavesObject | internal/controller/mariadbha_controller.go:155-164 | an object whose lookup breaks outlives a deletion that reports success |
| Routing.RedirectReachesPromotedPod | internal/controller/failover.go:245-262 | a written redirect selects the promoted pod and no pod of role primary |
| Routing.RedirectIff | internal/controller/failover.go:230-268 | what a redirect leaves in the store and reports, in each of its ways out |
| Routing.SettledServicesSplitPods | internal/controller/service.go:120-275 | a service pass that proceeds leaves writers exactly on this cluster's pods of role primary, readers exactly on those of role secondary |
| Routing.ClustersDoNotShareClients | internal/controller/service.go:127-131 | where the services of two resources have settled, no pod gets client traffic of both |
| Routing.HeadlessServiceIff | internal/controller/service.go:55-117 | a headless service is created exactly if missing and answered, for the pods of its instance, and never changed |
| Routing.RedirectIsUndoneIff | internal/controller/service.go:184-193 | no service stage proceeds while the redirect stands; it puts the selector back, and does nothing else, exactly if both headless services are seen and the client service is answered |
| Cluster.ExecuteHealthChecks | internal/controller/health_check.go:267-333 | alive exactly if connection, TCP and SQL answer; failed without a connection or, on the secondary, a readable replication state; the lag is the one read, whatever its size |
| Cluster.VerdictIs | internal/controller/health_check.go:267-333 | the same of the function that the other theorems use |
| Cluster.FailoverAllowedIff | internal/controller/failover.go:450-484 | a failover may start by itself exactly if that is declared, none is under way and the interval is over |
| Operator.MapsEqual | internal/controller/service.go:285-295 | true exactly on equal maps, for every iteration order and with early exit |
| Operator.MariaDBHA.SaveFailureCount | internal/controller/health_check.go:529-544 | the annotation is set for a positive count and removed otherwise |
| Operator.MariaDBHAReconciler.CheckInstanceHealth | internal/controller/health_check.go:336-403 | copy and server move as `Passes.CheckInstance` says, whatever becomes of the condition write |
| Operator.MariaDBHAReconciler.PerformCompleteHealthCheck | internal/controller/health_check.go:406-496 | as `Passes.CompleteCheck` says, with both counters |
| Operator.MariaDBHAReconciler.CheckHealth | internal/controller/mariadbha_controller.go:478-540 | as `Passes.CheckHealth` says |
| Operator.MariaDBHAReconciler.UpdateServicesAfterFailover | internal/controller/failover.go:230-268 | the store after the redirect, and whether it succeeded |
| Operator.MariaDBHAReconciler.StopReplicationOnSecondary | internal/controller/failover.go:158-190 | how far it gets: not stopped, stopped without the reset (told as a failure), or both |
| Operator.MariaDBHAReconciler.PromoteSecondaryToPrimary | internal/controller/failover.go:193-227 | read-only mode is set as declared unless that fails |
| Operator.MariaDBHAReconciler.HandleFailover | internal/controller/failover.go:23-155 | as `Passes.HandleFailover` says, in all six ways out |
| Operator.MariaDBHAReconciler.HandleRecovery | internal/controller/failover.go:271-342 | as `Passes.HandleRecovery` says |
| Operator.MariaDBHAReconciler.ManualFailover | internal/controller/failover.go:398-446 | as `Cluster.ManualFailoverOf` says |
| Operator.MariaDBHAReconciler.CreateOrUpdateConfigMap | internal/controller/statefulset.go:421-488 | the stored files after the call |
| Operator.MariaDBHAReconciler.ReconcileInstanceStatefulSet | internal/controller/statefulset.go:78-158 | as `Objects.SyncStatefulSet` says |
| Operator.MariaDBHAReconciler.IsStatefulSetReady | internal/controller/statefulset.go:552-572 | ready, not ready or unknown |
| Operator.MariaDBHAReconciler.ReconcileStatefulSets | internal/controller/statefulset.go:25-65 | as `Passes.ReconcileStatefulSets` says, with the step to Running |
| Operator.MariaDBHAReconciler.ReconcileHeadlessService | internal/controller/service.go:55-117 | as `Objects.SyncHeadless` says |
| Operator.MariaDBHAReconciler.ReconcileClientService | internal/controller/service.go:120-275 | as `Objects.SyncClient` says: a selector is written exactly if it differs |
| Operator.MariaDBHAReconciler.ReconcileServices | internal/controller/service.go:21-52 | as `Passes.ReconcileServices` says |
| Operator.MariaDBHAReconciler.ReconcileReplication | internal/controller/mariadbha_controller.go:257-347 | as `Passes.ReconcileReplication` says |
| Operator.MariaDBHAReconciler.HandleDeletion | internal/controller/mariadbha_controller.go:150-254 | as `Passes.HandleDeletion` says: eight deletions in order, then the finalizer |
| Operator.MariaDBHAReconciler.Reconcile | internal/controller/mariadbha_controller.go:69-147 | one pass takes the stored world where `Passes.Reconcile` says |

## Left out

- HandlePrimaryFailure: stands for a function that is not part of this repository; see the assumption above. `HealthCheckResult` is not defined either; its fields are taken from their uses.
- HandleFailover: the event's duration is not truncated to 32 bits (68 years); lag is read and only logged by the code, so it decides nothing here.
- ReconcileReplication: `setupReplication` is one answer, success or failure; its SQL (binlog position, semisync plugins) is not modelled.
- HandleRecovery: `configureAsSecondary` and `createNewSecondary` are stubs that always succeed in the repository, and do nothing here.
- TextMeansIff: the reader of option files knows blanks, comments, sections and last-value-wins; quoting, comments within a line and the equivalence of dashes and underscores in option names are not modelled.
- CounterIsTrailingFailures: a status write is taken to leave the annotations of the copy alone; a client that refreshes the whole copy from the server's answer drops the counters even within a pass.
- UpdateStatus: a write that the server stores but reports as failed (a lost answer) is not modelled; the same goes for SQL statements.
- Store: lookups of stateful sets, services and config maps see the current store, while reads of the resource itself can be stale.
- StatefulSetAnswer: what the server stores is what was sent, or whatever else it makes of it (`kept`); theorems say where that matters.
- StoredAgreesIff: does not cover others writing during the pass, after which the stored phase is theirs.
- GetAnswer: a resource whose last finalizer has come off can still be read, as from a cache that lags; that the server itself would refuse a new finalizer then is not modelled.
- Delays: how many seconds later a pass is asked for again is not modelled, only whether the pass requeues at once.
- TCP dialling, SQL drivers, data source names, secret contents and pod addresses: answers only. The connection always leads to the fixed pods, so the promoted database is kept apart from the names in the status.
- Fencing: no code stops the old primary from accepting writes, so nothing is claimed about a single writable instance.
- The maximal replication lag: the code compares it and returns the same verdict either way.
- Pod templates, probes, volume claims, environment variables, node selection and owner references: only what `needsUpdate` compares is kept; garbage collection through owner references is not used.
- Resource versions of stateful sets, services and config maps: a conflict there is a refused write.
- Namespaces: one namespace; names are compared within it.
- Nil maps: treated as empty, which no modelled reader tells apart.
- Events, logs, monitoring and backup settings, generated deep copies and the manager's start-up: no effect on the modelled state.
