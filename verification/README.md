# A Dafny model of artzain's control loop

artzain runs the apps of a manifest as local processes and keeps them at the declared state: it
restarts what crashes, replaces what an edit made stale, gates starts on dependencies and checks,
and stops everything in reverse dependency order. This project models that behaviour and proves
what it promises.

* `Reconciler` (`Reconciler.dfy`) is the control loop as a class. Each stage of a tick is a method
  that updates the table of instances in place; its postcondition equates the loop's new state with
  a function of the old one and of the environment `Env` (`Stages.dfy`, `Instances.dfy`). What these
  functions do is proved in terms of the records' fields, stage by stage in `Rules.dfy` and over
  whole histories and runs in the other files. `Env` holds one clock reading per stage and every
  answer the outside world gives: exits, spawn results, probe answers, check answers, and the order
  in which a hash set is walked. All theorems about ticks hold for every environment unless they
  name a condition on it.
* A run is any interleaving of ticks and reload checks from an empty table (`Runs.IsRun`). Theorems
  that speak of the time between edits ask only that no reload check in between replaces the
  manifest or the selection (`Runs.Unedited`); checks that find nothing, an unsettled file or a
  file that is rejected are part of every run.
* A process is identified by the tick and the table index it was spawned at, and its handle carries
  the signals it has been sent; both exist only in the model. `ProcessesAreNotShared` proves that the
  identity is one: no reachable table holds a process twice.
* The manifest's rules, its dependency graph, the depth-first start order, the selection of apps and
  the `$` interpolation are in `Manifest.dfy`, `Validate.dfy`, `Graph.dfy`, `StartOrder.dfy`,
  `Selection.dfy` and `Interpolation.dfy`; the rotating log is in `LogRotation.dfy`.
* `Prelude.dfy` and `KeyOrder.dfy` hold what the Rust standard library provides: a stable sort, the
  ordered map's key order, and an induction principle for runs.

## Where the code and its documentation differ

* `max_surge = 1` is documented as a zero-downtime roll (`README.md:111`). The rolling stages alone
  never take the last Ready instance of a slot (`SurgeKeepsReadySlots`), but the old and the new
  instance share the key by which `reap` removes records: the tick that sees the old one exit, any
  number of ticks after it was retired, leaves the new one's process out of the slot
  (`RetiringStep`, `SurgeReplacementIsLost`; a run in `SurgeRollLosesItsInstance`). A live process
  loses its record exactly when a sibling does this, or is idle in a slot no longer desired
  (`LiveProcessLeavesIff`).
* `max_surge` is documented as a bound on extra instances, and rolling as one instance at a time
  (`crates/artzain-core/src/manifest.rs:68-72`, `README.md:72`). After an edit, `spawn_missing`
  adds a record for every changed slot in the same tick; `EditKeepsBoundIff` and `EditInPlace` say
  exactly when the bound is kept, and `EditDoublesTheRecords` is a run that breaks it.
* Nothing on the start path rejects a dependency cycle (`DeadlockIsAccepted`). An app comes up
  exactly when it is on no cycle and above none (`ReadyIffNoCycle`, `CyclicAppsNeverSpawn`,
  `DepthIffNoCycle`), and teardown then has no dependency order (`NoOrderKeepsTable`).
* `begin_stop` is also called on records without a process, by `roll_stale` and by
  `retire_stale_surplus`, so `Terminating` does not imply running. A tick leaves a place with such a
  record exactly when it was one before the roll, or one of the two picked it while it had no process
  (`StoppedIdleIff`, `StoppedIdleBeforeRoll`; a run in `EditStrandsARecord`). It is never changed
  again, and goes exactly when its slot does or a sibling exits after a final stop (`IdleStopIsKept`,
  `IdleStopNeverMoves`).
* Such a record still counts as covering its slot. An edit that is taken back before a waiting app
  has started leaves a slot with stopped records only, one of them with the right hash, and the app
  never starts until the manifest changes again, in any environment (`DeadSlotStaysDead`, and
  `TickDeadIff` for when a tick leaves one; a run in `RevertedEditKillsSlot`). A stale waiting
  record that the roll has not reached is spawned with the new hash beside the record just added for
  its slot, and if the spawn of that one succeeds too, the slot runs twice on one port
  (`StaleIdleRunsTwice`).
* So a roll need not end. An edit of a fleet with one current record per slot is rolled out,
  while nothing else fails, exactly when every record it made stale was serving, without surge (`EditRollsOutIff`) and with it
  (`SurgeEditRollsOutIff`); otherwise some slot has a record too many from the first tick to the next
  edit, whatever happens (`StuckNeverSettles`). `EditCanRollOut` and the run `EditRollsOutInRun` show
  that the conditions can be met.
* Without surge, `spawn_missing` starts a replacement while its predecessor still holds the port, and
  `spawn` itself expects that it may fail to bind (`crates/artzain-core/src/reconcile.rs:740-742`).
  The roll ends all the same: `EditRollsOutIff` lets current processes exit at any time as long as
  another process runs in their slot. With surge that is not so: a stale instance whose slot is covered
  waits until its replacement is Ready (`SurgeWaitsIff`), and the tick that sees the edit gives only
  one slot of each app a port of its own (`AllocateSurge`).
* `MAX_UNAVAILABLE` is kept counting Ready records (`OneUnavailableAtMost`). Counting slots it is kept
  exactly as `SlotBudgetIff` says, and `SlotBudgetFails` is a table from which one slot of three is
  left; several old instances exiting in one tick clear as many slots (`ReapSlotsIff`).

## Model

| member | source | states |
|---|---|---|
| Validation.Validate | crates/artzain-core/src/manifest.rs:335-434 | accepts exactly the manifests with unique names, in-range and pairwise disjoint port windows, sound checks, known dependencies and existing users and groups; every reported problem is really there and every problem is reported, of a port that several apps claim at least one pair; every app gets the ids its user and group stand for |
| Validation.WellFormedIff | crates/artzain-core/src/manifest.rs:338-386 | these rules written out with their limits: at least one replica, windows that end at port 65535 at the latest, no port in two windows, windows that touch allowed, no name twice |
| Validation.ValidateApps | crates/artzain-core/src/manifest.rs:338-353 | no error iff app names differ and every window is non-empty and ends within 16 bits |
| Validation.ValidateChecks | crates/artzain-core/src/manifest.rs:354-361 | no error iff check names are new and every check has a target; the name set is all known names |
| Validation.ValidatePorts | crates/artzain-core/src/manifest.rs:363-375 | no error iff no port lies in the windows of two apps; each error names a shared port and its two owners |
| Validation.ValidateDependencies | crates/artzain-core/src/manifest.rs:377-386 | no error iff every dependency names an app or a check |
| Validation.ValidateAccounts | crates/artzain-core/src/manifest.rs:404-427 | no error iff every user and group exists; a group overrides the primary group of the user |
| Manifests.LookupUnique | crates/artzain-core/src/manifest.rs:331-333 | with unique names, looking an app up by name finds that app |
| Manifests.DeclaredPortsDistinct | crates/artzain-core/src/manifest.rs:347-375 | two slots of an accepted manifest have the same declared port only if they are the same slot, and every port fits 16 bits |
| Graph.AcyclicIffDepth | crates/artzain-core/src/manifest.rs:438-471 | the app graph has no cycle iff every app's dependency chains are bounded by the number of apps |
| Graph.DepthIffNoCycle | crates/artzain-core/src/manifest.rs:450-453 | one app's chains are bounded, then by the number of apps, iff it is on no cycle and above none |
| Graph.DepthBoundsChains | crates/artzain-core/src/manifest.rs:438-471 | the recursive depth bounds the length of every dependency chain |
| Graph.LongChain | crates/artzain-core/src/manifest.rs:438-471 | an app deeper than k has a dependency chain of k + 1 apps |
| Graph.CycleHasNoDepth | crates/artzain-core/src/manifest.rs:450-453 | an app that reaches a cycle has no finite depth |
| StartOrder.AppsOrdered | crates/artzain-core/src/manifest.rs:438-471 | succeeds iff the graph is acyclic, and then lists every app once, each after everything it depends on, and for every x what the first x apps of the manifest need, themselves included, before all else |
| StartOrder.Visit | crates/artzain-core/src/manifest.rs:444-465 | fails only on a real cycle; else finishes the name, adds nothing but it and what it needs, and keeps the pushed apps in dependency order, the colours consistent and the stack as it was |
| StartOrder.VisitAll | crates/artzain-core/src/manifest.rs:467-470 | the outer loop finishes every listed app, in that order, or has met a cycle |
| StartOrder.NextIsListed | crates/artzain-core/src/manifest.rs:467-470 | so a manifest that lists dependencies before dependents is started in its own order |
| StartOrder.OrderedMeansAcyclic | crates/artzain-core/src/manifest.rs:436-438 | a start order exists only for an acyclic graph |
| StartOrder.DependencyEarlier | crates/artzain-core/src/manifest.rs:436-438 | in a start order every transitive dependency is strictly earlier |
| Selection.SelectApps | crates/artzain-core/src/reconcile.rs:1103-1133 | for any request, with any order and duplicates: fails iff a name is unknown, else returns the closure of the request under app dependencies; the worklist terminates |
| Selection.CloseUnderDependencies | crates/artzain-core/src/reconcile.rs:1120-1131 | the worklist's result is closed, contains the request and stays inside every closed set that does |
| Selection.SelectedIsLeastClosed | crates/artzain-core/src/reconcile.rs:1102-1106 | that closure is the least dependency-closed set of apps containing the request |
| Selection.SelectedIsSound | crates/artzain-core/src/reconcile.rs:1102-1133 | every non-empty selection consists of apps of the manifest and contains their app dependencies |
| Interpolation.InterpolateVars | crates/artzain-core/src/manifest.rs:492-527 | the scanning loop computes the token-level meaning of the text, of which the rows below say what it is |
| Interpolation.LexSpell | crates/artzain-core/src/manifest.rs:494-524 | every token sequence whose tokens read as themselves in place is read back from its spelling |
| Interpolation.SpellLex | crates/artzain-core/src/manifest.rs:494-527 | the tokens spell the text, up to a reference that is never closed |
| Interpolation.SucceedsIff | crates/artzain-core/src/manifest.rs:509-526 | succeeds iff every reference is closed and resolves; reports an unterminated reference iff all before it resolves |
| Interpolation.FailsOnFirst | crates/artzain-core/src/manifest.rs:513-523 | reports an unknown variable iff it is the first token that does not resolve |
| Interpolation.DoublingRoundTrip | crates/artzain-core/src/manifest.rs:474-477 | interpolation undoes dollar-doubling, for every string and every variable table |
| Interpolation.ValuesAreNotRescanned | crates/artzain-core/src/manifest.rs:513-525 | a substituted value lands unchanged, even if it contains references |
| Interpolation.PlainIsKept | crates/artzain-core/src/manifest.rs:502-508 | a text without `$$` and without `${` stands for itself, single dollars included, whatever the variables are |
| Interpolation.BareDollarIsKept | crates/artzain-core/src/manifest.rs:502-508 | a dollar before anything but a dollar or a brace stays between its neighbours, and what follows is read as if it stood alone |
| LogRotation.LogFiles.RotateLog | crates/artzain-core/src/process.rs:343-367 | moves every file one place up and drops the oldest, in place; fails only when the current file is missing |
| LogRotation.LogFiles.WriteLine | crates/artzain-core/src/process.rs:313-339 | one line extends the current segment, or starts a new one after a rotation; when it does which is `RotatesOnlyWhenFull` and `FittingStaysInOneFile` |
| LogRotation.LogFiles.LogWriter | crates/artzain-core/src/process.rs:296-339 | after any stream of lines the store holds exactly the last `keep` greedy segments of it |
| LogRotation.AddLinesFlatten | crates/artzain-core/src/process.rs:312-339 | the segments put end to end are the stream |
| LogRotation.RetainedIsSuffix | crates/artzain-core/src/process.rs:296-367 | the files read oldest to current are a suffix of what was written, and all of it while no segment was dropped |
| LogRotation.SegmentsWithinCap | crates/artzain-core/src/process.rs:315 | every file is within the cap unless it is one over-long line |
| LogRotation.RotatesOnlyWhenFull | crates/artzain-core/src/process.rs:315-329 | a file is started only if there is a cap and the file before, its next line and a newline are together longer than it |
| LogRotation.FittingStaysInOneFile | crates/artzain-core/src/process.rs:313-339 | a stream that fits into the current file, counting a newline for each line, or any stream without a cap, starts no file |
| LogRotation.LogRetention | crates/artzain-core/src/process.rs:296-367 | on a fresh log: at most `keep` files, each within the cap, together a suffix of the stream |
| KeyOrder.InKeyOrderSorts | crates/artzain-core/src/reconcile.rs:480-481 | walking the ordered map visits every slot once, in lexicographic key order |
| Stages.DesiredSlotsAre | crates/artzain-core/src/reconcile.rs:480-497 | the desired slots are the replica indices of the selected apps, with the surge or declared port and its hash |
| Stages.RetainMembers | crates/artzain-core/src/reconcile.rs:475-476 | removal goes by slot key, siblings included, and loses nothing else |
| Stages.MissingSlot | crates/artzain-core/src/reconcile.rs:673-682 | each added record is the Pending one of a desired slot no record of the right hash covers |
| Rules.ChecksAreVerified | crates/artzain-core/src/reconcile.rs:349-373 | in a tick, and not sooner than ten seconds after the round before: the answer of every check with a target, over TCP or HTTP, is recorded, and nothing else changes |
| Rules.BlockedAreStopped | crates/artzain-core/src/reconcile.rs:378-404 | a serving record is asked to stop, for respawn, iff its app lists a dependency that is no app but a check known to have failed |
| Rules.RollStopsExactly | crates/artzain-core/src/reconcile.rs:535-626 | the roll stops, of each selected app, its first outdated record that is not Ready; if it has none, no surge is allowed and as many records are Ready as replicas are asked for, its first outdated Ready one; and nothing else |
| Rules.RollMovesExactly | crates/artzain-core/src/reconcile.rs:572-605 | with surge it moves the slot of that Ready record iff no record of the slot is current and the app has fewer records than replicas and surge together, to the port `SurgePortIsLeast` says, and no other slot |
| Rules.SurgePortIsLeast | crates/artzain-core/src/reconcile.rs:983-1000 | the least port above the app's window, up to 65535, that lies in no app's window; if there is none, the end of the window modulo 65536 |
| Rules.AddedInOrder | crates/artzain-core/src/reconcile.rs:673-682 | the added records follow the old ones in key order, at most one for a slot, each with the port and hash its slot wants, without a process, failures or back-off |
| Rules.SpawnsExactly | crates/artzain-core/src/reconcile.rs:684-799 | a record is spawned iff it has no process, is not stopped, its back-off is over, every app it depends on has a Ready record before the loop, and no check it depends on is known to have failed |
| Rules.RetiresExactly | crates/artzain-core/src/reconcile.rs:630-667 | with surge an outdated record that is not being stopped is stopped for good iff a current record of its slot is Ready |
| SurgePorts.AddedPort | crates/artzain-core/src/reconcile.rs:480-497 | a record added by a tick has the surge port of its slot, if there is one; a slot moved by this tick has the least port above its app's window that no app declares, while one is left |
| SurgePorts.SurgePortsInRun | crates/artzain-core/src/reconcile.rs:574-605 | in every run, between two edits, every surge port given out is such a port, and no slot loses its own |
| Fingerprints.SameFingerprintIff | crates/artzain-core/src/reconcile.rs:1079-1100 | two instances hash the same fields iff they are the same replica of the same app on the same port with the same program, probes and configured environment; replica counts, dependencies, users, groups and restart settings do not count |
| Fingerprints.ConfiguredValue | crates/artzain-core/src/reconcile.rs:1060-1077 | the pointers of the instance go before the app's settings, and these before the defaults |
| Fingerprints.DecimalParses | crates/artzain-core/src/reconcile.rs:1073-1075 | numbers are written so that they can be read back, so ports and replicas are told apart |
| ControlLoop.Reconciler.constructor | crates/artzain-core/src/reconcile.rs:266-288 | the loop starts with an empty table, no surge ports and nothing pending |
| ControlLoop.Reconciler.ReverifyChecks | crates/artzain-core/src/reconcile.rs:349-373 | records an answer for every check with a target, once per period |
| ControlLoop.Reconciler.Reap | crates/artzain-core/src/reconcile.rs:420-477 | the loop over all records gives each its exit, back-off or escalation and removes the slots of final exits |
| ControlLoop.Reconciler.ReapInstance | crates/artzain-core/src/reconcile.rs:427-473 | the in-place handling of one record: crash, drop, SIGKILL when due, or nothing; what a crash does is `CrashCounts`, when a SIGKILL is due `KilledWhenDue` |
| ControlLoop.Reconciler.DesiredSlots | crates/artzain-core/src/reconcile.rs:480-497 | the nested loops build exactly the desired slots |
| ControlLoop.Reconciler.TerminateUndesired | crates/artzain-core/src/reconcile.rs:502-526 | stops exactly the serving records outside the desired slots, in descending replica order, and removes the slots of idle ones |
| ControlLoop.Reconciler.StopCheckBlocked | crates/artzain-core/src/reconcile.rs:378-404 | stops, for respawn, exactly the serving records whose app depends on a failed check |
| ControlLoop.Reconciler.RollStale | crates/artzain-core/src/reconcile.rs:535-626 | in whatever order the apps come, each app's victim is stopped and its surge slot moved as judged on the table at the start |
| ControlLoop.Reconciler.RollApp | crates/artzain-core/src/reconcile.rs:544-625 | one app's turn: first stale non-Ready record, else surge, else one Ready record within budget |
| ControlLoop.Reconciler.AllocateSurge | crates/artzain-core/src/reconcile.rs:574-605 | at most one slot of the app moves to a surge port, and only within the surge budget |
| ControlLoop.Reconciler.SurgePortFor | crates/artzain-core/src/reconcile.rs:983-1000 | the scan for a free port; which one it finds is `SurgePortIsLeast` |
| ControlLoop.RollEachAtOnce | crates/artzain-core/src/reconcile.rs:536-543 | the apps' turns do not interfere: any order of the hash set gives the same table and ports |
| ControlLoop.Reconciler.SpawnMissing | crates/artzain-core/src/reconcile.rs:672-728 | adds the missing records, then spawns what the gate lets through, judged on the Ready apps before the loop |
| ControlLoop.Reconciler.AddForKeys | crates/artzain-core/src/reconcile.rs:673-682 | the push loop adds one record per uncovered slot, although it looks at the growing table |
| ControlLoop.Reconciler.Spawn | crates/artzain-core/src/reconcile.rs:730-801 | the record after a successful or failed spawn |
| ControlLoop.Reconciler.RetireStaleSurplus | crates/artzain-core/src/reconcile.rs:630-667 | stops exactly the stale records whose slot has a Ready replacement |
| ControlLoop.Reconciler.Probe | crates/artzain-core/src/reconcile.rs:804-874 | every serving record gets its readiness and liveness round, no other record changes |
| ControlLoop.Reconciler.ProbeInstance | crates/artzain-core/src/reconcile.rs:806-872 | the in-place round of one record |
| ControlLoop.Reconciler.ProbeReadiness | crates/artzain-core/src/reconcile.rs:830-850 | its readiness half: promoted, demoted, or stopped when it never became ready in time, as `ProbeDecisions` says over all rounds |
| ControlLoop.Reconciler.ProbeLiveness | crates/artzain-core/src/reconcile.rs:852-869 | its liveness half: only for a record that has been ready, stopped at the threshold |
| ControlLoop.Reconciler.Reconcile | crates/artzain-core/src/reconcile.rs:406-417 | one tick: the nine stages in order, with the desired slots computed twice |
| ControlLoop.Reconciler.MaybeReload | crates/artzain-core/src/reconcile.rs:298-332 | debounce, load, select, and replace manifest and selection together or not at all |
| ControlLoop.Reconciler.OnlyNames | crates/artzain-core/src/reconcile.rs:336-344 | lists the selection, or nothing when as many apps are selected as there are |
| ControlLoop.Reconciler.Teardown | crates/artzain-core/src/reconcile.rs:878-918 | sorts by reverse start order if there is one, signals every live process once in that order, then runs the wait loop |
| ControlLoop.Reconciler.AwaitExits | crates/artzain-core/src/reconcile.rs:896-917 | the wait loop: harvest, leave when nothing is left, kill what is left past the deadline |
| Lifecycle.TickKeepsOk | crates/artzain-core/src/reconcile.rs:406-417 | every tick keeps, in every environment: Starting, Ready and Unready imply a process, Pending and CrashLoopBackOff none; a serving record is Starting iff not yet ready; Terminating implies a deadline; the signals follow the stop protocol |
| Lifecycle.ReapOneOk | crates/artzain-core/src/reconcile.rs:427-473 | a reap keeps that invariant on a record, in particular the spacing of SIGKILLs |
| Lifecycle.SpawnOneOk | crates/artzain-core/src/reconcile.rs:764-799 | so does a spawn, successful or not |
| Lifecycle.ProbeOneOk | crates/artzain-core/src/reconcile.rs:804-874 | so does a probe round |
| Runs.ReachableOk | crates/artzain-core/src/reconcile.rs:54-75 | in every state reachable by ticks and reloads: a well-formed manifest, a non-empty dependency-closed selection of its apps, and that invariant on every record |
| Runs.AcceptedIsSound | crates/artzain-core/src/reconcile.rs:314-327 | an accepted reload installs the loaded manifest with a sound selection |
| Runs.AcceptedIff | crates/artzain-core/src/reconcile.rs:314-344 | a reload that is attempted is accepted iff the file loads and has apps, and either every app was selected, or some were and each of them is still there |
| Runs.AcceptedSelects | crates/artzain-core/src/reconcile.rs:314-344 | it then selects everything, or the least set closed under dependencies that holds the old selection |
| Runs.PendingIsLastSeen | crates/artzain-core/src/reconcile.rs:299-311 | in every run, ticks included: the pending mtime is nothing, or the last one seen and not acted on; nothing pending means the last one seen was acted on or there was no file |
| Runs.ReplacedOnlyWhenSettled | crates/artzain-core/src/reconcile.rs:290-332 | in every run the manifest is replaced only by a reload check that sees the same mtime as the check before it, one not acted on before |
| Runs.SettledIsActedOn | crates/artzain-core/src/reconcile.rs:304-312 | in every run two equal observations in a row, whatever ticks lie between, leave that mtime acted on |
| Runs.RejectedReloadIsHarmless | crates/artzain-core/src/reconcile.rs:314-331 | a failed load, zero apps or an empty selection leave manifest, selection and desired slots as they were |
| Tracking.TickAt | crates/artzain-core/src/reconcile.rs:406-417 | a tick treats each record it keeps by a fixed sequence of moves, each decision falling only where it may |
| Stopping.StopIsFinal | crates/artzain-core/src/reconcile.rs:431-471 | however ticks and reloads interleave, a stopping process stays so until its exit is seen, with its fate unchanged, one SIGTERM, no early SIGKILL, and SIGKILLs at least two seconds apart |
| Stopping.KilledWhenDue | crates/artzain-core/src/reconcile.rs:460-471 | in every run a tick that finds a stopping process still running sends it one SIGKILL iff ten seconds have passed since the SIGTERM, or two since the last SIGKILL, and nothing otherwise |
| Stopping.ExitDecides | crates/artzain-core/src/reconcile.rs:438-458 | when the exit is seen, the record is dropped or backs off as decided at the stop |
| CrashLoop.DelayIsExact | crates/artzain-core/src/reconcile.rs:1013-1017 | the saturating multiply never changes the delay |
| CrashLoop.DelayGrowsToCap | crates/artzain-core/src/reconcile.rs:1013-1017 | delays never shrink as failures add up, stay under the cap and start at min(base, cap) |
| CrashLoop.DelayDoubles | crates/artzain-core/src/reconcile.rs:1013-1017 | the first delay is the base, each further one twice the one before up to the twenty-first, none above the cap |
| CrashLoop.CrashCounts | crates/artzain-core/src/reconcile.rs:431-455 | an exit that is not final counts one failure more, or starts again at one iff the process started at least `stable_after_secs` seconds, a thousand milliseconds each, before the reap, and backs off by the delay of that count |
| CrashLoop.FirstFailure | crates/artzain-core/src/reconcile.rs:443-455 | the first failure, or one of a process that started `stable_after_secs` seconds earlier, restarts the count and backs off by min(base, cap) |
| CrashLoop.TickHoldsBack | crates/artzain-core/src/reconcile.rs:695-725 | no tick lets a slot run ahead of the delays it owes |
| CrashLoop.CrashLoopRate | crates/artzain-core/src/reconcile.rs:1013-1017 | over a whole run in which no process exits `stable_after_secs` seconds or more after its start, the n-th respawn is no earlier than the sum of the first n delays |
| CrashLoop.RespawnsKeepTheirDistance | crates/artzain-core/src/reconcile.rs:431-455 | the same, counted from the tick that saw the first exit, or the first after a stable uptime |
| CrashLoop.RespawnsAfterFailedStart | crates/artzain-core/src/reconcile.rs:787-799 | the same, counted from a first spawn that fails, of a record just added or one that was waiting |
| Probing.ProbeDecisions | crates/artzain-core/src/reconcile.rs:804-874 | over every probe history since the spawn the record says exactly what the process has answered: Ready iff its last readiness answer was positive, Unready iff that was negative and an earlier one positive, Starting iff none was; it serves on until it is given up, at the liveness answer that makes the trailing failures reach max(1, live_failures), or at a negative readiness answer `ready_timeout` seconds or more after the spawn if none was positive, and is then stopped for respawn; liveness is asked for only once it has been ready |
| Probing.SpawnIsFresh | crates/artzain-core/src/reconcile.rs:764-789 | a successful spawn starts such a history: its times to be ready and to be probed first are counted from the spawn |
| Probing.ProbesAreSpaced | crates/artzain-core/src/reconcile.rs:830-857 | in such a history each readiness probe is made a second or more after the answer before, each liveness probe `live_period` seconds or more after the spawn and the answer before |
| Probing.ServingIsProbing | crates/artzain-core/src/reconcile.rs:804-874 | while a process serves, a run does nothing to its record but the rounds of its ticks |
| ProbeHistories.ServingBeforeProbe | crates/artzain-core/src/reconcile.rs:406-417 | what the probe stage of a tick finds serving was serving before the tick, unchanged, or has been spawned in this tick, records just added included |
| ProbeHistories.ServingHasHistory | crates/artzain-core/src/reconcile.rs:764-874 | in every run and every state after the spawn: a serving process whose app has kept its settings since is what its own rounds, at its own places in the table, have made of the record its spawn left, the round of the spawning tick included |
| ProbeHistories.HistoryIsUnique | crates/artzain-core/src/reconcile.rs:804-874 | there is only one such history, because no two records hold a process |
| ProbeHistories.ProbeStageIsJudged | crates/artzain-core/src/reconcile.rs:830-869 | so in every run, and in every tick from the spawning one on: what the probe stage leaves serving or stops says what it has answered itself since its spawn, and is stopped exactly at the answer it is given up for |
| ProbeHistories.ServingIsJudged | crates/artzain-core/src/reconcile.rs:852-869 | and in every state what still serves says what it has answered, and has fewer trailing failures than it takes |
| ProbeHistories.ReadyIffLastAnswer | crates/artzain-core/src/reconcile.rs:830-850 | in every run, with a ready path, a serving process is Ready iff its last readiness answer since its spawn was positive, Unready iff that was negative and an earlier one positive, Starting iff none was positive |
| Steady.FirstTickFills | crates/artzain-core/src/reconcile.rs:673-682 | the first tick from an empty table gives every desired slot one current record |
| Steady.TickStaysSteady | crates/artzain-core/src/reconcile.rs:406-417 | every later tick keeps it so, whatever exits, fails or is blocked |
| Steady.StaysSteady | crates/artzain-core/src/reconcile.rs:406-417 | between any two edits a table with one current record per slot stays that way, on the same ports |
| Steady.TableIsBijection | crates/artzain-core/src/reconcile.rs:406-526 | in every run, from the first tick to the first edit: one record per slot, current hash, port `app.port + replica` within 16 bits, all ports distinct |
| Startup.ProcessHistory | crates/artzain-core/src/reconcile.rs:730-801 | in every run, edits included, each process in the table was spawned for its app by the earlier tick its identity names |
| Startup.DependenciesSpawnFirst | crates/artzain-core/src/reconcile.rs:684-727 | in every run and environment, edits included, an app is spawned only after each app it then depends on, in a strictly later tick |
| Startup.SpawnTickBoundsDepth | crates/artzain-core/src/reconcile.rs:684-727 | up to the first edit, an app spawned in tick n has no dependency chain of more than n + 1 apps |
| Startup.CyclicAppsNeverSpawn | crates/artzain-core/src/reconcile.rs:684-727 | up to the first edit, an app on a dependency cycle, or above one, is never spawned |
| Identity.ProcessesAreNotShared | crates/artzain-core/src/reconcile.rs:406-417 | in every state reachable by ticks and reloads each live process belongs to exactly one record |
| Convergence.FleetComesUpByLevels | crates/artzain-core/src/reconcile.rs:406-417 | with a cooperative environment and any reload checks, after n ticks exactly the selected apps of depth at most n have all replicas Ready and all others are Pending |
| Convergence.ReadyIffNoCycle | crates/artzain-core/src/reconcile.rs:406-417 | from as many ticks on as there are apps, an instance is Ready iff its app reaches no dependency cycle, and Pending otherwise |
| Convergence.FleetComesUpIff | crates/artzain-core/src/reconcile.rs:406-417 | so the whole fleet comes up, and stays up, iff no selected app reaches a cycle |
| Rollouts.TickPasses | crates/artzain-core/src/reconcile.rs:406-417 | what a tick of a roll does to the table, stage by stage, while no slot is moved |
| Rollouts.EndUnderway | crates/artzain-core/src/reconcile.rs:673-682 | it leaves every desired slot a record that stays and is current; what goes down in a desired slot is stale, and what is outside is on its way out |
| Rollouts.WarmFallsBy | crates/artzain-core/src/reconcile.rs:608-624 | without surge: while whatever stays of an app is up, a tick that drops at most one of its slots leaves it fewer stale instances |
| Rollouts.WarmRetires | crates/artzain-core/src/reconcile.rs:630-667 | with surge: then one tick stops all of them |
| Completions.RolloutCompletes | crates/artzain-core/src/reconcile.rs:535-626 | while stopped processes exit by the next tick, no other process exits and the rest goes well: after k * (span + 2) ticks in which no back-off or probe period keeps a record waiting, with k the longest dependency chain and span the most stale instances of an app (1 with surge), one current Ready record per slot on the ports of the start; records that wait, back off or restart may be part of it |
| Completions.EditStartsRollout | crates/artzain-core/src/reconcile.rs:535-626 | without surge, any edit of a fleet with one current record per slot is such a start if the stale records serve and no slot changes its port but keeps its hash; `most` is the largest old replica count |
| Completions.EditRollsOut | crates/artzain-core/src/reconcile.rs:298-332 | the same from a fleet, through an accepted reload, to the renewed fleet |
| Completions.EditNeverRollsOut | crates/artzain-core/src/reconcile.rs:559-570 | if a record the edit made stale, on the port its slot keeps, does not serve, the fleet never again has one record per slot before the next edit, in any environment, with or without surge |
| Completions.BriskTicksAreRipe | crates/artzain-core/src/reconcile.rs:684-727 | from a roll whose staying records are up, or wait without back-off, every tick counts for these bounds |
| Patience.DepartingFrom | crates/artzain-core/src/reconcile.rs:420-477 | in a tick that stops or loses no stale instance of an app, what is going down in its slots was going down before and has not exited |
| Patience.RenewedStays | crates/artzain-core/src/reconcile.rs:406-417 | an app whose records are all up and current stays so, whatever the rest of the fleet does |
| Patience.ServedCount | crates/artzain-core/src/reconcile.rs:547-556 | without surge: once nothing of a served app is going down, as many of its records are Ready as it has slots, or a stale one is not Ready, even if replacements have exited beside the processes they replace |
| Patience.PatientRolloutCompletes | crates/artzain-core/src/reconcile.rs:535-626 | however slowly stopped processes exit, and however often current ones do beside another process of their slot (without surge): if all that are going down exit within any `wait` ticks, and one of these keeps nothing waiting that has its slot to itself, a fleet underway is renewed within wait * k * (2 * most + 2) ticks, or wait * k * 3 with surge |
| Patience.EditRollsOutIff | crates/artzain-core/src/reconcile.rs:535-682 | without surge, from a fleet with one current record per slot, through an accepted reload: renewed in that time iff every record the edit made stale was serving |
| SurgeEdits.SurgeEditRollsOutIff | crates/artzain-core/src/reconcile.rs:572-605 | with surge, through an accepted reload: renewed in that time, on the ports the first tick left, so on a surge port where it moved a slot, iff every record the edit made stale was serving |
| Feasible.RollCanEnd | crates/artzain-core/src/reconcile.rs:406-417 | from every reachable state of a roll on its way whose staying records are up, or wait without back-off, some run meets all these conditions and renews the fleet |
| Feasible.EditCanRollOut | crates/artzain-core/src/reconcile.rs:298-332 | so does some run from every accepted reload, without surge, that leaves the stale records serving |
| Lodgings.DeadSlotStaysDead | crates/artzain-core/src/reconcile.rs:673-695 | a slot with stopped records only, none of them with a process and one with the right hash, stays so until the next edit, in every environment, with or without surge |
| Lodgings.TickDeadIff | crates/artzain-core/src/reconcile.rs:673-695 | a tick leaves a slot dead iff the roll does: every record of it stopped without a process, one with the right hash |
| Lodgings.StuckNeverSettles | crates/artzain-core/src/reconcile.rs:673-682 | a slot all of whose records will stay and none of which has the right hash has one too many from the first tick to the next edit, with or without surge |
| Lodgings.StaleIdleRunsTwice | crates/artzain-core/src/reconcile.rs:684-742 | a stale record without a process that the roll has not stopped is spawned with the new hash beside the record just added for its slot, which runs too, on the same port, iff its own spawn succeeds |
| Gates.GatesAreComplements | crates/artzain-core/src/reconcile.rs:384-393 | the check condition that stops an app is the exact complement of the one that lets it spawn |
| Gates.TickGates | crates/artzain-core/src/reconcile.rs:406-417 | a tick ends with every record outside the desired slots an earlier process being stopped, and nothing serving that depends on a failed check |
| Gates.GatesHoldInEveryRun | crates/artzain-core/src/reconcile.rs:378-417 | so it is after every tick of every run, and each process spawned in the tick fills a desired slot |
| Availability.OneUnavailableAtMost | crates/artzain-core/src/reconcile.rs:32-34 | with `max_surge = 0` roll, spawn and retire leave at least min(Ready before, replicas - 1) Ready instances of every app, from any table that obeys the lifecycle rules |
| Availability.SlotBudgetIff | crates/artzain-core/src/reconcile.rs:32-34 | counted by slots, with `max_surge = 0`, the roll keeps min(Ready slots before, replicas - 1) iff it does not stop the only Ready record of a slot of an app with fewer Ready slots than replicas; spawn and retire take none |
| Availability.SingleSlotsKeepBudget | crates/artzain-core/src/reconcile.rs:32-34 | so it does while no slot has two Ready records |
| Availability.ReapSlotsIff | crates/artzain-core/src/reconcile.rs:475-476 | a reap leaves a slot Ready iff one of its Ready processes has not exited and no record of it exits after a final stop |
| Availability.SurgeKeepsReadySlots | crates/artzain-core/src/reconcile.rs:530-534 | with `max_surge > 0` those stages never take the last Ready instance of a slot |
| Availability.ReapKeepsIffNoSiblingDrops | crates/artzain-core/src/reconcile.rs:475-476 | a serving process keeps its record in a reap iff no record of its slot exits after a final stop |
| Fates.FateOfTick | crates/artzain-core/src/reconcile.rs:406-417 | from any table: what a tick does to a running record that is up to date, undesired or already stopping, before the probes |
| Fates.LiveProcessLeavesIff | crates/artzain-core/src/reconcile.rs:475-526 | a process that has not exited loses its record in a tick iff a sibling exits after a final stop, or is idle while the slot is no longer desired |
| Fates.TickAddsIff | crates/artzain-core/src/reconcile.rs:673-682 | when the roll moves no slot, a tick adds a record for exactly the desired slots that nothing left covers |
| SurgeRolls.RetiringStep | crates/artzain-core/src/reconcile.rs:630-667 | in any run, a tick that retires an instance for its Ready replacement leaves both in the table, one stopped for good and the other running |
| SurgeRolls.SurgeReplacementIsLost | crates/artzain-core/src/reconcile.rs:456-476 | from there, after any number of ticks and reloads, the tick that sees the old one exit leaves the replacement's process out of the slot: the zero-downtime roll fails |
| SurgeRolls.FinalExitClearsSlot | crates/artzain-core/src/reconcile.rs:475-476 | what runs in a slot after an exit that followed a final stop was spawned in that same tick |
| SurgeRolls.SurgeWaitsIff | crates/artzain-core/src/reconcile.rs:572-667 | with surge, a stale Ready instance whose slot is covered, and which neither exits nor is cleared away or blocked by a check, is not moved, and is stopped iff a current record of its slot is Ready |
| Edits.AddsEveryUncovered | crates/artzain-core/src/reconcile.rs:673-682 | one stage adds a record for every uncovered slot of an app at once |
| Edits.EditCount | crates/artzain-core/src/reconcile.rs:406-417 | the tick after any edit of a fleet with one current record per slot leaves an app the records that remain and one for every slot that is new or asks for another hash |
| Edits.EditKeepsBoundIff | crates/artzain-core/src/manifest.rs:68-72 | over that tick the bound of replicas + max_surge records holds iff the remaining records, and the slots that are new or ask for another hash once the roll has moved its slots, fit under it; these are the slots the edit adds or changes unless a surge port gives one its old hash back |
| Edits.EditInPlace | crates/artzain-core/src/manifest.rs:68-72 | if the replica count stays, the bound holds iff at most max_surge slots of the app ask for another hash after the roll |
| IdleStops.StoppedIdleIff | crates/artzain-core/src/reconcile.rs:559-667 | a tick leaves a Terminating record without a process at a place iff it was one before the roll, or roll_stale or retire_stale_surplus picked it while it had no process |
| IdleStops.StoppedIdleBeforeRoll | crates/artzain-core/src/reconcile.rs:420-526 | no stage before the roll makes one: such a record was in the table before the tick, as it is |
| IdleStops.IdleStopIsKept | crates/artzain-core/src/reconcile.rs:406-417 | a tick leaves such a record exactly as it is, and removes it iff its slot is no longer desired or a sibling exits after a final stop |
| IdleStops.IdleStopNeverMoves | crates/artzain-core/src/reconcile.rs:406-417 | so in every run it stays as it was for as long as it stays |
| Witnesses.DeadlockIsAccepted | crates/artzain-core/src/manifest.rs:335-434 | two apps that wait for each other pass validation and start-up, and both are on a cycle |
| Witnesses.EditDoublesTheRecords | crates/artzain-core/src/reconcile.rs:673-682 | a run with `max_surge = 0`, whatever its ticks meet: the edit of a two-replica app leaves it four records |
| Witnesses.SurgeRollLosesItsInstance | crates/artzain-core/src/reconcile.rs:456-476 | a run with `max_surge = 1` in which nothing goes wrong, and the healthy replacement is lost |
| Witnesses.EditStrandsARecord | crates/artzain-core/src/reconcile.rs:559-570 | a run in which an edit during a wait leaves a Terminating record without a process |
| Witnesses.RevertedEditKillsSlot | crates/artzain-core/src/reconcile.rs:559-570 | a run in which an edit made while the app waits for a check is taken back, and the app's only slot is dead from then on |
| Witnesses.SlotBudgetFails | crates/artzain-core/src/reconcile.rs:608-624 | a table of four records from which the roll leaves one Ready slot of three |
| Witnesses.EditRollsOutInRun | crates/artzain-core/src/reconcile.rs:406-417 | a run in which the edit of a two-replica app is rolled out |
| Scaling.SurvivingSlotsUnchanged | crates/artzain-core/src/reconcile.rs:1079-1083 | if only replica counts change, a slot desired before and after keeps its port and hash |
| Scaling.ScalingIsNonDisruptive | crates/artzain-core/src/reconcile.rs:480-526 | if a reload changes only replica counts, from any table, mid-roll, with surge ports or earlier stops under way: every running up-to-date record whose slot is still desired and not check-blocked comes out of terminate, roll, spawn and retire exactly as it was |
| Scaling.ScalingStopsExactly | crates/artzain-core/src/reconcile.rs:406-417 | over the whole tick: a serving up-to-date record is stopped for good iff its slot is gone, for respawn iff a failed check blocks it, and untouched otherwise; its place is lost only as `LiveProcessLeavesIff` says |
| Scaling.ScalingTickSparesSurvivors | crates/artzain-core/src/reconcile.rs:406-417 | so over the whole tick every survivor without a dropping sibling reaches the probes untouched |
| Scaling.ScalingAddsExactly | crates/artzain-core/src/reconcile.rs:673-682 | over the whole tick of a settled fleet, surge ports and earlier stops included, records are added for exactly the new slots that no leftover covers, and for slots just dropped |
| Scaling.ScalingAddsTheNewSlots | crates/artzain-core/src/reconcile.rs:673-682 | from one current record per slot that is exactly the new slots |
| Scaling.ScalingKeepsSelection | crates/artzain-core/src/reconcile.rs:314-344 | a reload that only scales is accepted and keeps the selection |
| Teardowns.DependentsStopFirst | crates/artzain-core/src/reconcile.rs:879-888 | after the sort, every instance of an app stands before every instance of any app it transitively depends on |
| Teardowns.StopsBackwards | crates/artzain-core/src/reconcile.rs:884-888 | the sort is the start order backwards, with instances of apps that are not in it before all others |
| Teardowns.DependentsSignalledFirst | crates/artzain-core/src/reconcile.rs:886-894 | so its SIGTERM goes out first |
| Teardowns.LiveIndicesAre | crates/artzain-core/src/reconcile.rs:889-894 | the SIGTERMs go to exactly the live processes, each once, in table order |
| Teardowns.StopOrderPermutes | crates/artzain-core/src/reconcile.rs:886-888 | the sort loses and invents no record |
| Teardowns.NoOrderKeepsTable | crates/artzain-core/src/reconcile.rs:879-888 | without a start order the table is signalled as it stands |
| Teardowns.AwaitedIsKilled | crates/artzain-core/src/reconcile.rs:896-917 | a process the loop still waits for has been sent one SIGKILL in every round since the deadline, none earlier |
| Teardowns.KillsOfOne | crates/artzain-core/src/reconcile.rs:908-914 | a round at the deadline or after it sends one SIGKILL, any other none |
| Teardowns.KillsOfConcat | crates/artzain-core/src/reconcile.rs:896-917 | and each round adds its own to those of the rounds before |
| Teardowns.EndsWhenAllExited | crates/artzain-core/src/reconcile.rs:896-917 | the wait loop ends iff every process has been seen to exit, and then no handle is left |
| Teardowns.TeardownIsOrderly | crates/artzain-core/src/reconcile.rs:878-918 | all of it together, for any table and any rounds: a permutation, one SIGTERM per live process with dependents first, late SIGKILLs only, nothing else changed, and an end iff all have exited; `Teardown` ensures it of its outputs, with ten seconds of grace |

## Left out

* Processes, signals, sockets and files themselves: `process::spawn`, `signal_group`, TCP and HTTP
  probes, `lsof`. Their results are inputs in `Env`, `Round` and `Observation`.
* TOML parsing and `Manifest::load`: a reload sees the parsed, validated manifest or a failure.
  The override of variables by `ARTZAIN_VAR_*` is part of the resolver that interpolation is given.
* The host's account database: user and group lookups are answers of `Accounts`; hosts without
  users and groups, where declaring one is an error, are not modelled.
* Resource limits, working directories as resolved paths, and the inherited environment, which is
  not hashed either.
* `Lock`, `reclaim_orphans`, `write_state`, `snapshot`, `verify_checks` before the first tick, log
  tailing, the command line and the service files: file and signal sequences with no state of their own.
* Task concurrency: the control loop is sequential, and one writer per log file is modelled.
* Integer widths on manifests that validation rejects (`u16` and `u32` wrap there), and overflow of
  the restart and failure counters. On accepted manifests every port is proved to fit.
* Clock readings: each stage reads one clock, and each spawn and probe has its own; several readings
  inside one stage, as in successive `begin_stop` calls, are one value.
* `spec_hash` is any function of the app and its defaults, port and index, collisions included. Only
  the scaling theorems ask that it depend on the hashed fields alone.
* Names are compared as sequences of code points and log lines are sequences of bytes.
- StartOrder.AppsOrdered: returns names instead of references to apps; the names are unique in accepted manifests.
- StartOrder.Visit: passes its colour map and its list of finished apps as values and returns the new ones, because the recursion is over a map and a list borrowed by the caller; aliasing plays no part in it.
- LogRotation.LogFiles.LogWriter: file operations succeed, apart from renaming a file that is not there; the handling of other failures is not modelled.
- CrashLoop.CrashLoopRate: assumes a clock that does not run backwards and unchanged defaults while the record is followed.
- Convergence.ReadyIffNoCycle: assumes checks recorded as passing at the start and spawn times between the clock readings of the spawn and probe stages.
- Completions.RolloutCompletes: assumes the same, that a process asked to stop has exited by the next tick, and that no other exits; `Patience.PatientRolloutCompletes` asks for neither, and its bound is twice as long.
- Completions.EditRollsOut: assumes what `Completions.RolloutCompletes` does.
- Completions.EditStartsRollout: assumes that a slot whose port changes changes its hash, which holds unless two ports collide in `spec_hash`.
- Patience.EditRollsOutIff: asks the same, and that a slot whose stale record does not serve keeps its port; where it changes, whether that record is stopped or spawned first decides, which is not stated.
- Patience.PatientRolloutCompletes: assumes that spawns and probes succeed while the roll lasts, and that a process exits without having been stopped only beside another one of its slot; with surge not even then, see `SurgeWaitsIff`.
- SurgeEdits.SurgeEditRollsOutIff: assumes what `Patience.EditRollsOutIff` does, and that a surge port does not give a slot the hash of its old record.
- ControlLoop.Reconciler.Teardown: runs over a given finite list of rounds of the wait loop, so a process that never exits shows as an unfinished run, not as divergence.
- ProbeHistories.ServingIsJudged: follows a process under unchanged app settings; an edit of the thresholds starts a new history.
