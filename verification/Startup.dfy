/** Start order emerges from the readiness gate: no process is spawned before its app's dependencies. */
module Startup {
  import opened Manifests
  import opened KeyOrder
  import opened Instances
  import opened Stages
  import opened Graph
  import opened Lifecycle
  import opened Runs

  /** The processes in a table, each with the app it runs. */
  ghost function Processes(t: Table): set<(Pid, string)> {
    set r | r in t && r.Running() :: (r.handle.value.pid, r.app)
  }

  lemma ProcessAt(t: Table, i: nat)
    requires i < |t| && t[i].Running()
    ensures (t[i].handle.value.pid, t[i].app) in Processes(t)
  {
    assert t[i] in t;
  }

  /** Records in the same places run the same processes, or none. */
  ghost predicate KeepsProcesses(t: Table, u: Table) {
    |t| == |u| && forall i :: 0 <= i < |t| && u[i].Running() ==>
      t[i].Running() && u[i].handle.value.pid == t[i].handle.value.pid && u[i].app == t[i].app
  }

  lemma KeptProcesses(t: Table, u: Table)
    requires KeepsProcesses(t, u)
    ensures Processes(u) <= Processes(t)
  {
    forall r | r in u && r.Running() ensures (r.handle.value.pid, r.app) in Processes(t) {
      var i :| 0 <= i < |u| && u[i] == r;
      ProcessAt(t, i);
    }
  }

  lemma RetainedProcesses(t: Table, gone: set<Key>)
    ensures Processes(Retain(t, gone)) <= Processes(t)
  {
    RetainMembers(t, gone);
  }

  lemma ReapProcesses(s: State, e: Env)
    ensures Processes(Reap(s, e).table) <= Processes(s.table)
  {
    var t := ReapedTable(s.table, s.m.defaults, e.wait, e.reapAt);
    KeptProcesses(s.table, t);
    RetainedProcesses(t, DroppedSlots(s.table, e.wait));
  }

  lemma BlockedProcesses(s: State, e: Env)
    ensures Processes(StopCheckBlocked(s, e).table) <= Processes(s.table)
  {
    KeptProcesses(s.table, StopCheckBlocked(s, e).table);
  }

  lemma RollProcesses(s: State, d: Desired, e: Env)
    ensures Processes(RollStale(s, d, e).table) <= Processes(s.table)
  {
    KeptProcesses(s.table, RollStale(s, d, e).table);
  }

  lemma FirstHalfProcesses(s: State, d: Desired, e: Env)
    ensures Processes(FirstHalf(s, d, e).table) <= Processes(s.table)
  {
    var t := StoppedUndesired(s.table, d, e.terminateAt);
    KeptProcesses(s.table, t);
    RetainedProcesses(t, IdleUndesired(s.table, d));
    var s1 := TerminateUndesired(s, d, e);
    BlockedProcesses(s1, e);
    RollProcesses(StopCheckBlocked(s1, e), d, e);
  }

  /** A process is new in this tick, and its app's dependencies were up before it. */
  ghost predicate SpawnedBehind(m: Manifest, tick: nat, before: set<(Pid, string)>, x: (Pid, string)) {
    && x.0.tick == tick
    && m.Has(x.1)
    && forall d :: d in m.Lookup(x.1).value.dependsOn && m.Has(d) ==> exists pid :: (pid, d) in before
  }

  lemma AddProcesses(s: State, d: Desired, e: Env)
    ensures Processes(AddMissing(s, d, e).table) <= Processes(s.table)
  {
    InKeyOrderSorts(d.Keys);
    var keys := InKeyOrder(d.Keys);
    var more := Missing(d, s.table, keys, e.spawnAt);
    forall r | r in s.table + more && r.Running() ensures r in s.table {
      if r in more {
        var i :| 0 <= i < |more| && more[i] == r;
        MissingSlot(d, s.table, keys, e.spawnAt, i);
      }
    }
  }

  lemma ReadyAppsRun(t: Table, app: string)
    requires TableOk(t) && app in ReadyApps(t)
    ensures exists pid :: (pid, app) in Processes(t)
  {
    var i :| 0 <= i < |t| && t[i].phase == Ready && t[i].app == app;
    ProcessAt(t, i);
  }

  lemma SpawnProcesses(hasher: Hasher, s: State, e: Env, x: (Pid, string))
    requires TableOk(s.table)
    requires x in Processes(SpawnReady(hasher, s, e).table)
    ensures x in Processes(s.table) || SpawnedBehind(s.m, s.tick, Processes(s.table), x)
  {
    var u := SpawnReady(hasher, s, e).table;
    var r :| r in u && r.Running() && (r.handle.value.pid, r.app) == x;
    var i :| 0 <= i < |u| && u[i] == r;
    if s.table[i].Running() {
      ProcessAt(s.table, i);
    } else {
      forall d | d in s.m.Lookup(x.1).value.dependsOn && s.m.Has(d) ensures exists pid :: (pid, d) in Processes(s.table) {
        ReadyAppsRun(s.table, d);
      }
    }
  }

  lemma RetireProcesses(s: State, d: Desired, e: Env)
    ensures Processes(RetireStaleSurplus(s, d, e).table) <= Processes(s.table)
  {
    KeptProcesses(s.table, RetireStaleSurplus(s, d, e).table);
  }

  lemma ProbeProcesses(s: State, e: Env)
    ensures Processes(Probe(s, e).table) <= Processes(s.table)
  {
    forall i | 0 <= i < |s.table| {
      ProbeOneProcess(s.m, s.table[i], e.probeAt, e.probe(i));
    }
    KeptProcesses(s.table, Probe(s, e).table);
  }

  lemma ProbeOneProcess(m: Manifest, r: Instance, now: nat, ans: ProbeAnswer)
    ensures var p := ProbeOne(m, r, now, ans);
            p.Running() ==> r.Running() && p.handle.value.pid == r.handle.value.pid && p.app == r.app
  {
  }

  lemma TickProcesses(hasher: Hasher, s: State, e: Env, x: (Pid, string))
    requires TableOk(s.table)
    requires x in Processes(Tick(hasher, s, e).table)
    ensures x in Processes(s.table) || SpawnedBehind(s.m, s.tick, Processes(s.table), x)
  {
    var s1, s2 := TickParts(hasher, s, e);
    var d1, d2 := DesiredIn(hasher, s1), DesiredIn(hasher, s2);
    ReapProcesses(ReverifyChecks(s, e), e);
    FirstHalfProcesses(s1, d1, e);
    ReapKeepsOk(ReverifyChecks(s, e), e);
    FirstHalfKeepsOk(s1, d1, e);
    AddProcesses(s2, d2, e);
    AddKeepsOk(s2, d2, e);
    var s3 := AddMissing(s2, d2, e);
    var s4 := SpawnReady(hasher, s3, e);
    RetireProcesses(s4, d2, e);
    ProbeProcesses(RetireStaleSurplus(s4, d2, e), e);
    SpawnProcesses(hasher, s3, e, x);
    MoreBehind(s.m, s.tick, Processes(s3.table), Processes(s.table), x);
  }

  lemma MoreBehind(m: Manifest, tick: nat, before: set<(Pid, string)>, more: set<(Pid, string)>, x: (Pid, string))
    requires before <= more
    ensures SpawnedBehind(m, tick, before, x) ==> SpawnedBehind(m, tick, more, x)
  {
    if SpawnedBehind(m, tick, before, x) {
      forall d | d in m.Lookup(x.1).value.dependsOn && m.Has(d) ensures exists pid :: (pid, d) in more {
        var pid :| (pid, d) in before;
      }
    }
  }

  // ----- runs -----

  /** Step `j` of the run is a tick that spawns a process of `app`. */
  ghost predicate SpawnsIn(ss: seq<State>, j: nat, app: string) {
    && j + 1 < |ss|
    && ss[j + 1].tick == ss[j].tick + 1
    && exists pid: Pid :: pid.tick == ss[j].tick && (pid, app) in Processes(ss[j + 1].table)
  }

  lemma StepProcesses(hasher: Hasher, s: State, step: Step, s': State, x: (Pid, string))
    requires TableOk(s.table) && Leads(hasher, s, step, s') && x in Processes(s'.table)
    ensures x in Processes(s.table)
         || (s'.tick == s.tick + 1 && SpawnedBehind(s.m, s.tick, Processes(s.table), x))
  {
    match step
    case Ticked(e) =>
      TickKeepsConfig(hasher, s, e);
      TickProcesses(hasher, s, e, x);
    case Reloaded(o) => ReloadChanges(s, o);
  }

  lemma StepCounts(hasher: Hasher, s: State, step: Step, s': State)
    requires Leads(hasher, s, step, s')
    ensures s'.tick == s.tick + if step.Ticked? then 1 else 0
  {
    if step.Ticked? {
      TickKeepsConfig(hasher, s, step.e);
    }
  }

  lemma OneStepCounts(hasher: Hasher, ss: seq<State>, steps: seq<Step>, k: nat)
    requires IsRun(hasher, ss, steps) && k < |steps|
    ensures ss[k + 1].tick == ss[k].tick + if steps[k].Ticked? then 1 else 0
  {
    assert LeadsAt(hasher, ss, steps, k);
    StepCounts(hasher, ss[k], steps[k], ss[k + 1]);
  }

  lemma {:induction false} TicksGrow(hasher: Hasher, ss: seq<State>, steps: seq<Step>, a: nat, b: nat)
    requires IsRun(hasher, ss, steps) && a <= b < |ss|
    ensures ss[a].tick <= ss[b].tick
    decreases b
  {
    if a < b {
      TicksGrow(hasher, ss, steps, a, b - 1);
      OneStepCounts(hasher, ss, steps, b - 1);
    }
  }

  lemma RunStepProcesses(hasher: Hasher, ss: seq<State>, steps: seq<Step>, k: nat, x: (Pid, string))
    requires IsRun(hasher, ss, steps) && k < |steps| && x in Processes(ss[k + 1].table)
    ensures x in Processes(ss[k].table)
         || (ss[k + 1].tick == ss[k].tick + 1 && SpawnedBehind(ss[k].m, ss[k].tick, Processes(ss[k].table), x))
    ensures ss[k].tick <= ss[k + 1].tick
  {
    ReachableOk(hasher, ss, steps, k);
    assert LeadsAt(hasher, ss, steps, k);
    StepProcesses(hasher, ss[k], steps[k], ss[k + 1], x);
    StepCounts(hasher, ss[k], steps[k], ss[k + 1]);
  }

  lemma NothingAtStart(hasher: Hasher, ss: seq<State>, steps: seq<Step>)
    requires IsRun(hasher, ss, steps)
    ensures ss[0].table == [] && ss[0].tick == 0
  {
  }

  /**
   * In every run, edits included: each process in the table was spawned, for the same app, by
   * an earlier tick of the run, the one its identity names.
   */
  lemma {:induction false} ProcessHistory(hasher: Hasher, ss: seq<State>, steps: seq<Step>, k: nat, x: (Pid, string)) returns (j: nat)
    requires IsRun(hasher, ss, steps) && k < |ss| && x in Processes(ss[k].table)
    ensures j < k && SpawnsIn(ss, j, x.1) && x.0.tick == ss[j].tick < ss[k].tick
    decreases k
  {
    NothingAtStart(hasher, ss, steps);
    RunStepProcesses(hasher, ss, steps, k - 1, x);
    if x in Processes(ss[k - 1].table) {
      j := ProcessHistory(hasher, ss, steps, k - 1, x);
    } else {
      j := k - 1;
    }
  }

  /** The dependency was spawned before step `j`, in a strictly earlier tick. */
  ghost predicate SpawnedEarlier(ss: seq<State>, j: nat, d: string) {
    exists i: nat :: i < j < |ss| && SpawnsIn(ss, i, d) && ss[i].tick < ss[j].tick
  }

  lemma SpawnIsBehind(hasher: Hasher, ss: seq<State>, steps: seq<Step>, j: nat, app: string)
    requires IsRun(hasher, ss, steps) && SpawnsIn(ss, j, app)
    ensures exists pid :: SpawnedBehind(ss[j].m, ss[j].tick, Processes(ss[j].table), (pid, app))
  {
    var pid: Pid :| pid.tick == ss[j].tick && (pid, app) in Processes(ss[j + 1].table);
    RunStepProcesses(hasher, ss, steps, j, (pid, app));
    if (pid, app) in Processes(ss[j].table) {
      var i := ProcessHistory(hasher, ss, steps, j, (pid, app));
      assert false;
    }
  }

  /**
   * In every run, edits included: an app is spawned only if the manifest has it, and only
   * after each app it depends on then has been, in a strictly earlier tick.
   */
  lemma DependenciesSpawnFirst(hasher: Hasher, ss: seq<State>, steps: seq<Step>, j: nat, app: string)
    requires IsRun(hasher, ss, steps) && SpawnsIn(ss, j, app)
    ensures ss[j].m.Has(app)
    ensures forall d :: d in ss[j].m.Lookup(app).value.dependsOn && ss[j].m.Has(d) ==> SpawnedEarlier(ss, j, d)
  {
    SpawnIsBehind(hasher, ss, steps, j, app);
    var pid :| SpawnedBehind(ss[j].m, ss[j].tick, Processes(ss[j].table), (pid, app));
    forall d | d in ss[j].m.Lookup(app).value.dependsOn && ss[j].m.Has(d) ensures SpawnedEarlier(ss, j, d) {
      var q :| (q, d) in Processes(ss[j].table);
      var i := ProcessHistory(hasher, ss, steps, j, (q, d));
    }
  }

  /** The app-dependency graph of a run. */
  function AppsOf(s: State): AppGraph {
    ByName(s.m.apps)
  }

  lemma DepthFromDependencies(m: Manifest, app: string, k: nat)
    requires UniqueNames(m) && m.Has(app)
    requires forall d :: d in m.Lookup(app).value.dependsOn && m.Has(d) ==> DepthAtMost(ByName(m.apps), d, k)
    ensures DepthAtMost(ByName(m.apps), app, k + 1)
  {
    var g := ByName(m.apps);
    GraphOfWellFormed(m, app);
    forall d | d in g[app].dependsOn && d in g ensures DepthAtMost(g, d, k) {
      GraphOfWellFormed(m, d);
    }
  }

  /**
   * Up to the first edit, reload checks included: an app spawned in tick n (counted from 0)
   * has no dependency chain of more than n + 1 apps.
   */
  lemma {:induction false} SpawnTickBoundsDepth(hasher: Hasher, ss: seq<State>, steps: seq<Step>, j: nat, app: string)
    requires IsRun(hasher, ss, steps) && SpawnsIn(ss, j, app) && Unedited(ss, 0, j)
    ensures DepthAtMost(AppsOf(ss[0]), app, ss[j].tick + 1)
    decreases j
  {
    var m, n := ss[j].m, ss[j].tick;
    DependenciesSpawnFirst(hasher, ss, steps, j, app);
    forall d | d in m.Lookup(app).value.dependsOn && m.Has(d) ensures DepthAtMost(ByName(m.apps), d, n) {
      assert SpawnedEarlier(ss, j, d);
      var i: nat :| i < j < |ss| && SpawnsIn(ss, i, d) && ss[i].tick < ss[j].tick;
      SpawnTickBoundsDepth(hasher, ss, steps, i, d);
      DepthMonotone(AppsOf(ss[0]), d, ss[i].tick + 1, n);
    }
    ReachableOk(hasher, ss, steps, j);
    DepthFromDependencies(m, app, n);
  }

  /** An app on a dependency cycle, or depending on one, is never spawned, whatever happens. */
  lemma CyclicAppsNeverSpawn(hasher: Hasher, ss: seq<State>, steps: seq<Step>, j: nat, app: string)
    requires IsRun(hasher, ss, steps) && j < |ss| && Unedited(ss, 0, j) && ReachesCycle(AppsOf(ss[0]), app)
    ensures !SpawnsIn(ss, j, app)
  {
    var c :| Reaches(AppsOf(ss[0]), app, c) && DependsOn(AppsOf(ss[0]), c, c);
    CycleHasNoDepth(AppsOf(ss[0]), app, c, ss[j].tick + 1);
    if SpawnsIn(ss, j, app) {
      SpawnTickBoundsDepth(hasher, ss, steps, j, app);
    }
  }
}
