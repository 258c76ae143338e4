/** With a cooperative environment the fleet comes up one dependency level per tick, and stays up. */
module Convergence {
  import opened Prelude
  import opened Manifests
  import opened KeyOrder
  import opened Instances
  import opened Stages
  import opened Graph
  import opened Selection
  import opened Tracking
  import opened Runs
  import opened Steady
  import opened Startup

  /** Every spawn succeeds, every probe and check passes, and time does not run backwards. */
  ghost predicate Helpful(e: Env) {
    && (forall c :: e.check(c))
    && (forall i :: e.spawn(i).ok && e.spawnAt <= e.spawn(i).at <= e.probeAt)
    && (forall i :: e.probe(i).ready && e.probe(i).live)
  }

  /** ... and nothing exits. */
  ghost predicate Cooperative(e: Env) {
    Helpful(e) && forall pid :: !e.wait(pid).Exited?
  }

  ghost predicate ChecksPass(ok: map<string, bool>) {
    forall c :: c in ok ==> ok[c]
  }

  ghost predicate Up(r: Instance) {
    r.Running() && r.phase == Ready
  }

  /** Apps whose dependency chains have at most `k` apps. */
  ghost function Within(g: AppGraph, k: nat): set<string> {
    set a | a in g && DepthAtMost(g, a, k)
  }

  /** The apps of `up` are up, all others wait. */
  ghost predicate Level(up: set<string>, t: Table) {
    forall i :: 0 <= i < |t| ==> if t[i].app in up then Up(t[i]) else IsNew(t[i])
  }

  // ----- stages that leave a levelled table alone -----

  lemma ReapQuiet(s: State, e: Env, up: set<string>)
    requires Cooperative(e) && Level(up, s.table)
    ensures Reap(s, e) == s
  {
    assert ReapedTable(s.table, s.m.defaults, e.wait, e.reapAt) == s.table;
    assert DroppedSlots(s.table, e.wait) == {};
    RetainAll(s.table, {});
  }

  lemma {:induction false} ChecksStayPassing(checks: seq<Check>, answer: string -> bool, ok: map<string, bool>)
    requires ChecksPass(ok) && forall c :: answer(c)
    ensures ChecksPass(VerifiedChecks(checks, answer, ok))
  {
    if checks != [] {
      ChecksStayPassing(checks[..|checks| - 1], answer, ok);
    }
  }

  lemma BlockedQuiet(s: State, e: Env)
    requires ChecksPass(s.checksOk)
    ensures StopCheckBlocked(s, e) == s
  {
    assert StopCheckBlocked(s, e).table == s.table;
  }

  // ----- the spawn gate is the next level -----

  /** Every desired slot has a record, and only desired slots have one. */
  ghost predicate Covers(s: State) {
    && (forall k :: IsSlot(s.m, s.selected, k) ==> Occupied(s.table, k))
    && (forall i :: 0 <= i < |s.table| ==> IsSlot(s.m, s.selected, s.table[i].Slot()))
  }

  /** The ready apps are the selected ones among those that are up. */
  lemma ReadyMeansLevel(s: State, up: set<string>, app: string)
    requires Covers(s) && Level(up, s.table) && IsSlot(s.m, s.selected, Key(app, 0))
    ensures app in ReadyApps(s.table) <==> app in up
  {
    assert Occupied(s.table, Key(app, 0));
    var i :| 0 <= i < |s.table| && s.table[i].Slot() == Key(app, 0);
    assert s.table[i].app == app;
    if app in ReadyApps(s.table) {
      var j :| 0 <= j < |s.table| && s.table[j].phase == Ready && s.table[j].app == app;
    } else {
      assert s.table[i].phase != Ready;
    }
  }

  lemma FirstSlot(m: Manifest, selected: set<string>, app: string)
    requires WindowsFit(m) && app in selected && m.Has(app)
    ensures IsSlot(m, selected, Key(app, 0))
  {
    LookupIff(m, app);
  }

  /** An app's gate is open exactly when all its app dependencies are of level `k`. */
  lemma GateIsNextLevel(s: State, k: nat, app: string)
    requires WellFormed(s.m) && SoundSelection(s.m, s.selected) && ChecksPass(s.checksOk)
    requires Covers(s) && Level(Within(AppsOf(s), k), s.table)
    requires app in s.selected && s.m.Has(app)
    ensures DependenciesUp(s.m, s.checksOk, ReadyApps(s.table), app) <==> DepthAtMost(AppsOf(s), app, k + 1)
  {
    var g, ready, deps := AppsOf(s), ReadyApps(s.table), s.m.Lookup(app).value.dependsOn;
    GraphOfWellFormed(s.m, app);
    forall d | d in deps
      ensures d in g <==> s.m.Has(d)
      ensures s.m.Has(d) ==> (d in ready <==> DepthAtMost(g, d, k))
    {
      GraphOfWellFormed(s.m, d);
      if s.m.Has(d) {
        FirstSlot(s.m, s.selected, d);
        ReadyMeansLevel(s, Within(g, k), d);
      }
    }
    GateByLevel(s.m, s.checksOk, ready, app, g, k);
  }

  lemma GateByLevel(m: Manifest, ok: map<string, bool>, ready: set<string>, app: string, g: AppGraph, k: nat)
    requires m.Has(app) && app in g && g[app] == m.Lookup(app).value && ChecksPass(ok)
    requires forall d :: d in m.Lookup(app).value.dependsOn ==>
               (d in g <==> m.Has(d)) && (m.Has(d) ==> (d in ready <==> DepthAtMost(g, d, k)))
    ensures DependenciesUp(m, ok, ready, app) <==> DepthAtMost(g, app, k + 1)
  {
  }

  /** A record between its spawn and its first probe in the same tick. */
  ghost predicate Coming(m: Manifest, r: Instance, e: Env) {
    && r.Running() && m.Has(r.app)
    && (r.phase == Ready
        || (r.phase == Starting && r.nextReadyProbe <= e.probeAt && m.Lookup(r.app).value.readyPath != ""))
  }

  lemma SpawnLevel(hasher: Hasher, s: State, e: Env, k: nat, i: nat)
    requires WellFormed(s.m) && SoundSelection(s.m, s.selected) && ChecksPass(s.checksOk) && Cooperative(e)
    requires Covers(s) && Level(Within(AppsOf(s), k), s.table) && i < |s.table|
    ensures var r := SpawnAt(hasher, s, ReadyApps(s.table), e, i);
            && r.app == s.table[i].app
            && if r.app in Within(AppsOf(s), k + 1) then Coming(s.m, r, e) else IsNew(r)
  {
    var r, g := s.table[i], AppsOf(s);
    GateIsNextLevel(s, k, r.app);
    GraphOfWellFormed(s.m, r.app);
    if DepthAtMost(g, r.app, k) {
      DepthMonotone(g, r.app, k, k + 1);
    }
    SpawnByGate(hasher, s, e, i, r.app in Within(g, k), r.app in Within(g, k + 1));
  }

  lemma SpawnByGate(hasher: Hasher, s: State, e: Env, i: nat, up: bool, due: bool)
    requires Cooperative(e) && i < |s.table| && s.m.Has(s.table[i].app)
    requires if up then Up(s.table[i]) else IsNew(s.table[i])
    requires (up ==> due) && (due <==> DependenciesUp(s.m, s.checksOk, ReadyApps(s.table), s.table[i].app))
    ensures var r := SpawnAt(hasher, s, ReadyApps(s.table), e, i);
            r.app == s.table[i].app && if due then Coming(s.m, r, e) else IsNew(r)
  {
  }

  lemma ProbeComing(m: Manifest, r: Instance, e: Env, i: nat)
    requires Helpful(e) && Coming(m, r, e)
    ensures Up(ProbeOne(m, r, e.probeAt, e.probe(i))) && ProbeOne(m, r, e.probeAt, e.probe(i)).app == r.app
  {
  }

  lemma SteadyCovers(hasher: Hasher, s: State)
    requires IsSteady(hasher, s)
    ensures Covers(s)
  {
    var d := DesiredIn(hasher, s);
    DesiredSlotsAre(hasher, s.m, s.selected, s.ports);
    forall i | 0 <= i < |s.table| ensures IsSlot(s.m, s.selected, s.table[i].Slot()) {
      assert Current(d, s.table[i]);
    }
    forall k | IsSlot(s.m, s.selected, k) ensures Occupied(s.table, k) {
      assert k in d;
    }
  }

  lemma SpawnReadyLevel(hasher: Hasher, s: State, e: Env, k: nat)
    requires WellFormed(s.m) && SoundSelection(s.m, s.selected) && ChecksPass(s.checksOk) && Cooperative(e)
    requires Covers(s) && Level(Within(AppsOf(s), k), s.table)
    ensures forall i :: 0 <= i < |s.table| ==>
              var r := SpawnReady(hasher, s, e).table[i];
              if r.app in Within(AppsOf(s), k + 1) then Coming(s.m, r, e) else IsNew(r)
  {
    forall i | 0 <= i < |s.table|
      ensures var r := SpawnReady(hasher, s, e).table[i];
              if r.app in Within(AppsOf(s), k + 1) then Coming(s.m, r, e) else IsNew(r)
    {
      SpawnLevel(hasher, s, e, k, i);
    }
  }

  lemma ProbeLevel(s: State, e: Env, up: set<string>)
    requires Cooperative(e)
    requires forall i :: 0 <= i < |s.table| ==>
               if s.table[i].app in up then Coming(s.m, s.table[i], e) else IsNew(s.table[i])
    ensures Level(up, Probe(s, e).table)
  {
    forall i | 0 <= i < |s.table|
      ensures var r := ProbeOne(s.m, s.table[i], e.probeAt, e.probe(i));
              if r.app in up then Up(r) else IsNew(r)
    {
      if s.table[i].app in up {
        ProbeComing(s.m, s.table[i], e, i);
      }
    }
  }

  /** The second half of a tick lifts a levelled, filled table to the next level. */
  lemma SecondHalfLevel(hasher: Hasher, s: State, e: Env, k: nat)
    requires WellFormed(s.m) && SoundSelection(s.m, s.selected) && ChecksPass(s.checksOk) && Cooperative(e)
    requires var s1 := AddMissing(s, DesiredIn(hasher, s), e);
             IsSteady(hasher, s1) && Level(Within(AppsOf(s), k), s1.table)
    ensures Level(Within(AppsOf(s), k + 1), SecondHalf(hasher, s, DesiredIn(hasher, s), e).table)
  {
    var d := DesiredIn(hasher, s);
    var s1 := AddMissing(s, d, e);
    SteadyCovers(hasher, s1);
    SpawnReadyLevel(hasher, s1, e, k);
    SpawnCurrent(hasher, s1, e);
    var s2 := SpawnReady(hasher, s1, e);
    RetireCurrent(s2, d, e);
    ProbeLevel(s2, e, Within(AppsOf(s), k + 1));
  }

  // ----- ticks and runs -----

  /** What does not change while the manifest does not. */
  ghost predicate Configured(s: State) {
    WellFormed(s.m) && SoundSelection(s.m, s.selected) && ChecksPass(s.checksOk)
  }

  /** The fleet after `k` cooperative ticks. */
  ghost predicate FleetAt(hasher: Hasher, s: State, k: nat) {
    && Level(Within(AppsOf(s), k), s.table)
    && if k == 0 then s.table == [] else IsSteady(hasher, s)
  }

  lemma FirstHalfQuiet(hasher: Hasher, s: State, e: Env, k: nat)
    requires FleetAt(hasher, s, k) && ChecksPass(s.checksOk)
    ensures FirstHalf(s, DesiredIn(hasher, s), e) == s
  {
    var d := DesiredIn(hasher, s);
    TerminateCurrent(s, d, e);
    BlockedQuiet(s, e);
    RollCurrent(s, d, e);
  }

  lemma StartLevel(s: State, d: Desired, e: Env, g: AppGraph)
    requires s.table == []
    ensures AllCurrent(d, AddMissing(s, d, e).table) && Fills(d, AddMissing(s, d, e).table)
    ensures Level(Within(g, 0), AddMissing(s, d, e).table)
  {
    EmptyTableFills(s, d, e);
    assert Within(g, 0) == {};
  }

  /** What is missing is nothing, or at the start everything. */
  lemma AddMissingLevel(hasher: Hasher, s: State, e: Env, k: nat)
    requires FleetAt(hasher, s, k)
    ensures var s1 := AddMissing(s, DesiredIn(hasher, s), e); IsSteady(hasher, s1) && Level(Within(AppsOf(s), k), s1.table)
  {
    if k == 0 {
      StartLevel(s, DesiredIn(hasher, s), e, AppsOf(s));
    } else {
      NothingMissing(s, DesiredIn(hasher, s), e);
    }
  }

  /** Checks and exits change nothing but the check clock and the recorded answers. */
  lemma ReapedQuiet(s: State, e: Env, k: nat)
    requires ChecksPass(s.checksOk) && Level(Within(AppsOf(s), k), s.table) && Cooperative(e)
    ensures var s1 := Reap(ReverifyChecks(s, e), e);
            && ChecksPass(s1.checksOk)
            && s1.(checksOk := s.checksOk, nextCheckVerify := s.nextCheckVerify) == s
  {
    ChecksStayPassing(s.m.checks, e.check, s.checksOk);
    ReapQuiet(ReverifyChecks(s, e), e, Within(AppsOf(s), k));
  }

  lemma TickLevels(hasher: Hasher, s: State, e: Env, k: nat)
    requires Configured(s) && FleetAt(hasher, s, k) && Cooperative(e)
    ensures Configured(Tick(hasher, s, e)) && FleetAt(hasher, Tick(hasher, s, e), k + 1)
  {
    ReapedQuiet(s, e, k);
    var s1, s2 := TickParts(hasher, s, e);
    assert DesiredIn(hasher, s1) == DesiredIn(hasher, s);
    FirstHalfQuiet(hasher, s1, e, k);
    AddMissingLevel(hasher, s2, e, k);
    SecondHalfLevel(hasher, s2, e, k);
    if k == 0 {
      FirstTickFills(hasher, s, e);
    } else {
      TickStaysSteady(hasher, s, e);
    }
  }

  /** Reload checks are free; every tick up to state `b` has a cooperative environment. */
  ghost predicate AllCooperative(steps: seq<Step>, b: nat) {
    forall j {:trigger steps[j]} :: 0 <= j < b && j < |steps| && steps[j].Ticked? ==> Cooperative(steps[j].e)
  }

  /** The state as its count of ticks says it should be. */
  ghost predicate Levelled(hasher: Hasher, s: State) {
    Configured(s) && FleetAt(hasher, s, s.tick)
  }

  lemma TickIsLevelled(hasher: Hasher, s: State, e: Env)
    requires Levelled(hasher, s) && Cooperative(e)
    ensures Levelled(hasher, Tick(hasher, s, e))
  {
    TickLevels(hasher, s, e, s.tick);
    TickKeepsConfig(hasher, s, e);
  }

  lemma SameLevel(hasher: Hasher, s: State, s': State)
    requires Levelled(hasher, s) && s'.(manifestMtime := s.manifestMtime, pendingMtime := s.pendingMtime) == s
    ensures Levelled(hasher, s')
  {
    assert AppsOf(s') == AppsOf(s) && DesiredIn(hasher, s') == DesiredIn(hasher, s);
  }

  lemma StepLevels(hasher: Hasher, s: State, step: Step, s': State)
    requires Leads(hasher, s, step, s') && SameConfig(s, s') && Levelled(hasher, s)
    requires step.Ticked? ==> Cooperative(step.e)
    ensures Levelled(hasher, s')
  {
    match step
    case Ticked(e) =>
      TickIsLevelled(hasher, s, e);
    case Reloaded(o) =>
      ReloadChanges(s, o);
      SameLevel(hasher, s, s');
  }

  lemma RunStepLevels(hasher: Hasher, ss: seq<State>, steps: seq<Step>, b: nat, k: nat)
    requires IsRun(hasher, ss, steps) && k < b < |ss| && Unedited(ss, 0, b) && AllCooperative(steps, b)
    requires Levelled(hasher, ss[k])
    ensures Levelled(hasher, ss[k + 1])
  {
    assert LeadsAt(hasher, ss, steps, k);
    StepLevels(hasher, ss[k], steps[k], ss[k + 1]);
  }

  lemma StartIsLevelled(hasher: Hasher, ss: seq<State>, steps: seq<Step>)
    requires IsRun(hasher, ss, steps) && ChecksPass(ss[0].checksOk)
    ensures Levelled(hasher, ss[0])
  {
  }

  /** A run with a cooperative environment and no edit up to state `b`. */
  ghost predicate IsCooperativeRun(hasher: Hasher, ss: seq<State>, steps: seq<Step>, b: nat) {
    && IsRun(hasher, ss, steps) && b < |ss|
    && ChecksPass(ss[0].checksOk) && Unedited(ss, 0, b) && AllCooperative(steps, b)
  }

  lemma CooperativeRunLevels(hasher: Hasher, ss: seq<State>, steps: seq<Step>, b: nat)
    requires IsCooperativeRun(hasher, ss, steps, b)
    ensures Levelled(hasher, ss[b])
  {
    StartIsLevelled(hasher, ss, steps);
    forall j: nat | j < b && Levelled(hasher, ss[j]) ensures Levelled(hasher, ss[j + 1]) {
      RunStepLevels(hasher, ss, steps, b, j);
    }
    AlongStates(ss, (s, j) => Levelled(hasher, s), 0, b);
  }

  /**
   * After n cooperative ticks, with any reload checks between them, exactly the selected apps
   * whose dependency chains have at most n apps have every replica Ready; every other replica
   * is Pending.
   */
  lemma FleetComesUpByLevels(hasher: Hasher, ss: seq<State>, steps: seq<Step>, b: nat)
    requires IsCooperativeRun(hasher, ss, steps, b) && ss[b].tick > 0
    ensures OneRecordPerSlot(hasher, ss[b])
    ensures forall i :: 0 <= i < |ss[b].table| ==>
              ss[b].table[i].phase == if DepthAtMost(AppsOf(ss[0]), ss[b].table[i].app, ss[b].tick) then Ready else Pending
  {
    CooperativeRunLevels(hasher, ss, steps, b);
    TableIsBijection(hasher, ss, steps, b);
    LevelPhases(hasher, ss[b]);
    SameGraph(ss, b);
  }

  lemma SameGraph(ss: seq<State>, b: nat)
    requires b < |ss| && Unedited(ss, 0, b)
    ensures AppsOf(ss[b]) == AppsOf(ss[0])
  {
  }

  lemma LevelPhases(hasher: Hasher, s: State)
    requires Levelled(hasher, s) && s.tick > 0
    ensures forall i :: 0 <= i < |s.table| ==>
              s.table[i].phase == if DepthAtMost(AppsOf(s), s.table[i].app, s.tick) then Ready else Pending
  {
    forall i | 0 <= i < |s.table| && DepthAtMost(AppsOf(s), s.table[i].app, s.tick) ensures s.table[i].app in Within(AppsOf(s), s.tick) {
    }
  }

  /** A record is Ready exactly when its app reaches no dependency cycle, and Pending otherwise. */
  ghost predicate ReadyUnlessCyclic(g: AppGraph, t: Table) {
    forall i :: 0 <= i < |t| ==> t[i].phase == if ReachesCycle(g, t[i].app) then Pending else Ready
  }

  /**
   * From as many ticks on as there are apps, an instance of a selected app is Ready exactly
   * when the app reaches no dependency cycle, and Pending otherwise.
   */
  lemma ReadyIffNoCycle(hasher: Hasher, ss: seq<State>, steps: seq<Step>, b: nat)
    requires IsCooperativeRun(hasher, ss, steps, b) && ss[b].tick > 0 && ss[b].tick >= |AppsOf(ss[0])|
    ensures OneRecordPerSlot(hasher, ss[b]) && ReadyUnlessCyclic(AppsOf(ss[0]), ss[b].table)
  {
    var g := AppsOf(ss[0]);
    FleetComesUpByLevels(hasher, ss, steps, b);
    SameGraph(ss, b);
    ReachableOk(hasher, ss, steps, b);
    forall i | 0 <= i < |ss[b].table|
      ensures ss[b].table[i].phase == if ReachesCycle(g, ss[b].table[i].app) then Pending else Ready
    {
      assert IsSlot(ss[b].m, ss[b].selected, ss[b].table[i].Slot());
      GraphOfWellFormed(ss[b].m, ss[b].table[i].app);
      DepthIffNoCycle(g, ss[b].table[i].app, ss[b].tick);
    }
  }

  ghost predicate AllReady(t: Table) {
    forall i :: 0 <= i < |t| ==> t[i].phase == Ready
  }

  lemma AllReadyIff(s: State, g: AppGraph)
    requires WellFormed(s.m) && SoundSelection(s.m, s.selected) && Covers(s) && ReadyUnlessCyclic(g, s.table)
    ensures AllReady(s.table) <==> forall a :: a in s.selected ==> !ReachesCycle(g, a)
  {
    if AllReady(s.table) {
      forall a | a in s.selected ensures !ReachesCycle(g, a) {
        FirstSlot(s.m, s.selected, a);
        assert Occupied(s.table, Key(a, 0));
        var i :| 0 <= i < |s.table| && s.table[i].Slot() == Key(a, 0);
      }
    }
    if forall a :: a in s.selected ==> !ReachesCycle(g, a) {
      forall i | 0 <= i < |s.table| ensures s.table[i].phase == Ready {
        assert IsSlot(s.m, s.selected, s.table[i].Slot());
      }
    }
  }

  /** So the whole fleet comes up, and stays up, exactly when no selected app reaches a cycle. */
  lemma FleetComesUpIff(hasher: Hasher, ss: seq<State>, steps: seq<Step>, b: nat)
    requires IsCooperativeRun(hasher, ss, steps, b) && ss[b].tick > 0 && ss[b].tick >= |AppsOf(ss[0])|
    ensures AllReady(ss[b].table) <==> forall a :: a in ss[b].selected ==> !ReachesCycle(AppsOf(ss[0]), a)
  {
    ReadyIffNoCycle(hasher, ss, steps, b);
    ReachableOk(hasher, ss, steps, b);
    AllReadyIff(ss[b], AppsOf(ss[0]));
  }
}
