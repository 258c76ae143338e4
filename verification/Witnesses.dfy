/** Concrete manifests and runs that show what the code can be led into. */
module Witnesses {
  import opened Prelude
  import opened Manifests
  import opened KeyOrder
  import opened Instances
  import opened Stages
  import opened Graph
  import opened Selection
  import opened Tracking
  import opened Fates
  import opened Runs
  import opened Steady
  import opened Edits
  import opened SurgeRolls
  import opened IdleStops
  import opened Lodgings
  import opened Lifecycle
  import opened Availability
  import opened Convergence
  import opened Rollouts
  import opened Completions
  import opened Patience
  import opened Feasible

  // ----- building blocks -----

  function SomeDefaults(maxSurge: nat): Defaults {
    Defaults(map[], 500, 30_000, 10, maxSurge)
  }

  /** An app without probes, so that it is Ready as soon as it runs. */
  function SomeApp(name: string, bin: string, replicas: nat, port: Port, dependsOn: seq<string>): App {
    App(name, bin, [], None, replicas, port, map[], dependsOn, None, None, "", "", 30, 10, 3)
  }

  /** A hash that tells binaries of different lengths apart. */
  function BinHash(): Hasher {
    (d: Defaults, a: App, i: nat, p: nat) => |a.bin|
  }

  /** A tick in which nothing exits, and every spawn and probe succeeds. */
  function Calm(now: nat, checksPass: bool): Env {
    Env(now, (c: string) => checksPass, now, (p: Pid) => StillRunning, now, now, now, [], now,
        (i: nat) => SpawnAnswer(true, now), now, now, (i: nat) => ProbeAnswer(true, now, true, now))
  }

  /** The loop as `up` starts it on a manifest, with every check passing. */
  function Start(m: Manifest, checksOk: map<string, bool>): State {
    State(m, m.AppNames(), [], map[], checksOk, CHECK_VERIFY_PERIOD, Some(0), None, 0)
  }

  /** The edited file, with its new mtime. */
  function Saved(m: Manifest, mtime: nat): Observation {
    Observation(Some(mtime), Some(m))
  }

  /** Two reload checks that see it replace the manifest. */
  lemma ReloadTwice(s: State, m: Manifest, mtime: nat)
    requires s.manifestMtime != Some(mtime) && s.pendingMtime.None?
    requires |s.selected| == |s.m.apps| && m.apps != []
    ensures MaybeReload(MaybeReload(s, Saved(m, mtime)), Saved(m, mtime)) == AfterEdit(s, m, mtime)
  {
    assert m.apps[0].name in m.AppNames();
    assert OnlyNames(s.(pendingMtime := Some(mtime))).None?;
  }

  // ----- one app -----

  function OneApp(maxSurge: nat, checks: seq<Check>, a: App): Manifest {
    Manifest(SomeDefaults(maxSurge), checks, [a])
  }

  lemma OneAppWellFormed(maxSurge: nat, a: App)
    requires a.dependsOn == [] && 0 < a.replicas && a.port + a.replicas - 1 <= U16_MAX
    ensures WellFormed(OneApp(maxSurge, [], a))
    ensures OneApp(maxSurge, [], a).Lookup(a.name) == Some(a) && OneApp(maxSurge, [], a).AppNames() == {a.name}
    ensures Initial(Start(OneApp(maxSurge, [], a), map[]))
  {
    var m := OneApp(maxSurge, [], a);
    assert forall x :: x in m.apps <==> x == a;
    assert WellFormed(m) && a.name in m.AppNames();
    SelectedIsSound(m, None);
  }

  // ----- an accepted manifest with a cycle -----

  /** Two apps that wait for each other. */
  function Deadlock(): Manifest {
    Manifest(SomeDefaults(0), [], [SomeApp("a", "x", 1, 8000, ["b"]), SomeApp("b", "x", 1, 9000, ["a"])])
  }

  lemma DeadlockWellFormed()
    ensures WellFormed(Deadlock())
  {
    var m := Deadlock();
    var a, b := m.apps[0], m.apps[1];
    assert forall x :: x in m.apps ==> x == a || x == b;
    assert m.Lookup("a") == Some(a) && a.name != "b";
    assert m.apps[1..] == [b] && m.Lookup("b") == Some(b);
    forall x, d | x in m.apps && d in x.dependsOn ensures KnownName(m, d) {
      assert d == "a" || d == "b";
    }
  }

  lemma DeadlockEdges()
    ensures var g := ByName(Deadlock().apps); Edge(g, "a", "b") && Edge(g, "b", "a")
  {
    DeadlockWellFormed();
    var m := Deadlock();
    GraphOfWellFormed(m, "a");
    GraphOfWellFormed(m, "b");
    assert m.apps[1..] == [m.apps[1]] && m.Lookup("a") == Some(m.apps[0]) && m.Lookup("b") == Some(m.apps[1]);
  }

  /**
   * Validation and start-up accept it, although both apps are on a cycle; so by
   * `CyclicAppsNeverSpawn` no run from it ever spawns anything, whatever the environment.
   */
  lemma DeadlockIsAccepted()
    ensures WellFormed(Deadlock()) && Initial(Start(Deadlock(), map[]))
    ensures ReachesCycle(ByName(Deadlock().apps), "a") && ReachesCycle(ByName(Deadlock().apps), "b")
    ensures !Acyclic(ByName(Deadlock().apps))
  {
    DeadlockWellFormed();
    DeadlockEdges();
    SelectedIsSound(Deadlock(), None);
    var g := ByName(Deadlock().apps);
    TwoCycle(g, "a", "b");
    TwoCycle(g, "b", "a");
  }

  lemma TwoCycle(g: AppGraph, a: string, b: string)
    requires Edge(g, a, b) && Edge(g, b, a)
    ensures ReachesCycle(g, a) && DependsOn(g, a, a)
  {
    var p := [a, b, a];
    assert IsPath(g, p) && PathFromTo(g, p, a, a);
    assert Reaches(g, a, a) && DependsOn(g, a, a);
  }

  // ----- an edit that doubles the records -----

  function TwoReplicas(bin: string): Manifest {
    OneApp(0, [], SomeApp("web", bin, 2, 8080, []))
  }

  /** The edited file is seen twice. */
  function EditSteps(m: Manifest, mtime: nat): seq<Step> {
    [Reloaded(Saved(m, mtime)), Reloaded(Saved(m, mtime))]
  }

  /** The state when the edit has been taken over. */
  function AfterEdit(s: State, m: Manifest, mtime: nat): State {
    s.(m := m, selected := m.AppNames(), manifestMtime := Some(mtime), pendingMtime := None)
  }

  lemma OneStep(hasher: Hasher, s: State, step: Step, s': State, k: nat)
    requires Leads(hasher, s, step, s')
    ensures LeadsAt(hasher, [s, s'], [step], k)
  {
  }

  lemma FirstStep(hasher: Hasher, s: State, step: Step, s': State, ss: seq<State>, steps: seq<Step>)
    requires Initial(s) && Leads(hasher, s, step, s') && ss == [s, s'] && steps == [step]
    ensures RunTo(hasher, ss, steps, s')
  {
    forall k: nat ensures LeadsAt(hasher, ss, steps, k) {
      OneStep(hasher, s, step, s', k);
    }
  }

  /** The run so far, and the state it is in. */
  ghost predicate RunTo(hasher: Hasher, ss: seq<State>, steps: seq<Step>, s: State) {
    IsRun(hasher, ss, steps) && ss[|steps|] == s
  }

  lemma TickOn(hasher: Hasher, ss: seq<State>, steps: seq<Step>, s: State, e: Env) returns (ss': seq<State>)
    requires RunTo(hasher, ss, steps, s)
    ensures RunTo(hasher, ss', steps + [Ticked(e)], Tick(hasher, s, e)) && ss' == ss + [Tick(hasher, s, e)]
  {
    ss' := StepOn(hasher, ss, steps, s, Ticked(e), Tick(hasher, s, e));
  }

  lemma StepOn(hasher: Hasher, ss: seq<State>, steps: seq<Step>, s: State, step: Step, s': State) returns (ss': seq<State>)
    requires RunTo(hasher, ss, steps, s) && Leads(hasher, s, step, s')
    ensures RunTo(hasher, ss', steps + [step], s') && ss' == ss + [s']
  {
    ss' := ss + [s'];
    ExtendRun(hasher, ss, steps, step, s');
  }

  lemma ReloadOn(hasher: Hasher, ss: seq<State>, steps: seq<Step>, s: State, o: Observation) returns (ss': seq<State>)
    requires RunTo(hasher, ss, steps, s) && StepOk(Reloaded(o))
    ensures RunTo(hasher, ss', steps + [Reloaded(o)], MaybeReload(s, o)) && ss' == ss + [MaybeReload(s, o)]
  {
    ss' := StepOn(hasher, ss, steps, s, Reloaded(o), MaybeReload(s, o));
  }

  /** Two checks that see the edited file take it over. */
  lemma EditOn(hasher: Hasher, ss: seq<State>, steps: seq<Step>, s: State, m: Manifest, mtime: nat) returns (ss': seq<State>)
    requires RunTo(hasher, ss, steps, s) && WellFormed(m)
    requires s.manifestMtime != Some(mtime) && s.pendingMtime.None? && |s.selected| == |s.m.apps| && m.apps != []
    ensures RunTo(hasher, ss', steps + EditSteps(m, mtime), AfterEdit(s, m, mtime)) && ss <= ss' && |ss'| == |ss| + 2
  {
    var seen := Reloaded(Saved(m, mtime));
    ReloadTwice(s, m, mtime);
    ss' := ReloadOn(hasher, ss, steps, s, Saved(m, mtime));
    ss' := ReloadOn(hasher, ss', steps + [seen], MaybeReload(s, Saved(m, mtime)), Saved(m, mtime));
    assert steps + [seen] + [seen] == steps + EditSteps(m, mtime);
  }

  lemma FirstTick(hasher: Hasher, s: State, e: Env) returns (ss: seq<State>)
    requires Initial(s)
    ensures RunTo(hasher, ss, [Ticked(e)], Tick(hasher, s, e)) && ss == [s, Tick(hasher, s, e)]
  {
    var s' := Tick(hasher, s, e);
    ss := [s, s'];
    FirstStep(hasher, s, Ticked(e), s', ss, [Ticked(e)]);
  }

  /** A tick from the start, then the reload checks that take the edit over. */
  lemma EditedRun(hasher: Hasher, s: State, e: Env, m: Manifest) returns (ss: seq<State>)
    requires Initial(s) && s.manifestMtime == Some(0) && |s.selected| == |s.m.apps| && m.apps != [] && WellFormed(m)
    ensures RunTo(hasher, ss, [Ticked(e)] + EditSteps(m, 1), AfterEdit(Tick(hasher, s, e), m, 1))
    ensures |ss| == 4 && ss[0] == s && ss[1] == Tick(hasher, s, e)
  {
    TickKeepsConfig(hasher, s, e);
    ss := FirstTick(hasher, s, e);
    ss := EditOn(hasher, ss, [Ticked(e)], Tick(hasher, s, e), m, 1);
  }

  /** ... and one more tick. */
  lemma EditedRunOn(hasher: Hasher, s: State, e: Env, m: Manifest, e1: Env) returns (ss: seq<State>)
    requires Initial(s) && s.manifestMtime == Some(0) && |s.selected| == |s.m.apps| && m.apps != [] && WellFormed(m)
    ensures RunTo(hasher, ss, [Ticked(e)] + EditSteps(m, 1) + [Ticked(e1)], Tick(hasher, AfterEdit(Tick(hasher, s, e), m, 1), e1))
    ensures |ss| == 5 && ss[0] == s && ss[1] == Tick(hasher, s, e) && ss[4] == Tick(hasher, AfterEdit(ss[1], m, 1), e1)
  {
    ss := EditedRun(hasher, s, e, m);
    ss := TickOn(hasher, ss, [Ticked(e)] + EditSteps(m, 1), AfterEdit(Tick(hasher, s, e), m, 1), e1);
  }

  /** ... and another one. */
  lemma EditedRunOnTwice(hasher: Hasher, s: State, e: Env, m: Manifest, e1: Env, e2: Env) returns (ss: seq<State>)
    requires Initial(s) && s.manifestMtime == Some(0) && |s.selected| == |s.m.apps| && m.apps != [] && WellFormed(m)
    ensures IsRun(hasher, ss, [Ticked(e)] + EditSteps(m, 1) + [Ticked(e1)] + [Ticked(e2)])
    ensures |ss| == 6 && ss[0] == s
    ensures ss[4] == Tick(hasher, AfterEdit(Tick(hasher, s, e), m, 1), e1) && ss[5] == Tick(hasher, ss[4], e2)
  {
    ss := EditedRunOn(hasher, s, e, m, e1);
    var s4 := ss[4];
    ss := TickOn(hasher, ss, [Ticked(e)] + EditSteps(m, 1) + [Ticked(e1)], s4, e2);
  }

  lemma BinHashWants(s: State, m: Manifest, a: App, k: Key)
    requires m.Lookup("web") == Some(a) && s.m == m && s.selected == {"web"} && k in DesiredIn(BinHash(), s)
    ensures k.app == "web" && DesiredIn(BinHash(), s)[k].hash == |a.bin|
  {
    DesiredSlotsAre(BinHash(), s.m, s.selected, s.ports);
  }

  lemma BothSlotsChange(s: State)
    requires s.m == TwoReplicas("a") && s.selected == {"web"}
    ensures var m := TwoReplicas("bb");
            |Changed(DesiredIn(BinHash(), s), DesiredIn(BinHash(), Edited(s, m, {"web"})), "web")| == 2
  {
    var h, s' := BinHash(), Edited(s, TwoReplicas("bb"), {"web"});
    var a, b := SomeApp("web", "a", 2, 8080, []), SomeApp("web", "bb", 2, 8080, []);
    OneAppWellFormed(0, a);
    OneAppWellFormed(0, b);
    var d, d' := DesiredIn(h, s), DesiredIn(h, s');
    forall k | k in d' ensures k.app == "web" && (k in d ==> d'[k].hash != d[k].hash) {
      BinHashWants(s', s'.m, b, k);
      if k in d {
        BinHashWants(s, s.m, a, k);
      }
    }
    SlotsOfApp(h, s', "web");
    assert Changed(d, d', "web") == SlotsOf(d', "web");
  }

  /**
   * A run of the loop, whatever its ticks meet: with `max_surge = 0`, an edit of the binary of a
   * two-replica app leaves it four records after the next tick, twice the documented bound.
   */
  lemma EditDoublesTheRecords(e: Env, e': Env) returns (ss: seq<State>)
    ensures IsRun(BinHash(), ss, [Ticked(e)] + EditSteps(TwoReplicas("bb"), 1) + [Ticked(e')]) && ss[0] == Start(TwoReplicas("a"), map[])
    ensures AppCount(ss[1].table, "web") == 2 && AppCount(ss[4].table, "web") == 4
    ensures Replicas(ss[4].m, "web") + ss[4].m.defaults.maxSurge == 2
  {
    var h, s := BinHash(), Start(TwoReplicas("a"), map[]);
    OneAppWellFormed(0, SomeApp("web", "a", 2, 8080, []));
    OneAppWellFormed(0, SomeApp("web", "bb", 2, 8080, []));
    ss := EditedRun(h, s, e, TwoReplicas("bb"));
    ss := TickOn(h, ss, [Ticked(e)] + EditSteps(TwoReplicas("bb"), 1), AfterEdit(ss[1], TwoReplicas("bb"), 1), e');
    FirstTickFills(h, s, e);
    TickKeepsConfig(h, s, e);
    SteadyCount(DesiredIn(h, ss[1]), ss[1].table, "web");
    SlotsOfApp(h, ss[1], "web");
    EditedTickDoubles(ss[1], e');
  }

  lemma EditedTickDoubles(s: State, e: Env)
    requires s.m == TwoReplicas("a") && s.selected == {"web"} && IsSteady(BinHash(), s)
    ensures var s' := Tick(BinHash(), AfterEdit(s, TwoReplicas("bb"), 1), e);
            && s'.m == TwoReplicas("bb") && AppCount(s'.table, "web") == 4
            && Replicas(s'.m, "web") + s'.m.defaults.maxSurge == 2
  {
    var base := s.(manifestMtime := Some(1), pendingMtime := None);
    OneAppWellFormed(0, SomeApp("web", "bb", 2, 8080, []));
    SteadyBase(s, base);
    EditedWebDoubles(base, e);
    TickKeepsConfig(BinHash(), AfterEdit(s, TwoReplicas("bb"), 1), e);
  }

  lemma SteadyBase(s: State, base: State)
    requires IsSteady(BinHash(), s) && base == s.(manifestMtime := Some(1), pendingMtime := None)
    ensures IsSteady(BinHash(), base)
  {
    assert DesiredIn(BinHash(), base) == DesiredIn(BinHash(), s);
  }

  lemma EditedWebDoubles(s: State, e: Env)
    requires s.m == TwoReplicas("a") && s.selected == {"web"} && IsSteady(BinHash(), s)
    ensures AppCount(Tick(BinHash(), Edited(s, TwoReplicas("bb"), {"web"}), e).table, "web") == 4
  {
    var h, m := BinHash(), TwoReplicas("bb");
    OneAppWellFormed(0, SomeApp("web", "a", 2, 8080, []));
    OneAppWellFormed(0, SomeApp("web", "bb", 2, 8080, []));
    BothSlotsChange(s);
    NoSurgeNoMoves(h, Edited(s, m, {"web"}), e);
    EditInPlace(h, s, m, {"web"}, e, "web");
  }

  // ----- a surge roll that loses the new instance -----

  function Solo(bin: string): Manifest {
    OneApp(1, [], SomeApp("web", bin, 1, 8080, []))
  }

  function Web(): Key {
    Key("web", 0)
  }

  /** A loop that runs that app, whose next check round is still to come. */
  ghost predicate RunsSolo(s: State, bin: string, e: Env) {
    s.m == Solo(bin) && s.selected == {"web"} && e.checkAt < s.nextCheckVerify
  }

  ghost predicate IsUp(r: Instance, hash: nat, pid: Pid) {
    r.Slot() == Web() && r.specHash == hash && r.phase == Ready && r.handle == Some(Handle(pid, []))
  }

  lemma SoloWants(s: State, bin: string)
    requires s.m == Solo(bin) && s.selected == {"web"}
    ensures var d := DesiredIn(BinHash(), s);
            d.Keys == {Web()} && Web() in d && d[Web()].hash == |bin| && InKeyOrder(d.Keys) == [Web()]
  {
    var d := DesiredIn(BinHash(), s);
    OneAppWellFormed(1, SomeApp("web", bin, 1, 8080, []));
    DesiredSlotsAre(BinHash(), s.m, s.selected, s.ports);
    assert d.Keys == {Web()};
    OneKey();
  }

  lemma OneKey()
    ensures InKeyOrder({Web()}) == [Web()]
  {
    InKeyOrderSorts({Web()});
    var ks := InKeyOrder({Web()});
    NoDupBound(ks, {Web()});
    assert Web() in ks;
  }

  lemma SoloApp(bin: string)
    ensures var a := SomeApp("web", bin, 1, 8080, []);
            Solo(bin).Lookup("web") == Some(a) && WellFormed(Solo(bin)) && Initial(Start(Solo(bin), map[])) && Solo(bin).AppNames() == {"web"}
  {
    OneAppWellFormed(1, SomeApp("web", bin, 1, 8080, []));
  }

  /** An app without probes is left alone by the probe stage. */
  lemma SoloProbe(s: State, bin: string, e: Env)
    requires s.m == Solo(bin) && forall i :: 0 <= i < |s.table| ==> s.table[i].app == "web"
    ensures Probe(s, e) == s
  {
    SoloApp(bin);
    forall i | 0 <= i < |s.table| ensures ProbeOne(s.m, s.table[i], e.probeAt, e.probe(i)) == s.table[i] {
      assert s.m.Lookup(s.table[i].app) == Some(SomeApp("web", bin, 1, 8080, []));
    }
    assert Probe(s, e).table == s.table;
  }

  /** A new record is spawned, and is Ready at once. */
  lemma SoloSpawn(s: State, bin: string, now: nat, i: nat, r: Instance)
    requires s.m == Solo(bin) && i < |s.table| && s.table[i] == r
    requires r == NewInstance("web", 0, r.port, |bin|, now)
    ensures IsUp(SpawnReady(BinHash(), s, Calm(now, true)).table[i], |bin|, Pid(s.tick, i))
  {
    SoloApp(bin);
  }

  lemma SoloFirstSpawn(s: State, bin: string, now: nat)
    requires s.m == Solo(bin) && s.selected == {"web"} && s.table == []
    ensures var t := SecondHalf(BinHash(), s, DesiredIn(BinHash(), s), Calm(now, true)).table;
            |t| == 1 && IsUp(t[0], |bin|, Pid(s.tick, 0))
  {
    var h, e := BinHash(), Calm(now, true);
    SoloWants(s, bin);
    var d := DesiredIn(h, s);
    AllMissing(d, [Web()], now);
    var s1 := AddMissing(s, d, e);
    assert s1.table == [NewFor(d, Web(), now)];
    SoloSpawn(s1, bin, now, 0, s1.table[0]);
    SoloKeeps(SpawnReady(h, s1, e), bin, d, e);
  }

  /** A single up-to-date record is left alone from the retire stage on. */
  lemma SoloKeeps(s: State, bin: string, d: Desired, e: Env)
    requires s.m == Solo(bin) && |s.table| == 1 && s.table[0].app == "web" && UpToDate(d, s.table[0])
    ensures Probe(RetireStaleSurplus(s, d, e), e).table == s.table
  {
    assert !Retires(d, s.table, s.table[0]);
    assert RetireStaleSurplus(s, d, e).table == s.table;
    SoloProbe(RetireStaleSurplus(s, d, e), bin, e);
  }

  lemma EmptyBeforeSpawn(hasher: Hasher, s: State, e: Env) returns (s2: State)
    requires s.table == []
    ensures s2.table == [] && s2.m == s.m && s2.selected == s.selected && s2.tick == s.tick
    ensures Tick(hasher, s, e).table == SecondHalf(hasher, s2, DesiredIn(hasher, s2), e).table
  {
    var s1;
    s1, s2 := TickParts(hasher, s, e);
    FirstHalfSteady(s1, DesiredIn(hasher, s1), e);
  }

  /** The tick on an empty table spawns the app. */
  lemma SoloFirstTick(s: State, bin: string, now: nat)
    requires s.m == Solo(bin) && s.selected == {"web"} && s.table == []
    ensures var t := Tick(BinHash(), s, Calm(now, true)).table; |t| == 1 && IsUp(t[0], |bin|, Pid(s.tick, 0))
  {
    var s2 := EmptyBeforeSpawn(BinHash(), s, Calm(now, true));
    SoloFirstSpawn(s2, bin, now);
  }

  lemma AllDesiredStay(s: State, d: Desired, e: Env)
    requires forall i :: 0 <= i < |s.table| ==> s.table[i].Slot() in d
    ensures TerminateUndesired(s, d, e) == s
  {
    assert StoppedUndesired(s.table, d, e.terminateAt) == s.table && IdleUndesired(s.table, d) == {};
    RetainAll(s.table, {});
  }

  lemma SoloUnblocked(s: State, bin: string, e: Env)
    requires s.m == Solo(bin) && forall i :: 0 <= i < |s.table| ==> s.table[i].app == "web"
    ensures StopCheckBlocked(s, e) == s
  {
    SoloApp(bin);
    assert StopCheckBlocked(s, e).table == s.table;
  }

  lemma SoloStops(s: State, bin: string, d: Desired, e: Env, r: Instance)
    requires s.m == Solo(bin) && s.table == [r] && r.Slot() == Web() && Web() in d
    ensures StopCheckBlocked(TerminateUndesired(s, d, e), e) == s
  {
    AllDesiredStay(s, d, e);
    SoloUnblocked(s, bin, e);
  }

  /** With the one instance stale, the first half of a tick only moves its slot. */
  lemma SoloRoll(s: State, bin: string, e: Env, r: Instance)
    requires s.m == Solo(bin) && s.selected == {"web"} && s.table == [r]
    requires r.Slot() == Web() && r.phase == Ready && r.Running() && r.specHash != |bin|
    ensures FirstHalf(s, DesiredIn(BinHash(), s), e).table == [r]
  {
    var d := DesiredIn(BinHash(), s);
    SoloWants(s, bin);
    SoloStops(s, bin, d, e, r);
    assert FirstStaleNotReady(d, s.table, "web").None?;
    assert RolledTable(s.m, s.selected, d, s.table, e.rollAt) == s.table;
  }

  lemma NoneReaped(s: State, e: Env, r: Instance)
    requires s.table == [r] && r.Running() && !e.wait(r.handle.value.pid).Exited? && r.phase != Terminating
    ensures Reap(s, e) == s
  {
    assert ReapedTable(s.table, s.m.defaults, e.wait, e.reapAt) == s.table;
    assert DroppedSlots(s.table, e.wait) == {};
    RetainAll(s.table, {});
  }

  lemma SoloReap(s: State, now: nat, r: Instance)
    requires s.table == [r] && r.Serving() && now < s.nextCheckVerify
    ensures Reap(ReverifyChecks(s, Calm(now, true)), Calm(now, true)) == s
  {
    assert ReverifyChecks(s, Calm(now, true)) == s;
    NoneReaped(s, Calm(now, true), r);
  }

  lemma SoloSuccessor(s: State, bin: string, now: nat, r: Instance)
    requires s.m == Solo(bin) && s.selected == {"web"} && s.table == [r]
    requires r.Slot() == Web() && r.phase == Ready && r.Serving() && r.specHash != |bin|
    ensures var u := SpawnMissing(BinHash(), s, DesiredIn(BinHash(), s), Calm(now, true)).table;
            |u| == 2 && u[0] == r && IsUp(u[1], |bin|, Pid(s.tick, 1))
  {
    var d := DesiredIn(BinHash(), s);
    SoloWants(s, bin);
    assert !HasHash(s.table, Web(), |bin|);
    assert Missing(d, s.table, [], now) == [];
    assert [Web()][..0] == [];
    assert Missing(d, s.table, [Web()], now) == [NewFor(d, Web(), now)];
    var s1 := AddMissing(s, d, Calm(now, true));
    assert s1.table == [r, NewFor(d, Web(), now)];
    SoloSpawn(s1, bin, now, 1, s1.table[1]);
  }

  lemma SoloRetire(s: State, bin: string, d: Desired, e: Env, pid: Pid)
    requires s.m == Solo(bin) && |s.table| == 2 && s.table[0].Slot() == Web() && s.table[0].phase == Ready && s.table[0].specHash != |bin|
    requires d.Keys == {Web()} && Web() in d && d[Web()].hash == |bin| && IsUp(s.table[1], |bin|, pid)
    ensures RetireStaleSurplus(s, d, e).table == [BeginStop(s.table[0], false, e.retireAt), s.table[1]]
  {
    assert Replaced(d, s.table, Web());
    assert Retires(d, s.table, s.table[0]) && !Retires(d, s.table, s.table[1]);
  }

  lemma SoloSurge(s: State, bin: string, now: nat, r: Instance)
    requires s.m == Solo(bin) && s.selected == {"web"} && s.table == [r]
    requires r.Slot() == Web() && r.phase == Ready && r.Serving() && r.specHash != |bin|
    ensures var t := SecondHalf(BinHash(), s, DesiredIn(BinHash(), s), Calm(now, true)).table;
            |t| == 2 && t[0] == BeginStop(r, false, now) && IsUp(t[1], |bin|, Pid(s.tick, 1))
  {
    var h, e := BinHash(), Calm(now, true);
    SoloWants(s, bin);
    var d := DesiredIn(h, s);
    SoloSuccessor(s, bin, now, r);
    var s1 := SpawnMissing(h, s, d, e);
    SoloRetire(s1, bin, d, e, Pid(s.tick, 1));
    SoloProbe(RetireStaleSurplus(s1, d, e), bin, e);
  }

  lemma SoloBeforeSpawn(s: State, bin: string, now: nat, r: Instance) returns (s2: State)
    requires RunsSolo(s, bin, Calm(now, true)) && s.table == [r]
    requires r.Slot() == Web() && r.phase == Ready && r.Serving() && r.specHash != |bin|
    ensures s2.table == [r] && s2.m == s.m && s2.selected == s.selected && s2.tick == s.tick
    ensures Tick(BinHash(), s, Calm(now, true)).table == SecondHalf(BinHash(), s2, DesiredIn(BinHash(), s2), Calm(now, true)).table
  {
    var h, e := BinHash(), Calm(now, true);
    SoloReap(s, now, r);
    var s1;
    s1, s2 := TickParts(h, s, e);
    SoloRoll(s1, bin, e, r);
  }

  /** The tick after the edit: the new instance comes up beside the old one, which is stopped for good. */
  lemma SoloSurgeTick(s: State, bin: string, now: nat, r: Instance)
    requires RunsSolo(s, bin, Calm(now, true)) && s.table == [r]
    requires r.Slot() == Web() && r.phase == Ready && r.Serving() && r.specHash != |bin|
    ensures var t := Tick(BinHash(), s, Calm(now, true)).table;
            |t| == 2 && t[0] == BeginStop(r, false, now) && IsUp(t[1], |bin|, Pid(s.tick, 1))
  {
    var s2 := SoloBeforeSpawn(s, bin, now, r);
    SoloSurge(s2, bin, now, r);
  }

  /** The calm tick in which one process turns out to have exited. */
  function ExitOf(pid: Pid, now: nat): Env {
    Calm(now, true).(wait := (p: Pid) => if p == pid then Exited else StillRunning)
  }

  lemma FirstCheckLater(hasher: Hasher, s: State, e: Env)
    requires e.checkAt < s.nextCheckVerify
    ensures Tick(hasher, s, e).nextCheckVerify == s.nextCheckVerify
  {
    var s1, s2 := TickParts(hasher, s, e);
    FirstHalfChanges(s1, DesiredIn(hasher, s1), e);
  }

  /** Up on the first binary, and then edited. */
  lemma SoloUpAndEdited() returns (s3: State)
    ensures s3 == AfterEdit(Tick(BinHash(), Start(Solo("a"), map[]), Calm(0, true)), Solo("bb"), 1)
    ensures RunsSolo(s3, "bb", Calm(1000, true)) && s3.tick == 1 && |s3.table| == 1 && IsUp(s3.table[0], 1, Pid(0, 0))
  {
    var h, s := BinHash(), Start(Solo("a"), map[]);
    SoloApp("a");
    SoloApp("bb");
    s3 := AfterEdit(Tick(h, s, Calm(0, true)), Solo("bb"), 1);
    TickKeepsConfig(h, s, Calm(0, true));
    FirstCheckLater(h, s, Calm(0, true));
    SoloFirstTick(s, "a", 0);
  }

  /** The successor is up, the old instance exits, and both are gone. */
  lemma SoloLost(s: State)
    requires RunsSolo(s, "bb", Calm(1000, true)) && s.tick == 1 && |s.table| == 1 && IsUp(s.table[0], 1, Pid(0, 0))
    ensures var s4 := Tick(BinHash(), s, Calm(1000, true));
            && |s4.table| == 2 && IsUp(s4.table[1], 2, Pid(1, 1))
            && GoneFrom(Tick(BinHash(), s4, ExitOf(Pid(0, 0), 2000)).table, Web(), Pid(1, 1))
  {
    SoloSurgeTick(s, "bb", 1000, s.table[0]);
    TickKeepsConfig(BinHash(), s, Calm(1000, true));
    ExitClearsEarlier(BinHash(), Tick(BinHash(), s, Calm(1000, true)), ExitOf(Pid(0, 0), 2000), 0, Pid(1, 1));
  }

  /**
   * A run with `max_surge = 1` in which nothing goes wrong: the app is up, its binary is
   * edited, its successor comes up and is Ready, and when the old instance exits the healthy
   * successor is gone from the slot.
   */
  lemma SurgeRollLosesItsInstance() returns (ss: seq<State>)
    ensures var steps := [Ticked(Calm(0, true))] + EditSteps(Solo("bb"), 1) + [Ticked(Calm(1000, true))] + [Ticked(ExitOf(Pid(0, 0), 2000))];
            IsRun(BinHash(), ss, steps) && ss[0] == Start(Solo("a"), map[])
    ensures |ss| == 6 && |ss[4].table| == 2 && IsUp(ss[4].table[1], 2, Pid(1, 1))
    ensures GoneFrom(ss[5].table, Web(), Pid(1, 1))
  {
    SoloApp("a");
    SoloApp("bb");
    ss := EditedRunOnTwice(BinHash(), Start(Solo("a"), map[]), Calm(0, true), Solo("bb"), Calm(1000, true), ExitOf(Pid(0, 0), 2000));
    var s3 := SoloUpAndEdited();
    SoloLost(s3);
  }

  // ----- a record that nothing moves again -----

  /** An app held back by a check. */
  function Held(bin: string): Manifest {
    OneApp(0, [Check("c", Some("localhost:1"), None)], SomeApp("web", bin, 1, 8080, ["c"]))
  }

  lemma HeldApp(bin: string)
    ensures var m := Held(bin);
            && m.Lookup("web") == Some(SomeApp("web", bin, 1, 8080, ["c"])) && !m.Has("c")
            && WellFormed(m) && m.AppNames() == {"web"} && Initial(Start(m, map["c" := true]))
  {
    var m := Held(bin);
    var a, c := SomeApp("web", bin, 1, 8080, ["c"]), Check("c", Some("localhost:1"), None);
    assert forall x :: x in m.apps <==> x == a;
    assert forall x :: x in m.checks <==> x == c;
    assert m.apps[1..] == [];
    assert a.name in m.AppNames() && KnownName(m, "c");
    assert WellFormed(m);
    SelectedIsSound(m, None);
  }

  ghost predicate RunsHeld(s: State, bin: string) {
    s.m == Held(bin) && s.selected == {"web"}
  }

  lemma HeldWants(s: State, bin: string)
    requires RunsHeld(s, bin)
    ensures var d := DesiredIn(BinHash(), s);
            d.Keys == {Web()} && Web() in d && d[Web()].hash == |bin| && InKeyOrder(d.Keys) == [Web()]
  {
    var d := DesiredIn(BinHash(), s);
    HeldApp(bin);
    DesiredSlotsAre(BinHash(), s.m, s.selected, s.ports);
    assert d.Keys == {Web()};
    OneKey();
  }

  ghost predicate CheckDown(s: State) {
    "c" in s.checksOk && !s.checksOk["c"]
  }

  lemma OneMissing(d: Desired, t: Table, now: nat)
    requires Web() in d
    ensures Missing(d, t, [Web()], now) == if HasHash(t, Web(), d[Web()].hash) then [] else [NewFor(d, Web(), now)]
  {
    assert [Web()][..0] == [];
    assert Missing(d, t, [], now) == [];
  }

  /** While the check is down the spawn loop and the stages after it find nothing to do. */
  lemma HeldStill(s: State, bin: string, d: Desired, e: Env)
    requires RunsHeld(s, bin) && CheckDown(s) && forall i :: 0 <= i < |s.table| ==> !s.table[i].Running() && s.table[i].app == "web"
    ensures Probe(RetireStaleSurplus(SpawnReady(BinHash(), s, e), d, e), e).table == s.table
  {
    HeldApp(bin);
    assert "c" in s.m.Lookup("web").value.dependsOn;
    assert !DependenciesUp(s.m, s.checksOk, ReadyApps(s.table), "web");
    assert SpawnReady(BinHash(), s, e).table == s.table;
    forall i: nat | i < |s.table| ensures ProbeOne(s.m, s.table[i], e.probeAt, e.probe(i)) == s.table[i] {
    }
    assert Probe(s, e).table == s.table;
  }

  /** The check has failed, so the new record stays Pending. */
  lemma StaysHeld(s: State, bin: string, e: Env)
    requires RunsHeld(s, bin) && s.table == [] && CheckDown(s)
    ensures var t := SecondHalf(BinHash(), s, DesiredIn(BinHash(), s), e).table;
            |t| == 1 && t[0] == NewInstance("web", 0, t[0].port, |bin|, e.spawnAt)
  {
    var d := DesiredIn(BinHash(), s);
    HeldWants(s, bin);
    OneMissing(d, s.table, e.spawnAt);
    var s1 := AddMissing(s, d, e);
    assert s1.table == [NewFor(d, Web(), e.spawnAt)];
    HeldStill(s1, bin, d, e);
  }

  lemma CheckFails(s: State, now: nat)
    requires s.m.checks == [Check("c", Some("localhost:1"), None)] && (s.nextCheckVerify <= now || CheckDown(s))
    ensures CheckDown(ReverifyChecks(s, Calm(now, false)))
  {
  }

  lemma HeldFirstTick(s: State, now: nat)
    requires RunsHeld(s, "a") && s.table == [] && s.nextCheckVerify <= now
    ensures PendingOnly(Tick(BinHash(), s, Calm(now, false)).table) && CheckDown(Tick(BinHash(), s, Calm(now, false)))
  {
    var h, e := BinHash(), Calm(now, false);
    CheckFails(s, now);
    var s1, s2 := TickParts(h, s, e);
    FirstHalfSteady(s1, DesiredIn(h, s1), e);
    StaysHeld(s2, "a", e);
  }

  lemma PendingReap(s: State, e: Env, r: Instance)
    requires s.table == [r] && !r.Running()
    ensures Reap(ReverifyChecks(s, e), e).table == [r]
  {
    var s0 := ReverifyChecks(s, e);
    assert ReapedTable(s0.table, s0.m.defaults, e.wait, e.reapAt) == [r];
    assert DroppedSlots(s0.table, e.wait) == {};
    RetainAll([r], {});
  }

  lemma PendingStays(s: State, d: Desired, e: Env)
    requires forall i :: 0 <= i < |s.table| ==> !s.table[i].Running() && s.table[i].Slot() in d
    ensures StopCheckBlocked(TerminateUndesired(s, d, e), e) == s
  {
    AllDesiredStay(s, d, e);
    assert StopCheckBlocked(s, e).table == s.table;
  }

  /** The roll after the edit stops the Pending record. */
  lemma PendingRoll(s: State, e: Env, r: Instance)
    requires RunsHeld(s, "bb") && s.table == [r] && r == NewInstance("web", 0, r.port, 1, r.nextLiveProbe)
    ensures FirstHalf(s, DesiredIn(BinHash(), s), e).table == [BeginStop(r, false, e.rollAt)]
  {
    var d := DesiredIn(BinHash(), s);
    HeldWants(s, "bb");
    PendingStays(s, d, e);
    assert IsFirst(s.table, (x: Instance) => StaleNotReady(d, "web", x), 0);
    assert FirstStaleNotReady(d, s.table, "web") == Some(0);
  }

  ghost predicate PendingOnly(t: Table) {
    |t| == 1 && t[0] == NewInstance("web", 0, t[0].port, 1, t[0].nextLiveProbe)
  }

  ghost predicate Stranded(t: Table) {
    |t| > 0 && StoppedIdle(t[0]) && t[0].Slot() == Web()
  }

  lemma HeldEditTick(s: State, e: Env)
    requires RunsHeld(s, "bb") && PendingOnly(s.table)
    ensures Stranded(Tick(BinHash(), s, e).table)
  {
    var h, r := BinHash(), s.table[0];
    PendingReap(s, e, r);
    var s1, s2 := TickParts(h, s, e);
    PendingRoll(s1, e, r);
    SecondHalfIdle(h, s2, DesiredIn(h, s2), e, 0);
  }

  /** Pending, and then edited. */
  lemma HeldAndEdited(s1: State)
    requires s1 == Tick(BinHash(), Start(Held("a"), map["c" := true]), Calm(10_000, false))
    ensures PendingOnly(s1.table) && CheckDown(s1) && RunsHeld(AfterEdit(s1, Held("bb"), 1), "bb")
  {
    HeldApp("a");
    HeldApp("bb");
    HeldFirstTick(Start(Held("a"), map["c" := true]), 10_000);
  }

  /**
   * A run in which an edit arrives while the app waits in Pending for a check: its record is
   * stopped without a process, and by `IdleStopNeverMoves` nothing will move it again.
   */
  lemma EditStrandsARecord(e: Env) returns (ss: seq<State>)
    ensures IsRun(BinHash(), ss, [Ticked(Calm(10_000, false))] + EditSteps(Held("bb"), 1) + [Ticked(e)])
    ensures |ss| == 5 && ss[0] == Start(Held("a"), map["c" := true])
    ensures PendingOnly(ss[1].table) && Stranded(ss[4].table)
  {
    HeldApp("a");
    HeldApp("bb");
    ss := EditedRunOn(BinHash(), Start(Held("a"), map["c" := true]), Calm(10_000, false), Held("bb"), e);
    HeldAndEdited(ss[1]);
    HeldEditTick(AfterEdit(ss[1], Held("bb"), 1), e);
  }

  // ----- an edit that is taken back -----

  /** The first record stopped, and its successor waiting in its place. */
  ghost predicate OneStoppedOneWaits(t: Table) {
    && |t| == 2 && StoppedIdle(t[0]) && t[0].Slot() == Web() && t[0].specHash == 1
    && t[1] == NewInstance("web", 0, t[1].port, 2, t[1].nextLiveProbe)
  }

  lemma HeldAddsSuccessor(s: State, e: Env)
    requires RunsHeld(s, "bb") && CheckDown(s) && |s.table| == 1
    requires StoppedIdle(s.table[0]) && s.table[0].Slot() == Web() && s.table[0].specHash == 1
    ensures OneStoppedOneWaits(SecondHalf(BinHash(), s, DesiredIn(BinHash(), s), e).table)
  {
    var d := DesiredIn(BinHash(), s);
    HeldWants(s, "bb");
    OneMissing(d, s.table, e.spawnAt);
    var s1 := AddMissing(s, d, e);
    assert s1.table == [s.table[0], NewFor(d, Web(), e.spawnAt)];
    HeldStill(s1, "bb", d, e);
  }

  lemma HeldEditTickAdds(s: State, now: nat)
    requires RunsHeld(s, "bb") && PendingOnly(s.table) && CheckDown(s)
    ensures OneStoppedOneWaits(Tick(BinHash(), s, Calm(now, false)).table)
  {
    var h, e, r := BinHash(), Calm(now, false), s.table[0];
    CheckFails(s, now);
    PendingReap(s, e, r);
    var s1, s2 := TickParts(h, s, e);
    PendingRoll(s1, e, r);
    HeldAddsSuccessor(s2, e);
  }

  lemma BothReaped(s: State, e: Env)
    requires |s.table| == 2 && !s.table[0].Running() && !s.table[1].Running()
    ensures Reap(ReverifyChecks(s, e), e).table == s.table
  {
    var s0 := ReverifyChecks(s, e);
    assert ReapedTable(s0.table, s0.m.defaults, e.wait, e.reapAt) == s.table;
    assert DroppedSlots(s0.table, e.wait) == {};
    RetainAll(s.table, {});
  }

  /** The roll after the edit is taken back stops the successor too. */
  lemma RevertRoll(s: State, e: Env)
    requires RunsHeld(s, "a") && OneStoppedOneWaits(s.table)
    ensures FirstHalf(s, DesiredIn(BinHash(), s), e).table == [s.table[0], BeginStop(s.table[1], false, e.rollAt)]
  {
    var d := DesiredIn(BinHash(), s);
    HeldWants(s, "a");
    PendingStays(s, d, e);
    SuccessorIsFirst(d, s.table);
    assert RolledTable(s.m, s.selected, d, s.table, e.rollAt) == [s.table[0], BeginStop(s.table[1], false, e.rollAt)];
  }

  lemma SuccessorIsFirst(d: Desired, t: Table)
    requires Web() in d && d[Web()].hash == 1 && OneStoppedOneWaits(t)
    ensures FirstStaleNotReady(d, t, "web") == Some(1)
  {
    assert IsFirst(t, (x: Instance) => StaleNotReady(d, "web", x), 1);
  }

  lemma HeldAddsNothing(s: State, e: Env)
    requires RunsHeld(s, "a") && HasHash(s.table, Web(), 1)
    ensures AddMissing(s, DesiredIn(BinHash(), s), e).table == s.table
  {
    HeldWants(s, "a");
    OneMissing(DesiredIn(BinHash(), s), s.table, e.spawnAt);
  }

  /** Two stopped records of the slot, one of them with its hash, are all it gets. */
  lemma TwoStoppedStay(s: State, e: Env)
    requires RunsHeld(s, "a") && |s.table| == 2 && StoppedIdle(s.table[0]) && StoppedIdle(s.table[1])
    requires s.table[0].Slot() == Web() && s.table[0].specHash == 1
    ensures SecondHalf(BinHash(), s, DesiredIn(BinHash(), s), e).table == s.table
  {
    var d := DesiredIn(BinHash(), s);
    HeldAddsNothing(s, e);
    SecondHalfIdle(BinHash(), s, d, e, 0);
    SecondHalfIdle(BinHash(), s, d, e, 1);
    var u := SecondHalf(BinHash(), s, d, e).table;
    assert u == [s.table[0], s.table[1]];
  }

  lemma TwoStoppedAreDead(s: State)
    requires RunsHeld(s, "a") && |s.table| == 2 && StoppedIdle(s.table[0]) && StoppedIdle(s.table[1])
    requires s.table[0].Slot() == Web() && s.table[0].specHash == 1
    ensures DeadIn(BinHash(), s, Web())
  {
    HeldWants(s, "a");
  }

  lemma RevertKillsSlot(s: State, e: Env)
    requires RunsHeld(s, "a") && OneStoppedOneWaits(s.table)
    ensures DeadIn(BinHash(), Tick(BinHash(), s, e), Web())
  {
    BothReaped(s, e);
    var s1, s2 := TickParts(BinHash(), s, e);
    RevertRoll(s1, e);
    TwoStoppedStay(s2, e);
    TwoStoppedAreDead(Tick(BinHash(), s, e));
  }

  /** What the operator does: edit the binary while the app waits, and take the edit back. */
  function RevertSteps(now: nat, e: Env): seq<Step> {
    [Ticked(Calm(10_000, false))] + EditSteps(Held("bb"), 1) + [Ticked(Calm(now, false))] + EditSteps(Held("a"), 2) + [Ticked(e)]
  }

  /** Another edit and another tick. */
  lemma EditedAgain(hasher: Hasher, ss: seq<State>, steps: seq<Step>, s: State, m: Manifest, mtime: nat, e: Env) returns (ss': seq<State>)
    requires RunTo(hasher, ss, steps, s) && WellFormed(m)
    requires s.manifestMtime != Some(mtime) && s.pendingMtime.None? && |s.selected| == |s.m.apps| && m.apps != []
    ensures RunTo(hasher, ss', steps + EditSteps(m, mtime) + [Ticked(e)], Tick(hasher, AfterEdit(s, m, mtime), e))
    ensures ss <= ss' && |ss'| == |ss| + 3
  {
    ss' := EditOn(hasher, ss, steps, s, m, mtime);
    ss' := TickOn(hasher, ss', steps + EditSteps(m, mtime), AfterEdit(s, m, mtime), e);
  }

  lemma RevertRun(now: nat, e: Env) returns (ss: seq<State>)
    ensures IsRun(BinHash(), ss, RevertSteps(now, e)) && |ss| == 8 && ss[0] == Start(Held("a"), map["c" := true])
    ensures ss[1] == Tick(BinHash(), ss[0], Calm(10_000, false))
    ensures ss[4] == Tick(BinHash(), AfterEdit(ss[1], Held("bb"), 1), Calm(now, false))
    ensures ss[7] == Tick(BinHash(), AfterEdit(ss[4], Held("a"), 2), e)
  {
    var e0, e1 := Calm(10_000, false), Calm(now, false);
    HeldApp("a");
    HeldApp("bb");
    ss := EditedRunOn(BinHash(), Start(Held("a"), map["c" := true]), e0, Held("bb"), e1);
    var s4 := ss[4];
    TickKeepsConfig(BinHash(), AfterEdit(ss[1], Held("bb"), 1), e1);
    ss := EditedAgain(BinHash(), ss, [Ticked(e0)] + EditSteps(Held("bb"), 1) + [Ticked(e1)], s4, Held("a"), 2, e);
  }

  /**
   * A run in which that edit is taken back before the check passes: after the next tick the
   * slot is dead, and by `DeadSlotStaysDead` the app never starts until the manifest changes,
   * whether the check passes or not.
   */
  lemma RevertedEditKillsSlot(now: nat, e: Env) returns (ss: seq<State>)
    ensures IsRun(BinHash(), ss, RevertSteps(now, e)) && |ss| == 8 && ss[0] == Start(Held("a"), map["c" := true])
    ensures ss[7].m == ss[0].m && DeadIn(BinHash(), ss[7], Web())
  {
    HeldApp("a");
    HeldApp("bb");
    ss := RevertRun(now, e);
    HeldAndEdited(ss[1]);
    HeldEditTickAdds(AfterEdit(ss[1], Held("bb"), 1), now);
    TickKeepsConfig(BinHash(), AfterEdit(ss[4], Held("a"), 2), e);
    RevertKillsSlot(AfterEdit(ss[4], Held("a"), 2), e);
  }

  // ----- a roll that leaves one slot of three -----

  function ThreeReplicas(): Manifest {
    OneApp(0, [], SomeApp("web", "bb", 3, 8080, []))
  }

  function UpAs(i: nat, hash: nat, phase: Phase): Instance {
    NewInstance("web", i, 8080 + i, hash, 0).(
      phase := phase, everReady := phase == Ready, startedAt := Some(0), handle := Some(Handle(Pid(0, 2 * i + hash), [])))
  }

  /** In the middle of a roll: slot 0 is starting, slot 1 has its old instance, slot 2 both. */
  function MidRoll(): Table {
    [UpAs(0, 2, Starting), UpAs(1, 1, Ready), UpAs(2, 1, Ready), UpAs(2, 2, Ready)]
  }

  lemma MidRollVictim(d: Desired)
    requires forall i: nat :: i < 3 ==> Key("web", i) in d && d[Key("web", i)].hash == 2
    ensures RollVictim(ThreeReplicas(), d, MidRoll(), "web") == Some(1) && OnlyReady(MidRoll(), 1)
  {
    var t := MidRoll();
    assert t[0].Slot() == Key("web", 0) && t[1].Slot() == Key("web", 1) && t[2].Slot() == Key("web", 2) && t[3].Slot() == Key("web", 2);
    assert FirstStaleNotReady(d, t, "web").None?;
    assert IsFirst(t, (r: Instance) => StaleReady(d, "web", r), 1);
    MidRollCount();
    OneAppWellFormed(0, SomeApp("web", "bb", 3, 8080, []));
  }

  lemma MidRollCount()
    ensures ReadyCount(MidRoll(), "web") == 3
  {
    var t := MidRoll();
    assert t[..3][..2] == t[..2] && t[..2][..1] == t[..1] && t[..1][..0] == [];
    assert ReadyCount(t[..1], "web") == 0;
    assert ReadyCount(t[..2], "web") == 1;
    assert ReadyCount(t[..3], "web") == 2;
  }

  lemma MidRollSlots()
    ensures SlotsReady(MidRoll(), "web") == {Key("web", 1), Key("web", 2)}
  {
    var t := MidRoll();
    forall k ensures k in SlotsReady(t, "web") <==> k in {Key("web", 1), Key("web", 2)} {
      SlotReadyIff(t, "web", k);
      assert t[1].Slot() == Key("web", 1) && t[2].Slot() == Key("web", 2) && t[3].Slot() == Key("web", 2);
    }
  }

  lemma MidRollWants(s: State)
    requires s.m == ThreeReplicas() && s.selected == {"web"}
    ensures forall i: nat :: i < 3 ==> Key("web", i) in DesiredIn(BinHash(), s) && DesiredIn(BinHash(), s)[Key("web", i)].hash == 2
  {
    OneAppWellFormed(0, SomeApp("web", "bb", 3, 8080, []));
    DesiredSlotsAre(BinHash(), s.m, s.selected, s.ports);
  }

  lemma MidRollOk()
    ensures TableOk(MidRoll()) && Replicas(ThreeReplicas(), "web") == 3
  {
    OneAppWellFormed(0, SomeApp("web", "bb", 3, 8080, []));
  }

  lemma MidRollRolls(s: State, d: Desired, e: Env)
    requires |s.table| > 1 && s.table[1].Slot() == Key("web", 1) && s.table[1].phase == Ready && OnlyReady(s.table, 1)
    requires "web" in s.selected && RollVictim(s.m, d, s.table, "web") == Some(1) && SlotsReady(s.table, "web") == {Key("web", 1), Key("web", 2)}
    ensures SlotsReady(RollStale(s, d, e).table, "web") == {Key("web", 2)}
  {
    RollSlots(s, d, e, "web");
  }

  /**
   * A table from which the budget of one fails by slots: three records are Ready, so the roll
   * stops one, although they fill only two of the three slots; one slot is left.
   */
  lemma SlotBudgetFails(s: State, e: Env)
    requires s.m == ThreeReplicas() && s.selected == {"web"} && s.table == MidRoll()
    ensures TableOk(s.table) && Replicas(s.m, "web") == 3
    ensures SlotsReady(s.table, "web") == {Key("web", 1), Key("web", 2)}
    ensures SlotsReady(RollStale(s, DesiredIn(BinHash(), s), e).table, "web") == {Key("web", 2)}
  {
    MidRollOk();
    MidRollWants(s);
    MidRollSlots();
    MidRollVictim(DesiredIn(BinHash(), s));
    MidRollRolls(s, DesiredIn(BinHash(), s), e);
  }

  // ----- an edit that is rolled out -----

  lemma FirstCheckSees(hasher: Hasher, ss: seq<State>, steps: seq<Step>)
    requires IsRun(hasher, ss, steps) && |steps| == 3 && steps[1].Reloaded? && ss[1].pendingMtime.None? && steps[1].o.mtime.Some?
    ensures ss[2].table == ss[1].table && ss[2].m == ss[1].m && ss[2].selected == ss[1].selected && ss[2].ports == ss[1].ports
    ensures ss[2].checksOk == ss[1].checksOk
  {
    RunReload(hasher, ss, steps, 1);
  }

  lemma StartsLevelled(hasher: Hasher, s: State)
    requires Initial(s) && ChecksPass(s.checksOk)
    ensures Levelled(hasher, s)
  {
  }

  /** After one cooperative tick both replicas are Ready, one record each. */
  lemma UpAfterFirstTick(s: State, e: Env)
    requires Initial(s) && ChecksPass(s.checksOk) && s.m == TwoReplicas("a") && s.selected == {"web"} && Cooperative(e)
    ensures var s' := Tick(BinHash(), s, e);
            && IsSteady(BinHash(), s') && s'.m == s.m && s'.selected == s.selected && ChecksPass(s'.checksOk)
            && forall i :: 0 <= i < |s'.table| ==> s'.table[i].phase == Ready
  {
    var s' := Tick(BinHash(), s, e);
    StartsLevelled(BinHash(), s);
    TickIsLevelled(BinHash(), s, e);
    TickKeepsConfig(BinHash(), s, e);
    FirstTickFills(BinHash(), s, e);
    AllAtFirstLevel(s');
  }

  lemma AllAtFirstLevel(s: State)
    requires Levelled(BinHash(), s) && s.tick == 1 && s.m == TwoReplicas("a") && s.selected == {"web"} && IsSteady(BinHash(), s)
    ensures forall i :: 0 <= i < |s.table| ==> s.table[i].phase == Ready
  {
    LevelPhases(BinHash(), s);
    WebIsShallow("a");
    forall i | 0 <= i < |s.table| ensures s.table[i].phase == Ready {
      WebOnly(s, "a", i);
    }
  }

  lemma WebIsShallow(bin: string)
    ensures DepthAtMost(ByName(TwoReplicas(bin).apps), "web", 1)
  {
    OneAppWellFormed(0, SomeApp("web", bin, 2, 8080, []));
    GraphOfWellFormed(TwoReplicas(bin), "web");
  }

  lemma WebOnly(s: State, bin: string, i: nat)
    requires s.m == TwoReplicas(bin) && s.selected == {"web"} && IsSteady(BinHash(), s) && i < |s.table|
    ensures s.table[i].app == "web"
  {
    DesiredSlotsAre(BinHash(), s.m, s.selected, s.ports);
    assert Current(DesiredIn(BinHash(), s), s.table[i]);
  }

  lemma WebWants(s: State, bin: string, k: Key)
    requires s.m == TwoReplicas(bin) && s.selected == {"web"} && k in DesiredIn(BinHash(), s)
    ensures k.app == "web" && DesiredIn(BinHash(), s)[k].hash == |bin| && DesiredIn(BinHash(), s)[k].port == SlotPort(s.m, s.ports, k)
  {
    OneAppWellFormed(0, SomeApp("web", bin, 2, 8080, []));
    DesiredSlotsAre(BinHash(), s.m, s.selected, s.ports);
  }

  lemma TwoSlots(s: State)
    requires s.m == TwoReplicas("a") && s.selected == {"web"}
    ensures SlotsWithin(DesiredIn(BinHash(), s), 2)
  {
    OneAppWellFormed(0, SomeApp("web", "a", 2, 8080, []));
    SlotsOfApp(BinHash(), s, "web");
    forall app ensures |SlotsOf(DesiredIn(BinHash(), s), app)| <= 2 {
      if app != "web" {
        forall k | k in DesiredIn(BinHash(), s) ensures k.app == "web" {
          WebWants(s, "a", k);
        }
        assert SlotsOf(DesiredIn(BinHash(), s), app) == {};
      }
    }
  }

  lemma HashesDiffer(s: State, s': State)
    requires s.m == TwoReplicas("a") && s'.m == TwoReplicas("bb") && s.selected == s'.selected == {"web"}
    ensures HashKeepsPort(DesiredIn(BinHash(), s), DesiredIn(BinHash(), s'))
  {
    forall k | k in DesiredIn(BinHash(), s) && k in DesiredIn(BinHash(), s')
      ensures DesiredIn(BinHash(), s)[k].hash != DesiredIn(BinHash(), s')[k].hash
    {
      WebWants(s, "a", k);
      WebWants(s', "bb", k);
    }
  }

  lemma ReadyServes(d: Desired, t: Table)
    requires TableOk(t) && forall i :: 0 <= i < |t| ==> t[i].phase == Ready
    ensures StaleServe(d, t) && StuckOnPorts(d, t) && Brisk(d, t)
  {
  }

  /** The edit of its binary is one that can be rolled out. */
  lemma WebEdited(s: State, s': State)
    requires s.m == TwoReplicas("a") && s'.m == TwoReplicas("bb") && s.selected == s'.selected == {"web"} && s'.table == s.table
    requires IsSteady(BinHash(), s) && ChecksPass(s.checksOk) && TableOk(s.table) && forall i :: 0 <= i < |s.table| ==> s.table[i].phase == Ready
    ensures EditsFleet(BinHash(), s, s', 2) && StaleServe(DesiredIn(BinHash(), s'), s.table)
    ensures Brisk(DesiredIn(BinHash(), s'), s'.table) && DepthsWithin(s', 1)
  {
    TwoSlots(s);
    HashesDiffer(s, s');
    ReadyServes(DesiredIn(BinHash(), s'), s.table);
    WebIsShallow("bb");
  }

  lemma SameFleet(s: State, s': State)
    requires IsSteady(BinHash(), s) && s'.table == s.table && s'.m == s.m && s'.selected == s.selected && s'.ports == s.ports
    ensures IsSteady(BinHash(), s')
  {
    assert DesiredIn(BinHash(), s') == DesiredIn(BinHash(), s);
  }

  lemma WebStart() returns (s: State)
    ensures s == Start(TwoReplicas("a"), map[]) && Initial(s) && s.m == TwoReplicas("a") && s.selected == {"web"} && ChecksPass(s.checksOk)
    ensures WellFormed(TwoReplicas("bb")) && TwoReplicas("bb").AppNames() == {"web"}
  {
    s := Start(TwoReplicas("a"), map[]);
    OneAppWellFormed(0, SomeApp("web", "a", 2, 8080, []));
    OneAppWellFormed(0, SomeApp("web", "bb", 2, 8080, []));
  }

  /** Up, and then edited. */
  lemma WebIsEdited(ss: seq<State>, steps: seq<Step>, e: Env)
    requires IsRun(BinHash(), ss, steps) && |steps| == 3 && steps[1].Reloaded? && steps[1].o.mtime.Some? && Cooperative(e)
    requires ss[0].m == TwoReplicas("a") && ss[0].selected == {"web"} && ChecksPass(ss[0].checksOk)
    requires ss[1] == Tick(BinHash(), ss[0], e)
    requires ss[3].m == TwoReplicas("bb") && ss[3].selected == {"web"} && ss[3].table == ss[1].table
    ensures EditsFleet(BinHash(), ss[2], ss[3], 2) && StaleServe(DesiredIn(BinHash(), ss[3]), ss[2].table)
    ensures Brisk(DesiredIn(BinHash(), ss[3]), ss[3].table) && DepthsWithin(ss[3], 1) && IsSteady(BinHash(), ss[1])
  {
    UpAfterFirstTick(ss[0], e);
    TickKeepsConfig(BinHash(), ss[0], e);
    FirstCheckSees(BinHash(), ss, steps);
    ReachableOk(BinHash(), ss, steps, 2);
    SameFleet(ss[1], ss[2]);
    WebEdited(ss[2], ss[3]);
  }

  lemma TickAndEdit(e: Env, m: Manifest)
    ensures var steps := [Ticked(e)] + EditSteps(m, 1);
            |steps| == 3 && steps[1] == Reloaded(Saved(m, 1)) && steps[2] == Reloaded(Saved(m, 1))
  {
  }

  lemma RunToAt(hasher: Hasher, ss: seq<State>, steps: seq<Step>, s: State, n: nat)
    requires RunTo(hasher, ss, steps, s) && |steps| == n
    ensures IsRun(hasher, ss, steps) && ss[n] == s
  {
  }

  lemma EditedSteps(hasher: Hasher, s: State, e: Env, m: Manifest) returns (ss: seq<State>, steps: seq<Step>)
    requires Initial(s) && s.manifestMtime == Some(0) && |s.selected| == |s.m.apps| && m.apps != [] && WellFormed(m)
    ensures IsRun(hasher, ss, steps) && |steps| == 3 && steps[1].Reloaded? && steps[1].o.mtime.Some? && steps[2].Reloaded?
    ensures ss[0] == s && ss[1] == Tick(hasher, s, e)
    ensures ss[3].m == m && ss[3].selected == m.AppNames() && ss[3].table == ss[1].table
  {
    TickAndEdit(e, m);
    steps := [Ticked(e)] + EditSteps(m, 1);
    ss := EditedRun(hasher, s, e, m);
    RunToAt(hasher, ss, steps, AfterEdit(Tick(hasher, s, e), m, 1), 3);
  }

  lemma WebUpAndEdited() returns (ss: seq<State>, steps: seq<Step>)
    ensures IsRun(BinHash(), ss, steps) && |steps| == 3 && steps[2].Reloaded?
    ensures ss[0] == Start(TwoReplicas("a"), map[]) && ss[3].m == TwoReplicas("bb") && IsSteady(BinHash(), ss[1])
    ensures EditsFleet(BinHash(), ss[2], ss[3], 2) && StaleServe(DesiredIn(BinHash(), ss[3]), ss[2].table)
    ensures Brisk(DesiredIn(BinHash(), ss[3]), ss[3].table) && DepthsWithin(ss[3], 1)
  {
    var s := WebStart();
    var e := Calm(0, true);
    ss, steps := EditedSteps(BinHash(), s, e, TwoReplicas("bb"));
    WebIsEdited(ss, steps, e);
  }

  /**
   * A run in which the edit of a two-replica app is rolled out: the app is up, its binary is
   * edited, and seven ticks later both replicas run the new one, with nothing else left.
   */
  lemma EditRollsOutInRun(clock: nat -> nat) returns (ss: seq<State>, steps: seq<Step>)
    ensures IsRun(BinHash(), ss, steps) && |steps| == 10 && ss[0] == Start(TwoReplicas("a"), map[])
    ensures ss[3].m == TwoReplicas("bb") && ss[10].m == TwoReplicas("bb")
    ensures IsSteady(BinHash(), ss[1]) && IsSteady(BinHash(), ss[10]) && AllReady(ss[10].table)
  {
    ss, steps := WebUpAndEdited();
    assert WindowsFor(ss[3].m, 2, 1) == 6;
    ss, steps := EditCanRollOut(BinHash(), ss, steps, 2, 1, clock);
  }
}
