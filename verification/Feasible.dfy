/** The conditions under which rolls end can be met: from any state in which one is under way. */
module Feasible {
  import opened Prelude
  import opened Manifests
  import opened KeyOrder
  import opened Instances
  import opened Stages
  import opened Runs
  import opened Steady
  import opened Startup
  import opened Convergence
  import opened Identity
  import opened Rolls
  import opened Rollouts
  import opened Completions
  import opened Patience

  // ----- a kind environment -----

  /** The processes that have been told to stop. */
  ghost function Outgoers(t: Table): set<Pid> {
    set i | 0 <= i < |t| && Outgoing(t[i]) :: t[i].handle.value.pid
  }

  /** Everything succeeds, and exactly the given processes exit. */
  ghost function KindEnv(gone: set<Pid>, now: nat): Env {
    Env(now, (c: string) => true, now, (p: Pid) => if p in gone then Exited else StillRunning, now, now, now, [], now,
        (i: nat) => SpawnAnswer(true, now), now, now, (i: nat) => ProbeAnswer(true, now, true, now))
  }

  ghost function KindTo(s: State, clock: nat -> nat): Env {
    KindEnv(Outgoers(s.table), clock(s.tick))
  }

  /** Every process has its own record, so none that serves exits with one that was stopped. */
  lemma KindIsBearable(s: State, d: Desired, clock: nat -> nat)
    requires OneRecordPerProcess(s.table)
    ensures Bearable(s, d, KindTo(s, clock)) && Steadfast(s, KindTo(s, clock))
  {
    forall i: nat | i < |s.table| && s.table[i].Running() && s.table[i].phase != Terminating
      ensures s.table[i].handle.value.pid !in Outgoers(s.table)
    {
      ServesOn(s.table, i);
    }
  }

  lemma ServesOn(t: Table, i: nat)
    requires OneRecordPerProcess(t) && i < |t| && t[i].Running() && t[i].phase != Terminating
    ensures t[i].handle.value.pid !in Outgoers(t)
  {
    forall j: nat | j < |t| && Outgoing(t[j]) ensures t[j].handle.value.pid != t[i].handle.value.pid {
      assert PidsDiffer(t, i, j) && PidsDiffer(t, j, i);
    }
  }

  // ----- rolls in which every tick is ripe -----

  /** What stays is up, waits without backing off, or has another process beside it. */
  ghost predicate BriskAlone(m: Manifest, d: Desired, t: Table) {
    forall i: nat :: i < |t| && Stays(d, t[i]) ==> Up(t[i]) || Excused(m, t, i) || (Waiting(d, t[i]) && t[i].backoffUntil.None?)
  }

  lemma BriskAloneIsRipe(hasher: Hasher, s: State, e: Env)
    requires BriskAlone(s.m, DesiredIn(hasher, s), s.table)
    ensures RipeAloneTick(hasher, s, e)
  {
  }

  lemma BriskAloneAt(s: State, d: Desired, e: Env, x: Passage, p: nat)
    requires Passes(s, d, e, x) && Bearable(s, d, e) && Underway(d, s.table) && BriskAlone(s.m, d, s.table) && p < |x.end| && Stays(d, x.end[p])
    ensures Up(x.end[p]) || Excused(s.m, x.end, p) || (Waiting(d, x.end[p]) && x.end[p].backoffUntil.None?)
  {
    EndSound(s, d, e, x, p);
    assert Ends(s, d, e, x, p) && Sound(d, x.filled.table[p]);
    if p < |x.rolled| {
      var i := StaysFrom(s, d, e, x, p);
      if Excused(s.m, s.table, i) {
        StaysExcused(s, d, e, x, i, p);
      }
    }
  }

  /** A roll on its way, of which every tick will be ripe. */
  ghost predicate BriskOnTheWay(hasher: Hasher, s: State, ports: map<Key, nat>) {
    OnTheWay(hasher, s, ports) && BriskAlone(s.m, DesiredIn(hasher, s), s.table)
  }

  lemma TickBriskOnTheWay(hasher: Hasher, s: State, e: Env, ports: map<Key, nat>)
    requires BriskOnTheWay(hasher, s, ports) && Bearable(s, DesiredIn(hasher, s), e)
    ensures BriskOnTheWay(hasher, Tick(hasher, s, e), ports)
  {
    var d := DesiredIn(hasher, s);
    var x := OnTheWayPasses(hasher, s, e, ports);
    TickOnTheWay(hasher, s, e, ports);
    TickKeepsConfig(hasher, s, e);
    forall p: nat | p < |x.end| && Stays(d, x.end[p])
      ensures Up(x.end[p]) || Excused(s.m, x.end, p) || (Waiting(d, x.end[p]) && x.end[p].backoffUntil.None?)
    {
      BriskAloneAt(s, d, e, x, p);
    }
  }

  // ----- the runs -----

  /** Steps `a` to `b` are ticks in the kind environment of their states. */
  ghost predicate KindSteps(ss: seq<State>, steps: seq<Step>, a: nat, b: nat, clock: nat -> nat)
    requires b <= |steps| && |ss| == |steps| + 1
  {
    forall k {:trigger steps[k]} :: a <= k < b ==> steps[k] == Ticked(KindTo(ss[k], clock))
  }

  lemma {:induction false} KindRun(hasher: Hasher, ss: seq<State>, steps: seq<Step>, n: nat, clock: nat -> nat)
      returns (ss': seq<State>, steps': seq<Step>)
    requires IsRun(hasher, ss, steps)
    ensures IsRun(hasher, ss', steps') && |steps'| == |steps| + n && ss <= ss' && steps <= steps'
    ensures KindSteps(ss', steps', |steps|, |steps'|, clock)
  {
    if n == 0 {
      ss', steps' := ss, steps;
    } else {
      ss', steps' := KindRun(hasher, ss, steps, n - 1, clock);
      ss', steps' := KindTick(hasher, ss', steps', |steps|, clock);
    }
  }

  lemma KindTick(hasher: Hasher, ss: seq<State>, steps: seq<Step>, a: nat, clock: nat -> nat) returns (ss': seq<State>, steps': seq<Step>)
    requires IsRun(hasher, ss, steps) && a <= |steps| && KindSteps(ss, steps, a, |steps|, clock)
    ensures IsRun(hasher, ss', steps') && |steps'| == |steps| + 1 && ss <= ss' && steps <= steps'
    ensures KindSteps(ss', steps', a, |steps'|, clock)
  {
    var last := ss[|steps|];
    var step := Ticked(KindTo(last, clock));
    var s' := After(hasher, last, step);
    ExtendRun(hasher, ss, steps, step, s');
    ss', steps' := ss + [s'], steps + [step];
  }

  lemma KindStep(hasher: Hasher, ss: seq<State>, steps: seq<Step>, a: nat, b: nat, clock: nat -> nat, ports: map<Key, nat>, n: nat)
    requires IsRun(hasher, ss, steps) && a <= n < b <= |steps| && KindSteps(ss, steps, a, b, clock) && BriskOnTheWay(hasher, ss[n], ports)
    ensures BriskOnTheWay(hasher, ss[n + 1], ports) && Bearable(ss[n], DesiredIn(hasher, ss[n]), steps[n].e)
    ensures ss[n + 1].m == ss[n].m && ss[n + 1].selected == ss[n].selected && ss[n + 1].tick == ss[n].tick + 1
  {
    ProcessesAreNotShared(hasher, ss, steps, n);
    KindIsBearable(ss[n], DesiredIn(hasher, ss[n]), clock);
    RunTick(hasher, ss, steps, n);
    TickBriskOnTheWay(hasher, ss[n], steps[n].e, ports);
  }

  /** What holds after `n - a` kind ticks. */
  ghost predicate KindAt(hasher: Hasher, ss: seq<State>, a: nat, n: nat) {
    && a <= n < |ss| && BriskOnTheWay(hasher, ss[n], ss[a].ports)
    && ss[n].m == ss[a].m && ss[n].selected == ss[a].selected && ss[n].tick == ss[a].tick + (n - a)
  }

  lemma KindAlong(hasher: Hasher, ss: seq<State>, steps: seq<Step>, a: nat, b: nat, clock: nat -> nat, n: nat)
    requires IsRun(hasher, ss, steps) && a <= n <= b <= |steps| && KindSteps(ss, steps, a, b, clock) && BriskOnTheWay(hasher, ss[a], ss[a].ports)
    ensures KindAt(hasher, ss, a, n)
  {
    forall j: nat | a <= j < n && KindAt(hasher, ss, a, j) ensures KindAt(hasher, ss, a, j + 1) {
      KindStep(hasher, ss, steps, a, b, clock, ss[a].ports, j);
    }
    Climb((j: nat) => KindAt(hasher, ss, a, j), a, n);
  }

  lemma KindStretch(hasher: Hasher, ss: seq<State>, steps: seq<Step>, a: nat, b: nat, clock: nat -> nat)
    requires IsRun(hasher, ss, steps) && a <= b <= |steps| && KindSteps(ss, steps, a, b, clock) && BriskOnTheWay(hasher, ss[a], ss[a].ports)
    ensures Stretch(hasher, ss, steps, a, b)
  {
    forall n | a <= n <= b ensures ss[n].m == ss[a].m && ss[n].selected == ss[a].selected {
      KindAlong(hasher, ss, steps, a, b, clock, n);
    }
    forall n {:trigger steps[n]} | a <= n < b && steps[n].Ticked? ensures Bearable(ss[n], DesiredIn(hasher, ss[n]), steps[n].e) {
      KindAlong(hasher, ss, steps, a, b, clock, n);
      KindStep(hasher, ss, steps, a, b, clock, ss[a].ports, n);
    }
  }

  /** Every kind tick is a window of its own. */
  lemma KindSettles(hasher: Hasher, ss: seq<State>, steps: seq<Step>, a: nat, b: nat, clock: nat -> nat, x: nat)
    requires IsRun(hasher, ss, steps) && a <= x < b <= |steps| && KindSteps(ss, steps, a, b, clock) && BriskOnTheWay(hasher, ss[a], ss[a].ports)
    ensures AllExit(ss, steps, x, x + 1) && Ripens(hasher, ss, steps, x, x + 1)
  {
    KindAlong(hasher, ss, steps, a, b, clock, x);
    BriskAloneIsRipe(hasher, ss[x], steps[x].e);
    assert RipensAt(hasher, ss, steps, x);
    forall i | 0 <= i < |ss[x].table| && Outgoing(ss[x].table[i]) ensures ExitedIn(steps, x, x + 1, ss[x].table[i].handle.value.pid) {
      assert steps[x].e.wait(ss[x].table[i].handle.value.pid).Exited?;
    }
  }

  lemma KindIsPatient(hasher: Hasher, ss: seq<State>, steps: seq<Step>, a: nat, b: nat, clock: nat -> nat)
    requires IsRun(hasher, ss, steps) && a <= b <= |steps| && KindSteps(ss, steps, a, b, clock) && BriskOnTheWay(hasher, ss[a], ss[a].ports)
    ensures Patient(hasher, ss, steps, a, b, 1)
  {
    forall x: nat, y: nat ensures Settles(hasher, ss, steps, a, b, 1, x, y) {
      if a <= x <= y <= b && ss[y].tick == ss[x].tick + 1 {
        KindAlong(hasher, ss, steps, a, b, clock, x);
        KindAlong(hasher, ss, steps, a, b, clock, y);
        KindSettles(hasher, ss, steps, a, b, clock, x);
      }
    }
  }

  lemma KindRollEnds(hasher: Hasher, ss: seq<State>, steps: seq<Step>, a: nat, b: nat, most: nat, k: nat, clock: nat -> nat)
    requires IsRun(hasher, ss, steps) && a <= b == |steps| && KindSteps(ss, steps, a, b, clock) && BriskOnTheWay(hasher, ss[a], ss[a].ports)
    requires StaleAtMost(hasher, ss[a], most) && k > 0 && DepthsWithin(ss[a], k) && b == a + WindowsFor(ss[a].m, most, k)
    ensures Stretch(hasher, ss, steps, a, b) && Patient(hasher, ss, steps, a, b, 1)
    ensures IsSteady(hasher, ss[b]) && AllReady(ss[b].table) && ss[b].ports == ss[a].ports && ss[b].m == ss[a].m
  {
    KindStretch(hasher, ss, steps, a, b, clock);
    KindIsPatient(hasher, ss, steps, a, b, clock);
    KindAlong(hasher, ss, steps, a, b, clock, b);
    PatientRolloutCompletes(hasher, ss, steps, a, b, most, k, 1);
  }

  /**
   * From every reachable state on the way of a brisk roll there is a run in which nothing fails
   * and every tick is a window of its own, with any clock; so the fleet can be renewed.
   */
  lemma RollCanEnd(hasher: Hasher, ss: seq<State>, steps: seq<Step>, most: nat, k: nat, clock: nat -> nat) returns (ss': seq<State>, steps': seq<Step>)
    requires IsRun(hasher, ss, steps) && BriskOnTheWay(hasher, ss[|steps|], ss[|steps|].ports)
    requires StaleAtMost(hasher, ss[|steps|], most) && k > 0 && DepthsWithin(ss[|steps|], k)
    ensures IsRun(hasher, ss', steps') && ss <= ss' && steps <= steps' && |steps'| == |steps| + WindowsFor(ss[|steps|].m, most, k)
    ensures Stretch(hasher, ss', steps', |steps|, |steps'|) && Patient(hasher, ss', steps', |steps|, |steps'|, 1)
    ensures IsSteady(hasher, ss'[|steps'|]) && AllReady(ss'[|steps'|].table) && ss'[|steps'|].ports == ss[|steps|].ports
    ensures ss'[|steps'|].m == ss[|steps|].m
  {
    var a := |steps|;
    ss', steps' := KindRun(hasher, ss, steps, WindowsFor(ss[a].m, most, k), clock);
    assert ss'[a] == ss[a];
    KindRollEnds(hasher, ss', steps', a, |steps'|, most, k, clock);
  }

  // ----- from an edit -----

  /** The first tick after an edit of a brisk fleet starts a brisk roll. */
  lemma FirstTickIsBrisk(hasher: Hasher, s: State, e: Env, most: nat)
    requires Rollout(hasher, s, most, 0) && Steadfast(s, e) && DownsStale(DesiredIn(hasher, s), s.table) && LoopOk(s)
    requires Brisk(DesiredIn(hasher, s), s.table)
    ensures BriskOnTheWay(hasher, Tick(hasher, s, e), s.ports) && StaleAtMost(hasher, Tick(hasher, s, e), most)
  {
    var d := DesiredIn(hasher, s);
    SteadfastIsBearable(s, d, e);
    FirstTickOnTheWay(hasher, s, e, most);
    RolloutCanRoll(hasher, s, e, most, 0);
    TickWants(hasher, s, e);
    var x := TickPasses(hasher, s, e);
    EndBrisk(s, d, e, x);
  }

  /** The roll of an edit has been seen first by the last step of the run. */
  lemma EditFirstSeen(hasher: Hasher, ss: seq<State>, steps: seq<Step>, most: nat, clock: nat -> nat) returns (ss': seq<State>, steps': seq<Step>)
    requires IsRun(hasher, ss, steps) && Rollout(hasher, ss[|steps|], most, 0) && LoopOk(ss[|steps|])
    requires var d := DesiredIn(hasher, ss[|steps|]); DownsStale(d, ss[|steps|].table) && Brisk(d, ss[|steps|].table)
    ensures IsRun(hasher, ss', steps') && ss <= ss' && steps <= steps' && |steps'| == |steps| + 1
    ensures BriskOnTheWay(hasher, ss'[|steps'|], ss[|steps|].ports) && StaleAtMost(hasher, ss'[|steps'|], most)
    ensures ss'[|steps'|].m == ss[|steps|].m && ss'[|steps'|].selected == ss[|steps|].selected
  {
    var s, a := ss[|steps|], |steps|;
    ProcessesAreNotShared(hasher, ss, steps, a);
    KindIsBearable(s, DesiredIn(hasher, s), clock);
    FirstTickIsBrisk(hasher, s, KindTo(s, clock), most);
    TickKeepsConfig(hasher, s, KindTo(s, clock));
    ss', steps' := KindTick(hasher, ss, steps, a, clock);
    RunTick(hasher, ss', steps', a);
  }

  lemma EditReady(hasher: Hasher, ss: seq<State>, steps: seq<Step>, c: nat, most: nat)
    requires IsRun(hasher, ss, steps) && 0 < c < |ss| && steps[c - 1].Reloaded? && EditsFleet(hasher, ss[c - 1], ss[c], most)
    requires ss[c].m.defaults.maxSurge == 0 && StaleServe(DesiredIn(hasher, ss[c]), ss[c - 1].table)
    ensures Rollout(hasher, ss[c], most, 0) && LoopOk(ss[c]) && DownsStale(DesiredIn(hasher, ss[c]), ss[c].table)
  {
    EditedStarts(hasher, ss, steps, c - 1, c, most);
    ReloadedFleet(hasher, ss, steps, c);
    NoneDown(DesiredIn(hasher, ss[c - 1]), DesiredIn(hasher, ss[c]), ss[c].table);
  }

  lemma StartCanRollOut(hasher: Hasher, ss: seq<State>, steps: seq<Step>, most: nat, k: nat, clock: nat -> nat)
      returns (ss': seq<State>, steps': seq<Step>)
    requires IsRun(hasher, ss, steps) && Rollout(hasher, ss[|steps|], most, 0) && LoopOk(ss[|steps|])
    requires var d := DesiredIn(hasher, ss[|steps|]); DownsStale(d, ss[|steps|].table) && Brisk(d, ss[|steps|].table)
    requires k > 0 && DepthsWithin(ss[|steps|], k)
    ensures IsRun(hasher, ss', steps') && ss <= ss' && steps <= steps' && |steps'| == |steps| + 1 + WindowsFor(ss[|steps|].m, most, k)
    ensures IsSteady(hasher, ss'[|steps'|]) && AllReady(ss'[|steps'|].table) && ss'[|steps'|].ports == ss[|steps|].ports
    ensures ss'[|steps'|].m == ss[|steps|].m
  {
    ss', steps' := EditFirstSeen(hasher, ss, steps, most, clock);
    assert AppsOf(ss'[|steps'|]) == AppsOf(ss[|steps|]);
    ss', steps' := RollCanEnd(hasher, ss', steps', most, k, clock);
  }

  /**
   * Without surge, every accepted reload that leaves the stale records serving, of a fleet whose
   * current records are up or wait without backing off, can be rolled out: there is a run that
   * goes on from it and ends with the fleet renewed.
   */
  lemma EditCanRollOut(hasher: Hasher, ss: seq<State>, steps: seq<Step>, most: nat, k: nat, clock: nat -> nat)
      returns (ss': seq<State>, steps': seq<Step>)
    requires IsRun(hasher, ss, steps) && |steps| > 0
    requires var c := |steps|;
             && steps[c - 1].Reloaded? && EditsFleet(hasher, ss[c - 1], ss[c], most) && ss[c].m.defaults.maxSurge == 0
             && StaleServe(DesiredIn(hasher, ss[c]), ss[c - 1].table) && Brisk(DesiredIn(hasher, ss[c]), ss[c].table)
             && k > 0 && DepthsWithin(ss[c], k)
    ensures IsRun(hasher, ss', steps') && ss <= ss' && steps <= steps' && |steps'| == |steps| + 1 + WindowsFor(ss[|steps|].m, most, k)
    ensures IsSteady(hasher, ss'[|steps'|]) && AllReady(ss'[|steps'|].table) && ss'[|steps'|].ports == ss[|steps|].ports
    ensures ss'[|steps'|].m == ss[|steps|].m
  {
    EditReady(hasher, ss, steps, |steps|, most);
    ss', steps' := StartCanRollOut(hasher, ss, steps, most, k, clock);
  }
}
