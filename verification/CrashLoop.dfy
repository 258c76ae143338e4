/** Exponential back-off: the delays, and the rate they impose on a crash-looping slot over a whole run. */
module CrashLoop {
  import opened Prelude
  import opened Manifests
  import opened Instances
  import opened Stages
  import opened Tracking
  import opened Runs
  import opened Stopping
  import opened Fates

  // ----- the delay -----

  lemma {:induction false} Pow2Monotone(a: nat, b: nat)
    requires a <= b
    ensures Pow2(a) <= Pow2(b)
  {
    if a < b {
      Pow2Monotone(a, b - 1);
    }
  }

  /** Saturating at `u64::MAX` never shows: the delay is the exact product, capped. */
  lemma DelayIsExact(base: U64, cap: U64, restarts: nat)
    requires restarts > 0
    ensures BackoffDelay(base, cap, restarts) == Min(base * Pow2(Min(restarts - 1, 20)), cap)
  {
  }

  lemma DelayGrowsToCap(base: U64, cap: U64, a: nat, b: nat)
    requires 0 < a <= b
    ensures BackoffDelay(base, cap, a) <= BackoffDelay(base, cap, b) <= cap
    ensures BackoffDelay(base, cap, 1) == Min(base, cap)
  {
    var x, y := Min(a - 1, 20), Min(b - 1, 20);
    Pow2Monotone(x, y);
    MulMonotone(base, Pow2(x), Pow2(y));
    DelayIsExact(base, cap, a);
    DelayIsExact(base, cap, b);
    assert Pow2(0) == 1;
  }

  /**
   * The rule by which the delays grow: the base first, twice as long after each further failure
   * up to the twenty-first, never above the cap.
   */
  lemma DelayDoubles(d: Defaults, n: nat)
    ensures NextDelay(d, 1) == Min(d.restartBackoffMs, d.restartBackoffMaxMs)
    ensures 0 < n <= 20 ==> NextDelay(d, n + 1) == Min(2 * NextDelay(d, n), d.restartBackoffMaxMs)
    ensures n > 20 ==> NextDelay(d, n + 1) == NextDelay(d, n)
  {
    var base, cap := d.restartBackoffMs, d.restartBackoffMaxMs;
    DelayGrowsToCap(base, cap, 1, 1);
    if 0 < n <= 20 {
      DelayIsExact(base, cap, n);
      DelayIsExact(base, cap, n + 1);
      DoubleProduct(base, n);
    }
  }

  lemma DoubleProduct(c: nat, n: nat)
    requires n > 0
    ensures c * Pow2(n) == 2 * (c * Pow2(n - 1))
  {
    assert Pow2(n) == 2 * Pow2(n - 1);
  }

  lemma MulMonotone(c: nat, a: nat, b: nat)
    requires a <= b
    ensures c * a <= c * b
  {
  }

  /** The least time between the first failure and the `n`-th respawn. */
  function TotalDelay(d: Defaults, n: nat): nat {
    if n == 0 then 0 else TotalDelay(d, n - 1) + NextDelay(d, n)
  }

  // ----- one record -----

  /** The slot first failed at time `first` and has obeyed every delay since. */
  ghost predicate HeldBack(d: Defaults, first: nat, r: Instance) {
    && r.restarts > 0
    && (r.Running() ==> r.startedAt.Some? && first + TotalDelay(d, r.restarts) <= r.startedAt.value)
    && (!r.Running() && r.phase != Terminating ==>
          r.backoffUntil.Some? && first + TotalDelay(d, r.restarts) <= r.backoffUntil.value)
  }

  /** The process in the record, its n-th respawn, started no earlier than n delays after `first`. */
  ghost predicate KeepsDistance(d: Defaults, first: nat, r: Instance) {
    r.restarts > 0 && (r.Running() ==> r.startedAt.Some? && first + TotalDelay(d, r.restarts) <= r.startedAt.value)
  }

  /** The clock never runs backwards within a tick. */
  ghost predicate Clock(e: Env) {
    && e.checkAt <= e.reapAt <= e.terminateAt <= e.blockedAt <= e.rollAt <= e.spawnAt <= e.retireAt <= e.probeAt
    && forall p :: e.spawnAt <= e.spawn(p).at <= e.retireAt && e.probeAt <= e.probe(p).readyAt <= e.probe(p).liveAt
  }

  ghost predicate StartedBy(r: Instance, now: nat) {
    r.Running() && r.startedAt.Some? ==> r.startedAt.value <= now
  }

  /** The process started at least `stable_after_secs` seconds before `now`. */
  predicate LivedLong(r: Instance, d: Defaults, now: nat) {
    d.stableAfterSecs == 0 || (r.startedAt.Some? && r.startedAt.value + 1000 * d.stableAfterSecs <= now)
  }

  ghost predicate NoStableExit(r: Instance, d: Defaults, e: Env) {
    r.Running() && e.wait(r.handle.value.pid).Exited? ==> !LivedLong(r, d, e.reapAt)
  }

  /**
   * What an exit that is not final makes of the record: a back-off from `now`, by the delay for
   * one failure more than before, or for the first if the process had lived long enough.
   */
  lemma CrashCounts(r: Instance, d: Defaults, wait: Pid -> Wait, now: nat)
    requires r.Running() && wait(r.handle.value.pid).Exited? && (r.phase != Terminating || r.restartAfterStop)
    ensures var r' := ReapOne(r, d, wait, now);
            && r'.restarts == (if LivedLong(r, d, now) then 1 else r.restarts + 1)
            && r' == r.(handle := None, startedAt := None, everReady := false, phase := CrashLoopBackOff, restartAfterStop := false,
                        restarts := r'.restarts, backoffUntil := Some(now + NextDelay(d, r'.restarts)))
    ensures r.startedAt.Some? && r.startedAt.value <= now ==>
              var r', stable := ReapOne(r, d, wait, now), r.startedAt.value + 1000 * d.stableAfterSecs;
              (now < stable ==> r'.restarts == r.restarts + 1) && (now >= stable ==> r'.restarts == 1)
  {
  }

  /** The failure of a running process that never failed before starts the count. */
  lemma FirstFailure(r: Instance, d: Defaults, wait: Pid -> Wait, now: nat)
    requires r.Running() && wait(r.handle.value.pid).Exited? && !ExitDrops(r, wait)
    requires r.restarts == 0 || LivedLong(r, d, now)
    ensures var r' := ReapOne(r, d, wait, now);
            && HeldBack(d, now, r') && r'.restarts == 1
            && r'.backoffUntil == Some(now + Min(d.restartBackoffMs, d.restartBackoffMaxMs))
  {
    DelayGrowsToCap(d.restartBackoffMs, d.restartBackoffMaxMs, 1, 1);
    assert TotalDelay(d, 1) == TotalDelay(d, 0) + NextDelay(d, 1);
  }

  lemma ReapHoldsBack(r: Instance, d: Defaults, first: nat, e: Env)
    requires HeldBack(d, first, r) && StartedBy(r, e.reapAt) && NoStableExit(r, d, e) && !ExitDrops(r, e.wait)
    ensures HeldBack(d, first, ReapOne(r, d, e.wait, e.reapAt)) && StartedBy(ReapOne(r, d, e.wait, e.reapAt), e.reapAt)
  {
  }

  lemma StopHoldsBack(r: Instance, d: Defaults, first: nat, b: bool, respawn: bool, now: nat, latest: nat)
    requires HeldBack(d, first, r) && StartedBy(r, latest)
    ensures HeldBack(d, first, StopIf(b, r, respawn, now)) && StartedBy(StopIf(b, r, respawn, now), latest)
  {
  }

  lemma SpawnHoldsBack(hasher: Hasher, d: Defaults, a: App, first: nat, r: Instance, ans: SpawnAnswer, pid: Pid, now: nat)
    requires HeldBack(d, first, r) && !r.Running() && r.phase != Terminating
    requires r.backoffUntil.Some? ==> r.backoffUntil.value <= now
    requires now <= ans.at
    ensures HeldBack(d, first, SpawnOne(hasher, d, a, r, ans, pid))
    ensures StartedBy(SpawnOne(hasher, d, a, r, ans, pid), ans.at)
  {
  }

  lemma ProbeHoldsBack(m: Manifest, d: Defaults, first: nat, r: Instance, now: nat, ans: ProbeAnswer, latest: nat)
    requires HeldBack(d, first, r) && StartedBy(r, latest)
    ensures HeldBack(d, first, ProbeOne(m, r, now, ans)) && StartedBy(ProbeOne(m, r, now, ans), latest)
  {
    if r.Serving() && m.Has(r.app) {
      var p := AfterReadiness(m.Lookup(r.app).value, r, now, ans);
      assert p.restarts == r.restarts && p.startedAt == r.startedAt && p.Running();
      var q := ProbeOne(m, r, now, ans);
      assert q.restarts == r.restarts && q.startedAt == r.startedAt && q.Running();
    }
  }

  /** After the reap, nothing a tick does lets the slot run ahead of its delays. */
  lemma RestOfTickHoldsBack(hasher: Hasher, m: Manifest, tick: nat, e: Env, first: nat, r: Instance, p: nat, v: Verdict)
    requires Clock(e) && Lawful(hasher, m, tick, e, r, p, v)
    requires HeldBack(m.defaults, first, ReapOne(r, m.defaults, e.wait, e.reapAt))
    requires StartedBy(ReapOne(r, m.defaults, e.wait, e.reapAt), e.reapAt)
    ensures HeldBack(m.defaults, first, TickRecord(hasher, m, tick, e, r, p, v))
    ensures StartedBy(TickRecord(hasher, m, tick, e, r, p, v), e.retireAt)
  {
    var d := m.defaults;
    var reaped := ReapOne(r, d, e.wait, e.reapAt);
    var r1 := StopIf(v.undesired, reaped, false, e.terminateAt);
    var r2 := StopIf(v.blocked, r1, true, e.blockedAt);
    var r3 := StopIf(v.victim, r2, false, e.rollAt);
    StopHoldsBack(reaped, d, first, v.undesired, false, e.terminateAt, e.reapAt);
    StopHoldsBack(r1, d, first, v.blocked, true, e.blockedAt, e.reapAt);
    StopHoldsBack(r2, d, first, v.victim, false, e.rollAt, e.reapAt);
    var r4 := SpawnedRecord(hasher, m, tick, e, r3, p, v);
    if v.spawned && m.Has(r3.app) {
      SpawnHoldsBack(hasher, d, m.Lookup(r3.app).value, first, r3, e.spawn(p), Pid(tick, p), e.spawnAt);
    }
    StopHoldsBack(r4, d, first, v.retired, false, e.retireAt, e.retireAt);
    ProbeHoldsBack(m, d, first, StopIf(v.retired, r4, false, e.retireAt), e.probeAt, e.probe(p), e.retireAt);
  }

  lemma TickHoldsBack(hasher: Hasher, m: Manifest, tick: nat, e: Env, first: nat, r: Instance, p: nat, v: Verdict)
    requires Clock(e) && Lawful(hasher, m, tick, e, r, p, v)
    requires HeldBack(m.defaults, first, r) && StartedBy(r, e.reapAt) && NoStableExit(r, m.defaults, e) && !ExitDrops(r, e.wait)
    ensures HeldBack(m.defaults, first, TickRecord(hasher, m, tick, e, r, p, v))
    ensures StartedBy(TickRecord(hasher, m, tick, e, r, p, v), e.retireAt)
  {
    ReapHoldsBack(r, m.defaults, first, e);
    RestOfTickHoldsBack(hasher, m, tick, e, first, r, p, v);
  }

  /** This tick sees the first failure of a process, or the first after a stable uptime. */
  ghost predicate FailsFirst(r: Instance, d: Defaults, e: Env) {
    && r.Running() && e.wait(r.handle.value.pid).Exited?
    && (r.restarts == 0 || LivedLong(r, d, e.reapAt))
  }

  // ----- whole runs -----

  /** From `a` to `b` the clock is in order and the tracked record's defaults do not change. */
  ghost predicate Timely(ss: seq<State>, steps: seq<Step>, a: nat, b: nat, d: Defaults)
    requires b < |ss| == |steps| + 1
  {
    && (forall k {:trigger steps[k]} {:trigger ss[k]} :: a <= k < b ==> ss[k].m.defaults == d)
    && (forall k {:trigger steps[k]} :: a <= k < b && steps[k].Ticked? ==> Clock(steps[k].e))
    && (forall k, l {:trigger steps[k], steps[l]} :: a <= k < l < b && steps[k].Ticked? && steps[l].Ticked? ==> steps[k].e.retireAt <= steps[l].e.reapAt)
  }

  /** No process of the tracked record lives long enough to reset the count. */
  ghost predicate AlwaysUnstable(ss: seq<State>, steps: seq<Step>, pos: seq<nat>, a: nat, b: nat, d: Defaults)
    requires b < |ss| == |steps| + 1 == |pos|
  {
    forall k {:trigger steps[k]} :: a <= k < b && steps[k].Ticked? && pos[k] < |ss[k].table| ==> NoStableExit(ss[k].table[pos[k]], d, steps[k].e)
  }

  ghost predicate HeldBackAt(ss: seq<State>, steps: seq<Step>, pos: seq<nat>, k: nat, b: nat, d: Defaults, first: nat)
    requires b < |ss| == |steps| + 1 == |pos| && k <= b
  {
    && pos[k] < |ss[k].table|
    && HeldBack(d, first, ss[k].table[pos[k]])
    && forall l :: k <= l < b && steps[l].Ticked? ==> StartedBy(ss[k].table[pos[k]], steps[l].e.reapAt)
  }

  lemma HeldBackStep(hasher: Hasher, s: State, step: Step, s': State, i: nat, j: nat, first: nat)
    requires Leads(hasher, s, step, s') && Carries(hasher, s, step, i, j)
    requires HeldBack(s.m.defaults, first, s.table[i])
    requires step.Ticked? ==> Clock(step.e) && StartedBy(s.table[i], step.e.reapAt) && NoStableExit(s.table[i], s.m.defaults, step.e)
    ensures j < |s'.table| && HeldBack(s.m.defaults, first, s'.table[j])
    ensures step.Ticked? ==> StartedBy(s'.table[j], step.e.retireAt)
    ensures step.Reloaded? ==> s'.table[j] == s.table[i]
  {
    match step
    case Ticked(e) =>
      var v := TickAt(hasher, s, e, i);
      KeptMeansNotDropped(hasher, s, e, i);
      TickHoldsBack(hasher, s.m, s.tick, e, first, s.table[i], j, v);
    case Reloaded(o) =>
      ReloadChanges(s, o);
  }

  lemma KeptMeansNotDropped(hasher: Hasher, s: State, e: Env, i: nat)
    requires i < |s.table| && Place(hasher, s, e, i).Some?
    ensures !ExitDrops(s.table[i], e.wait)
  {
    assert ReverifyChecks(s, e).table == s.table;
  }

  lemma LastHeldBackStep(hasher: Hasher, ss: seq<State>, steps: seq<Step>, pos: seq<nat>, a: nat, b: nat, k: nat, d: Defaults, first: nat)
    requires IsRun(hasher, ss, steps) && Tracks(hasher, ss, steps, pos, a, b) && a <= k < b
    requires Timely(ss, steps, a, b, d) && AlwaysUnstable(ss, steps, pos, a, b, d)
    requires HeldBackAt(ss, steps, pos, k, b, d, first)
    ensures HeldBackAt(ss, steps, pos, k + 1, b, d, first)
  {
    assert LeadsAt(hasher, ss, steps, k);
    HeldBackStep(hasher, ss[k], steps[k], ss[k + 1], pos[k], pos[k + 1], first);
  }

  lemma {:induction false} StaysHeldBack(hasher: Hasher, ss: seq<State>, steps: seq<Step>, pos: seq<nat>, a: nat, b: nat, k: nat, d: Defaults, first: nat)
    requires IsRun(hasher, ss, steps) && Tracks(hasher, ss, steps, pos, a, b) && a <= k <= b
    requires Timely(ss, steps, a, b, d) && AlwaysUnstable(ss, steps, pos, a, b, d)
    requires HeldBackAt(ss, steps, pos, a, b, d, first)
    ensures HeldBackAt(ss, steps, pos, k, b, d, first)
    decreases k
  {
    if a < k {
      StaysHeldBack(hasher, ss, steps, pos, a, b, k - 1, d, first);
      LastHeldBackStep(hasher, ss, steps, pos, a, b, k - 1, d, first);
    }
  }

  /**
   * A slot that first failed at time `first`, and whose processes never live long enough to
   * be called stable, has its n-th respawn no earlier than `first` plus the first n delays.
   */
  lemma CrashLoopRate(hasher: Hasher, ss: seq<State>, steps: seq<Step>, pos: seq<nat>, a: nat, b: nat, d: Defaults, first: nat)
    requires IsRun(hasher, ss, steps) && Tracks(hasher, ss, steps, pos, a, b)
    requires Timely(ss, steps, a, b, d) && AlwaysUnstable(ss, steps, pos, a, b, d)
    requires HeldBackAt(ss, steps, pos, a, b, d, first)
    ensures pos[b] < |ss[b].table|
    ensures KeepsDistance(d, first, ss[b].table[pos[b]])
  {
    StaysHeldBack(hasher, ss, steps, pos, a, b, b, d, first);
    assert HeldBackAt(ss, steps, pos, b, b, d, first);
  }

  lemma FirstFailureStep(hasher: Hasher, s: State, e: Env, s': State, i: nat, j: nat)
    requires Leads(hasher, s, Ticked(e), s') && Carries(hasher, s, Ticked(e), i, j)
    requires Clock(e) && FailsFirst(s.table[i], s.m.defaults, e)
    ensures j < |s'.table| && HeldBack(s.m.defaults, e.reapAt, s'.table[j]) && StartedBy(s'.table[j], e.retireAt)
  {
    var v := TickAt(hasher, s, e, i);
    KeptMeansNotDropped(hasher, s, e, i);
    FirstFailure(s.table[i], s.m.defaults, e.wait, e.reapAt);
    RestOfTickHoldsBack(hasher, s.m, s.tick, e, e.reapAt, s.table[i], j, v);
  }

  lemma FailureHoldsBack(hasher: Hasher, ss: seq<State>, steps: seq<Step>, pos: seq<nat>, a: nat, b: nat, d: Defaults)
    requires IsRun(hasher, ss, steps) && Tracks(hasher, ss, steps, pos, a, b) && a < b
    requires Timely(ss, steps, a, b, d)
    requires steps[a].Ticked? && FailsFirst(ss[a].table[pos[a]], d, steps[a].e)
    ensures HeldBackAt(ss, steps, pos, a + 1, b, d, steps[a].e.reapAt)
  {
    assert LeadsAt(hasher, ss, steps, a);
    FirstFailureStep(hasher, ss[a], steps[a].e, ss[a + 1], pos[a], pos[a + 1]);
  }

  lemma TracksLater(hasher: Hasher, ss: seq<State>, steps: seq<Step>, pos: seq<nat>, a: nat, b: nat)
    requires Tracks(hasher, ss, steps, pos, a, b) && a < b
    requires pos[a + 1] < |ss[a + 1].table|
    ensures Tracks(hasher, ss, steps, pos, a + 1, b)
  {
  }

  lemma TimelyLater(ss: seq<State>, steps: seq<Step>, a: nat, b: nat, d: Defaults)
    requires a < b < |ss| == |steps| + 1 && Timely(ss, steps, a, b, d)
    ensures Timely(ss, steps, a + 1, b, d)
  {
  }

  lemma RateFromNext(hasher: Hasher, ss: seq<State>, steps: seq<Step>, pos: seq<nat>, a: nat, b: nat, d: Defaults, first: nat)
    requires IsRun(hasher, ss, steps) && Tracks(hasher, ss, steps, pos, a, b) && a < b
    requires Timely(ss, steps, a, b, d) && AlwaysUnstable(ss, steps, pos, a + 1, b, d)
    requires HeldBackAt(ss, steps, pos, a + 1, b, d, first)
    ensures HeldBackAt(ss, steps, pos, b, b, d, first)
  {
    TracksLater(hasher, ss, steps, pos, a, b);
    TimelyLater(ss, steps, a, b, d);
    StaysHeldBack(hasher, ss, steps, pos, a + 1, b, b, d, first);
  }

  /** From the failure itself: every later respawn keeps the distance its count of restarts demands. */
  lemma RespawnsKeepTheirDistance(hasher: Hasher, ss: seq<State>, steps: seq<Step>, pos: seq<nat>, a: nat, b: nat, d: Defaults)
    requires IsRun(hasher, ss, steps) && Tracks(hasher, ss, steps, pos, a, b) && a < b
    requires Timely(ss, steps, a, b, d) && AlwaysUnstable(ss, steps, pos, a + 1, b, d)
    requires steps[a].Ticked? && FailsFirst(ss[a].table[pos[a]], d, steps[a].e)
    ensures pos[b] < |ss[b].table|
    ensures KeepsDistance(d, steps[a].e.reapAt, ss[b].table[pos[b]])
  {
    FailureHoldsBack(hasher, ss, steps, pos, a, b, d);
    RateFromNext(hasher, ss, steps, pos, a, b, d, steps[a].e.reapAt);
  }

  // ----- a first spawn that fails -----

  lemma FailedSpawnHoldsBack(hasher: Hasher, d: Defaults, a: App, r: Instance, ans: SpawnAnswer, pid: Pid)
    requires !r.Running() && r.restarts == 0 && !ans.ok
    ensures var r' := SpawnOne(hasher, d, a, r, ans, pid);
            && HeldBack(d, ans.at, r') && r'.restarts == 1
            && r'.backoffUntil == Some(ans.at + Min(d.restartBackoffMs, d.restartBackoffMaxMs))
  {
    DelayGrowsToCap(d.restartBackoffMs, d.restartBackoffMaxMs, 1, 1);
    assert TotalDelay(d, 1) == TotalDelay(d, 0) + NextDelay(d, 1);
  }

  lemma AfterSpawnHoldsBack(m: Manifest, e: Env, first: nat, r: Instance, p: nat, retired: bool)
    requires HeldBack(m.defaults, first, r) && StartedBy(r, e.retireAt)
    ensures HeldBack(m.defaults, first, AfterSpawn(m, e, r, p, retired)) && StartedBy(AfterSpawn(m, e, r, p, retired), e.retireAt)
  {
    StopHoldsBack(r, m.defaults, first, retired, false, e.retireAt, e.retireAt);
    ProbeHoldsBack(m, m.defaults, first, StopIf(retired, r, false, e.retireAt), e.probeAt, e.probe(p), e.retireAt);
  }

  lemma ProbeKeepsRestarts(m: Manifest, r: Instance, now: nat, ans: ProbeAnswer)
    ensures ProbeOne(m, r, now, ans).restarts == r.restarts
  {
    if r.Serving() && m.Has(r.app) {
      assert AfterReadiness(m.Lookup(r.app).value, r, now, ans).restarts == r.restarts;
    }
  }

  /** An idle record without failures has failed after a spawn attempt only if that attempt failed. */
  lemma AttemptHoldsBack(hasher: Hasher, m: Manifest, e: Env, r: Instance, p: nat, pid: Pid, spawned: bool, retired: bool)
    requires !r.Running() && r.restarts == 0 && e.spawn(p).at <= e.retireAt && (spawned ==> m.Has(r.app))
    ensures var tried := if spawned then SpawnOne(hasher, m.defaults, m.Lookup(r.app).value, r, e.spawn(p), pid) else r;
            var r' := AfterSpawn(m, e, tried, p, retired);
            r'.restarts > 0 ==> HeldBack(m.defaults, e.spawn(p).at, r') && StartedBy(r', e.retireAt)
  {
    var tried := if spawned then SpawnOne(hasher, m.defaults, m.Lookup(r.app).value, r, e.spawn(p), pid) else r;
    ProbeKeepsRestarts(m, StopIf(retired, tried, false, e.retireAt), e.probeAt, e.probe(p));
    if tried.restarts > 0 {
      FailedSpawnHoldsBack(hasher, m.defaults, m.Lookup(r.app).value, r, e.spawn(p), pid);
      AfterSpawnHoldsBack(m, e, e.spawn(p).at, tried, p, retired);
    }
  }

  lemma AddedHoldsBack(hasher: Hasher, s: State, e: Env, p: nat)
    requires Clock(e) && AddedAt(hasher, s, e, p)
    ensures var r' := Tick(hasher, s, e).table[p];
            r'.restarts > 0 ==> HeldBack(s.m.defaults, e.spawn(p).at, r') && StartedBy(r', e.retireAt)
  {
    var s1, s2 := TickParts(hasher, s, e);
    var r, spawned, retired := AddedRecord(hasher, s2, DesiredIn(hasher, s2), e, p);
    AttemptHoldsBack(hasher, s.m, e, r, p, Pid(s.tick, p), spawned, retired);
  }

  lemma IdleHoldsBack(hasher: Hasher, s: State, e: Env, i: nat)
    requires Clock(e) && i < |s.table| && !s.table[i].Running() && s.table[i].restarts == 0
    requires Place(hasher, s, e, i).Some?
    ensures var p := Place(hasher, s, e, i).value;
            && p < |Tick(hasher, s, e).table|
            && var r' := Tick(hasher, s, e).table[p];
               r'.restarts > 0 ==> HeldBack(s.m.defaults, e.spawn(p).at, r') && StartedBy(r', e.retireAt)
  {
    var v := TickAt(hasher, s, e, i);
    var p, r := Place(hasher, s, e, i).value, s.table[i];
    var cleared := StopIf(v.victim, r, false, e.rollAt);
    assert ClearedRecord(s.m.defaults, e, r, v) == cleared;
    AttemptHoldsBack(hasher, s.m, e, cleared, p, Pid(s.tick, p), v.spawned && s.m.Has(r.app), v.retired);
  }

  /** The record at `p` first failed in this tick, by a spawn that did not succeed. */
  ghost predicate StartFails(hasher: Hasher, s: State, e: Env, s': State, p: nat) {
    && p < |s'.table| && s'.table[p].restarts > 0
    && (AddedAt(hasher, s, e, p)
        || exists i: nat :: i < |s.table| && !s.table[i].Running() && s.table[i].restarts == 0 && Place(hasher, s, e, i) == Some(p))
  }

  lemma StartFailureStep(hasher: Hasher, s: State, e: Env, s': State, p: nat)
    requires Leads(hasher, s, Ticked(e), s') && Clock(e) && StartFails(hasher, s, e, s', p)
    ensures HeldBack(s.m.defaults, e.spawn(p).at, s'.table[p]) && StartedBy(s'.table[p], e.retireAt)
  {
    if AddedAt(hasher, s, e, p) {
      AddedHoldsBack(hasher, s, e, p);
    } else {
      var i: nat :| i < |s.table| && !s.table[i].Running() && s.table[i].restarts == 0 && Place(hasher, s, e, i) == Some(p);
      IdleHoldsBack(hasher, s, e, i);
    }
  }

  lemma StartFailureHoldsBack(hasher: Hasher, ss: seq<State>, steps: seq<Step>, pos: seq<nat>, a: nat, b: nat, d: Defaults)
    requires IsRun(hasher, ss, steps) && a + 1 <= b < |ss| == |pos| && Timely(ss, steps, a, b, d) && steps[a].Ticked?
    requires StartFails(hasher, ss[a], steps[a].e, ss[a + 1], pos[a + 1])
    ensures HeldBackAt(ss, steps, pos, a + 1, b, d, steps[a].e.spawn(pos[a + 1]).at)
  {
    assert LeadsAt(hasher, ss, steps, a);
    StartFailureStep(hasher, ss[a], steps[a].e, ss[a + 1], pos[a + 1]);
  }

  /** The same rate from a first spawn that fails, such as a missing binary, whether the record is new or was waiting. */
  lemma RespawnsAfterFailedStart(hasher: Hasher, ss: seq<State>, steps: seq<Step>, pos: seq<nat>, a: nat, b: nat, d: Defaults)
    requires IsRun(hasher, ss, steps) && a < b && Tracks(hasher, ss, steps, pos, a + 1, b)
    requires Timely(ss, steps, a, b, d) && AlwaysUnstable(ss, steps, pos, a + 1, b, d)
    requires steps[a].Ticked? && StartFails(hasher, ss[a], steps[a].e, ss[a + 1], pos[a + 1])
    ensures pos[b] < |ss[b].table|
    ensures KeepsDistance(d, steps[a].e.spawn(pos[a + 1]).at, ss[b].table[pos[b]])
  {
    var first := steps[a].e.spawn(pos[a + 1]).at;
    StartFailureHoldsBack(hasher, ss, steps, pos, a, b, d);
    TimelyLater(ss, steps, a, b, d);
    CrashLoopRate(hasher, ss, steps, pos, a + 1, b, d, first);
  }
}
