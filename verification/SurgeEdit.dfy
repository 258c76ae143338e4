/** With surge: where an edited fleet settles, although it loses each replacement once. */
module SurgeEdits {
  import opened KeyOrder
  import opened Instances
  import opened Stages
  import opened Lifecycle
  import opened Tracking
  import opened Fates
  import opened Runs
  import opened Steady
  import opened Convergence
  import opened Edits
  import opened Rolls
  import opened Rollouts
  import opened Completions
  import opened Patience

  /**
   * The stale records serve, and hashes tell ports apart, before and after the surge moves of
   * the tick. `was` is what the slots asked for when the records were made.
   */
  ghost predicate SurgesFrom(hasher: Hasher, s: State, was: Desired, e: Env) {
    && StaleServe(DesiredIn(hasher, s), s.table)
    && HashKeepsPort(was, DesiredIn(hasher, s)) && HashKeepsPort(was, WantsAfterRoll(hasher, s, e))
  }

  /** A tick that finds one record per slot, each as `was` asks for. */
  ghost predicate FirstSees(hasher: Hasher, s: State, was: Desired, e: Env) {
    && AllCurrent(was, s.table) && Fills(was, s.table) && SurgesFrom(hasher, s, was, e)
    && Bearable(s, DesiredIn(hasher, s), e) && ChecksPass(s.checksOk) && LoopOk(s)
  }

  // ----- what the roll moves -----

  /** The rolled state, from the one the roll finds. */
  lemma RolledFrom(hasher: Hasher, s: State, e: Env)
    requires Rolling(DesiredIn(hasher, s), s.table) && Bearable(s, DesiredIn(hasher, s), e) && ChecksPass(s.checksOk)
    ensures var at := AtRoll(hasher, s, e);
            && DesiredIn(hasher, at) == DesiredIn(hasher, s) && at.m == s.m
            && Rolled(hasher, Reap(ReverifyChecks(s, e), e), e) == RollStale(at, DesiredIn(hasher, s), e)
            && WantsAfterRoll(hasher, s, e) == DesiredIn(hasher, RollStale(at, DesiredIn(hasher, s), e))
            && at.table == TerminateUndesired(Reap(s, e), DesiredIn(hasher, s), e).table
            && Cleared(DesiredIn(hasher, s), at.table)
  {
    ToRoll(hasher, s, e);
  }

  /** A record the roll finds was in the table before the tick, with the same slot and hash. */
  lemma AtRollFrom(s: State, d: Desired, e: Env, j: nat) returns (i: nat)
    requires j < |TerminateUndesired(Reap(s, e), d, e).table|
    ensures i < |s.table| && SameSpec(s.table[i], TerminateUndesired(Reap(s, e), d, e).table[j])
  {
    var q := TerminateFrom(Reap(s, e), d, e, j);
    i := ReapFrom(s, e, q);
    ReapKeepsSpec(s.table[i], s.m.defaults, e);
  }

  /** Whatever asks for something else after the roll held a stale record before it. */
  lemma ChangedHeldStale(hasher: Hasher, s: State, e: Env, k: Key) returns (i: nat)
    requires Rolling(DesiredIn(hasher, s), s.table) && Bearable(s, DesiredIn(hasher, s), e) && ChecksPass(s.checksOk)
    requires k in DesiredIn(hasher, s) && k in WantsAfterRoll(hasher, s, e) && WantsAfterRoll(hasher, s, e)[k] != DesiredIn(hasher, s)[k]
    ensures i < |s.table| && s.table[i].Slot() == k && Stale(DesiredIn(hasher, s), s.table[i])
  {
    var d, at := DesiredIn(hasher, s), AtRoll(hasher, s, e);
    RolledFrom(hasher, s, e);
    ChangedIsMoved(hasher, at, d, e, k);
    var j := MovedIsStale(at.m, d, at.table, k.app);
    i := AtRollFrom(s, d, e, j);
  }

  lemma OneOfSlot(t: Table, i: nat, j: nat)
    requires (forall i: nat, j: nat :: SlotsDiffer(t, i, j)) && i < |t| && j < |t| && t[i].Slot() == t[j].Slot()
    ensures i == j
  {
    assert SlotsDiffer(t, i, j) && SlotsDiffer(t, j, i);
  }

  lemma ChangedWasStale(hasher: Hasher, s: State, e: Env, i: nat)
    requires Rolling(DesiredIn(hasher, s), s.table) && Bearable(s, DesiredIn(hasher, s), e) && ChecksPass(s.checksOk)
    requires forall i: nat, j: nat :: SlotsDiffer(s.table, i, j)
    requires i < |s.table| && Stale(WantsAfterRoll(hasher, s, e), s.table[i])
    ensures Stale(DesiredIn(hasher, s), s.table[i])
  {
    var k := s.table[i].Slot();
    WantsSameKeys(hasher, s, e);
    if WantsAfterRoll(hasher, s, e)[k] != DesiredIn(hasher, s)[k] {
      var j := ChangedHeldStale(hasher, s, e, k);
      OneOfSlot(s.table, i, j);
    }
  }

  lemma StartsRolling(hasher: Hasher, s: State, was: Desired, e: Env)
    requires FirstSees(hasher, s, was, e)
    ensures Rolling(DesiredIn(hasher, s), s.table) && Rolling(WantsAfterRoll(hasher, s, e), s.table)
  {
    var d, d2 := DesiredIn(hasher, s), WantsAfterRoll(hasher, s, e);
    EditIsRolling(was, d, s.table);
    forall i | 0 <= i < |s.table| && Stale(d2, s.table[i]) ensures s.table[i].Serving() {
      ChangedWasStale(hasher, s, e, i);
    }
    EditIsRolling(was, d2, s.table);
  }

  // ----- the first tick -----

  lemma TerminateSameKeys(s: State, d: Desired, d2: Desired, e: Env)
    requires d.Keys == d2.Keys
    ensures TerminateUndesired(s, d, e) == TerminateUndesired(s, d2, e)
  {
    assert StoppedUndesired(s.table, d, e.terminateAt) == StoppedUndesired(s.table, d2, e.terminateAt);
    assert IdleUndesired(s.table, d) == IdleUndesired(s.table, d2);
  }

  /** No two processes share a slot yet, so none may exit. */
  lemma AloneIsSteadfast(s: State, d: Desired, e: Env)
    requires Bearable(s, d, e) && forall i: nat, j: nat :: SlotsDiffer(s.table, i, j)
    ensures Steadfast(s, e)
  {
    forall i: nat | i < |s.table| ensures !Excused(s.m, s.table, i) {
      if j: nat :| j < |s.table| && j != i && s.table[j].Slot() == s.table[i].Slot() {
        OneOfSlot(s.table, i, j);
      }
    }
  }

  lemma ClearedForMoves(hasher: Hasher, s: State, was: Desired, e: Env)
    requires FirstSees(hasher, s, was, e)
    ensures Cleared(WantsAfterRoll(hasher, s, e), AtRoll(hasher, s, e).table)
  {
    var d, d2 := DesiredIn(hasher, s), WantsAfterRoll(hasher, s, e);
    StartsRolling(hasher, s, was, e);
    RolledFrom(hasher, s, e);
    WantsSameKeys(hasher, s, e);
    AloneIsSteadfast(s, d, e);
    SteadfastIsBearable(s, d2, e);
    ReapRolling(s, d2, e);
    RollingTerminate(Reap(s, e), d2, e);
    TerminateSameKeys(Reap(s, e), d, d2, e);
  }

  /** Nothing is going down in a desired slot when the roll looks: nothing was before the tick. */
  lemma NoneDownAtRoll(s: State, was: Desired, d: Desired, e: Env, j: nat)
    requires AllCurrent(was, s.table)
    requires j < |TerminateUndesired(Reap(s, e), d, e).table| && TerminateUndesired(Reap(s, e), d, e).table[j].Slot() in d
    ensures !GoingDown(TerminateUndesired(Reap(s, e), d, e).table[j])
  {
    var q := TerminateFrom(Reap(s, e), d, e, j);
    var i := ReapFrom(s, e, q);
    assert Current(was, s.table[i]);
    ReapKeepsSpec(s.table[i], s.m.defaults, e);
  }

  /** So what goes down after it is stale for the moved slots too. */
  lemma RolledDownsStale(hasher: Hasher, s: State, was: Desired, e: Env, i: nat)
    requires FirstSees(hasher, s, was, e)
    requires var t := RollStale(AtRoll(hasher, s, e), DesiredIn(hasher, s), e).table;
             i < |t| && GoingDown(t[i]) && t[i].Slot() in WantsAfterRoll(hasher, s, e)
    ensures Stale(WantsAfterRoll(hasher, s, e), RollStale(AtRoll(hasher, s, e), DesiredIn(hasher, s), e).table[i])
  {
    var d, d2, at := DesiredIn(hasher, s), WantsAfterRoll(hasher, s, e), AtRoll(hasher, s, e);
    var k := at.table[i].Slot();
    StartsRolling(hasher, s, was, e);
    RolledFrom(hasher, s, e);
    ClearedForMoves(hasher, s, was, e);
    WantsSameKeys(hasher, s, e);
    RolledRecord(at, d, d2, e, i);
    NoneDownAtRoll(s, was, d, e, i);
    ChangedIsMoved(hasher, at, d, e, k);
    if d2[k] != d[k] {
      var j := MovedIsStale(at.m, d, at.table, k.app);
    }
  }

  lemma FirstTickPasses(hasher: Hasher, s: State, was: Desired, e: Env) returns (s2: State, x: Passage)
    requires FirstSees(hasher, s, was, e)
    ensures s2.m == s.m && Finishes(s2, WantsAfterRoll(hasher, s, e), e, x) && DownsStale(WantsAfterRoll(hasher, s, e), x.rolled)
    ensures x.end == Tick(hasher, s, e).table && ChecksPass(s2.checksOk)
  {
    var d, d2, at := DesiredIn(hasher, s), WantsAfterRoll(hasher, s, e), AtRoll(hasher, s, e);
    StartsRolling(hasher, s, was, e);
    ToRoll(hasher, s, e);
    ClearedForMoves(hasher, s, was, e);
    RollingRoll(at, d, d2, e);
    s2 := RollStale(at, d, e);
    x := SecondHalfPasses(hasher, s2, e, Passage([], [], s2.table, s2, [], []));
    TickEnds(hasher, s, e, s2);
    forall i: nat | i < |s2.table| && GoingDown(s2.table[i]) && s2.table[i].Slot() in d2 ensures Stale(d2, s2.table[i]) {
      RolledDownsStale(hasher, s, was, e, i);
    }
  }

  lemma FilledDowns(s: State, d: Desired, e: Env, x: Passage)
    requires Finishes(s, d, e, x) && DownsStale(d, x.rolled)
    ensures DownsStale(d, x.filled.table)
  {
  }

  /** After the tick that sees the edit first, the fleet is on its way to what its slots ask for from now on. */
  lemma SurgeOnTheWay(hasher: Hasher, s: State, was: Desired, e: Env) returns (most: nat)
    requires FirstSees(hasher, s, was, e)
    ensures var s' := Tick(hasher, s, e); OnTheWay(hasher, s', s'.ports) && StaleAtMost(hasher, s', most)
  {
    var s', d2 := Tick(hasher, s, e), WantsAfterRoll(hasher, s, e);
    var s2, x := FirstTickPasses(hasher, s, was, e);
    FilledDowns(s2, d2, e, x);
    FinishUnderway(s2, d2, e, x);
    TickKeepsConfig(hasher, s, e);
    TickKeepsOk(hasher, s, e);
    TickChecks(hasher, s, e);
    most := |s'.table|;
    forall app ensures StaleCount(d2, s'.table, app) <= most {
      StaleAtMostAll(d2, s'.table, app);
      CountWithin(s'.table, app);
    }
  }

  lemma {:induction false} CountWithin(t: Table, app: string)
    ensures AppCount(t, app) <= |t|
  {
    if t != [] {
      CountWithin(t[..|t| - 1], app);
    }
  }

  lemma TickChecks(hasher: Hasher, s: State, e: Env)
    requires ChecksPass(s.checksOk) && Helpful(e)
    ensures DesiredIn(hasher, Tick(hasher, s, e)) == WantsAfterRoll(hasher, s, e) && ChecksPass(Tick(hasher, s, e).checksOk)
  {
    var s1, s2 := TickParts(hasher, s, e);
    ReverifyPasses(s, e);
  }

  // ----- over a run -----

  lemma SurgeRollsOut(hasher: Hasher, ss: seq<State>, steps: seq<Step>, a: nat, b: nat, most: nat, k: nat, wait: nat)
    requires Stretch(hasher, ss, steps, a, b) && Patient(hasher, ss, steps, a, b, wait) && StaleAtMost(hasher, ss[a], most)
    requires ss[a].m.defaults.maxSurge > 0 && k > 0 && DepthsWithin(ss[a], k) && ss[b].tick >= ss[a].tick + 3 * k * wait
    ensures IsSteady(hasher, ss[b]) && AllReady(ss[b].table) && ss[b].ports == ss[a].ports
  {
    assert WindowsFor(ss[a].m, most, k) == 3 * k;
    PatientRolloutCompletes(hasher, ss, steps, a, b, most, k, wait);
  }

  lemma SurgeEditOnTheWay(hasher: Hasher, ss: seq<State>, steps: seq<Step>, c: nat, a: nat) returns (most: nat)
    requires IsRun(hasher, ss, steps) && 0 < c && a == c + 1 < |ss| && steps[c - 1].Reloaded? && steps[c].Ticked?
    requires IsSteady(hasher, ss[c - 1]) && ChecksPass(ss[c - 1].checksOk)
    requires SurgesFrom(hasher, ss[c], DesiredIn(hasher, ss[c - 1]), steps[c].e) && Bearable(ss[c], DesiredIn(hasher, ss[c]), steps[c].e)
    ensures OnTheWay(hasher, ss[a], ss[a].ports) && StaleAtMost(hasher, ss[a], most)
  {
    ReloadedFleet(hasher, ss, steps, c);
    RunTick(hasher, ss, steps, c);
    most := SurgeOnTheWay(hasher, ss[c], DesiredIn(hasher, ss[c - 1]), steps[c].e);
  }

  /**
   * With surge, and windows of `wait` ticks: from a fleet with one current record per slot,
   * through a reload and the tick that sees it first, the fleet is renewed `3 * wait` ticks per
   * level of its dependencies later, on the ports that first tick left it, so on a surge port
   * where it moved a slot, exactly when every record the edit made stale was serving. By
   * `SurgeReplacementIsLost` each process that replaced a retired one is lost on the way.
   */
  lemma SurgeEditRollsOutIff(hasher: Hasher, ss: seq<State>, steps: seq<Step>, c: nat, a: nat, b: nat, most: nat, k: nat, wait: nat)
    requires IsRun(hasher, ss, steps) && 0 < c && a == c + 1 <= b < |ss| && Unedited(ss, c, b) && AllBearable(hasher, ss, steps, c, b)
    requires steps[c - 1].Reloaded? && EditsFleet(hasher, ss[c - 1], ss[c], most) && steps[c].Ticked?
    requires HashKeepsPort(DesiredIn(hasher, ss[c - 1]), WantsAfterRoll(hasher, ss[c], steps[c].e))
    requires Patient(hasher, ss, steps, a, b, wait) && k > 0 && DepthsWithin(ss[a], k)
    requires ss[a].m.defaults.maxSurge > 0 && ss[b].tick >= ss[a].tick + 3 * k * wait
    ensures IsSteady(hasher, ss[b]) <==> StaleServe(DesiredIn(hasher, ss[c]), ss[c - 1].table)
    ensures IsSteady(hasher, ss[b]) ==> AllReady(ss[b].table) && ss[b].ports == ss[a].ports
  {
    if StaleServe(DesiredIn(hasher, ss[c]), ss[c - 1].table) {
      ReloadedTable(hasher, ss, steps, c);
      var many := SurgeEditOnTheWay(hasher, ss, steps, c, a);
      SurgeRollsOut(hasher, ss, steps, a, b, many, k, wait);
    } else {
      TickGrows(hasher, ss, steps, c, b);
      EditNeverInTime(hasher, ss, steps, c, b, most);
    }
  }
}
