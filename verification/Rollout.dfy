/** An edited fleet is completely replaced in a bounded number of ticks. */
module Rollouts {
  import opened Prelude
  import opened Manifests
  import opened KeyOrder
  import opened Instances
  import opened Stages
  import opened Graph
  import opened Selection
  import opened Tracking
  import opened Fates
  import opened Runs
  import opened Startup
  import opened Convergence
  import opened Edits
  import opened Rolls

  // ----- the tick as a whole -----

  /** The tables a tick passes through: reaped, cleared, rolled, filled up, spawned, and the one it leaves. */
  datatype Passage = Passage(reaped: Table, cleared: Table, rolled: Table, filled: State, spawned: Table, end: Table)

  ghost predicate Filled(s: State, d: Desired, x: Passage) {
    && x.rolled <= x.filled.table && Cleared(d, x.filled.table) && AllCovered(d, x.filled.table)
    && (forall p :: |x.rolled| <= p < |x.filled.table| ==> Waiting(d, x.filled.table[p]) && x.filled.table[p].backoffUntil.None?)
    && x.filled.m == s.m && ChecksPass(x.filled.checksOk)
    && |x.spawned| == |x.filled.table|
    && forall p :: 0 <= p < |x.spawned| && x.filled.table[p].Running() ==> x.spawned[p] == x.filled.table[p]
  }

  ghost predicate Ends(s: State, d: Desired, e: Env, x: Passage, p: nat)
    requires p < |x.end| == |x.filled.table|
  {
    var r := x.filled.table[p];
    Advances(d, r, x.end[p],
             Open(x.filled, r.app) && Rested(r, e.spawnAt), s.m.defaults.maxSurge > 0 && Retires(d, x.spawned, r), Ripening(s.m, r, e))
  }

  /** The second half of the passage, from the table the roll leaves. */
  ghost predicate Finishes(s: State, d: Desired, e: Env, x: Passage) {
    Filled(s, d, x) && |x.end| == |x.filled.table| && forall p: nat :: p < |x.end| ==> Ends(s, d, e, x, p)
  }

  ghost predicate Passes(s: State, d: Desired, e: Env, x: Passage) {
    && x.reaped == Reap(s, e).table && Rolling(d, x.reaped)
    && x.cleared == TerminateUndesired(Reap(s, e), d, e).table && Cleared(d, x.cleared)
    && x.rolled == RolledTable(s.m, s.selected, d, x.cleared, e.rollAt) && Cleared(d, x.rolled)
    && Finishes(s, d, e, x)
  }

  /** What a roll needs of the state and the environment; with surge, also that no slot has yet to move. */
  ghost predicate CanRoll(hasher: Hasher, s: State, e: Env) {
    var d := DesiredIn(hasher, s);
    && Rolling(d, s.table) && Bearable(s, d, e) && ChecksPass(s.checksOk)
    && (s.m.defaults.maxSurge > 0 ==> AllCovered(d, s.table))
  }

  lemma ReverifyPasses(s: State, e: Env)
    requires ChecksPass(s.checksOk) && Helpful(e)
    ensures ChecksPass(ReverifyChecks(s, e).checksOk)
  {
    ChecksStayPassing(s.m.checks, e.check, s.checksOk);
  }

  /** A roll moves no slot that is covered. */
  lemma CoveredMovesNothing(s: State, d: Desired, e: Env)
    requires s.m.defaults.maxSurge > 0 ==>
               forall i :: 0 <= i < |s.table| && Stale(d, s.table[i]) ==> HasHash(s.table, s.table[i].Slot(), d[s.table[i].Slot()].hash)
    ensures RollStale(s, d, e).ports == s.ports
  {
    forall app ensures SurgeMove(s.m, d, s.table, app).None? {
      var f := FirstStaleReady(d, s.table, app);
      if f.Some? {
        assert StaleReady(d, app, s.table[f.value]);
      }
    }
    assert MovedSlots(SurgeMoves(s.m, s.selected, d, s.table), s.selected) == {};
    assert s.ports + MovedPorts(SurgeMoves(s.m, s.selected, d, s.table), s.selected) == s.ports;
  }

  /** What was covered is so when the roll looks, unless the whole slot has been dropped. */
  lemma CoveredAtRoll(s: State, d: Desired, e: Env, p: nat)
    requires AllCovered(d, s.table) && p < |TerminateUndesired(Reap(s, e), d, e).table| && TerminateUndesired(Reap(s, e), d, e).table[p].Slot() in d
    ensures var t := TerminateUndesired(Reap(s, e), d, e).table; HasHash(t, t[p].Slot(), d[t[p].Slot()].hash)
  {
    var k := TerminateUndesired(Reap(s, e), d, e).table[p].Slot();
    var i := TerminateFrom(Reap(s, e), d, e, p);
    var j := RetainFrom(ReapedTable(s.table, s.m.defaults, e.wait, e.reapAt), DroppedSlots(s.table, e.wait), i);
    ReapHashes(s, e, k, d[k].hash);
    TerminateHashes(Reap(s, e), d, e, k, d[k].hash);
  }

  lemma TerminateHashes(s: State, d: Desired, e: Env, k: Key, hash: nat)
    requires k in d
    ensures HasHash(TerminateUndesired(s, d, e).table, k, hash) <==> HasHash(s.table, k, hash)
  {
    var t := StoppedUndesired(s.table, d, e.terminateAt);
    SameHasHash(s.table, t, k, hash);
    RetainHashes(t, IdleUndesired(s.table, d), k, hash);
  }

  /** The loop's state when the roll of the tick finds it. */
  ghost function AtRoll(hasher: Hasher, s: State, e: Env): State {
    var s1 := Reap(ReverifyChecks(s, e), e);
    TerminateUndesired(s1, DesiredIn(hasher, s), e)
  }

  lemma ToRoll(hasher: Hasher, s: State, e: Env)
    requires Rolling(DesiredIn(hasher, s), s.table) && Bearable(s, DesiredIn(hasher, s), e) && ChecksPass(s.checksOk)
    ensures var d, s1, s2 := DesiredIn(hasher, s), Reap(ReverifyChecks(s, e), e), AtRoll(hasher, s, e);
            && DesiredIn(hasher, s1) == d && DesiredIn(hasher, s2) == d
            && s1.table == Reap(s, e).table && Rolling(d, s1.table)
            && Rolled(hasher, s1, e) == RollStale(s2, d, e)
            && s2.table == TerminateUndesired(Reap(s, e), d, e).table
            && Cleared(d, s2.table) && ChecksPass(s2.checksOk)
  {
    var d, s1 := DesiredIn(hasher, s), Reap(ReverifyChecks(s, e), e);
    ReverifyPasses(s, e);
    ReapRolling(s, d, e);
    ReapKeepsWants(hasher, s, e);
    assert s1.table == Reap(s, e).table;
    RollingTerminate(s1, d, e);
    BlockedQuiet(TerminateUndesired(s1, d, e), e);
    assert DesiredIn(hasher, AtRoll(hasher, s, e)) == d;
  }

  lemma FirstHalfPasses(hasher: Hasher, s: State, e: Env)
    requires CanRoll(hasher, s, e)
    ensures var d, s2 := DesiredIn(hasher, s), Rolled(hasher, Reap(ReverifyChecks(s, e), e), e);
            && DesiredIn(hasher, s2) == d && s2.m == s.m && s2.selected == s.selected && ChecksPass(s2.checksOk) && Cleared(d, s2.table)
            && s2.table == RolledTable(s.m, s.selected, d, AtRoll(hasher, s, e).table, e.rollAt)
            && s2.ports == s.ports
  {
    var d, s2 := DesiredIn(hasher, s), AtRoll(hasher, s, e);
    ToRoll(hasher, s, e);
    RollingRoll(s2, d, d, e);
    NothingMoves(s, d, e, s2);
  }

  lemma NothingMoves(s: State, d: Desired, e: Env, s2: State)
    requires s2.table == TerminateUndesired(Reap(s, e), d, e).table && s2.m == s.m
    requires s.m.defaults.maxSurge > 0 ==> AllCovered(d, s.table)
    ensures RollStale(s2, d, e).ports == s2.ports
  {
    if s.m.defaults.maxSurge > 0 {
      forall i | 0 <= i < |s2.table| && Stale(d, s2.table[i]) ensures HasHash(s2.table, s2.table[i].Slot(), d[s2.table[i].Slot()].hash) {
        CoveredAtRoll(s, d, e, i);
      }
    }
    CoveredMovesNothing(s2, d, e);
  }

  lemma TickEnds(hasher: Hasher, s: State, e: Env, s2: State)
    requires s2 == Rolled(hasher, Reap(ReverifyChecks(s, e), e), e)
    ensures var d := DesiredIn(hasher, s2);
            Tick(hasher, s, e).table == Probe(RetireStaleSurplus(SpawnReady(hasher, AddMissing(s2, d, e), e), d, e), e).table
  {
  }

  /** The second half of the tick, from the table the roll leaves. */
  lemma SecondHalfPasses(hasher: Hasher, s: State, e: Env, x: Passage) returns (y: Passage)
    requires Helpful(e) && ChecksPass(s.checksOk) && Cleared(DesiredIn(hasher, s), s.table) && x.rolled == s.table
    ensures var d := DesiredIn(hasher, s);
            && y == x.(filled := AddMissing(s, d, e), spawned := y.spawned, end := y.end)
            && y.end == Probe(RetireStaleSurplus(SpawnReady(hasher, AddMissing(s, d, e), e), d, e), e).table
            && Finishes(s, d, e, y)
  {
    var d := DesiredIn(hasher, s);
    RollingAdd(s, d, e);
    AddCovers(s, d, e);
    var s3 := AddMissing(s, d, e);
    assert DesiredIn(hasher, s3) == d;
    y := x.(filled := s3, spawned := SpawnReady(hasher, s3, e).table,
            end := Probe(RetireStaleSurplus(SpawnReady(hasher, s3, e), d, e), e).table);
    forall p: nat | p < |y.end| ensures Ends(s, d, e, y, p) {
      TableAdvances(hasher, s3, d, e, p);
    }
  }

  lemma TickPasses(hasher: Hasher, s: State, e: Env) returns (x: Passage)
    requires CanRoll(hasher, s, e)
    ensures Passes(s, DesiredIn(hasher, s), e, x) && x.end == Tick(hasher, s, e).table
  {
    var d := DesiredIn(hasher, s);
    ToRoll(hasher, s, e);
    FirstHalfPasses(hasher, s, e);
    var s2 := Rolled(hasher, Reap(ReverifyChecks(s, e), e), e);
    x := SecondHalfPasses(hasher, s2, e, Passage(Reap(s, e).table, AtRoll(hasher, s, e).table, s2.table, s2, [], []));
    TickEnds(hasher, s, e, s2);
    FilledFrom(s, s2, d, e, x);
  }

  lemma FilledFrom(s: State, s2: State, d: Desired, e: Env, x: Passage)
    requires s2.m == s.m && Finishes(s2, d, e, x)
    ensures Finishes(s, d, e, x)
  {
    forall p: nat | p < |x.end| ensures Ends(s, d, e, x, p) {
      assert Ends(s2, d, e, x, p);
    }
  }

  // ----- what a tick leaves -----

  /** Every stopped process has exited by this tick. */
  ghost predicate Prompt(s: State, e: Env) {
    && Steadfast(s, e)
    && forall i :: 0 <= i < |s.table| && s.table[i].Running() && s.table[i].phase == Terminating ==>
         e.wait(s.table[i].handle.value.pid).Exited?
  }

  ghost predicate HasStaying(d: Desired, t: Table, k: Key) {
    exists i :: 0 <= i < |t| && t[i].Slot() == k && Stays(d, t[i])
  }

  /** What goes down in a desired slot is stale. */
  ghost predicate DownsStale(d: Desired, t: Table) {
    forall i :: 0 <= i < |t| && GoingDown(t[i]) && t[i].Slot() in d ==> Stale(d, t[i])
  }

  /** Every desired slot has a record that stays, and whatever is not on its way out is desired. */
  ghost predicate Underway(d: Desired, t: Table) {
    && Rolling(d, t) && DownsStale(d, t)
    && (forall k :: k in d ==> HasStaying(d, t, k))
    && (forall i :: 0 <= i < |t| ==> Outgoing(t[i]) || t[i].Slot() in d)
  }

  /** Of each app at most one desired slot has something going down. */
  ghost predicate OneDownEach(d: Desired, t: Table) {
    forall i: nat, j: nat :: OneDown(d, t, i, j)
  }

  ghost predicate OneDown(d: Desired, t: Table, i: nat, j: nat) {
    (i < |t| && j < |t| && GoingDown(t[i]) && GoingDown(t[j]) && t[i].Slot() in d && t[j].Slot() in d && t[i].app == t[j].app)
    ==> t[i].Slot() == t[j].Slot()
  }

  lemma EndRolling(s: State, d: Desired, e: Env, x: Passage)
    requires Finishes(s, d, e, x)
    ensures Rolling(d, x.end)
  {
    var t := x.filled.table;
    forall p: nat | p < |x.end| ensures Sound(d, x.end[p]) && (Stays(d, x.end[p]) ==> Stays(d, t[p]) && x.end[p].Slot() == t[p].Slot()) {
      EndSound(s, d, e, x, p);
    }
    forall i: nat, j: nat ensures StaysDiffer(d, x.end, i, j) {
      assert StaysDiffer(d, t, i, j);
    }
  }

  lemma EndSound(s: State, d: Desired, e: Env, x: Passage, p: nat)
    requires Finishes(s, d, e, x) && p < |x.end|
    ensures Sound(d, x.end[p]) && SameSpec(x.filled.table[p], x.end[p])
    ensures x.end[p].Slot() in d || (Outgoing(x.end[p]) && x.end[p] == x.filled.table[p])
    ensures Stays(d, x.end[p]) ==> Stays(d, x.filled.table[p])
    ensures Alive(x.end[p]) ==> Alive(x.filled.table[p]) || Waiting(d, x.filled.table[p])
    ensures GoingDown(x.end[p]) ==> GoingDown(x.filled.table[p]) || (Alive(x.filled.table[p]) && Stale(d, x.filled.table[p]))
    ensures Waiting(d, x.end[p]) ==> Waiting(d, x.filled.table[p]) && x.end[p] == x.filled.table[p]
  {
    assert Ends(s, d, e, x, p) && Sound(d, x.filled.table[p]);
  }

  /** How a record reached the place the roll left it at. */
  lemma FromReap(s: State, d: Desired, e: Env, x: Passage, p: nat) returns (i: nat, r: Instance)
    requires Passes(s, d, e, x) && p < |x.rolled|
    ensures |x.cleared| == |x.rolled|
    ensures i < |s.table| && s.table[i].Slot() !in DroppedSlots(s.table, e.wait) && SameSpec(s.table[i], x.rolled[p])
    ensures r == ReapOne(s.table[i], s.m.defaults, e.wait, e.reapAt)
    ensures x.filled.table[p] == x.rolled[p]
    ensures x.rolled[p] == x.cleared[p] || (x.rolled[p] == BeginStop(x.cleared[p], false, e.rollAt) && Alive(x.cleared[p]) && Stale(d, x.cleared[p]))
    ensures if r.Slot() in d then x.cleared[p] == r else r.Running()
  {
    var q := TerminateFrom(Reap(s, e), d, e, p);
    r := Reap(s, e).table[q];
    i := ReapFrom(s, e, q);
    VictimIsAlive(s.m, d, x.cleared, x.cleared[p].app);
    ReapKeepsSpec(s.table[i], s.m.defaults, e);
    if r.Slot() !in d {
      assert Outgoing(x.cleared[p]);
    }
  }

  lemma ReapKeepsSpec(r: Instance, m: Defaults, e: Env)
    ensures SameSpec(r, ReapOne(r, m, e.wait, e.reapAt))
    ensures GoingDown(ReapOne(r, m, e.wait, e.reapAt)) ==> GoingDown(r) && !e.wait(r.handle.value.pid).Exited?
    ensures Alive(ReapOne(r, m, e.wait, e.reapAt)) ==> ReapOne(r, m, e.wait, e.reapAt) == r
    ensures ReapOne(r, m, e.wait, e.reapAt).Running() ==> r.Running() && !e.wait(r.handle.value.pid).Exited?
  {
  }

  /** What goes down in a desired slot is the tick's victim, is retired, or was going down before. */
  lemma DownInSlot(s: State, d: Desired, e: Env, x: Passage, p: nat)
    requires Passes(s, d, e, x) && p < |x.end| && GoingDown(x.end[p]) && x.end[p].Slot() in d
    ensures (Alive(x.filled.table[p]) && Stale(d, x.filled.table[p]) && s.m.defaults.maxSurge > 0)
            || (p < |x.rolled| && x.filled.table[p] == x.rolled[p] == x.end[p]
                && ((Alive(x.cleared[p]) && Stale(d, x.cleared[p])
                     && RollVictim(s.m, d, x.cleared, x.cleared[p].app) == Some(p) && x.cleared[p].app == x.end[p].app)
                    || GoingDown(x.cleared[p])))
    ensures p < |x.rolled|
  {
    EndSound(s, d, e, x, p);
    assert Ends(s, d, e, x, p);
    if GoingDown(x.filled.table[p]) {
      var i, r := FromReap(s, d, e, x, p);
    }
  }

  /** A prompt tick has nothing left on its way out when the roll looks, but what it has just stopped. */
  lemma PromptReap(s: State, e: Env, i: nat)
    requires Prompt(s, e) && i < |s.table| && s.table[i].Slot() !in DroppedSlots(s.table, e.wait)
    ensures var r := ReapOne(s.table[i], s.m.defaults, e.wait, e.reapAt); !Outgoing(r) && (r.Running() ==> r == s.table[i])
  {
    DroppedIff(s.table, e.wait, s.table[i].Slot());
  }

  /** What goes down while the table is filled up is stale, if nothing else went down before. */
  lemma FilledDownsStale(s: State, d: Desired, e: Env, x: Passage)
    requires Passes(s, d, e, x) && (Prompt(s, e) || DownsStale(d, s.table))
    ensures DownsStale(d, x.filled.table)
  {
    forall p: nat | p < |x.filled.table| && GoingDown(x.filled.table[p]) && x.filled.table[p].Slot() in d ensures Stale(d, x.filled.table[p]) {
      assert p < |x.rolled|;
      var i, r := FromReap(s, d, e, x, p);
      ReapKeepsSpec(s.table[i], s.m.defaults, e);
      if Prompt(s, e) {
        PromptReap(s, e, i);
      }
    }
  }

  lemma EndDownsStale(s: State, d: Desired, e: Env, x: Passage, p: nat)
    requires Finishes(s, d, e, x) && DownsStale(d, x.filled.table)
    requires p < |x.end| && GoingDown(x.end[p]) && x.end[p].Slot() in d
    ensures Stale(d, x.end[p])
  {
    EndSound(s, d, e, x, p);
  }

  lemma EndHasStaying(s: State, d: Desired, e: Env, x: Passage, k: Key)
    requires Finishes(s, d, e, x) && DownsStale(d, x.filled.table) && k in d
    ensures HasStaying(d, x.end, k)
  {
    var t := x.filled.table;
    var i: nat :| i < |t| && t[i].Slot() == k && t[i].specHash == d[k].hash;
    EndSound(s, d, e, x, i);
    if GoingDown(x.end[i]) {
      EndDownsStale(s, d, e, x, i);
    }
    assert Stays(d, x.end[i]);
  }

  /** The second half of a tick leaves the fleet underway. */
  lemma FinishUnderway(s: State, d: Desired, e: Env, x: Passage)
    requires Finishes(s, d, e, x) && DownsStale(d, x.filled.table)
    ensures Underway(d, x.end)
  {
    EndRolling(s, d, e, x);
    forall k | k in d ensures HasStaying(d, x.end, k) {
      EndHasStaying(s, d, e, x, k);
    }
    forall p: nat | p < |x.end| ensures Outgoing(x.end[p]) || x.end[p].Slot() in d {
      EndSound(s, d, e, x, p);
    }
    forall p: nat | p < |x.end| && GoingDown(x.end[p]) && x.end[p].Slot() in d ensures Stale(d, x.end[p]) {
      EndDownsStale(s, d, e, x, p);
    }
  }

  /** Any tick leaves the fleet underway. */
  lemma EndUnderway(s: State, d: Desired, e: Env, x: Passage)
    requires Passes(s, d, e, x) && (Prompt(s, e) || DownsStale(d, s.table))
    ensures Underway(d, x.end)
  {
    FilledDownsStale(s, d, e, x);
    FinishUnderway(s, d, e, x);
  }

  /** Without surge, and with prompt exits, at most one slot of each app is going down. */
  lemma EndOneDown(s: State, d: Desired, e: Env, x: Passage)
    requires Passes(s, d, e, x) && Prompt(s, e) && s.m.defaults.maxSurge == 0
    ensures OneDownEach(d, x.end)
  {
    forall i: nat, j: nat ensures OneDown(d, x.end, i, j) {
      if i < |x.end| && j < |x.end| && GoingDown(x.end[i]) && GoingDown(x.end[j]) && x.end[i].Slot() in d && x.end[j].Slot() in d
         && x.end[i].app == x.end[j].app {
        PromptDown(s, d, e, x, i);
        PromptDown(s, d, e, x, j);
      }
    }
  }

  lemma PromptDown(s: State, d: Desired, e: Env, x: Passage, p: nat)
    requires Passes(s, d, e, x) && Prompt(s, e) && s.m.defaults.maxSurge == 0
    requires p < |x.end| && GoingDown(x.end[p]) && x.end[p].Slot() in d
    ensures RollVictim(s.m, d, x.cleared, x.end[p].app) == Some(p)
  {
    DownInSlot(s, d, e, x, p);
    assert Ends(s, d, e, x, p);
    var i, r := FromReap(s, d, e, x, p);
    PromptReap(s, e, i);
  }

  // ----- how many stale instances are left -----

  ghost predicate StaleAlive(d: Desired, app: string, r: Instance) {
    r.app == app && Alive(r) && Stale(d, r)
  }

  ghost function StaleCount(d: Desired, t: Table, app: string): nat {
    if t == [] then 0 else StaleCount(d, t[..|t| - 1], app) + if StaleAlive(d, app, t[|t| - 1]) then 1 else 0
  }

  lemma StaleOneMore(d: Desired, t: Table, r: Instance, app: string)
    ensures StaleCount(d, t + [r], app) == StaleCount(d, t, app) + if StaleAlive(d, app, r) then 1 else 0
  {
    assert (t + [r])[..|t + [r]| - 1] == t;
  }

  lemma {:induction false} StaleRetained(d: Desired, t: Table, gone: set<Key>, app: string)
    ensures StaleCount(d, Retain(t, gone), app) <= StaleCount(d, t, app)
  {
    if t != [] {
      StaleRetained(d, t[..|t| - 1], gone, app);
      StaleOneMore(d, Retain(t[..|t| - 1], gone), t[|t| - 1], app);
    }
  }

  /** If only stale instances are stale afterwards, the count does not grow; one that was and is not lowers it. */
  lemma {:induction false} StaleShrinks(d: Desired, t: Table, u: Table, app: string, less: Option<nat>)
    requires |t| == |u| && forall i :: 0 <= i < |t| && StaleAlive(d, app, u[i]) ==> StaleAlive(d, app, t[i])
    requires less.Some? ==> less.value < |t| && StaleAlive(d, app, t[less.value]) && !StaleAlive(d, app, u[less.value])
    ensures StaleCount(d, u, app) + (if less.Some? then 1 else 0) <= StaleCount(d, t, app)
  {
    if t != [] {
      var n := |t| - 1;
      StaleShrinks(d, t[..n], u[..n], app, if less == Some(n) then None else less);
    }
  }

  lemma {:induction false} StaleGrownBy(d: Desired, t: Table, u: Table, app: string)
    requires t <= u && forall p :: |t| <= p < |u| ==> !StaleAlive(d, app, u[p])
    ensures StaleCount(d, u, app) == StaleCount(d, t, app)
  {
    if |u| > |t| {
      StaleGrownBy(d, t, u[..|u| - 1], app);
    } else {
      assert t == u;
    }
  }

  lemma {:induction false} StaleExists(d: Desired, t: Table, app: string)
    ensures StaleCount(d, t, app) > 0 <==> exists i :: 0 <= i < |t| && StaleAlive(d, app, t[i])
  {
    if t != [] {
      var front := t[..|t| - 1];
      StaleExists(d, front, app);
      if i :| 0 <= i < |front| && StaleAlive(d, app, front[i]) {
        assert StaleAlive(d, app, t[i]);
      }
      if i :| 0 <= i < |t| && StaleAlive(d, app, t[i]) {
        assert i < |front| ==> StaleAlive(d, app, front[i]);
      }
    }
  }

  lemma StaleReaps(s: State, d: Desired, e: Env, app: string)
    ensures StaleCount(d, Reap(s, e).table, app) <= StaleCount(d, s.table, app)
  {
    var t := ReapedTable(s.table, s.m.defaults, e.wait, e.reapAt);
    forall i | 0 <= i < |t| && StaleAlive(d, app, t[i]) ensures StaleAlive(d, app, s.table[i]) {
      ReapKeepsSpec(s.table[i], s.m.defaults, e);
    }
    StaleShrinks(d, s.table, t, app, None);
    StaleRetained(d, t, DroppedSlots(s.table, e.wait), app);
  }

  lemma StaleClears(s: State, d: Desired, e: Env, x: Passage, app: string)
    requires Passes(s, d, e, x)
    ensures StaleCount(d, x.cleared, app) <= StaleCount(d, s.table, app)
  {
    var t := StoppedUndesired(x.reaped, d, e.terminateAt);
    StaleReaps(s, d, e, app);
    StaleShrinks(d, x.reaped, t, app, None);
    StaleRetained(d, t, IdleUndesired(x.reaped, d), app);
  }

  lemma RollLowersStale(m: Manifest, selected: set<string>, d: Desired, t: Table, now: nat, app: string)
    requires Rolling(d, t)
    ensures StaleCount(d, RolledTable(m, selected, d, t, now), app) + (if app in selected && RollVictim(m, d, t, app).Some? then 1 else 0)
         <= StaleCount(d, t, app)
  {
    VictimIsAlive(m, d, t, app);
    StaleShrinks(d, t, RolledTable(m, selected, d, t, now), app, if app in selected then RollVictim(m, d, t, app) else None);
  }

  lemma StaleRolls(s: State, d: Desired, e: Env, x: Passage, app: string)
    requires Passes(s, d, e, x)
    ensures StaleCount(d, x.rolled, app) + (if app in s.selected && RollVictim(s.m, d, x.cleared, app).Some? then 1 else 0)
         <= StaleCount(d, x.cleared, app)
  {
    RollLowersStale(s.m, s.selected, d, x.cleared, e.rollAt, app);
  }

  /** From the roll to the end of the tick no instance becomes stale. */
  lemma StaleAfterRoll(s: State, d: Desired, e: Env, x: Passage, app: string)
    requires Finishes(s, d, e, x)
    ensures StaleCount(d, x.end, app) <= StaleCount(d, x.filled.table, app) == StaleCount(d, x.rolled, app)
  {
    var t := x.filled.table;
    StaleGrownBy(d, x.rolled, t, app);
    forall p: nat | p < |t| && StaleAlive(d, app, x.end[p]) ensures StaleAlive(d, app, t[p]) {
      EndSound(s, d, e, x, p);
    }
    StaleShrinks(d, t, x.end, app, None);
  }

  /** A tick adds no stale instance, and removes the victim. */
  lemma StaleFalls(s: State, d: Desired, e: Env, x: Passage, app: string)
    requires Passes(s, d, e, x)
    ensures StaleCount(d, x.end, app) + (if app in s.selected && RollVictim(s.m, d, x.cleared, app).Some? then 1 else 0)
         <= StaleCount(d, x.cleared, app) <= StaleCount(d, s.table, app)
    ensures StaleCount(d, x.end, app) <= StaleCount(d, x.filled.table, app) <= StaleCount(d, s.table, app)
  {
    StaleAfterRoll(s, d, e, x, app);
    StaleRolls(s, d, e, x, app);
    StaleClears(s, d, e, x, app);
  }

  // ----- progress of one app -----

  /** Whatever stays of the app is up. */
  ghost predicate Warm(d: Desired, t: Table, app: string) {
    forall i :: 0 <= i < |t| && t[i].app == app && Stays(d, t[i]) ==> Up(t[i])
  }

  /** Every record of the app is up and current. */
  ghost predicate Renewed(d: Desired, t: Table, app: string) {
    forall i :: 0 <= i < |t| && t[i].app == app ==> Up(t[i]) && UpToDate(d, t[i])
  }

  /** Nothing keeps the record from coming up in this tick: no back-off, no restart, no probe to wait for. */
  ghost predicate Ripe(m: Manifest, d: Desired, r: Instance, e: Env) {
    Rested(r, e.spawnAt) && !Returning(d, r) && (Alive(r) ==> Ripening(m, r, e))
  }

  ghost predicate RipeFor(s: State, d: Desired, e: Env, app: string) {
    forall i :: 0 <= i < |s.table| && s.table[i].app == app && Stays(d, s.table[i]) && !Up(s.table[i]) ==> Ripe(s.m, d, s.table[i], e)
  }

  lemma WarmIsRipe(s: State, d: Desired, e: Env, app: string)
    requires Warm(d, s.table, app)
    ensures RipeFor(s, d, e, app)
  {
  }

  /** A record that stays comes from one that did, unchanged unless it was returning. */
  lemma StayingFrom(s: State, d: Desired, e: Env, x: Passage, p: nat) returns (i: nat)
    requires Passes(s, d, e, x) && Steadfast(s, e) && Rolling(d, s.table) && p < |x.rolled| && Stays(d, x.filled.table[p])
    ensures i < |s.table| && Stays(d, s.table[i]) && s.table[i].app == x.filled.table[p].app
    ensures !Returning(d, s.table[i]) ==> x.filled.table[p] == s.table[i]
  {
    var r;
    i, r := FromReap(s, d, e, x, p);
    DroppedIff(s.table, e.wait, s.table[i].Slot());
    ReapedSound(d, s.table[i], s.m.defaults, e);
  }

  lemma OpenWarms(s: State, d: Desired, e: Env, x: Passage, app: string)
    requires Passes(s, d, e, x) && Steadfast(s, e) && Rolling(d, s.table)
    requires Open(x.filled, app) && RipeFor(s, d, e, app)
    ensures Warm(d, x.end, app)
  {
    forall p: nat | p < |x.end| && x.end[p].app == app && Stays(d, x.end[p]) ensures Up(x.end[p]) {
      OpenWarmsAt(s, d, e, x, app, p);
    }
  }

  lemma OpenWarmsAt(s: State, d: Desired, e: Env, x: Passage, app: string, p: nat)
    requires Passes(s, d, e, x) && Steadfast(s, e) && Rolling(d, s.table)
    requires Open(x.filled, app) && RipeFor(s, d, e, app)
    requires p < |x.end| && x.end[p].app == app && Stays(d, x.end[p])
    ensures Up(x.end[p])
  {
    EndSound(s, d, e, x, p);
    assert Ends(s, d, e, x, p) && Sound(d, x.filled.table[p]);
    if p < |x.rolled| {
      var i := StayingFrom(s, d, e, x, p);
    }
  }

  ghost predicate CurrentUp(d: Desired, app: string, r: Instance) {
    r.app == app && Up(r) && UpToDate(d, r)
  }

  /** The slots of an app with a current instance that is up. */
  ghost function CurrentSlots(d: Desired, t: Table, app: string): set<Key> {
    if t == [] then {}
    else CurrentSlots(d, t[..|t| - 1], app) + if CurrentUp(d, app, t[|t| - 1]) then {t[|t| - 1].Slot()} else {}
  }

  lemma {:induction false} CurrentSlotAt(d: Desired, t: Table, app: string, i: nat)
    requires i < |t| && CurrentUp(d, app, t[i])
    ensures t[i].Slot() in CurrentSlots(d, t, app)
    decreases |t|
  {
    if i < |t| - 1 {
      CurrentSlotAt(d, t[..|t| - 1], app, i);
    }
  }

  lemma UnionBound<T(!new)>(a: set<T>, b: set<T>)
    ensures |a + b| <= |a| + |b|
  {
  }

  /** Counting Ready instances: one for every slot with a current one, and all stale ones besides. */
  lemma {:induction false} ReadyAtLeast(d: Desired, t: Table, app: string)
    requires forall i :: 0 <= i < |t| && t[i].phase == Ready ==> t[i].Running()
    requires forall i :: 0 <= i < |t| && StaleAlive(d, app, t[i]) ==> Up(t[i])
    ensures ReadyCount(t, app) >= |CurrentSlots(d, t, app)| + StaleCount(d, t, app)
  {
    if t != [] {
      var front, r := t[..|t| - 1], t[|t| - 1];
      ReadyAtLeast(d, front, app);
      UnionBound(CurrentSlots(d, front, app), if CurrentUp(d, app, r) then {r.Slot()} else {});
    }
  }

  /** A current instance that is up, outside the slots being dropped, is still there when the gates are judged. */
  lemma UpToGate(s: State, d: Desired, e: Env, x: Passage, i: nat) returns (p: nat)
    requires Passes(s, d, e, x) && i < |s.table| && Up(s.table[i]) && UpToDate(d, s.table[i])
    requires !e.wait(s.table[i].handle.value.pid).Exited?
    requires s.table[i].Slot() !in DroppedSlots(s.table, e.wait)
    ensures p < |x.rolled| && |x.cleared| == |x.rolled| && x.cleared[p] == x.rolled[p] == x.filled.table[p] == s.table[i]
  {
    var q := ReapAt(s, e, i);
    var t := TerminateAt(Reap(s, e), d, e, q.value);
    p := t.value;
    var j, r := FromReap(s, d, e, x, p);
  }

  /** A warm app has a current instance up in every slot but those being dropped. */
  lemma WarmSlot(s: State, d: Desired, e: Env, x: Passage, k: Key) returns (p: nat)
    requires Passes(s, d, e, x) && Steadfast(s, e) && Underway(d, s.table) && Warm(d, s.table, k.app)
    requires k in d && k !in DroppedSlots(s.table, e.wait)
    ensures p < |x.rolled| && |x.cleared| == |x.rolled| && x.cleared[p] == x.rolled[p] == x.filled.table[p]
    ensures x.filled.table[p].Slot() == k && Up(x.filled.table[p]) && UpToDate(d, x.filled.table[p])
  {
    assert HasStaying(d, s.table, k);
    var i: nat :| i < |s.table| && s.table[i].Slot() == k && Stays(d, s.table[i]);
    p := UpToGate(s, d, e, x, i);
  }

  lemma WarmSlots(s: State, d: Desired, e: Env, x: Passage, app: string)
    requires Passes(s, d, e, x) && Steadfast(s, e) && Underway(d, s.table) && Warm(d, s.table, app)
    ensures SlotsOf(d, app) - DroppedSlots(s.table, e.wait) <= CurrentSlots(d, x.cleared, app)
  {
    forall k | k in SlotsOf(d, app) - DroppedSlots(s.table, e.wait) ensures k in CurrentSlots(d, x.cleared, app) {
      var p := WarmSlot(s, d, e, x, k);
      CurrentSlotAt(d, x.cleared, app, p);
    }
  }

  /** At most one of the app's slots is dropped in a tick. */
  lemma OneSlotDropped(d: Desired, t: Table, e: Env, app: string)
    requires Rolling(d, t) && OneDownEach(d, t)
    ensures |SlotsOf(d, app) * DroppedSlots(t, e.wait)| <= 1
  {
    var both := SlotsOf(d, app) * DroppedSlots(t, e.wait);
    if both != {} {
      var k :| k in both;
      forall l | l in both ensures l == k {
        var i: nat :| i < |t| && ExitDrops(t[i], e.wait) && t[i].Slot() == k;
        var j: nat :| j < |t| && ExitDrops(t[j], e.wait) && t[j].Slot() == l;
        assert OneDown(d, t, i, j);
      }
      assert both == {k};
    }
  }

  lemma AllBut<T(!new)>(slots: set<T>, down: set<T>, up: set<T>)
    requires slots - down <= up
    ensures |slots| <= |up| + |slots * down|
  {
    assert slots == (slots - down) + (slots * down);
    assert up == (slots - down) + (up - (slots - down));
    assert |up| == |slots - down| + |up - (slots - down)|;
  }

  /** How many Ready instances of a warm app the roll finds, if its stale ones are all Ready. */
  lemma WarmCount(s: State, d: Desired, e: Env, x: Passage, app: string)
    requires Passes(s, d, e, x) && Steadfast(s, e) && Underway(d, s.table) && Warm(d, s.table, app)
    requires FirstStaleNotReady(d, x.cleared, app).None?
    ensures ReadyCount(x.cleared, app) + |SlotsOf(d, app) * DroppedSlots(s.table, e.wait)|
         >= |SlotsOf(d, app)| + StaleCount(d, x.cleared, app)
  {
    WarmSlots(s, d, e, x, app);
    AllBut(SlotsOf(d, app), DroppedSlots(s.table, e.wait), CurrentSlots(d, x.cleared, app));
    StaleIsReady(d, x.cleared, app);
    ReadyAtLeast(d, x.cleared, app);
  }

  lemma StaleIsReady(d: Desired, t: Table, app: string)
    requires Cleared(d, t) && FirstStaleNotReady(d, t, app).None?
    ensures forall i :: 0 <= i < |t| && t[i].phase == Ready ==> t[i].Running()
    ensures forall i :: 0 <= i < |t| && StaleAlive(d, app, t[i]) ==> Up(t[i])
  {
    forall i | 0 <= i < |t| && StaleAlive(d, app, t[i]) ensures Up(t[i]) {
      assert !StaleNotReady(d, app, t[i]);
    }
    forall i | 0 <= i < |t| && t[i].phase == Ready ensures t[i].Running() {
      assert Sound(d, t[i]) && (t[i].Slot() !in d ==> Outgoing(t[i]));
    }
  }

  /** With budget left and a stale instance, the roll has a victim. */
  lemma RollFinds(m: Manifest, d: Desired, t: Table, app: string)
    requires m.defaults.maxSurge == 0 && StaleCount(d, t, app) > 0
    requires FirstStaleNotReady(d, t, app).None? ==> ReadyCount(t, app) >= Replicas(m, app)
    ensures RollVictim(m, d, t, app).Some?
  {
    StaleExists(d, t, app);
    var i :| 0 <= i < |t| && StaleAlive(d, app, t[i]);
    assert StaleReady(d, app, t[i]) || StaleNotReady(d, app, t[i]);
    assert FirstStaleReady(d, t, app).Some? || FirstStaleNotReady(d, t, app).Some?;
  }

  /** Of a warm app with stale instances left, a tick that drops at most one of its slots stops one or loses one. */
  lemma WarmFallsBy(s: State, d: Desired, e: Env, x: Passage, app: string)
    requires Passes(s, d, e, x) && Steadfast(s, e) && Underway(d, s.table) && Warm(d, s.table, app)
    requires app in s.selected && s.m.defaults.maxSurge == 0 && |SlotsOf(d, app)| == Replicas(s.m, app)
    requires |SlotsOf(d, app) * DroppedSlots(s.table, e.wait)| <= 1 && StaleCount(d, s.table, app) > 0
    ensures StaleCount(d, x.end, app) < StaleCount(d, s.table, app)
  {
    StaleFalls(s, d, e, x, app);
    if StaleCount(d, x.cleared, app) > 0 {
      if FirstStaleNotReady(d, x.cleared, app).None? {
        WarmCount(s, d, e, x, app);
      }
      RollFinds(s.m, d, x.cleared, app);
    }
  }

  /** So while at most one slot of the app is going down, every tick lowers the count. */
  lemma WarmFalls(s: State, d: Desired, e: Env, x: Passage, app: string)
    requires Passes(s, d, e, x) && Steadfast(s, e) && Underway(d, s.table) && OneDownEach(d, s.table) && Warm(d, s.table, app)
    requires app in s.selected && s.m.defaults.maxSurge == 0 && |SlotsOf(d, app)| == Replicas(s.m, app)
    requires StaleCount(d, s.table, app) > 0
    ensures StaleCount(d, x.end, app) < StaleCount(d, s.table, app)
  {
    OneSlotDropped(d, s.table, e, app);
    WarmFallsBy(s, d, e, x, app);
  }

  /** With surge, a warm app has all its stale instances stopped, or lost with their slots, in one tick. */
  lemma WarmRetires(s: State, d: Desired, e: Env, x: Passage, app: string)
    requires Passes(s, d, e, x) && Steadfast(s, e) && Underway(d, s.table) && Warm(d, s.table, app)
    requires s.m.defaults.maxSurge > 0
    ensures StaleCount(d, x.end, app) == 0
  {
    StaleExists(d, x.end, app);
    if p: nat :| p < |x.end| && StaleAlive(d, app, x.end[p]) {
      StaleHasReplacement(s, d, e, x, p);
    }
  }

  lemma StaleHasReplacement(s: State, d: Desired, e: Env, x: Passage, p: nat)
    requires Passes(s, d, e, x) && Steadfast(s, e) && Underway(d, s.table) && p < |x.end| && Warm(d, s.table, x.end[p].app)
    requires s.m.defaults.maxSurge > 0
    ensures !StaleAlive(d, x.end[p].app, x.end[p])
  {
    EndSound(s, d, e, x, p);
    assert Ends(s, d, e, x, p);
    if StaleAlive(d, x.end[p].app, x.end[p]) {
      assert p < |x.rolled|;
      var i, r := FromReap(s, d, e, x, p);
      var q := WarmSlot(s, d, e, x, x.end[p].Slot());
      assert x.spawned[q] == x.filled.table[q];
      assert Stages.Replaced(d, x.spawned, x.end[p].Slot());
      assert Retires(d, x.spawned, x.filled.table[p]);
    }
  }

  // ----- the end of the roll -----

  /** Once a fleet is underway nothing outside its slots outlives a prompt tick. */
  lemma UndesiredWasGone(s: State, d: Desired, e: Env, x: Passage, p: nat)
    requires Passes(s, d, e, x) && Prompt(s, e) && Underway(d, s.table) && p < |x.end|
    ensures x.end[p].Slot() in d
  {
    EndSound(s, d, e, x, p);
    if p < |x.rolled| {
      var i, r := FromReap(s, d, e, x, p);
      PromptReap(s, e, i);
    }
  }

  lemma NoneStaleLeft(s: State, d: Desired, e: Env, x: Passage, app: string, p: nat)
    requires Passes(s, d, e, x) && Prompt(s, e) && Underway(d, s.table) && Warm(d, x.end, app) && StaleCount(d, s.table, app) == 0
    requires p < |x.end| && x.end[p].app == app
    ensures Up(x.end[p]) && UpToDate(d, x.end[p])
  {
    EndUnderway(s, d, e, x);
    UndesiredWasGone(s, d, e, x, p);
    StaleFalls(s, d, e, x, app);
    StaleExists(d, x.end, app);
    assert Sound(d, x.end[p]) && !StaleAlive(d, app, x.end[p]);
    if GoingDown(x.end[p]) {
      DownNeedsStale(s, d, e, x, p);
    }
  }

  lemma DownNeedsStale(s: State, d: Desired, e: Env, x: Passage, p: nat)
    requires Passes(s, d, e, x) && Prompt(s, e) && p < |x.end| && GoingDown(x.end[p]) && x.end[p].Slot() in d
    ensures StaleCount(d, s.table, x.end[p].app) > 0
  {
    var app := x.end[p].app;
    DownInSlot(s, d, e, x, p);
    EndSound(s, d, e, x, p);
    StaleFalls(s, d, e, x, app);
    StaleExists(d, x.cleared, app);
    StaleExists(d, x.filled.table, app);
    var i, r := FromReap(s, d, e, x, p);
    PromptReap(s, e, i);
    if Alive(x.filled.table[p]) {
      assert StaleAlive(d, app, x.filled.table[p]);
    } else {
      assert StaleAlive(d, app, x.cleared[p]);
    }
  }

  /** A warm app without stale instances is completely replaced one prompt tick later. */
  lemma LastTick(s: State, d: Desired, e: Env, x: Passage, app: string)
    requires Passes(s, d, e, x) && Prompt(s, e) && Underway(d, s.table) && Warm(d, x.end, app) && StaleCount(d, s.table, app) == 0
    ensures Renewed(d, x.end, app)
  {
    forall p: nat | p < |x.end| && x.end[p].app == app ensures Up(x.end[p]) && UpToDate(d, x.end[p]) {
      NoneStaleLeft(s, d, e, x, app, p);
    }
  }

  /** An app that has been renewed holds the gate open for its dependents. */
  lemma RenewedIsReady(s: State, d: Desired, e: Env, x: Passage, app: string)
    requires Passes(s, d, e, x) && Steadfast(s, e) && Underway(d, s.table) && Renewed(d, s.table, app) && Key(app, 0) in d
    ensures app in ReadyApps(x.filled.table)
  {
    DroppedIff(s.table, e.wait, Key(app, 0));
    var p := WarmSlot(s, d, e, x, Key(app, 0));
    assert x.filled.table[p].phase == Ready && x.filled.table[p].app == app;
  }

  // ----- the bound -----

  /** Ticks in which the stale instances of a warm app go, if there are at most `most`: with surge all at once. */
  function Span(m: Manifest, most: nat): nat {
    if m.defaults.maxSurge > 0 then 1 else most
  }

  /** Ripe ticks enough to renew all apps of depth at most `k`. */
  function Enough(k: nat, span: nat): nat {
    if k == 0 then 0 else Enough(k - 1, span) + span + 2
  }

  lemma {:induction false} EnoughIs(k: nat, span: nat)
    ensures Enough(k, span) == k * (span + 2)
  {
    if k > 0 {
      EnoughIs(k - 1, span);
    }
  }

  /** Stale instances left of an app that has been warm for `n` ticks, at most. */
  function Left(m: Manifest, most: nat, n: nat): nat {
    if n == 0 then most else if m.defaults.maxSurge > 0 || n > most then 0 else most - n
  }

  /** How far an app is `since` ripe ticks after its dependencies were renewed. */
  ghost predicate Due(s: State, d: Desired, most: nat, since: int, app: string) {
    && (since > 0 ==> Warm(d, s.table, app) && StaleCount(d, s.table, app) <= Left(s.m, most, since - 1))
    && (since >= Span(s.m, most) + 2 ==> Renewed(d, s.table, app))
  }

  /** How far an app of depth `k` is after `n` ripe ticks. */
  ghost predicate OnSchedule(s: State, d: Desired, most: nat, n: nat, app: string, k: nat) {
    (app in s.selected && k > 0 && DepthAtMost(AppsOf(s), app, k)) ==> Due(s, d, most, n - Enough(k - 1, Span(s.m, most)), app)
  }

  ghost predicate AllOnSchedule(s: State, d: Desired, most: nat, n: nat) {
    && (forall app :: StaleCount(d, s.table, app) <= most)
    && (forall app, k: nat :: OnSchedule(s, d, most, n, app, k))
  }

  /** The state after `n` ripe ticks of the roll. */
  ghost predicate Rollout(hasher: Hasher, s: State, most: nat, n: nat) {
    var d := DesiredIn(hasher, s);
    && WellFormed(s.m) && SoundSelection(s.m, s.selected) && ChecksPass(s.checksOk)
    && Rolling(d, s.table)
    && (n > 0 || s.m.defaults.maxSurge > 0 ==> Underway(d, s.table))
    && (n > 0 && s.m.defaults.maxSurge == 0 ==> OneDownEach(d, s.table))
    && (n > 1 ==> forall i :: 0 <= i < |s.table| ==> s.table[i].Slot() in d)
    && AllOnSchedule(s, d, most, n)
  }

  /** Nothing that stays keeps the roll waiting in this tick. */
  ghost predicate RipeTick(hasher: Hasher, s: State, e: Env) {
    forall app :: RipeFor(s, DesiredIn(hasher, s), e, app)
  }

  lemma RolloutCanRoll(hasher: Hasher, s: State, e: Env, most: nat, n: nat)
    requires Rollout(hasher, s, most, n) && Bearable(s, DesiredIn(hasher, s), e)
    ensures CanRoll(hasher, s, e)
  {
    var d := DesiredIn(hasher, s);
    if s.m.defaults.maxSurge > 0 {
      forall k | k in d ensures HasHash(s.table, k, d[k].hash) {
        assert HasStaying(d, s.table, k);
      }
    }
  }

  lemma FirstSlotDesired(hasher: Hasher, s: State, app: string)
    requires WellFormed(s.m) && app in s.selected && s.m.Has(app)
    ensures Key(app, 0) in DesiredIn(hasher, s)
  {
    FirstSlot(s.m, s.selected, app);
    DesiredSlotsAre(hasher, s.m, s.selected, s.ports);
  }

  lemma DependencyOpens(hasher: Hasher, s: State, e: Env, x: Passage, most: nat, n: nat, dep: string, k: nat)
    requires Rollout(hasher, s, most, n) && Steadfast(s, e) && Passes(s, DesiredIn(hasher, s), e, x)
    requires dep in s.selected && s.m.Has(dep) && k > 0 && DepthAtMost(AppsOf(s), dep, k) && n >= Enough(k, Span(s.m, most))
    ensures dep in ReadyApps(x.filled.table)
  {
    assert OnSchedule(s, DesiredIn(hasher, s), most, n, dep, k);
    FirstSlotDesired(hasher, s, dep);
    RenewedIsReady(s, DesiredIn(hasher, s), e, x, dep);
  }

  lemma DepthOfDependency(m: Manifest, app: string, dep: string, k: nat)
    requires UniqueNames(m) && k > 0 && DepthAtMost(ByName(m.apps), app, k)
    requires m.Has(app) && m.Has(dep) && dep in m.Lookup(app).value.dependsOn
    ensures DepthAtMost(ByName(m.apps), dep, k - 1)
  {
    GraphOfWellFormed(m, app);
    GraphOfWellFormed(m, dep);
  }

  lemma SelectedDependency(m: Manifest, selected: set<string>, app: string, dep: string)
    requires SoundSelection(m, selected) && app in selected && m.Has(app) && dep in m.Lookup(app).value.dependsOn && m.Has(dep)
    ensures dep in selected
  {
    assert DependenciesIn(m, m.Lookup(app).value, selected);
  }

  /** The gate is open once every app dependency is ready and no check has failed. */
  lemma GateFromReady(x: Passage, m: Manifest, app: string)
    requires x.filled.m == m && m.Has(app) && ChecksPass(x.filled.checksOk)
    requires forall dep :: dep in m.Lookup(app).value.dependsOn && m.Has(dep) ==> dep in ReadyApps(x.filled.table)
    ensures Open(x.filled, app)
  {
  }

  /** Once the app's dependencies have had their ticks, its gate is open. */
  lemma GateOpens(hasher: Hasher, s: State, e: Env, x: Passage, most: nat, n: nat, app: string, k: nat)
    requires Rollout(hasher, s, most, n) && Steadfast(s, e) && Passes(s, DesiredIn(hasher, s), e, x)
    requires app in s.selected && k > 0 && DepthAtMost(AppsOf(s), app, k) && n >= Enough(k - 1, Span(s.m, most))
    ensures Open(x.filled, app)
  {
    var m := s.m;
    assert m.Has(app);
    forall dep | dep in m.Lookup(app).value.dependsOn && m.Has(dep) ensures dep in ReadyApps(x.filled.table) {
      SelectedDependency(m, s.selected, app, dep);
      DepthOfDependency(m, app, dep, k);
      DependencyOpens(hasher, s, e, x, most, n, dep, k - 1);
    }
    GateFromReady(x, m, app);
  }

  /** A warm app goes on losing stale instances ... */
  lemma WarmGoesOn(hasher: Hasher, s: State, e: Env, x: Passage, most: nat, n: nat, app: string)
    requires Passes(s, DesiredIn(hasher, s), e, x) && Prompt(s, e) && Underway(DesiredIn(hasher, s), s.table)
    requires s.m.defaults.maxSurge == 0 ==> OneDownEach(DesiredIn(hasher, s), s.table)
    requires app in s.selected && Warm(DesiredIn(hasher, s), s.table, app)
    requires StaleCount(DesiredIn(hasher, s), s.table, app) <= Left(s.m, most, n)
    ensures StaleCount(DesiredIn(hasher, s), x.end, app) <= Left(s.m, most, n + 1)
  {
    var d := DesiredIn(hasher, s);
    if s.m.defaults.maxSurge > 0 {
      WarmRetires(s, d, e, x, app);
    } else if StaleCount(d, s.table, app) > 0 {
      SlotsOfApp(hasher, s, app);
      WarmFalls(s, d, e, x, app);
    } else {
      StaleFalls(s, d, e, x, app);
    }
  }

  /** ... and is renewed the tick after the last. */
  lemma WarmOnSchedule(hasher: Hasher, s: State, e: Env, x: Passage, most: nat, n: nat, app: string)
    requires Passes(s, DesiredIn(hasher, s), e, x) && Prompt(s, e) && Underway(DesiredIn(hasher, s), s.table)
    requires s.m.defaults.maxSurge == 0 ==> OneDownEach(DesiredIn(hasher, s), s.table)
    requires app in s.selected && Warm(DesiredIn(hasher, s), s.table, app) && Warm(DesiredIn(hasher, s), x.end, app)
    requires StaleCount(DesiredIn(hasher, s), s.table, app) <= Left(s.m, most, n)
    ensures StaleCount(DesiredIn(hasher, s), x.end, app) <= Left(s.m, most, n + 1)
    ensures n >= Span(s.m, most) ==> Renewed(DesiredIn(hasher, s), x.end, app)
  {
    WarmGoesOn(hasher, s, e, x, most, n, app);
    if StaleCount(DesiredIn(hasher, s), s.table, app) == 0 {
      LastTick(s, DesiredIn(hasher, s), e, x, app);
    }
  }

  lemma DueAt(s: State, d: Desired, most: nat, n: nat, app: string, k: nat)
    requires AllOnSchedule(s, d, most, n) && app in s.selected && k > 0 && DepthAtMost(AppsOf(s), app, k)
    ensures Due(s, d, most, n - Enough(k - 1, Span(s.m, most)), app) && StaleCount(d, s.table, app) <= most
  {
    assert OnSchedule(s, d, most, n, app, k);
  }

  /** One tick on, for an app whose gate has been open and that was warm or had nothing to wait for. */
  lemma DueNext(hasher: Hasher, s: State, e: Env, x: Passage, s': State, most: nat, since: nat, app: string)
    requires Passes(s, DesiredIn(hasher, s), e, x) && Prompt(s, e) && Rolling(DesiredIn(hasher, s), s.table)
    requires app in s.selected && s'.table == x.end && s'.m == s.m
    requires since > 0 ==> Underway(DesiredIn(hasher, s), s.table)
    requires since > 0 && s.m.defaults.maxSurge == 0 ==> OneDownEach(DesiredIn(hasher, s), s.table)
    requires Due(s, DesiredIn(hasher, s), most, since, app) && StaleCount(DesiredIn(hasher, s), s.table, app) <= most
    requires Open(x.filled, app) && (since > 0 || RipeFor(s, DesiredIn(hasher, s), e, app))
    ensures Due(s', DesiredIn(hasher, s), most, since + 1, app)
  {
    var d := DesiredIn(hasher, s);
    if since > 0 {
      WarmIsRipe(s, d, e, app);
      OpenWarms(s, d, e, x, app);
      WarmOnSchedule(hasher, s, e, x, most, since - 1, app);
    } else {
      OpenWarms(s, d, e, x, app);
      StaleFalls(s, d, e, x, app);
    }
  }

  /** Being ahead of the schedule is being on it. */
  lemma DueEarlier(s: State, d: Desired, most: nat, since: int, app: string)
    requires Due(s, d, most, since + 1, app)
    ensures Due(s, d, most, since, app)
  {
  }

  lemma TickOnSchedule(hasher: Hasher, s: State, e: Env, x: Passage, s': State, most: nat, n: nat, n': nat, app: string, k: nat)
    requires Rollout(hasher, s, most, n) && Prompt(s, e) && Passes(s, DesiredIn(hasher, s), e, x)
    requires s'.table == x.end && s'.m == s.m && s'.selected == s.selected
    requires n' == n || (n' == n + 1 && RipeTick(hasher, s, e))
    ensures OnSchedule(s', DesiredIn(hasher, s), most, n', app, k)
  {
    var d := DesiredIn(hasher, s);
    assert AppsOf(s') == AppsOf(s);
    if app in s.selected && k > 0 && DepthAtMost(AppsOf(s), app, k) {
      var since := n - Enough(k - 1, Span(s.m, most));
      if since > 0 || (since == 0 && n' == n + 1) {
        GateOpens(hasher, s, e, x, most, n, app, k);
        DueAt(s, d, most, n, app, k);
        DueNext(hasher, s, e, x, s', most, since, app);
        DueEarlier(s', d, most, since, app);
      }
    }
  }

  lemma TickAllOnSchedule(hasher: Hasher, s: State, e: Env, x: Passage, s': State, most: nat, n: nat, n': nat)
    requires Rollout(hasher, s, most, n) && Prompt(s, e) && Passes(s, DesiredIn(hasher, s), e, x)
    requires s'.table == x.end && s'.m == s.m && s'.selected == s.selected
    requires n' == n || (n' == n + 1 && RipeTick(hasher, s, e))
    ensures AllOnSchedule(s', DesiredIn(hasher, s), most, n')
  {
    var d := DesiredIn(hasher, s);
    forall app ensures StaleCount(d, s'.table, app) <= most {
      StaleFalls(s, d, e, x, app);
    }
    forall app, k: nat ensures OnSchedule(s', d, most, n', app, k) {
      TickOnSchedule(hasher, s, e, x, s', most, n, n', app, k);
    }
  }

  lemma TickWants(hasher: Hasher, s: State, e: Env)
    requires CanRoll(hasher, s, e)
    ensures var s' := Tick(hasher, s, e);
            DesiredIn(hasher, s') == DesiredIn(hasher, s) && s'.ports == s.ports && ChecksPass(s'.checksOk)
  {
    var s1, s2 := TickParts(hasher, s, e);
    FirstHalfPasses(hasher, s, e);
  }

  lemma EndAllDesired(s: State, d: Desired, e: Env, x: Passage)
    requires Passes(s, d, e, x) && Prompt(s, e) && Underway(d, s.table)
    ensures forall i :: 0 <= i < |x.end| ==> x.end[i].Slot() in d
  {
    forall i: nat | i < |x.end| ensures x.end[i].Slot() in d {
      UndesiredWasGone(s, d, e, x, i);
    }
  }

  /** A prompt tick keeps the roll on schedule, and a ripe one moves it on. */
  lemma TickRollsOut(hasher: Hasher, s: State, e: Env, most: nat, n: nat, n': nat)
    requires Rollout(hasher, s, most, n) && Prompt(s, e)
    requires n' == n || (n' == n + 1 && RipeTick(hasher, s, e))
    ensures Rollout(hasher, Tick(hasher, s, e), most, n')
  {
    var s', d := Tick(hasher, s, e), DesiredIn(hasher, s);
    RolloutCanRoll(hasher, s, e, most, n);
    var x := TickPasses(hasher, s, e);
    TickKeepsConfig(hasher, s, e);
    TickWants(hasher, s, e);
    EndUnderway(s, d, e, x);
    if s.m.defaults.maxSurge == 0 {
      EndOneDown(s, d, e, x);
    }
    if n > 0 {
      EndAllDesired(s, d, e, x);
    }
    TickAllOnSchedule(hasher, s, e, x, s', most, n, n');
  }

  // ----- fleets in which every tick is ripe -----

  /** Whatever stays is up, or waits without backing off. */
  ghost predicate Brisk(d: Desired, t: Table) {
    forall i :: 0 <= i < |t| && Stays(d, t[i]) ==> Up(t[i]) || (Waiting(d, t[i]) && t[i].backoffUntil.None?)
  }

  lemma BriskIsRipe(hasher: Hasher, s: State, e: Env)
    requires Brisk(DesiredIn(hasher, s), s.table)
    ensures RipeTick(hasher, s, e)
  {
  }

  lemma EndBrisk(s: State, d: Desired, e: Env, x: Passage)
    requires Passes(s, d, e, x) && Steadfast(s, e) && Rolling(d, s.table) && Brisk(d, s.table)
    ensures Brisk(d, x.end)
  {
    forall p: nat | p < |x.end| && Stays(d, x.end[p])
      ensures Up(x.end[p]) || (Waiting(d, x.end[p]) && x.end[p].backoffUntil.None?)
    {
      EndSound(s, d, e, x, p);
      assert Ends(s, d, e, x, p) && Sound(d, x.filled.table[p]);
      if p < |x.rolled| {
        var i := StayingFrom(s, d, e, x, p);
      }
    }
  }
}
