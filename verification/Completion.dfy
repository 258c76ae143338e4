/** From an edit to a renewed fleet: which rolls end, when, and where. */
module Completions {
  import opened Prelude
  import opened Manifests
  import opened KeyOrder
  import opened Instances
  import opened Stages
  import opened Graph
  import opened Selection
  import opened Lifecycle
  import opened Runs
  import opened Steady
  import opened Startup
  import opened Convergence
  import opened Edits
  import opened Rolls
  import opened Rollouts
  import opened Lodgings

  // ----- runs -----

  /** The ticks among steps `a` to `b` in which nothing keeps the roll waiting. */
  ghost function RipeTicks(hasher: Hasher, ss: seq<State>, steps: seq<Step>, a: nat, b: nat): nat
    requires b < |ss| == |steps| + 1
    decreases b
  {
    if b <= a then 0
    else RipeTicks(hasher, ss, steps, a, b - 1) + if steps[b - 1].Ticked? && RipeTick(hasher, ss[b - 1], steps[b - 1].e) then 1 else 0
  }

  /** From state `a` to state `b` every tick is prompt. */
  ghost predicate AllPrompt(ss: seq<State>, steps: seq<Step>, a: nat, b: nat)
    requires b < |ss| == |steps| + 1
  {
    forall k {:trigger steps[k]} :: a <= k < b && steps[k].Ticked? ==> Prompt(ss[k], steps[k].e)
  }

  lemma SameSchedule(s: State, s': State, d: Desired, most: nat, n: nat)
    requires AllOnSchedule(s, d, most, n) && s'.table == s.table && s'.m == s.m && s'.selected == s.selected
    ensures AllOnSchedule(s', d, most, n)
  {
    assert AppsOf(s') == AppsOf(s);
    forall app, k: nat ensures OnSchedule(s', d, most, n, app, k) {
      assert OnSchedule(s, d, most, n, app, k);
    }
  }

  lemma SameRollout(hasher: Hasher, s: State, s': State, most: nat, n: nat)
    requires Rollout(hasher, s, most, n) && s'.(manifestMtime := s.manifestMtime, pendingMtime := s.pendingMtime) == s
    ensures Rollout(hasher, s', most, n)
  {
    assert DesiredIn(hasher, s') == DesiredIn(hasher, s);
    SameSchedule(s, s', DesiredIn(hasher, s), most, n);
  }

  /** On schedule, and on the ports it started with. */
  ghost predicate RollsOn(hasher: Hasher, s: State, most: nat, n: nat, ports: map<Key, nat>) {
    Rollout(hasher, s, most, n) && s.ports == ports
  }

  lemma StepRollsOut(hasher: Hasher, s: State, step: Step, s': State, most: nat, n: nat, ports: map<Key, nat>)
    requires Leads(hasher, s, step, s') && SameConfig(s, s') && RollsOn(hasher, s, most, n, ports)
    requires step.Ticked? ==> Prompt(s, step.e)
    ensures RollsOn(hasher, s', most, n + if step.Ticked? && RipeTick(hasher, s, step.e) then 1 else 0, ports)
  {
    match step
    case Ticked(e) =>
      RolloutCanRoll(hasher, s, e, most, n);
      TickWants(hasher, s, e);
      TickRollsOut(hasher, s, e, most, n, n + if RipeTick(hasher, s, e) then 1 else 0);
    case Reloaded(o) =>
      ReloadChanges(s, o);
      SameRollout(hasher, s, s', most, n);
  }

  lemma RunStepRollsOut(hasher: Hasher, ss: seq<State>, steps: seq<Step>, a: nat, b: nat, k: nat, most: nat, ports: map<Key, nat>)
    requires IsRun(hasher, ss, steps) && a <= k < b < |ss| && Unedited(ss, a, b) && AllPrompt(ss, steps, a, b)
    requires RollsOn(hasher, ss[k], most, RipeTicks(hasher, ss, steps, a, k), ports)
    ensures RollsOn(hasher, ss[k + 1], most, RipeTicks(hasher, ss, steps, a, k + 1), ports)
  {
    assert LeadsAt(hasher, ss, steps, k);
    StepRollsOut(hasher, ss[k], steps[k], ss[k + 1], most, RipeTicks(hasher, ss, steps, a, k), ports);
  }

  lemma RunRollsOut(hasher: Hasher, ss: seq<State>, steps: seq<Step>, a: nat, b: nat, most: nat)
    requires IsRun(hasher, ss, steps) && a <= b < |ss| && Unedited(ss, a, b) && AllPrompt(ss, steps, a, b)
    requires Rollout(hasher, ss[a], most, 0)
    ensures RollsOn(hasher, ss[b], most, RipeTicks(hasher, ss, steps, a, b), ss[a].ports)
  {
    var ports := ss[a].ports;
    forall k: nat | a <= k < b && RollsOn(hasher, ss[k], most, RipeTicks(hasher, ss, steps, a, k), ports)
      ensures RollsOn(hasher, ss[k + 1], most, RipeTicks(hasher, ss, steps, a, k + 1), ports)
    {
      RunStepRollsOut(hasher, ss, steps, a, b, k, most, ports);
    }
    Climb((k: nat) => k < |ss| && RollsOn(hasher, ss[k], most, RipeTicks(hasher, ss, steps, a, k), ports), a, b);
  }

  // ----- the end -----

  /** Every selected app's dependency chains have at most `k` apps. */
  ghost predicate DepthsWithin(s: State, k: nat) {
    forall app :: app in s.selected ==> DepthAtMost(AppsOf(s), app, k)
  }

  lemma RenewedRecord(s: State, d: Desired, most: nat, n: nat, k: nat, i: nat)
    requires Rolling(d, s.table) && AllOnSchedule(s, d, most, n) && k > 0 && n >= Enough(k, Span(s.m, most)) && i < |s.table|
    requires s.table[i].Slot() in d && s.table[i].app in s.selected && DepthAtMost(AppsOf(s), s.table[i].app, k)
    ensures Up(s.table[i]) && Current(d, s.table[i]) && Stays(d, s.table[i])
  {
    DueAt(s, d, most, n, s.table[i].app, k);
    assert Sound(d, s.table[i]);
  }

  lemma RecordRenewed(hasher: Hasher, s: State, most: nat, n: nat, k: nat, i: nat)
    requires Rollout(hasher, s, most, n) && k > 0 && n >= Enough(k, Span(s.m, most)) && i < |s.table|
    requires DepthsWithin(s, k)
    ensures var d := DesiredIn(hasher, s); Up(s.table[i]) && Current(d, s.table[i]) && Stays(d, s.table[i])
  {
    var d := DesiredIn(hasher, s);
    DesiredSlotsAre(hasher, s.m, s.selected, s.ports);
    assert s.table[i].Slot() in d;
    RenewedRecord(s, d, most, n, k, i);
  }

  lemma StayingFills(d: Desired, t: Table)
    requires Underway(d, t) && forall i :: 0 <= i < |t| ==> Stays(d, t[i])
    ensures Fills(d, t)
  {
    forall k | k in d ensures Occupied(t, k) {
      assert HasStaying(d, t, k);
    }
    forall i: nat, j: nat ensures SlotsDiffer(t, i, j) {
      assert StaysDiffer(d, t, i, j);
    }
  }

  lemma RenewedIsSteady(hasher: Hasher, s: State, most: nat, n: nat, k: nat)
    requires Rollout(hasher, s, most, n) && k > 0 && n >= Enough(k, Span(s.m, most)) && DepthsWithin(s, k)
    ensures IsSteady(hasher, s) && AllReady(s.table)
  {
    forall i: nat | i < |s.table|
      ensures Up(s.table[i]) && Current(DesiredIn(hasher, s), s.table[i]) && Stays(DesiredIn(hasher, s), s.table[i])
    {
      RecordRenewed(hasher, s, most, n, k, i);
    }
    StayingFills(DesiredIn(hasher, s), s.table);
  }

  lemma SameDepths(ss: seq<State>, a: nat, b: nat, k: nat)
    requires a <= b < |ss| && Unedited(ss, a, b) && DepthsWithin(ss[a], k)
    ensures DepthsWithin(ss[b], k) && ss[b].m == ss[a].m
  {
    assert AppsOf(ss[b]) == AppsOf(ss[a]);
  }

  /** Ripe ticks enough for chains of `k` apps, each with at most `most` stale instances. */
  predicate LongEnough(m: Manifest, most: nat, k: nat, n: nat) {
    n >= k * (Span(m, most) + 2)
  }

  lemma RolledOut(hasher: Hasher, s: State, most: nat, n: nat, k: nat, ports: map<Key, nat>)
    requires RollsOn(hasher, s, most, n, ports) && k > 0 && DepthsWithin(s, k) && LongEnough(s.m, most, k, n)
    ensures IsSteady(hasher, s) && AllReady(s.table) && s.ports == ports
  {
    EnoughIs(k, Span(s.m, most));
    RenewedIsSteady(hasher, s, most, n, k);
  }

  /**
   * While stopped processes exit by the next tick and everything else goes well: after
   * `k * (span + 2)` ripe ticks, with `k` the longest dependency chain and `span` the most stale
   * instances of any app, or 1 with surge, there is exactly one record per desired slot,
   * current and Ready, on the ports the roll started with. It stays that way.
   */
  lemma RolloutCompletes(hasher: Hasher, ss: seq<State>, steps: seq<Step>, a: nat, b: nat, most: nat, k: nat)
    requires IsRun(hasher, ss, steps) && a <= b < |ss| && Unedited(ss, a, b) && AllPrompt(ss, steps, a, b)
    requires Rollout(hasher, ss[a], most, 0) && k > 0 && DepthsWithin(ss[a], k)
    requires LongEnough(ss[a].m, most, k, RipeTicks(hasher, ss, steps, a, b))
    ensures IsSteady(hasher, ss[b]) && AllReady(ss[b].table) && ss[b].ports == ss[a].ports
  {
    RunRollsOut(hasher, ss, steps, a, b, most);
    SameDepths(ss, a, b, k);
    RolledOut(hasher, ss[b], most, RipeTicks(hasher, ss, steps, a, b), k, ss[a].ports);
  }

  // ----- which edits roll out -----

  /** Every stale record serves: none is idle, and none is being restarted. */
  ghost predicate StaleServe(d: Desired, t: Table) {
    forall i :: 0 <= i < |t| && Stale(d, t[i]) ==> t[i].Serving()
  }

  /** A hash that stays the same means a port that does. */
  ghost predicate HashKeepsPort(d: Desired, d': Desired) {
    forall k :: k in d && k in d' && d'[k].hash == d[k].hash ==> d'[k].port == d[k].port
  }

  lemma EditedSound(d: Desired, d': Desired, r: Instance)
    requires Current(d, r) && RecordOk(r) && HashKeepsPort(d, d') && (Stale(d', r) ==> r.Serving())
    ensures Sound(d', r)
  {
  }

  /** The edit of a fleet with one current record per slot, all its stale records serving, starts a roll. */
  lemma EditIsRolling(d: Desired, d': Desired, t: Table)
    requires AllCurrent(d, t) && Fills(d, t) && TableOk(t) && HashKeepsPort(d, d') && StaleServe(d', t)
    ensures Rolling(d', t)
  {
    forall i | 0 <= i < |t| ensures Sound(d', t[i]) {
      assert Current(d, t[i]) && RecordOk(t[i]);
      EditedSound(d, d', t[i]);
    }
    forall i: nat, j: nat ensures StaysDiffer(d', t, i, j) {
      assert SlotsDiffer(t, i, j);
    }
  }

  lemma {:induction false} StaleAtMostAll(d: Desired, t: Table, app: string)
    ensures StaleCount(d, t, app) <= AppCount(t, app)
  {
    if t != [] {
      StaleAtMostAll(d, t[..|t| - 1], app);
    }
  }

  /** Nothing is due before the first ripe tick. */
  lemma NothingDue(s: State, d: Desired, most: nat)
    requires forall app :: StaleCount(d, s.table, app) <= most
    ensures AllOnSchedule(s, d, most, 0)
  {
  }

  /** No app had more than `most` slots. */
  ghost predicate SlotsWithin(d: Desired, most: nat) {
    forall app :: |SlotsOf(d, app)| <= most
  }

  lemma StaleWithin(d: Desired, d': Desired, t: Table, most: nat)
    requires AllCurrent(d, t) && Fills(d, t) && SlotsWithin(d, most)
    ensures forall app :: StaleCount(d', t, app) <= most
  {
    forall app ensures StaleCount(d', t, app) <= most {
      StaleAtMostAll(d', t, app);
      SteadyCount(d, t, app);
    }
  }

  /**
   * Without surge, any edit, of any part of the manifest, of a fleet with one current record
   * per slot is the start of a roll, whatever its current records do, if the stale ones serve.
   */
  lemma EditStartsRollout(hasher: Hasher, s: State, m: Manifest, selected: set<string>, most: nat)
    requires IsSteady(hasher, s) && TableOk(s.table) && ChecksPass(s.checksOk)
    requires WellFormed(m) && SoundSelection(m, selected) && m.defaults.maxSurge == 0
    requires HashKeepsPort(DesiredIn(hasher, s), DesiredIn(hasher, Edited(s, m, selected)))
    requires StaleServe(DesiredIn(hasher, Edited(s, m, selected)), s.table) && SlotsWithin(DesiredIn(hasher, s), most)
    ensures Rollout(hasher, Edited(s, m, selected), most, 0)
  {
    var s', d := Edited(s, m, selected), DesiredIn(hasher, s);
    var d' := DesiredIn(hasher, s');
    EditIsRolling(d, d', s.table);
    StaleWithin(d, d', s.table, most);
    NothingDue(s', d', most);
  }

  /** What is not so: a stale record that does not serve makes its slot one no roll ever ends for, with or without surge. */
  lemma StaleIdleIsStuck(hasher: Hasher, s: State, m: Manifest, selected: set<string>, i: nat)
    requires IsSteady(hasher, s) && i < |s.table| && RecordOk(s.table[i])
    requires var d' := DesiredIn(hasher, Edited(s, m, selected));
             Stale(d', s.table[i]) && !s.table[i].Serving() && d'[s.table[i].Slot()].port == s.table[i].port
    ensures Stuck(hasher, Edited(s, m, selected), s.table[i].Slot())
  {
    var d', k := DesiredIn(hasher, Edited(s, m, selected)), s.table[i].Slot();
    assert Current(DesiredIn(hasher, s), s.table[i]);
    forall j: nat | j < |s.table| && s.table[j].Slot() == k ensures j == i {
      assert SlotsDiffer(s.table, i, j) && SlotsDiffer(s.table, j, i);
    }
    SlotCountAt(s.table, i);
  }

  /** The stale records that do not serve are on the ports their slots ask for now. */
  ghost predicate StuckOnPorts(d: Desired, t: Table) {
    forall i :: 0 <= i < |t| && Stale(d, t[i]) && !t[i].Serving() ==> d[t[i].Slot()].port == t[i].port
  }

  /** The state an accepted reload makes of a state. */
  ghost predicate EditedTo(s: State, s': State) {
    s' == Edited(s, s'.m, s'.selected).(manifestMtime := s'.manifestMtime, pendingMtime := s'.pendingMtime)
  }

  lemma ReloadIsEdit(s: State, o: Observation)
    ensures EditedTo(s, MaybeReload(s, o))
  {
  }

  lemma ReloadEdits(hasher: Hasher, ss: seq<State>, steps: seq<Step>, r: nat, a: nat)
    requires IsRun(hasher, ss, steps) && a == r + 1 < |ss| && steps[r].Reloaded?
    ensures EditedTo(ss[r], ss[a])
  {
    RunReload(hasher, ss, steps, r);
    ReloadIsEdit(ss[r], steps[r].o);
  }

  // ----- through a reload -----

  lemma SameWants(hasher: Hasher, s: State, s': State)
    requires EditedTo(s, s')
    ensures DesiredIn(hasher, s') == DesiredIn(hasher, Edited(s, s'.m, s'.selected)) && s'.table == s.table && s'.checksOk == s.checksOk
  {
  }

  /**
   * A reload that edits a fleet with one current record per slot. No slot changes its port but
   * keeps its hash, and none whose record is stale without serving changes its port.
   */
  ghost predicate EditsFleet(hasher: Hasher, s: State, s': State, most: nat) {
    && IsSteady(hasher, s) && ChecksPass(s.checksOk) && SlotsWithin(DesiredIn(hasher, s), most)
    && HashKeepsPort(DesiredIn(hasher, s), DesiredIn(hasher, s')) && StuckOnPorts(DesiredIn(hasher, s'), s.table)
  }

  lemma ReloadStartsRollout(hasher: Hasher, s: State, s': State, most: nat)
    requires EditedTo(s, s') && EditsFleet(hasher, s, s', most) && TableOk(s.table) && WellFormed(s'.m) && SoundSelection(s'.m, s'.selected)
    requires s'.m.defaults.maxSurge == 0 && StaleServe(DesiredIn(hasher, s'), s.table)
    ensures Rollout(hasher, s', most, 0)
  {
    SameWants(hasher, s, s');
    EditStartsRollout(hasher, s, s'.m, s'.selected, most);
    SameRollout(hasher, Edited(s, s'.m, s'.selected), s', most, 0);
  }

  lemma ReloadSticks(hasher: Hasher, s: State, s': State, most: nat) returns (k: Key)
    requires EditedTo(s, s') && EditsFleet(hasher, s, s', most) && TableOk(s.table) && !StaleServe(DesiredIn(hasher, s'), s.table)
    ensures Stuck(hasher, s', k)
  {
    SameWants(hasher, s, s');
    var i: nat :| i < |s.table| && Stale(DesiredIn(hasher, s'), s.table[i]) && !s.table[i].Serving();
    assert Current(DesiredIn(hasher, s), s.table[i]);
    StaleIdleIsStuck(hasher, s, s'.m, s'.selected, i);
    k := s.table[i].Slot();
  }

  lemma EditedStarts(hasher: Hasher, ss: seq<State>, steps: seq<Step>, r: nat, a: nat, most: nat)
    requires IsRun(hasher, ss, steps) && a == r + 1 < |ss| && steps[r].Reloaded? && EditsFleet(hasher, ss[r], ss[a], most)
    requires ss[a].m.defaults.maxSurge == 0 && StaleServe(DesiredIn(hasher, ss[a]), ss[r].table)
    ensures Rollout(hasher, ss[a], most, 0)
  {
    ReachableOk(hasher, ss, steps, r);
    ReachableOk(hasher, ss, steps, a);
    ReloadEdits(hasher, ss, steps, r, a);
    ReloadStartsRollout(hasher, ss[r], ss[a], most);
  }

  /** Some slot is stuck. */
  ghost predicate Sticks(hasher: Hasher, s: State) {
    exists k :: Stuck(hasher, s, k)
  }

  lemma EditedSticks(hasher: Hasher, ss: seq<State>, steps: seq<Step>, r: nat, a: nat, most: nat)
    requires IsRun(hasher, ss, steps) && a == r + 1 < |ss| && steps[r].Reloaded? && EditsFleet(hasher, ss[r], ss[a], most)
    requires !StaleServe(DesiredIn(hasher, ss[a]), ss[r].table)
    ensures Sticks(hasher, ss[a])
  {
    ReachableOk(hasher, ss, steps, r);
    ReloadEdits(hasher, ss, steps, r, a);
    var k := ReloadSticks(hasher, ss[r], ss[a], most);
  }

  lemma SticksForGood(hasher: Hasher, ss: seq<State>, steps: seq<Step>, a: nat, b: nat)
    requires IsRun(hasher, ss, steps) && a <= b < |ss| && Unedited(ss, a, b) && Sticks(hasher, ss[a]) && ss[b].tick > ss[a].tick
    ensures !IsSteady(hasher, ss[b])
  {
    var k :| Stuck(hasher, ss[a], k);
    StuckNeverSettles(hasher, ss, steps, a, b, k);
  }

  /** From a fleet with one current record per slot, through a reload that leaves every stale record serving, to the renewed fleet. */
  lemma EditRollsOut(hasher: Hasher, ss: seq<State>, steps: seq<Step>, r: nat, a: nat, b: nat, most: nat, k: nat)
    requires IsRun(hasher, ss, steps) && a == r + 1 <= b < |ss| && steps[r].Reloaded? && EditsFleet(hasher, ss[r], ss[a], most)
    requires Unedited(ss, a, b) && AllPrompt(ss, steps, a, b)
    requires ss[a].m.defaults.maxSurge == 0 && k > 0 && DepthsWithin(ss[a], k)
    requires LongEnough(ss[a].m, most, k, RipeTicks(hasher, ss, steps, a, b))
    requires StaleServe(DesiredIn(hasher, ss[a]), ss[r].table)
    ensures IsSteady(hasher, ss[b]) && AllReady(ss[b].table) && ss[b].ports == ss[a].ports
  {
    EditedStarts(hasher, ss, steps, r, a, most);
    RolloutCompletes(hasher, ss, steps, a, b, most, k);
  }

  /** Otherwise it never gets there, in any environment and however long it takes. */
  lemma EditNeverRollsOut(hasher: Hasher, ss: seq<State>, steps: seq<Step>, r: nat, a: nat, b: nat, most: nat)
    requires IsRun(hasher, ss, steps) && a == r + 1 <= b < |ss| && steps[r].Reloaded? && EditsFleet(hasher, ss[r], ss[a], most)
    requires Unedited(ss, a, b) && ss[b].tick > ss[a].tick
    requires !StaleServe(DesiredIn(hasher, ss[a]), ss[r].table)
    ensures !IsSteady(hasher, ss[b])
  {
    EditedSticks(hasher, ss, steps, r, a, most);
    SticksForGood(hasher, ss, steps, a, b);
  }

  // ----- fleets that are up -----

  /** In every tick from state `a` to state `b` nothing exits that was not stopped, and the rest goes well. */
  ghost predicate AllSteadfast(ss: seq<State>, steps: seq<Step>, a: nat, b: nat)
    requires b < |ss| == |steps| + 1
  {
    forall k {:trigger steps[k]} :: a <= k < b && steps[k].Ticked? ==> Steadfast(ss[k], steps[k].e)
  }

  /** In a roll whose records are up or wait without backing off. */
  ghost predicate BriskRoll(hasher: Hasher, s: State) {
    var d := DesiredIn(hasher, s);
    && Rolling(d, s.table) && Brisk(d, s.table) && ChecksPass(s.checksOk)
    && (s.m.defaults.maxSurge > 0 ==> AllCovered(d, s.table))
  }

  lemma EndCovered(s: State, d: Desired, e: Env, x: Passage)
    requires Finishes(s, d, e, x)
    ensures AllCovered(d, x.end)
  {
    forall k | k in d ensures HasHash(x.end, k, d[k].hash) {
      var p: nat :| p < |x.filled.table| && x.filled.table[p].Slot() == k && x.filled.table[p].specHash == d[k].hash;
      EndSound(s, d, e, x, p);
    }
  }

  lemma TickStaysBrisk(hasher: Hasher, s: State, e: Env)
    requires BriskRoll(hasher, s) && Steadfast(s, e)
    ensures BriskRoll(hasher, Tick(hasher, s, e)) && RipeTick(hasher, s, e)
  {
    var d := DesiredIn(hasher, s);
    TickWants(hasher, s, e);
    TickKeepsConfig(hasher, s, e);
    var x := TickPasses(hasher, s, e);
    EndBrisk(s, d, e, x);
    EndRolling(s, d, e, x);
    EndCovered(s, d, e, x);
    BriskIsRipe(hasher, s, e);
  }

  lemma StepStaysBrisk(hasher: Hasher, s: State, step: Step, s': State)
    requires Leads(hasher, s, step, s') && SameConfig(s, s') && BriskRoll(hasher, s)
    requires step.Ticked? ==> Steadfast(s, step.e)
    ensures BriskRoll(hasher, s') && (step.Ticked? ==> RipeTick(hasher, s, step.e))
  {
    match step
    case Ticked(e) => TickStaysBrisk(hasher, s, e);
    case Reloaded(o) =>
      ReloadChanges(s, o);
      assert DesiredIn(hasher, s') == DesiredIn(hasher, s);
  }

  /** Brisk so far, and every tick so far was ripe. */
  ghost predicate BriskAt(hasher: Hasher, ss: seq<State>, steps: seq<Step>, a: nat, n: nat)
    requires n < |ss| == |steps| + 1 && a <= n
  {
    BriskRoll(hasher, ss[n]) && ss[n].tick == ss[a].tick + RipeTicks(hasher, ss, steps, a, n)
  }

  lemma RunStepStaysBrisk(hasher: Hasher, ss: seq<State>, steps: seq<Step>, a: nat, b: nat, n: nat)
    requires IsRun(hasher, ss, steps) && a <= n < b < |ss| && Unedited(ss, a, b) && AllSteadfast(ss, steps, a, b)
    requires BriskAt(hasher, ss, steps, a, n)
    ensures BriskAt(hasher, ss, steps, a, n + 1)
  {
    assert LeadsAt(hasher, ss, steps, n);
    StepStaysBrisk(hasher, ss[n], steps[n], ss[n + 1]);
    OneStepCounts(hasher, ss, steps, n);
  }

  /** From a brisk start every tick is ripe, so that bounds in ripe ticks are bounds in ticks. */
  lemma BriskTicksAreRipe(hasher: Hasher, ss: seq<State>, steps: seq<Step>, a: nat, b: nat)
    requires IsRun(hasher, ss, steps) && a <= b < |ss| && Unedited(ss, a, b) && AllSteadfast(ss, steps, a, b)
    requires BriskRoll(hasher, ss[a])
    ensures RipeTicks(hasher, ss, steps, a, b) == ss[b].tick - ss[a].tick
  {
    forall n: nat | a <= n < b && BriskAt(hasher, ss, steps, a, n) ensures BriskAt(hasher, ss, steps, a, n + 1) {
      RunStepStaysBrisk(hasher, ss, steps, a, b, n);
    }
    Climb((n: nat) => a <= n < |ss| && BriskAt(hasher, ss, steps, a, n), a, b);
  }
}
