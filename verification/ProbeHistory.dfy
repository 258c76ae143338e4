/** In every run, what the probe stage decides about a process is judged on its probes since the spawn. */
module ProbeHistories {
  import opened Prelude
  import opened Manifests
  import opened Instances
  import opened Stages
  import opened Lifecycle
  import opened Tracking
  import opened Fates
  import opened Runs
  import opened Startup
  import opened Gates
  import opened Identity
  import opened Probing

  // ----- one tick -----

  /** A serving record goes through the retire stage unchanged. */
  lemma ServingBeforeRetire(s: State, d: Desired, e: Env, p: nat)
    requires p < |s.table| && RetireStaleSurplus(s, d, e).table[p].Serving()
    ensures s.table[p] == RetireStaleSurplus(s, d, e).table[p]
  {
  }

  /** A serving record after the spawn loop was serving before, or has just been spawned. */
  lemma ServingAfterSpawn(hasher: Hasher, s: State, d: Desired, e: Env, p: nat)
    requires TableOk(s.table) && p < |SpawnMissing(hasher, s, d, e).table| && SpawnMissing(hasher, s, d, e).table[p].Serving()
    ensures var r := SpawnMissing(hasher, s, d, e).table[p];
            (p < |s.table| && s.table[p] == r)
            || (s.m.Has(r.app) && JustSpawned(s.m.Lookup(r.app).value, r) && r.handle.value.pid == Pid(s.tick, p))
  {
    AddKeepsOk(s, d, e);
    var s1 := AddMissing(s, d, e);
    var r := s1.table[p];
    assert RecordOk(r);
    if SpawnGate(s1.m, s1.checksOk, ReadyApps(s1.table), r, e.spawnAt) {
      if e.spawn(p).ok {
        SpawnIsFresh(hasher, s.m.defaults, s.m.Lookup(r.app).value, r, e.spawn(p), Pid(s.tick, p));
      }
    } else if p >= |s.table| {
      AddedIsNew(s, d, e, p);
    }
  }

  /** A serving record after the first half of a tick has not been touched by it. */
  lemma ServingAfterRoll(hasher: Hasher, s: State, e: Env, p: nat) returns (i: nat)
    requires var rolled := Rolled(hasher, Reap(ReverifyChecks(s, e), e), e); p < |rolled.table| && rolled.table[p].Serving()
    ensures i < |s.table| && Place(hasher, s, e, i) == Some(p)
    ensures s.table[i] == Rolled(hasher, Reap(ReverifyChecks(s, e), e), e).table[p]
  {
    i := PlaceFrom(hasher, s, e, p);
    var q := PlaceIs(hasher, s, e, i);
    var s1 := Reap(ReverifyChecks(s, e), e);
    var p', undesired, blocked, victim := FirstHalfAt(s1, DesiredIn(hasher, s1), e, q.value);
    ReapedServing(s.table[i], s.m.defaults, e.wait, e.reapAt);
  }

  lemma ReapedServing(r: Instance, d: Defaults, wait: Pid -> Wait, now: nat)
    ensures ReapOne(r, d, wait, now).Serving() ==> ReapOne(r, d, wait, now) == r
  {
  }

  /** What the probe stage finds serving was serving before the tick, unchanged, or has just been spawned. */
  lemma ServingBeforeProbe(hasher: Hasher, s: State, e: Env, p: nat) returns (i: Option<nat>)
    requires TableOk(s.table) && p < |BeforeProbe(hasher, s, e).table| && BeforeProbe(hasher, s, e).table[p].Serving()
    ensures i.Some? ==> At(s.table, i.value, BeforeProbe(hasher, s, e).table[p])
    ensures i.None? ==> var r := BeforeProbe(hasher, s, e).table[p];
              s.m.Has(r.app) && JustSpawned(s.m.Lookup(r.app).value, r) && r.handle.value.pid == Pid(s.tick, p)
  {
    var s0 := ReverifyChecks(s, e);
    ReapKeepsOk(s0, e);
    var s1 := Reap(s0, e);
    FirstHalfKeepsOk(s1, DesiredIn(hasher, s1), e);
    var s2 := Rolled(hasher, s1, e);
    var d := DesiredIn(hasher, s2);
    var s3 := SpawnMissing(hasher, s2, d, e);
    ServingBeforeRetire(s3, d, e, p);
    ServingAfterSpawn(hasher, s2, d, e, p);
    if p < |s2.table| && s2.table[p] == s3.table[p] {
      var j := ServingAfterRoll(hasher, s, e, p);
      return Some(j);
    }
    FirstHalfChanges(s1, DesiredIn(hasher, s1), e);
    return None;
  }

  /** The probe stage gives every record its round. */
  lemma ProbedRecord(hasher: Hasher, s: State, e: Env, p: nat)
    requires p < |Tick(hasher, s, e).table|
    ensures p < |BeforeProbe(hasher, s, e).table|
    ensures Tick(hasher, s, e).table[p] == ProbeOne(s.m, BeforeProbe(hasher, s, e).table[p], e.probeAt, e.probe(p))
  {
    BeforeProbeIs(hasher, s, e);
    var s1, s2 := TickParts(hasher, s, e);
  }

  // ----- runs -----

  /** The probe rounds of one record in the ticks among steps `j` to `k`; `pos[l + 1]` is its place after step `l`. */
  function RoundsIn(steps: seq<Step>, pos: seq<nat>, j: nat, k: nat): seq<Round>
    requires j <= k <= |steps| < |pos|
    decreases k
  {
    if k == j then []
    else
      RoundsIn(steps, pos, j, k - 1)
      + match steps[k - 1]
        case Ticked(e) => [Round(e.probeAt, e.probe(pos[k]))]
        case Reloaded(_) => []
  }

  lemma {:induction false} SameRounds(steps: seq<Step>, pos: seq<nat>, pos': seq<nat>, j: nat, k: nat)
    requires j <= k <= |steps| < |pos| == |pos'| && forall l :: j < l <= k ==> pos'[l] == pos[l]
    ensures RoundsIn(steps, pos', j, k) == RoundsIn(steps, pos, j, k)
    decreases k
  {
    if j < k {
      SameRounds(steps, pos, pos', j, k - 1);
    }
  }

  /** Step `j` is the tick that spawned the process, for an app whose settings are the same up to state `k`. */
  ghost predicate SpawnedIn(ss: seq<State>, steps: seq<Step>, j: nat, k: nat, r: Instance, app: App) {
    && j <= k < |ss| == |steps| + 1 && j < |steps| && steps[j].Ticked?
    && r.Serving() && r.app == app.name && r.handle.value.pid.tick == ss[j].tick
    && forall l {:trigger ss[l]} :: j <= l <= k ==> ss[l].m.Lookup(app.name) == Some(app)
  }

  /** The record is what the given rounds have made of a process as it was spawned. */
  ghost predicate HasHistory(app: App, born: Instance, r: Instance, rounds: seq<Round>) {
    JustSpawned(app, born) && r.Running() && born.handle.value.pid == r.handle.value.pid && r == ProbeRounds(app, born, rounds)
  }

  lemma OneMoreRound(steps: seq<Step>, pos: seq<nat>, j: nat, k: nat, app: App, born: Instance, r: Instance, r': Instance)
    requires j <= k < |steps| && |pos| == |steps| + 1 && steps[k].Ticked?
    requires HasHistory(app, born, r, RoundsIn(steps, pos, j, k)) && r.Serving()
    requires r' == ProbeApp(app, r, steps[k].e.probeAt, steps[k].e.probe(pos[k + 1]))
    ensures HasHistory(app, born, r', RoundsIn(steps, pos, j, k + 1))
  {
    var before, after := RoundsIn(steps, pos, j, k), RoundsIn(steps, pos, j, k + 1);
    assert after[..|after| - 1] == before && after[|after| - 1] == Round(steps[k].e.probeAt, steps[k].e.probe(pos[k + 1]));
    RoundKeepsProcess(app, r, steps[k].e.probeAt, steps[k].e.probe(pos[k + 1]));
  }

  lemma RoundKeepsProcess(app: App, r: Instance, now: nat, ans: ProbeAnswer)
    requires r.Serving()
    ensures var p := ProbeApp(app, r, now, ans); p.Running() && p.handle.value.pid == r.handle.value.pid && p.app == r.app
  {
    var p := AfterReadiness(app, r, now, ans);
    assert p.Running() && p.handle.value.pid == r.handle.value.pid && p.app == r.app;
  }

  /** The spawning tick is the only one of its number. */
  lemma SpawningTick(hasher: Hasher, ss: seq<State>, steps: seq<Step>, j: nat, k: nat)
    requires IsRun(hasher, ss, steps) && j <= k < |ss| && j < |steps| && steps[j].Ticked?
    ensures j < k ==> ss[j].tick < ss[k].tick
  {
    if j < k {
      assert LeadsAt(hasher, ss, steps, j);
      StepCounts(hasher, ss[j], steps[j], ss[j + 1]);
      TicksGrow(hasher, ss, steps, j + 1, k);
    }
  }

  /** What the probe stage of step `k` finds serving comes from the state before, or step `k` spawned it. */
  lemma FoundServing(hasher: Hasher, ss: seq<State>, steps: seq<Step>, j: nat, k: nat, p: nat, app: App) returns (i: Option<nat>)
    requires IsRun(hasher, ss, steps) && k < |steps| && steps[k].Ticked? && p < |BeforeProbe(hasher, ss[k], steps[k].e).table|
    requires SpawnedIn(ss, steps, j, k, BeforeProbe(hasher, ss[k], steps[k].e).table[p], app)
    ensures i.Some? ==> j < k && At(ss[k].table, i.value, BeforeProbe(hasher, ss[k], steps[k].e).table[p])
    ensures i.None? ==> j == k && JustSpawned(app, BeforeProbe(hasher, ss[k], steps[k].e).table[p])
  {
    ReachableOk(hasher, ss, steps, k);
    SpawningTick(hasher, ss, steps, j, k);
    i := ServingBeforeProbe(hasher, ss[k], steps[k].e, p);
    if i.Some? {
      RunFromEarlier(hasher, ss, steps, k);
    }
  }

  lemma ProbedServing(m: Manifest, r: Instance, now: nat, ans: ProbeAnswer, app: App)
    requires m.Lookup(app.name) == Some(app) && ProbeOne(m, r, now, ans).Serving() && ProbeOne(m, r, now, ans).app == app.name
    ensures r.Serving() && r.app == app.name && r.handle.value.pid == ProbeOne(m, r, now, ans).handle.value.pid
    ensures ProbeOne(m, r, now, ans) == ProbeApp(app, r, now, ans)
  {
    if r.Serving() && m.Has(r.app) {
      RoundKeepsProcess(m.Lookup(r.app).value, r, now, ans);
    }
  }

  /** One step back from a serving record, over a tick. */
  lemma BackOverTick(hasher: Hasher, ss: seq<State>, steps: seq<Step>, j: nat, k: nat, i: nat, app: App)
    requires IsRun(hasher, ss, steps) && k < |steps| && steps[k].Ticked? && i < |ss[k + 1].table|
    requires j <= k && SpawnedIn(ss, steps, j, k + 1, ss[k + 1].table[i], app)
    ensures i < |BeforeProbe(hasher, ss[k], steps[k].e).table|
    ensures SpawnedIn(ss, steps, j, k, BeforeProbe(hasher, ss[k], steps[k].e).table[i], app)
    ensures ss[k + 1].table[i] == ProbeApp(app, BeforeProbe(hasher, ss[k], steps[k].e).table[i], steps[k].e.probeAt, steps[k].e.probe(i))
  {
    var e := steps[k].e;
    assert LeadsAt(hasher, ss, steps, k);
    ProbedRecord(hasher, ss[k], e, i);
    ProbedServing(ss[k].m, BeforeProbe(hasher, ss[k], e).table[i], e.probeAt, e.probe(i), app);
  }

  /** ... and over a reload. */
  lemma BackOverReload(hasher: Hasher, ss: seq<State>, steps: seq<Step>, j: nat, k: nat, i: nat, app: App)
    requires IsRun(hasher, ss, steps) && k < |steps| && steps[k].Reloaded? && i < |ss[k + 1].table|
    requires j <= k && SpawnedIn(ss, steps, j, k + 1, ss[k + 1].table[i], app)
    ensures j < k && i < |ss[k].table| && ss[k].table[i] == ss[k + 1].table[i]
    ensures SpawnedIn(ss, steps, j, k, ss[k].table[i], app)
  {
    assert LeadsAt(hasher, ss, steps, k);
    ReloadChanges(ss[k], steps[k].o);
  }

  /** The record at `p` holds the process. */
  ghost predicate HoldsAt(t: Table, p: nat, pid: Pid) {
    p < |t| && t[p].Running() && t[p].handle.value.pid == pid
  }

  /** The places are the process's own after each of the steps from `j` on, up to state `k`. */
  ghost predicate Follows(ss: seq<State>, pos: seq<nat>, j: nat, k: nat, pid: Pid) {
    k < |ss| == |pos| && forall l {:trigger pos[l]} :: j < l <= k ==> HoldsAt(ss[l].table, pos[l], pid)
  }

  /** The table the probe stage of tick `j` finds. */
  ghost function FoundBy(hasher: Hasher, ss: seq<State>, steps: seq<Step>, j: nat): Table {
    if j < |ss| && j < |steps| && steps[j].Ticked? then BeforeProbe(hasher, ss[j], steps[j].e).table else []
  }

  /** The places are those of the process that tick `j` spawned as `born`. */
  ghost predicate Own(found: Table, ss: seq<State>, pos: seq<nat>, j: nat, k: nat, born: Instance) {
    j + 1 < |pos| && born.Running() && At(found, pos[j + 1], born) && Follows(ss, pos, j, k, born.handle.value.pid)
  }

  /** The record at place `i` of state `k` has a history since the spawn. */
  ghost predicate HistoryAt(found: Table, ss: seq<State>, steps: seq<Step>, j: nat, k: nat, app: App, r: Instance, i: nat) {
    exists born, pos :: HistoryIs(found, ss, steps, j, k, app, r, i, born, pos)
  }

  /** It is what the process's own rounds have made of the record its spawn left. */
  ghost predicate HistoryIs(found: Table, ss: seq<State>, steps: seq<Step>, j: nat, k: nat, app: App, r: Instance, i: nat, born: Instance, pos: seq<nat>) {
    && j < k <= |steps| && |pos| == |steps| + 1 && pos[k] == i && HasHistory(app, born, r, RoundsIn(steps, pos, j, k))
    && Own(found, ss, pos, j, k, born)
  }

  /** As the probe stage of step `k` finds it: its place `p` is already the one after the step. */
  ghost predicate FoundAt(found: Table, ss: seq<State>, steps: seq<Step>, j: nat, k: nat, app: App, r: Instance, p: nat) {
    exists born, pos :: FoundIs(found, ss, steps, j, k, app, r, p, born, pos)
  }

  ghost predicate FoundIs(found: Table, ss: seq<State>, steps: seq<Step>, j: nat, k: nat, app: App, r: Instance, p: nat, born: Instance, pos: seq<nat>) {
    && j <= k < |steps| && |pos| == |steps| + 1 && pos[k + 1] == p && HasHistory(app, born, r, RoundsIn(steps, pos, j, k))
    && Own(found, ss, pos, j, k, born)
  }

  lemma SamePlaces(ss: seq<State>, pos: seq<nat>, pos': seq<nat>, j: nat, k: nat, pid: Pid)
    requires Follows(ss, pos, j, k, pid) && |pos'| == |pos| && forall l :: j < l <= k ==> pos'[l] == pos[l]
    ensures Follows(ss, pos', j, k, pid)
  {
  }

  lemma SameOwn(found: Table, ss: seq<State>, pos: seq<nat>, pos': seq<nat>, j: nat, k: nat, born: Instance)
    requires Own(found, ss, pos, j, k, born) && |pos'| == |pos| && j < k && forall l :: j < l <= k ==> pos'[l] == pos[l]
    ensures Own(found, ss, pos', j, k, born)
  {
    SamePlaces(ss, pos, pos', j, k, born.handle.value.pid);
  }

  lemma OnePlaceMore(found: Table, ss: seq<State>, pos: seq<nat>, j: nat, k: nat, born: Instance)
    requires Own(found, ss, pos, j, k, born) && k + 1 < |ss| && HoldsAt(ss[k + 1].table, pos[k + 1], born.handle.value.pid)
    ensures Own(found, ss, pos, j, k + 1, born)
  {
  }

  lemma MoveIs(found: Table, ss: seq<State>, steps: seq<Step>, j: nat, k: nat, app: App, r: Instance, i: nat, p: nat, born: Instance, pos: seq<nat>, pos': seq<nat>)
    requires HistoryIs(found, ss, steps, j, k, app, r, i, born, pos) && k < |steps| && pos' == pos[k + 1 := p]
    ensures FoundIs(found, ss, steps, j, k, app, r, p, born, pos')
  {
    SameRounds(steps, pos, pos', j, k);
    SameOwn(found, ss, pos, pos', j, k, born);
  }

  lemma MoveOn(found: Table, ss: seq<State>, steps: seq<Step>, j: nat, k: nat, app: App, r: Instance, i: nat, p: nat)
    requires HistoryAt(found, ss, steps, j, k, app, r, i) && k < |steps|
    ensures FoundAt(found, ss, steps, j, k, app, r, p)
  {
    var born, pos :| HistoryIs(found, ss, steps, j, k, app, r, i, born, pos);
    MoveIs(found, ss, steps, j, k, app, r, i, p, born, pos, pos[k + 1 := p]);
  }

  lemma ReloadIs(found: Table, ss: seq<State>, steps: seq<Step>, j: nat, k: nat, app: App, r: Instance, i: nat, born: Instance, pos: seq<nat>)
    requires FoundIs(found, ss, steps, j, k, app, r, i, born, pos) && steps[k].Reloaded?
    requires k + 1 < |ss| && At(ss[k + 1].table, i, r)
    ensures HistoryIs(found, ss, steps, j, k + 1, app, r, i, born, pos)
  {
    assert RoundsIn(steps, pos, j, k + 1) == RoundsIn(steps, pos, j, k);
    OnePlaceMore(found, ss, pos, j, k, born);
  }

  lemma AfterReload(found: Table, ss: seq<State>, steps: seq<Step>, j: nat, k: nat, app: App, r: Instance, i: nat)
    requires HistoryAt(found, ss, steps, j, k, app, r, i) && k < |steps| && steps[k].Reloaded?
    requires k + 1 < |ss| && At(ss[k + 1].table, i, r)
    ensures HistoryAt(found, ss, steps, j, k + 1, app, r, i)
  {
    MoveOn(found, ss, steps, j, k, app, r, i, i);
    var born, pos :| FoundIs(found, ss, steps, j, k, app, r, i, born, pos);
    ReloadIs(found, ss, steps, j, k, app, r, i, born, pos);
  }

  lemma AfterTick(found: Table, ss: seq<State>, steps: seq<Step>, j: nat, k: nat, app: App, r: Instance, p: nat, r': Instance)
    requires FoundAt(found, ss, steps, j, k, app, r, p) && steps[k].Ticked? && r.Serving()
    requires r' == ProbeApp(app, r, steps[k].e.probeAt, steps[k].e.probe(p))
    requires k + 1 < |ss| && At(ss[k + 1].table, p, r')
    ensures HistoryAt(found, ss, steps, j, k + 1, app, r', p)
  {
    var born, pos :| FoundIs(found, ss, steps, j, k, app, r, p, born, pos);
    OneMoreRound(steps, pos, j, k, app, born, r, r');
    OnePlaceMore(found, ss, pos, j, k, born);
    assert HistoryIs(found, ss, steps, j, k + 1, app, r', p, born, pos);
  }

  lemma BornNow(found: Table, ss: seq<State>, steps: seq<Step>, k: nat, app: App, r: Instance, p: nat)
    requires k < |steps| && |ss| == |steps| + 1 && JustSpawned(app, r) && At(found, p, r)
    ensures FoundAt(found, ss, steps, k, k, app, r, p)
  {
    var pos := seq(|steps| + 1, l => p);
    assert Own(found, ss, pos, k, k, r);
    assert FoundIs(found, ss, steps, k, k, app, r, p, r, pos);
  }

  /** Every serving process that step `j` spawned has its history in state `k`. */
  ghost predicate AllHaveHistory(hasher: Hasher, ss: seq<State>, steps: seq<Step>, j: nat, k: nat, app: App)
    requires k < |ss|
  {
    forall i: nat {:trigger ss[k].table[i]} :: i < |ss[k].table| && SpawnedIn(ss, steps, j, k, ss[k].table[i], app) ==>
      HistoryAt(FoundBy(hasher, ss, steps, j), ss, steps, j, k, app, ss[k].table[i], i)
  }

  lemma FoundHistory(hasher: Hasher, ss: seq<State>, steps: seq<Step>, j: nat, k: nat, p: nat, app: App)
    requires IsRun(hasher, ss, steps) && k < |steps| && steps[k].Ticked? && p < |BeforeProbe(hasher, ss[k], steps[k].e).table|
    requires SpawnedIn(ss, steps, j, k, BeforeProbe(hasher, ss[k], steps[k].e).table[p], app)
    requires j < k ==> AllHaveHistory(hasher, ss, steps, j, k, app)
    ensures FoundAt(FoundBy(hasher, ss, steps, j), ss, steps, j, k, app, BeforeProbe(hasher, ss[k], steps[k].e).table[p], p)
  {
    var r := BeforeProbe(hasher, ss[k], steps[k].e).table[p];
    var i := FoundServing(hasher, ss, steps, j, k, p, app);
    if i.None? {
      BornNow(FoundBy(hasher, ss, steps, k), ss, steps, k, app, r, p);
    } else {
      assert ss[k].table[i.value] == r;
      MoveOn(FoundBy(hasher, ss, steps, j), ss, steps, j, k, app, r, i.value, p);
    }
  }

  lemma HistoryAfterTick(hasher: Hasher, ss: seq<State>, steps: seq<Step>, j: nat, k: nat, i: nat, app: App)
    requires IsRun(hasher, ss, steps) && k < |steps| && steps[k].Ticked? && i < |ss[k + 1].table|
    requires j <= k && SpawnedIn(ss, steps, j, k + 1, ss[k + 1].table[i], app)
    requires j < k ==> AllHaveHistory(hasher, ss, steps, j, k, app)
    ensures HistoryAt(FoundBy(hasher, ss, steps, j), ss, steps, j, k + 1, app, ss[k + 1].table[i], i)
  {
    BackOverTick(hasher, ss, steps, j, k, i, app);
    FoundHistory(hasher, ss, steps, j, k, i, app);
    AfterTick(FoundBy(hasher, ss, steps, j), ss, steps, j, k, app, BeforeProbe(hasher, ss[k], steps[k].e).table[i], i, ss[k + 1].table[i]);
  }

  lemma HistoryAfterReload(hasher: Hasher, ss: seq<State>, steps: seq<Step>, j: nat, k: nat, i: nat, app: App)
    requires IsRun(hasher, ss, steps) && k < |steps| && steps[k].Reloaded? && i < |ss[k + 1].table|
    requires j <= k && SpawnedIn(ss, steps, j, k + 1, ss[k + 1].table[i], app)
    requires j < k ==> AllHaveHistory(hasher, ss, steps, j, k, app)
    ensures HistoryAt(FoundBy(hasher, ss, steps, j), ss, steps, j, k + 1, app, ss[k + 1].table[i], i)
  {
    BackOverReload(hasher, ss, steps, j, k, i, app);
    AfterReload(FoundBy(hasher, ss, steps, j), ss, steps, j, k, app, ss[k].table[i], i);
  }

  lemma HistoriesGrow(hasher: Hasher, ss: seq<State>, steps: seq<Step>, j: nat, k: nat, app: App)
    requires IsRun(hasher, ss, steps) && j <= k < |steps| && (j < k ==> AllHaveHistory(hasher, ss, steps, j, k, app))
    ensures AllHaveHistory(hasher, ss, steps, j, k + 1, app)
  {
    forall i: nat {:trigger ss[k + 1].table[i]} | i < |ss[k + 1].table| && SpawnedIn(ss, steps, j, k + 1, ss[k + 1].table[i], app)
      ensures HistoryAt(FoundBy(hasher, ss, steps, j), ss, steps, j, k + 1, app, ss[k + 1].table[i], i)
    {
      if steps[k].Ticked? {
        HistoryAfterTick(hasher, ss, steps, j, k, i, app);
      } else {
        HistoryAfterReload(hasher, ss, steps, j, k, i, app);
      }
    }
  }

  /** In every run, in every state after the spawn, every serving process has its history. */
  lemma ServingHasHistory(hasher: Hasher, ss: seq<State>, steps: seq<Step>, j: nat, k: nat, app: App)
    requires IsRun(hasher, ss, steps) && j < k < |ss|
    ensures AllHaveHistory(hasher, ss, steps, j, k, app)
  {
    HistoriesGrow(hasher, ss, steps, j, j, app);
    forall n: nat | j + 1 <= n < k && AllHaveHistory(hasher, ss, steps, j, n, app) ensures AllHaveHistory(hasher, ss, steps, j, n + 1, app) {
      HistoriesGrow(hasher, ss, steps, j, n, app);
    }
    Climb((n: nat) => n < |ss| && AllHaveHistory(hasher, ss, steps, j, n, app), j + 1, k);
  }

  /** There is only one such history: no two records hold a process, so its places are fixed, and with them its rounds. */
  lemma HistoryIsUnique(hasher: Hasher, ss: seq<State>, steps: seq<Step>, j: nat, k: nat, app: App, r: Instance, i: nat,
                        born: Instance, pos: seq<nat>, born': Instance, pos': seq<nat>)
    requires IsRun(hasher, ss, steps) && k < |ss|
    requires HistoryIs(FoundBy(hasher, ss, steps, j), ss, steps, j, k, app, r, i, born, pos)
    requires HistoryIs(FoundBy(hasher, ss, steps, j), ss, steps, j, k, app, r, i, born', pos')
    ensures born' == born && RoundsIn(steps, pos', j, k) == RoundsIn(steps, pos, j, k)
  {
    forall l | j < l <= k ensures pos'[l] == pos[l] {
      OnePlace(hasher, ss, steps, l, pos[l], pos'[l], born.handle.value.pid);
    }
    SameRounds(steps, pos, pos', j, k);
  }

  lemma OnePlace(hasher: Hasher, ss: seq<State>, steps: seq<Step>, l: nat, p: nat, p': nat, pid: Pid)
    requires IsRun(hasher, ss, steps) && l < |ss| && HoldsAt(ss[l].table, p, pid) && HoldsAt(ss[l].table, p', pid)
    ensures p == p'
  {
    ProcessesAreNotShared(hasher, ss, steps, l);
    assert PidsDiffer(ss[l].table, p, p') && PidsDiffer(ss[l].table, p', p);
  }

  function StartOf(born: Instance): nat {
    if born.startedAt.Some? then born.startedAt.value else 0
  }

  /** The record at `p` after step `k` says what its process has answered in all its rounds since it was born. */
  ghost predicate JudgedAt(hasher: Hasher, ss: seq<State>, steps: seq<Step>, j: nat, k: nat, app: App, r: Instance, p: nat) {
    exists born, pos :: HistoryIs(FoundBy(hasher, ss, steps, j), ss, steps, j, k, app, r, p, born, pos)
                        && Judged(app, born, r, PastOf(app, StartOf(born), RoundsIn(steps, pos, j, k)))
  }

  lemma HistoryIsJudged(hasher: Hasher, ss: seq<State>, steps: seq<Step>, j: nat, k: nat, app: App, r: Instance, p: nat)
    requires HistoryAt(FoundBy(hasher, ss, steps, j), ss, steps, j, k, app, r, p)
    ensures JudgedAt(hasher, ss, steps, j, k, app, r, p)
  {
    var born, pos :| HistoryIs(FoundBy(hasher, ss, steps, j), ss, steps, j, k, app, r, p, born, pos);
    ProbeDecisions(app, born, RoundsIn(steps, pos, j, k));
  }

  /**
   * In every run, edits of other apps included: what the probe stage makes of a serving
   * process, in its first tick or any later one, serving on or stopped, says what it has
   * answered in all rounds since its spawn. It is stopped exactly at the answer it is given up
   * for: the liveness answer that completes the trailing run of failures, or a negative
   * readiness answer after its time, if it has never been ready.
   */
  lemma ProbeStageIsJudged(hasher: Hasher, ss: seq<State>, steps: seq<Step>, j: nat, k: nat, p: nat, app: App)
    requires IsRun(hasher, ss, steps) && k < |steps| && steps[k].Ticked? && p < |BeforeProbe(hasher, ss[k], steps[k].e).table|
    requires SpawnedIn(ss, steps, j, k, BeforeProbe(hasher, ss[k], steps[k].e).table[p], app)
    ensures p < |ss[k + 1].table| && JudgedAt(hasher, ss, steps, j, k + 1, app, ss[k + 1].table[p], p)
  {
    FoundInRun(hasher, ss, steps, j, k, p, app);
    ProbedInRun(hasher, ss, steps, k, p, app);
    AfterTick(FoundBy(hasher, ss, steps, j), ss, steps, j, k, app, BeforeProbe(hasher, ss[k], steps[k].e).table[p], p, ss[k + 1].table[p]);
    HistoryIsJudged(hasher, ss, steps, j, k + 1, app, ss[k + 1].table[p], p);
  }

  lemma FoundInRun(hasher: Hasher, ss: seq<State>, steps: seq<Step>, j: nat, k: nat, p: nat, app: App)
    requires IsRun(hasher, ss, steps) && k < |steps| && steps[k].Ticked? && p < |BeforeProbe(hasher, ss[k], steps[k].e).table|
    requires SpawnedIn(ss, steps, j, k, BeforeProbe(hasher, ss[k], steps[k].e).table[p], app)
    ensures FoundAt(FoundBy(hasher, ss, steps, j), ss, steps, j, k, app, BeforeProbe(hasher, ss[k], steps[k].e).table[p], p)
  {
    if j < k {
      ServingHasHistory(hasher, ss, steps, j, k, app);
    }
    FoundHistory(hasher, ss, steps, j, k, p, app);
  }

  lemma ProbedInRun(hasher: Hasher, ss: seq<State>, steps: seq<Step>, k: nat, p: nat, app: App)
    requires IsRun(hasher, ss, steps) && k < |steps| && steps[k].Ticked? && p < |BeforeProbe(hasher, ss[k], steps[k].e).table|
    requires var r := BeforeProbe(hasher, ss[k], steps[k].e).table[p]; r.Serving() && ss[k].m.Lookup(r.app) == Some(app)
    ensures p < |ss[k + 1].table|
    ensures ss[k + 1].table[p] == ProbeApp(app, BeforeProbe(hasher, ss[k], steps[k].e).table[p], steps[k].e.probeAt, steps[k].e.probe(p))
  {
    assert LeadsAt(hasher, ss, steps, k);
    BeforeProbeIs(hasher, ss[k], steps[k].e);
    ProbedRecord(hasher, ss[k], steps[k].e, p);
  }

  /** So it does in every state, and what serves on has fewer trailing failures than it takes. */
  lemma ServingIsJudged(hasher: Hasher, ss: seq<State>, steps: seq<Step>, j: nat, k: nat, i: nat, app: App)
    requires IsRun(hasher, ss, steps) && j < k < |ss| && i < |ss[k].table|
    requires SpawnedIn(ss, steps, j, k, ss[k].table[i], app)
    ensures JudgedAt(hasher, ss, steps, j, k, app, ss[k].table[i], i)
  {
    ServingHasHistory(hasher, ss, steps, j, k, app);
    HistoryIsJudged(hasher, ss, steps, j, k, app, ss[k].table[i], i);
  }

  /** The phase tells what the process has answered to the readiness probes since its spawn. */
  ghost predicate PhaseIsTold(hasher: Hasher, ss: seq<State>, steps: seq<Step>, j: nat, k: nat, app: App, r: Instance, p: nat) {
    exists born, pos :: HistoryIs(FoundBy(hasher, ss, steps, j), ss, steps, j, k, app, r, p, born, pos)
                        && LastAnswerTells(r.phase, PastOf(app, StartOf(born), RoundsIn(steps, pos, j, k)).ready)
  }

  lemma HistoryTellsPhase(hasher: Hasher, ss: seq<State>, steps: seq<Step>, j: nat, k: nat, app: App, r: Instance, p: nat)
    requires HistoryAt(FoundBy(hasher, ss, steps, j), ss, steps, j, k, app, r, p) && r.Serving() && app.readyPath != ""
    ensures PhaseIsTold(hasher, ss, steps, j, k, app, r, p)
  {
    var born, pos :| HistoryIs(FoundBy(hasher, ss, steps, j), ss, steps, j, k, app, r, p, born, pos);
    ProbeDecisions(app, born, RoundsIn(steps, pos, j, k));
  }

  /**
   * In every run, a serving process of an app with a ready path is Ready exactly if its last
   * readiness answer since the spawn was positive, Unready if that was negative and an earlier
   * one positive, and Starting if none was positive.
   */
  lemma ReadyIffLastAnswer(hasher: Hasher, ss: seq<State>, steps: seq<Step>, j: nat, k: nat, i: nat, app: App)
    requires IsRun(hasher, ss, steps) && j < k < |ss| && i < |ss[k].table| && app.readyPath != ""
    requires SpawnedIn(ss, steps, j, k, ss[k].table[i], app)
    ensures PhaseIsTold(hasher, ss, steps, j, k, app, ss[k].table[i], i)
  {
    ServingHasHistory(hasher, ss, steps, j, k, app);
    HistoryTellsPhase(hasher, ss, steps, j, k, app, ss[k].table[i], i);
  }
}
