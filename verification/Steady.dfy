/** Between manifest edits the table is in bijection with the desired slots. */
module Steady {
  import opened Prelude
  import opened Manifests
  import opened KeyOrder
  import opened Instances
  import opened Stages
  import opened Tracking
  import opened Runs

  /** The record has the port and hash its slot asks for, and comes back if it is being stopped. */
  ghost predicate Current(d: Desired, r: Instance) {
    && r.Slot() in d
    && r.port == d[r.Slot()].port
    && r.specHash == d[r.Slot()].hash
    && (r.phase == Terminating ==> r.Running() && r.restartAfterStop)
  }

  ghost predicate AllCurrent(d: Desired, t: Table) {
    forall i :: 0 <= i < |t| ==> Current(d, t[i])
  }

  ghost predicate Occupied(t: Table, k: Key) {
    exists i :: 0 <= i < |t| && t[i].Slot() == k
  }

  /** Every desired slot has a record, and no slot has two. */
  ghost predicate Fills(d: Desired, t: Table) {
    && (forall k :: k in d ==> Occupied(t, k))
    && (forall i: nat, j: nat :: SlotsDiffer(t, i, j))
  }

  ghost predicate SlotsDiffer(t: Table, i: nat, j: nat) {
    i < j < |t| ==> t[i].Slot() != t[j].Slot()
  }

  /** The same records' slots in the same places. */
  ghost predicate SameSlots(t: Table, u: Table) {
    |t| == |u| && forall i :: 0 <= i < |t| ==> t[i].Slot() == u[i].Slot()
  }

  lemma SameSlotsFill(d: Desired, t: Table, u: Table)
    requires SameSlots(t, u) && Fills(d, t)
    ensures Fills(d, u)
  {
    forall k | k in d ensures Occupied(u, k) {
      assert Occupied(t, k);
      var i :| 0 <= i < |t| && t[i].Slot() == k;
      assert u[i].Slot() == k;
    }
    forall i: nat, j: nat ensures SlotsDiffer(u, i, j) {
      assert SlotsDiffer(t, i, j);
    }
  }

  // ----- the stages on a table with only current records -----

  lemma ReapCurrent(s: State, d: Desired, e: Env)
    requires AllCurrent(d, s.table)
    ensures AllCurrent(d, Reap(s, e).table) && SameSlots(s.table, Reap(s, e).table)
    ensures Reap(s, e).table == ReapedTable(s.table, s.m.defaults, e.wait, e.reapAt)
  {
    assert DroppedSlots(s.table, e.wait) == {};
    RetainAll(ReapedTable(s.table, s.m.defaults, e.wait, e.reapAt), {});
  }

  lemma TerminateCurrent(s: State, d: Desired, e: Env)
    requires AllCurrent(d, s.table)
    ensures TerminateUndesired(s, d, e) == s
  {
    assert StoppedUndesired(s.table, d, e.terminateAt) == s.table;
    assert IdleUndesired(s.table, d) == {};
    RetainAll(s.table, {});
  }

  lemma BlockedCurrent(s: State, d: Desired, e: Env)
    requires AllCurrent(d, s.table)
    ensures AllCurrent(d, StopCheckBlocked(s, e).table) && SameSlots(s.table, StopCheckBlocked(s, e).table)
  {
  }

  lemma RollCurrent(s: State, d: Desired, e: Env)
    requires AllCurrent(d, s.table)
    ensures RollStale(s, d, e) == s
  {
    forall app ensures RollVictim(s.m, d, s.table, app).None? && SurgeMove(s.m, d, s.table, app).None? {
      NoneStale(s.m, d, s.table, app);
    }
    assert RolledTable(s.m, s.selected, d, s.table, e.rollAt) == s.table;
    assert MovedSlots(SurgeMoves(s.m, s.selected, d, s.table), s.selected) == {};
    assert s.ports + MovedPorts(SurgeMoves(s.m, s.selected, d, s.table), s.selected) == s.ports;
  }

  lemma NoneStale(m: Manifest, d: Desired, t: Table, app: string)
    requires AllCurrent(d, t)
    ensures RollVictim(m, d, t, app).None? && SurgeMove(m, d, t, app).None?
  {
    assert FirstStaleReady(d, t, app).None?;
    assert FirstStaleNotReady(d, t, app).None?;
  }

  lemma SpawnCurrent(hasher: Hasher, s: State, e: Env)
    requires AllCurrent(DesiredIn(hasher, s), s.table)
    ensures AllCurrent(DesiredIn(hasher, s), SpawnReady(hasher, s, e).table)
    ensures SameSlots(s.table, SpawnReady(hasher, s, e).table)
  {
    var d := DesiredIn(hasher, s);
    DesiredSlotsAre(hasher, s.m, s.selected, s.ports);
    forall i | 0 <= i < |s.table| ensures Current(d, SpawnAt(hasher, s, ReadyApps(s.table), e, i)) {
      assert d[s.table[i].Slot()] == WantFor(hasher, s.m, s.ports, s.table[i].Slot());
    }
  }

  lemma RetireCurrent(s: State, d: Desired, e: Env)
    requires AllCurrent(d, s.table)
    ensures RetireStaleSurplus(s, d, e) == s
  {
    assert s.m.defaults.maxSurge > 0 ==> RetireStaleSurplus(s, d, e).table == s.table;
  }

  lemma ProbeCurrent(s: State, d: Desired, e: Env)
    requires AllCurrent(d, s.table)
    ensures AllCurrent(d, Probe(s, e).table) && SameSlots(s.table, Probe(s, e).table)
  {
    forall i | 0 <= i < |s.table|
      ensures Current(d, ProbeOne(s.m, s.table[i], e.probeAt, e.probe(i)))
      ensures ProbeOne(s.m, s.table[i], e.probeAt, e.probe(i)).Slot() == s.table[i].Slot()
    {
      ProbeOneCurrent(s.m, d, s.table[i], e.probeAt, e.probe(i));
    }
  }

  lemma ProbeOneCurrent(m: Manifest, d: Desired, r: Instance, now: nat, ans: ProbeAnswer)
    requires Current(d, r)
    ensures Current(d, ProbeOne(m, r, now, ans)) && ProbeOne(m, r, now, ans).Slot() == r.Slot()
  {
    if r.Serving() && m.Has(r.app) {
      ReadinessCurrent(m.Lookup(r.app).value, d, r, now, ans);
    }
  }

  lemma ReadinessCurrent(a: App, d: Desired, r: Instance, now: nat, ans: ProbeAnswer)
    requires Current(d, r) && r.Running()
    ensures var p := AfterReadiness(a, r, now, ans); Current(d, p) && p.Running() && p.Slot() == r.Slot()
  {
  }

  // ----- adding what is missing -----

  /** A table that fills all slots with current records lacks nothing. */
  lemma NothingMissing(s: State, d: Desired, e: Env)
    requires AllCurrent(d, s.table) && Fills(d, s.table)
    ensures AddMissing(s, d, e) == s
  {
    InKeyOrderSorts(d.Keys);
    var keys := InKeyOrder(d.Keys);
    forall j | 0 <= j < |keys| ensures keys[j] in d && HasHash(s.table, keys[j], d[keys[j]].hash) {
      assert keys[j] in keys;
      CurrentHasHash(d, s.table, keys[j]);
    }
    NoneMissing(d, s.table, keys, e.spawnAt);
    assert s.table + [] == s.table;
  }

  lemma CurrentHasHash(d: Desired, t: Table, k: Key)
    requires AllCurrent(d, t) && Fills(d, t) && k in d
    ensures HasHash(t, k, d[k].hash)
  {
    assert Occupied(t, k);
    var i :| 0 <= i < |t| && t[i].Slot() == k;
    assert Current(d, t[i]);
  }

  lemma {:induction false} NoneMissing(d: Desired, t: Table, keys: seq<Key>, now: nat)
    requires forall j :: 0 <= j < |keys| ==> keys[j] in d && HasHash(t, keys[j], d[keys[j]].hash)
    ensures Missing(d, t, keys, now) == []
  {
    if keys != [] {
      NoneMissing(d, t, keys[..|keys| - 1], now);
    }
  }

  /** An empty table gets one Pending record per key, in key order. */
  lemma {:induction false} AllMissing(d: Desired, keys: seq<Key>, now: nat)
    requires forall k :: k in keys ==> k in d
    ensures var t := Missing(d, [], keys, now);
            |t| == |keys| && forall i :: 0 <= i < |keys| ==> t[i] == NewFor(d, keys[i], now)
  {
    if keys != [] {
      AllMissing(d, keys[..|keys| - 1], now);
    }
  }

  lemma KeysFill(d: Desired, t: Table, keys: seq<Key>, now: nat)
    requires NoDup(keys) && forall k :: k in keys <==> k in d
    requires |t| == |keys| && forall i :: 0 <= i < |keys| ==> keys[i] in d && t[i] == NewFor(d, keys[i], now)
    ensures AllCurrent(d, t) && Fills(d, t)
  {
    forall k | k in d ensures Occupied(t, k) {
      var i :| 0 <= i < |keys| && keys[i] == k;
      assert t[i].Slot() == k;
    }
    forall i: nat, j: nat ensures SlotsDiffer(t, i, j) {
      assert i < j < |t| ==> keys[i] != keys[j];
    }
  }

  lemma EmptyTableFills(s: State, d: Desired, e: Env)
    requires s.table == []
    ensures AllCurrent(d, AddMissing(s, d, e).table) && Fills(d, AddMissing(s, d, e).table)
    ensures forall i :: 0 <= i < |AddMissing(s, d, e).table| ==> IsNew(AddMissing(s, d, e).table[i])
  {
    InKeyOrderSorts(d.Keys);
    var keys := InKeyOrder(d.Keys);
    AllMissing(d, keys, e.spawnAt);
    var t := Missing(d, [], keys, e.spawnAt);
    assert AddMissing(s, d, e).table == t;
    forall i | 0 <= i < |keys| ensures keys[i] in d {
      assert keys[i] in keys;
    }
    KeysFill(d, t, keys, e.spawnAt);
  }

  /** A record as `spawn_missing` adds it. */
  ghost predicate IsNew(r: Instance) {
    r == NewInstance(r.app, r.replica, r.port, r.specHash, r.nextLiveProbe)
  }

  // ----- whole ticks -----

  /** One record per desired slot, with the slot's own port and hash. */
  ghost predicate IsSteady(hasher: Hasher, s: State) {
    AllCurrent(DesiredIn(hasher, s), s.table) && Fills(DesiredIn(hasher, s), s.table)
  }

  lemma SpawnHalfSteady(hasher: Hasher, s: State, e: Env)
    requires IsSteady(hasher, AddMissing(s, DesiredIn(hasher, s), e))
    ensures IsSteady(hasher, SecondHalf(hasher, s, DesiredIn(hasher, s), e))
  {
    var d := DesiredIn(hasher, s);
    var s1 := AddMissing(s, d, e);
    assert DesiredIn(hasher, s1) == d;
    SpawnCurrent(hasher, s1, e);
    var s2 := SpawnReady(hasher, s1, e);
    SameSlotsFill(d, s1.table, s2.table);
    RetireCurrent(s2, d, e);
    ProbeCurrent(s2, d, e);
    SameSlotsFill(d, s2.table, Probe(s2, e).table);
  }

  lemma FirstHalfSteady(s: State, d: Desired, e: Env)
    requires AllCurrent(d, s.table)
    ensures FirstHalf(s, d, e) == StopCheckBlocked(s, e)
    ensures AllCurrent(d, FirstHalf(s, d, e).table) && SameSlots(s.table, FirstHalf(s, d, e).table)
  {
    TerminateCurrent(s, d, e);
    BlockedCurrent(s, d, e);
    RollCurrent(StopCheckBlocked(s, e), d, e);
  }

  /** The first tick from an empty table fills every slot. */
  lemma FirstTickFills(hasher: Hasher, s: State, e: Env)
    requires s.table == []
    ensures IsSteady(hasher, Tick(hasher, s, e)) && Tick(hasher, s, e).ports == s.ports
  {
    var s1, s2 := TickParts(hasher, s, e);
    var d := DesiredIn(hasher, s);
    assert s1.table == [];
    FirstHalfSteady(s1, d, e);
    assert DesiredIn(hasher, s1) == d && DesiredIn(hasher, s2) == d && s2.table == [];
    EmptyTableFills(s2, d, e);
    SpawnHalfSteady(hasher, s2, e);
  }

  /** ... and every later one keeps them filled, whatever exits, fails or is blocked. */
  lemma TickStaysSteady(hasher: Hasher, s: State, e: Env)
    requires IsSteady(hasher, s)
    ensures IsSteady(hasher, Tick(hasher, s, e)) && Tick(hasher, s, e).ports == s.ports
  {
    var s1, s2 := TickParts(hasher, s, e);
    var d := DesiredIn(hasher, s);
    ReapCurrent(ReverifyChecks(s, e), d, e);
    SameSlotsFill(d, s.table, s1.table);
    assert DesiredIn(hasher, s1) == d;
    FirstHalfSteady(s1, d, e);
    SameSlotsFill(d, s1.table, s2.table);
    assert DesiredIn(hasher, s2) == d;
    NothingMissing(s2, d, e);
    SpawnHalfSteady(hasher, s2, e);
  }

  // ----- runs -----

  /** What `IsSteady` promises in terms of the manifest. */
  ghost predicate OneRecordPerSlot(hasher: Hasher, s: State) {
    && (forall k :: IsSlot(s.m, s.selected, k) ==> Occupied(s.table, k))
    && (forall i :: 0 <= i < |s.table| ==>
          var r := s.table[i];
          && IsSlot(s.m, s.selected, r.Slot())
          && r.port == s.m.Lookup(r.app).value.port + r.replica <= U16_MAX
          && r.specHash == hasher(s.m.defaults, s.m.Lookup(r.app).value, r.replica, r.port))
    && (forall i, j :: 0 <= i < j < |s.table| ==>
          s.table[i].Slot() != s.table[j].Slot() && s.table[i].port != s.table[j].port)
  }

  lemma SteadyMeansBijection(hasher: Hasher, s: State)
    requires WellFormed(s.m) && s.ports == map[] && IsSteady(hasher, s)
    ensures OneRecordPerSlot(hasher, s)
  {
    var d := DesiredIn(hasher, s);
    DesiredSlotsAre(hasher, s.m, s.selected, s.ports);
    forall i | 0 <= i < |s.table|
      ensures IsSlot(s.m, s.selected, s.table[i].Slot())
      ensures s.table[i].port == s.m.Lookup(s.table[i].app).value.port + s.table[i].replica
      ensures s.table[i].specHash == hasher(s.m.defaults, s.m.Lookup(s.table[i].app).value, s.table[i].replica, s.table[i].port)
      ensures s.m.Lookup(s.table[i].app).value in s.m.apps
    {
      assert Current(d, s.table[i]);
      LookupIff(s.m, s.table[i].app);
    }
    forall i, j | 0 <= i < |s.table| && 0 <= j < |s.table|
      ensures s.table[i].port <= U16_MAX
      ensures i < j ==> s.table[i].Slot() != s.table[j].Slot() && s.table[i].port != s.table[j].port
    {
      var a, b := s.m.Lookup(s.table[i].app).value, s.m.Lookup(s.table[j].app).value;
      assert SlotsDiffer(s.table, i, j);
      DeclaredPortsDistinct(s.m, a, s.table[i].replica, b, s.table[j].replica);
    }
  }

  /** A step that does not edit the manifest: a tick, or a reload check that replaces nothing. */
  ghost predicate SameConfig(s: State, s': State) {
    s'.m == s.m && s'.selected == s.selected
  }

  lemma StepStaysSteady(hasher: Hasher, s: State, step: Step, s': State)
    requires Leads(hasher, s, step, s') && SameConfig(s, s') && IsSteady(hasher, s)
    ensures IsSteady(hasher, s') && s'.ports == s.ports
  {
    match step
    case Ticked(e) => TickStaysSteady(hasher, s, e);
    case Reloaded(o) =>
      ReloadChanges(s, o);
      assert DesiredIn(hasher, s') == DesiredIn(hasher, s);
  }

  ghost predicate SteadyOn(hasher: Hasher, ports: map<Key, nat>, s: State) {
    IsSteady(hasher, s) && s.ports == ports
  }

  lemma RunStepStaysSteady(hasher: Hasher, ss: seq<State>, steps: seq<Step>, ports: map<Key, nat>, a: nat, b: nat, k: nat)
    requires IsRun(hasher, ss, steps) && a <= k < b < |ss| && Unedited(ss, a, b)
    requires SteadyOn(hasher, ports, ss[k])
    ensures SteadyOn(hasher, ports, ss[k + 1])
  {
    assert LeadsAt(hasher, ss, steps, k);
    StepStaysSteady(hasher, ss[k], steps[k], ss[k + 1]);
  }

  /** Between any two edits: a table with one current record per slot stays that way, on the same ports. */
  lemma StaysSteady(hasher: Hasher, ss: seq<State>, steps: seq<Step>, a: nat, b: nat)
    requires IsRun(hasher, ss, steps) && a <= b < |ss| && Unedited(ss, a, b) && IsSteady(hasher, ss[a])
    ensures IsSteady(hasher, ss[b]) && ss[b].ports == ss[a].ports
  {
    var ports := ss[a].ports;
    forall j: nat | a <= j < b && SteadyOn(hasher, ports, ss[j]) ensures SteadyOn(hasher, ports, ss[j + 1]) {
      RunStepStaysSteady(hasher, ss, steps, ports, a, b, j);
    }
    AlongStates(ss, (s, j) => SteadyOn(hasher, ports, s), a, b);
  }

  /** Before the first tick nothing, afterwards one current record per slot on its declared port. */
  ghost predicate Begun(hasher: Hasher, s: State) {
    s.ports == map[] && if s.tick == 0 then s.table == [] else IsSteady(hasher, s)
  }

  lemma StepBegun(hasher: Hasher, s: State, step: Step, s': State)
    requires Leads(hasher, s, step, s') && SameConfig(s, s') && Begun(hasher, s)
    ensures Begun(hasher, s')
  {
    match step
    case Ticked(e) =>
      TickKeepsConfig(hasher, s, e);
      if s.tick == 0 {
        FirstTickFills(hasher, s, e);
      } else {
        TickStaysSteady(hasher, s, e);
      }
    case Reloaded(o) =>
      ReloadChanges(s, o);
      if s.tick > 0 {
        StepStaysSteady(hasher, s, step, s');
      }
  }

  lemma RunStepBegun(hasher: Hasher, ss: seq<State>, steps: seq<Step>, b: nat, k: nat)
    requires IsRun(hasher, ss, steps) && k < b < |ss| && Unedited(ss, 0, b) && Begun(hasher, ss[k])
    ensures Begun(hasher, ss[k + 1])
  {
    assert LeadsAt(hasher, ss, steps, k);
    StepBegun(hasher, ss[k], steps[k], ss[k + 1]);
  }

  lemma SteadyAfterFirstTick(hasher: Hasher, ss: seq<State>, steps: seq<Step>, k: nat)
    requires IsRun(hasher, ss, steps) && k < |ss| && Unedited(ss, 0, k)
    ensures Begun(hasher, ss[k])
  {
    RunStartsBegun(hasher, ss, steps);
    forall j: nat | j < k && Begun(hasher, ss[j]) ensures Begun(hasher, ss[j + 1]) {
      RunStepBegun(hasher, ss, steps, k, j);
    }
    AlongStates(ss, (s, j) => Begun(hasher, s), 0, k);
  }

  lemma RunStartsBegun(hasher: Hasher, ss: seq<State>, steps: seq<Step>)
    requires IsRun(hasher, ss, steps)
    ensures Begun(hasher, ss[0])
  {
  }

  /**
   * In every run, reload checks included, from the first tick to the first edit, whatever
   * processes, probes and checks do: exactly one record per desired slot, with the current hash
   * and the declared port, and no two records on the same port.
   */
  lemma TableIsBijection(hasher: Hasher, ss: seq<State>, steps: seq<Step>, k: nat)
    requires IsRun(hasher, ss, steps) && k < |ss| && Unedited(ss, 0, k) && ss[k].tick > 0
    ensures OneRecordPerSlot(hasher, ss[k])
  {
    SteadyAfterFirstTick(hasher, ss, steps, k);
    ReachableOk(hasher, ss, steps, k);
    SteadyMeansBijection(hasher, ss[k]);
  }
}
