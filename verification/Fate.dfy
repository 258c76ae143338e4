/** What one tick decides about a running record whose slot is up to date, undesired, or being stopped. */
module Fates {
  import opened Prelude
  import opened Manifests
  import opened KeyOrder
  import opened Instances
  import opened Stages
  import opened Lifecycle
  import opened Tracking

  /** The record's slot is desired, with the hash the record has. */
  predicate UpToDate(d: Desired, r: Instance) {
    r.Slot() in d && d[r.Slot()].hash == r.specHash
  }

  /** Stopped for good if undesired, for respawn if a check blocks it, otherwise left alone. */
  function Fate(m: Manifest, ok: map<string, bool>, d: Desired, e: Env, r: Instance): Instance {
    if !r.Serving() then r
    else if r.Slot() !in d then BeginStop(r, false, e.terminateAt)
    else if CheckBlocked(m, ok, r.app) then BeginStop(r, true, e.blockedAt)
    else r
  }

  ghost predicate At(t: Table, p: nat, r: Instance) {
    p < |t| && t[p] == r
  }

  ghost function Rolled(hasher: Hasher, s: State, e: Env): State {
    FirstHalf(s, DesiredIn(hasher, s), e)
  }

  /** Everything a tick does between the reap and the probes. */
  ghost function AfterReap(hasher: Hasher, s: State, e: Env): State {
    var rolled := Rolled(hasher, s, e);
    var d := DesiredIn(hasher, rolled);
    RetireStaleSurplus(SpawnMissing(hasher, rolled, d, e), d, e)
  }

  /** The loop's state in a tick when everything but the probes is done. */
  ghost function BeforeProbe(hasher: Hasher, s: State, e: Env): State {
    AfterReap(hasher, Reap(ReverifyChecks(s, e), e), e)
  }

  lemma BeforeProbeIs(hasher: Hasher, s: State, e: Env)
    ensures Tick(hasher, s, e).table == Probe(BeforeProbe(hasher, s, e), e).table
  {
  }

  lemma VictimIsStale(m: Manifest, d: Desired, t: Table, app: string)
    ensures var v := RollVictim(m, d, t, app); v.Some? ==> v.value < |t| && Stale(d, t[v.value])
  {
  }

  lemma MoveIsUncovered(m: Manifest, d: Desired, t: Table, app: string)
    ensures var mv := SurgeMove(m, d, t, app);
            mv.Some? ==> mv.value.slot in d && !HasHash(t, mv.value.slot, d[mv.value.slot].hash)
  {
  }

  /** A slot that asks for something else after the roll has been moved. */
  lemma ChangedIsMoved(hasher: Hasher, s: State, d: Desired, e: Env, k: Key)
    requires d == DesiredIn(hasher, s) && k in d
    ensures var d2 := DesiredIn(hasher, RollStale(s, d, e));
            k in d2 && (d2[k] != d[k] ==> var mv := SurgeMove(s.m, d, s.table, k.app); mv.Some? && mv.value.slot == k)
  {
    var s2 := RollStale(s, d, e);
    DesiredSlotsAre(hasher, s.m, s.selected, s.ports);
    DesiredSlotsAre(hasher, s.m, s.selected, s2.ports);
    var moves := SurgeMoves(s.m, s.selected, d, s.table);
    if k !in MovedPorts(moves, s.selected) {
      assert SlotPort(s.m, s2.ports, k) == SlotPort(s.m, s.ports, k);
    }
  }

  /** It has a stale Ready record, and its app has no other victim. */
  lemma MovedIsStale(m: Manifest, d: Desired, t: Table, app: string) returns (j: nat)
    requires SurgeMove(m, d, t, app).Some?
    ensures j < |t| && t[j].Slot() == SurgeMove(m, d, t, app).value.slot && Stale(d, t[j]) && t[j].phase == Ready
    ensures RollVictim(m, d, t, app).None?
  {
    j := FirstStaleReady(d, t, app).value;
  }

  /** A running record goes through the first half of a tick as its fate says. */
  lemma FirstHalfFate(s: State, d: Desired, e: Env, i: nat)
    requires i < |s.table| && s.table[i].Running()
    requires s.table[i].Serving() && s.table[i].Slot() in d ==> UpToDate(d, s.table[i])
    ensures var p := PlaceAfterTerminate(s, d, e, i);
            p.Some? ==> At(FirstHalf(s, d, e).table, p.value, Fate(s.m, s.checksOk, d, e, s.table[i]))
  {
    var p := TerminateAt(s, d, e, i);
    if p.Some? {
      var s1 := TerminateUndesired(s, d, e);
      var s2 := StopCheckBlocked(s1, e);
      var r2 := s2.table[p.value];
      assert r2 == Fate(s.m, s.checksOk, d, e, s.table[i]);
      VictimIsStale(s2.m, d, s2.table, r2.app);
      VictimNotTerminating(s2.m, d, s2.table, r2.app);
      assert !IsVictim(RollVictims(s2.m, s2.selected, d, s2.table), s2.table, p.value);
    }
  }

  /** A slot with a record of the desired hash is not moved by a roll, so it asks for the same afterwards. */
  lemma CoveredSlotStays(hasher: Hasher, s: State, d: Desired, e: Env, k: Key)
    requires d.Keys == DesiredIn(hasher, s).Keys
    requires k in d && d[k] == DesiredIn(hasher, s)[k] && HasHash(s.table, k, d[k].hash)
    ensures k in DesiredIn(hasher, RollStale(s, d, e)) && DesiredIn(hasher, RollStale(s, d, e))[k] == d[k]
  {
    var s' := RollStale(s, d, e);
    DesiredSlotsAre(hasher, s.m, s.selected, s.ports);
    DesiredSlotsAre(hasher, s'.m, s'.selected, s'.ports);
    MoveIsUncovered(s.m, d, s.table, k.app);
    assert k !in MovedSlots(SurgeMoves(s.m, s.selected, d, s.table), s.selected);
    assert SlotPort(s'.m, s'.ports, k) == SlotPort(s.m, s.ports, k);
  }

  lemma FirstHalfSameWant(hasher: Hasher, s: State, e: Env, i: nat)
    requires i < |s.table| && UpToDate(DesiredIn(hasher, s), s.table[i])
    ensures UpToDate(DesiredIn(hasher, FirstHalf(s, DesiredIn(hasher, s), e)), s.table[i])
  {
    var d := DesiredIn(hasher, s);
    var p := TerminateAt(s, d, e, i);
    var s1 := TerminateUndesired(s, d, e);
    var s2 := StopCheckBlocked(s1, e);
    assert p.Some?;
    assert s2.table[p.value].Slot() == s.table[i].Slot() && s2.table[p.value].specHash == s.table[i].specHash;
    assert HasHash(s2.table, s.table[i].Slot(), d[s.table[i].Slot()].hash);
    assert DesiredIn(hasher, s2) == d;
    CoveredSlotStays(hasher, s2, d, e, s.table[i].Slot());
  }

  lemma SecondHalfSpares(hasher: Hasher, s: State, d: Desired, e: Env, p: nat)
    requires p < |s.table| && s.table[p].Running() && (s.table[p].Serving() ==> UpToDate(d, s.table[p]))
    ensures var u := RetireStaleSurplus(SpawnMissing(hasher, s, d, e), d, e).table;
            p < |u| && u[p] == s.table[p]
  {
    assert AddMissing(s, d, e).table[p] == s.table[p];
  }

  /**
   * From any table, in every environment: what the stages between the reap and the probes do
   * to a running record that is up to date, undesired, or already being stopped.
   */
  lemma FateAfterReap(hasher: Hasher, s: State, e: Env, i: nat)
    requires i < |s.table| && s.table[i].Running()
    requires s.table[i].Serving() && s.table[i].Slot() in DesiredIn(hasher, s) ==> UpToDate(DesiredIn(hasher, s), s.table[i])
    ensures var d := DesiredIn(hasher, s);
            var p := PlaceAfterTerminate(s, d, e, i);
            p.Some? ==> At(AfterReap(hasher, s, e).table, p.value, Fate(s.m, s.checksOk, d, e, s.table[i]))
  {
    var d := DesiredIn(hasher, s);
    FirstHalfFate(s, d, e, i);
    var p := PlaceAfterTerminate(s, d, e, i);
    if p.Some? {
      var s1 := FirstHalf(s, d, e);
      if s1.table[p.value].Serving() {
        FirstHalfSameWant(hasher, s, e, i);
      }
      SecondHalfSpares(hasher, s1, DesiredIn(hasher, s1), e, p.value);
    }
  }

  // ----- the whole tick -----

  lemma ReapKeepsWants(hasher: Hasher, s: State, e: Env)
    ensures DesiredIn(hasher, Reap(ReverifyChecks(s, e), e)) == DesiredIn(hasher, s)
  {
  }

  lemma PlaceIs(hasher: Hasher, s: State, e: Env, i: nat) returns (q: Option<nat>)
    requires i < |s.table|
    ensures var reaped := Reap(ReverifyChecks(s, e), e);
            && (q.None? <==> s.table[i].Slot() in DroppedSlots(s.table, e.wait))
            && (q.None? ==> Place(hasher, s, e, i).None?)
            && (q.Some? ==> At(reaped.table, q.value, ReapOne(s.table[i], s.m.defaults, e.wait, e.reapAt)))
            && (q.Some? ==> Place(hasher, s, e, i) == PlaceAfterTerminate(reaped, DesiredIn(hasher, reaped), e, q.value))
  {
    q := ReapAt(ReverifyChecks(s, e), e, i);
  }

  /** A tick removes a record exactly with its whole slot, in the reap or in the termination pass. */
  lemma PlaceNoneIff(hasher: Hasher, s: State, e: Env, i: nat)
    requires i < |s.table|
    ensures Place(hasher, s, e, i).None? <==>
              s.table[i].Slot() in DroppedSlots(s.table, e.wait)
              || s.table[i].Slot() in IdleUndesired(Reap(ReverifyChecks(s, e), e).table, DesiredIn(hasher, s))
  {
    var q := PlaceIs(hasher, s, e, i);
    ReapKeepsWants(hasher, s, e);
  }

  /** The same for the whole tick, counted from the table it finds. */
  lemma FateOfTick(hasher: Hasher, s: State, e: Env, i: nat)
    requires i < |s.table| && s.table[i].Running() && !e.wait(s.table[i].handle.value.pid).Exited?
    requires s.table[i].Serving() && s.table[i].Slot() in DesiredIn(hasher, s) ==> UpToDate(DesiredIn(hasher, s), s.table[i])
    ensures var p := Place(hasher, s, e, i);
            var ok := ReverifyChecks(s, e).checksOk;
            var reaped := ReapOne(s.table[i], s.m.defaults, e.wait, e.reapAt);
            p.Some? ==> At(BeforeProbe(hasher, s, e).table, p.value, Fate(s.m, ok, DesiredIn(hasher, s), e, reaped))
  {
    var q := PlaceIs(hasher, s, e, i);
    if q.Some? {
      ReapKeepsWants(hasher, s, e);
      FateAfterReap(hasher, Reap(ReverifyChecks(s, e), e), e, q.value);
    }
  }

  /** Another record of the same slot takes record `i` with it: it is dropped, or idle in a slot no longer wanted. */
  ghost predicate Uproots(s: State, e: Env, i: nat, j: nat)
    requires i < |s.table|
  {
    && j < |s.table| && s.table[j].Slot() == s.table[i].Slot()
    && (ExitDrops(s.table[j], e.wait)
        || (!IsSlot(s.m, s.selected, s.table[i].Slot()) && !ReapOne(s.table[j], s.m.defaults, e.wait, e.reapAt).Running()))
  }

  lemma DroppedIff(t: Table, wait: Pid -> Wait, k: Key)
    ensures k in DroppedSlots(t, wait) <==> exists j :: 0 <= j < |t| && t[j].Slot() == k && ExitDrops(t[j], wait)
  {
  }

  /** The idle records a termination pass finds are those a reap leaves without a process. */
  lemma IdleAfterReapIff(s: State, d: Desired, e: Env, k: Key)
    requires k !in DroppedSlots(s.table, e.wait) && k !in d
    ensures k in IdleUndesired(Reap(s, e).table, d)
       <==> exists j :: 0 <= j < |s.table| && s.table[j].Slot() == k && !ReapOne(s.table[j], s.m.defaults, e.wait, e.reapAt).Running()
  {
    var t, gone := ReapedTable(s.table, s.m.defaults, e.wait, e.reapAt), DroppedSlots(s.table, e.wait);
    RetainMembers(t, gone);
    var u := Reap(s, e).table;
    if k in IdleUndesired(u, d) {
      var p :| 0 <= p < |u| && u[p].Slot() !in d && !u[p].Running() && u[p].Slot() == k;
      assert u[p] in t;
      var j :| 0 <= j < |t| && t[j] == u[p];
    }
    if j :| 0 <= j < |s.table| && s.table[j].Slot() == k && !ReapOne(s.table[j], s.m.defaults, e.wait, e.reapAt).Running() {
      assert t[j] in t && t[j] in u;
      var p :| 0 <= p < |u| && u[p] == t[j];
    }
  }

  /**
   * A process that has not exited leaves its record in a tick exactly when another record of
   * its slot exits after a final stop, or is idle while the slot is no longer desired.
   */
  lemma LiveProcessLeavesIff(hasher: Hasher, s: State, e: Env, i: nat)
    requires i < |s.table| && s.table[i].Running() && !e.wait(s.table[i].handle.value.pid).Exited?
    ensures Place(hasher, s, e, i).None? <==> exists j :: Uproots(s, e, i, j)
  {
    var s0, k := ReverifyChecks(s, e), s.table[i].Slot();
    PlaceNoneIff(hasher, s, e, i);
    DroppedIff(s.table, e.wait, k);
    DesiredSlotsAre(hasher, s.m, s.selected, s.ports);
    if k !in DroppedSlots(s.table, e.wait) && k !in DesiredIn(hasher, s) {
      IdleAfterReapIff(s0, DesiredIn(hasher, s), e, k);
    }
    UprootsIff(s, e, i);
  }

  lemma UprootsIff(s: State, e: Env, i: nat)
    requires i < |s.table|
    ensures (exists j :: Uproots(s, e, i, j)) <==>
              var k := s.table[i].Slot();
              || (exists j :: 0 <= j < |s.table| && s.table[j].Slot() == k && ExitDrops(s.table[j], e.wait))
              || (!IsSlot(s.m, s.selected, k)
                  && exists j :: 0 <= j < |s.table| && s.table[j].Slot() == k
                              && !ReapOne(s.table[j], s.m.defaults, e.wait, e.reapAt).Running())
  {
    var k := s.table[i].Slot();
    if j :| 0 <= j < |s.table| && s.table[j].Slot() == k && ExitDrops(s.table[j], e.wait) {
      assert Uproots(s, e, i, j);
    }
    if !IsSlot(s.m, s.selected, k) {
      if j :| 0 <= j < |s.table| && s.table[j].Slot() == k && !ReapOne(s.table[j], s.m.defaults, e.wait, e.reapAt).Running() {
        assert Uproots(s, e, i, j);
      }
    }
  }

  // ----- which records a tick adds -----

  /** Among the records from place `n` on there is one of slot `k`. */
  ghost predicate HasFrom(t: Table, n: nat, k: Key) {
    exists i :: n <= i < |t| && t[i].Slot() == k
  }

  lemma {:induction false} MissingIff(d: Desired, t: Table, keys: seq<Key>, now: nat, k: Key)
    requires forall l :: l in keys ==> l in d
    ensures HasFrom(Missing(d, t, keys, now), 0, k) <==> k in keys && !HasHash(t, k, d[k].hash)
  {
    if keys != [] {
      var front, last := keys[..|keys| - 1], keys[|keys| - 1];
      var before, more := Missing(d, t, front, now), Missing(d, t, keys, now);
      MissingIff(d, t, front, now, k);
      assert k in keys <==> k in front || k == last;
      if i :| 0 <= i < |before| && before[i].Slot() == k {
        assert more[i].Slot() == k;
      }
      if k == last && !HasHash(t, k, d[k].hash) {
        assert more[|more| - 1].Slot() == k;
      }
      if i :| 0 <= i < |more| && more[i].Slot() == k {
        assert i < |before| ==> before[i].Slot() == k;
      }
    }
  }

  lemma AddsIff(s: State, d: Desired, e: Env, k: Key)
    ensures HasFrom(AddMissing(s, d, e).table, |s.table|, k) <==> k in d && !HasHash(s.table, k, d[k].hash)
  {
    InKeyOrderSorts(d.Keys);
    var keys := InKeyOrder(d.Keys);
    var more, u := Missing(d, s.table, keys, e.spawnAt), AddMissing(s, d, e).table;
    MissingIff(d, s.table, keys, e.spawnAt, k);
    if i :| 0 <= i < |more| && more[i].Slot() == k {
      assert u[|s.table| + i].Slot() == k;
    }
    if i :| |s.table| <= i < |u| && u[i].Slot() == k {
      assert more[i - |s.table|].Slot() == k;
    }
  }

  lemma FromSameSlots(t: Table, u: Table, n: nat, k: Key)
    requires |t| == |u| && forall i :: 0 <= i < |t| ==> t[i].Slot() == u[i].Slot()
    ensures HasFrom(t, n, k) <==> HasFrom(u, n, k)
  {
  }

  lemma SecondHalfSlots(hasher: Hasher, s: State, d: Desired, e: Env)
    ensures var t, u := AddMissing(s, d, e).table, RetireStaleSurplus(SpawnMissing(hasher, s, d, e), d, e).table;
            |t| == |u| && forall i :: 0 <= i < |t| ==> t[i].Slot() == u[i].Slot()
  {
  }

  lemma RetainHashes(t: Table, gone: set<Key>, k: Key, hash: nat)
    ensures HasHash(Retain(t, gone), k, hash) <==> k !in gone && HasHash(t, k, hash)
  {
    var u := Retain(t, gone);
    if i: nat :| i < |t| && t[i].Slot() == k && t[i].specHash == hash && k !in gone {
      RetainAt(t, gone, i);
      assert u[PosAfter(t, gone, i)].Slot() == k && u[PosAfter(t, gone, i)].specHash == hash;
    }
    if p: nat :| p < |u| && u[p].Slot() == k && u[p].specHash == hash {
      var i := RetainFrom(t, gone, p);
      assert t[i].Slot() == k && t[i].specHash == hash;
    }
  }

  ghost predicate SameHashes(t: Table, u: Table) {
    |t| == |u| && forall i :: 0 <= i < |t| ==> t[i].Slot() == u[i].Slot() && t[i].specHash == u[i].specHash
  }

  lemma SameHasHash(t: Table, u: Table, k: Key, hash: nat)
    requires SameHashes(t, u)
    ensures HasHash(t, k, hash) <==> HasHash(u, k, hash)
  {
  }

  lemma BlockedHashes(s: State, e: Env)
    ensures SameHashes(s.table, StopCheckBlocked(s, e).table)
  {
  }

  lemma RollHashes(s: State, d: Desired, e: Env)
    ensures SameHashes(s.table, RollStale(s, d, e).table)
  {
  }

  /** The stages up to the roll keep every record of a desired slot, with its hash. */
  lemma FirstHalfHashes(s: State, d: Desired, e: Env, k: Key, hash: nat)
    requires k in d
    ensures HasHash(FirstHalf(s, d, e).table, k, hash) <==> HasHash(s.table, k, hash)
  {
    var t := StoppedUndesired(s.table, d, e.terminateAt);
    SameHasHash(s.table, t, k, hash);
    RetainHashes(t, IdleUndesired(s.table, d), k, hash);
    var s1 := TerminateUndesired(s, d, e);
    BlockedHashes(s1, e);
    var s2 := StopCheckBlocked(s1, e);
    SameHasHash(s1.table, s2.table, k, hash);
    RollHashes(s2, d, e);
    SameHasHash(s2.table, RollStale(s2, d, e).table, k, hash);
  }

  lemma ReapHashes(s: State, e: Env, k: Key, hash: nat)
    ensures HasHash(Reap(s, e).table, k, hash) <==> k !in DroppedSlots(s.table, e.wait) && HasHash(s.table, k, hash)
  {
    var t := ReapedTable(s.table, s.m.defaults, e.wait, e.reapAt);
    SameHasHash(s.table, t, k, hash);
    RetainHashes(t, DroppedSlots(s.table, e.wait), k, hash);
  }

  /** The tick adds a record for slot `k`. */
  ghost predicate Adds(hasher: Hasher, s: State, e: Env, k: Key) {
    var reaped := Reap(ReverifyChecks(s, e), e);
    HasFrom(AfterReap(hasher, reaped, e).table, |Rolled(hasher, reaped, e).table|, k)
  }

  lemma AfterReapAdds(hasher: Hasher, s: State, e: Env, k: Key)
    ensures var rolled := Rolled(hasher, s, e);
            var d := DesiredIn(hasher, rolled);
            HasFrom(AfterReap(hasher, s, e).table, |rolled.table|, k) <==> k in d && !HasHash(rolled.table, k, d[k].hash)
  {
    var rolled := Rolled(hasher, s, e);
    var d := DesiredIn(hasher, rolled);
    AddsIff(rolled, d, e, k);
    SecondHalfSlots(hasher, rolled, d, e);
    FromSameSlots(AddMissing(rolled, d, e).table, AfterReap(hasher, s, e).table, |rolled.table|, k);
  }

  /** If the roll moves no slot, a tick adds exactly the desired slots that no remaining record covers. */
  lemma TickAddsIff(hasher: Hasher, s: State, e: Env, k: Key)
    requires var reaped := Reap(ReverifyChecks(s, e), e);
             DesiredIn(hasher, Rolled(hasher, reaped, e)) == DesiredIn(hasher, s)
    ensures var d := DesiredIn(hasher, s);
            Adds(hasher, s, e, k) <==> k in d && (k in DroppedSlots(s.table, e.wait) || !HasHash(s.table, k, d[k].hash))
  {
    var s0, d := ReverifyChecks(s, e), DesiredIn(hasher, s);
    var reaped := Reap(s0, e);
    ReapKeepsWants(hasher, s, e);
    AfterReapAdds(hasher, reaped, e, k);
    if k in d {
      FirstHalfHashes(reaped, d, e, k, d[k].hash);
      ReapHashes(s0, e, k, d[k].hash);
    }
  }

  /** The retire and probe stages after a spawn. */
  function AfterSpawn(m: Manifest, e: Env, r: Instance, p: nat, retired: bool): Instance {
    ProbeOne(m, StopIf(retired, r, false, e.retireAt), e.probeAt, e.probe(p))
  }

  /** Record `p` of the table after the tick was added by the tick. */
  ghost predicate AddedAt(hasher: Hasher, s: State, e: Env, p: nat) {
    |Rolled(hasher, Reap(ReverifyChecks(s, e), e), e).table| <= p < |Tick(hasher, s, e).table|
  }

  /** An added record is a new one, perhaps spawned, perhaps retired at once, and probed. */
  lemma AddedRecord(hasher: Hasher, s: State, d: Desired, e: Env, p: nat) returns (r: Instance, spawned: bool, retired: bool)
    requires |s.table| <= p < |SecondHalf(hasher, s, d, e).table|
    ensures !r.Running() && r.restarts == 0 && (spawned ==> s.m.Has(r.app))
    ensures var tried := if spawned then SpawnOne(hasher, s.m.defaults, s.m.Lookup(r.app).value, r, e.spawn(p), Pid(s.tick, p)) else r;
            SecondHalf(hasher, s, d, e).table[p] == AfterSpawn(s.m, e, tried, p, retired)
  {
    var s1 := AddMissing(s, d, e);
    AddedIsNew(s, d, e, p);
    r := s1.table[p];
    spawned := SpawnGate(s1.m, s1.checksOk, ReadyApps(s1.table), r, e.spawnAt);
    var s2 := SpawnReady(hasher, s1, e);
    retired := s.m.defaults.maxSurge > 0 && Retires(d, s2.table, s2.table[p]);
  }
}
