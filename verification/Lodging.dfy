/** Slots that an edit leaves with a record nothing will ever remove. */
module Lodgings {
  import opened Prelude
  import opened Manifests
  import opened KeyOrder
  import opened Instances
  import opened Stages
  import opened Lifecycle
  import opened Tracking
  import opened Fates
  import opened Runs
  import opened Steady
  import opened Edits
  import opened IdleStops

  // ----- slots in which nothing ever comes up -----

  /**
   * Every record of the slot has been stopped without a process, and one of them has the hash
   * the slot asks for: so no record is added, and none is spawned.
   */
  ghost predicate DeadSlot(d: Desired, t: Table, k: Key) {
    && k in d && HasHash(t, k, d[k].hash)
    && forall i :: 0 <= i < |t| && t[i].Slot() == k ==> StoppedIdle(t[i])
  }

  lemma ClearedSlot(d: Defaults, e: Env, r: Instance, v: Verdict)
    ensures ClearedRecord(d, e, r, v).Slot() == r.Slot()
  {
    var reaped := ReapOne(r, d, e.wait, e.reapAt);
    assert reaped.Slot() == r.Slot();
  }

  lemma SpawnedSlot(hasher: Hasher, m: Manifest, tick: nat, e: Env, r: Instance, p: nat, v: Verdict)
    ensures SpawnedRecord(hasher, m, tick, e, r, p, v).Slot() == r.Slot()
  {
  }

  lemma TickRecordSlot(hasher: Hasher, m: Manifest, tick: nat, e: Env, r: Instance, p: nat, v: Verdict)
    ensures TickRecord(hasher, m, tick, e, r, p, v).Slot() == r.Slot()
  {
    var cleared := ClearedRecord(m.defaults, e, r, v);
    ClearedSlot(m.defaults, e, r, v);
    SpawnedSlot(hasher, m, tick, e, cleared, p, v);
    ProbeKeeps(m, StopIf(v.retired, SpawnedRecord(hasher, m, tick, e, cleared, p, v), false, e.retireAt), e.probeAt, e.probe(p));
  }

  /** What a tick leaves in a dead slot was in it before. */
  lemma DeadRecordFrom(hasher: Hasher, s: State, e: Env, k: Key, p: nat)
    requires DeadSlot(DesiredIn(hasher, s), s.table, k)
    requires p < |Rolled(hasher, Reap(ReverifyChecks(s, e), e), e).table| && p < |Tick(hasher, s, e).table|
    requires Tick(hasher, s, e).table[p].Slot() == k
    ensures StoppedIdle(Tick(hasher, s, e).table[p])
  {
    var i := PlaceFrom(hasher, s, e, p);
    var v := TickAt(hasher, s, e, i);
    TickRecordSlot(hasher, s.m, s.tick, e, s.table[i], p, v);
    IdleStopIsKept(hasher, s, e, i);
  }

  /** Its records are all kept, and their slot still asks for the same. */
  lemma DeadSlotCovered(hasher: Hasher, s: State, e: Env, k: Key)
    requires DeadSlot(DesiredIn(hasher, s), s.table, k)
    ensures var d, rolled := DesiredIn(hasher, s), Rolled(hasher, Reap(ReverifyChecks(s, e), e), e);
            && k in DesiredIn(hasher, rolled) && DesiredIn(hasher, rolled)[k].hash == d[k].hash
            && HasHash(rolled.table, k, d[k].hash)
  {
    var d, s0 := DesiredIn(hasher, s), ReverifyChecks(s, e);
    var s1 := Reap(s0, e);
    ReapKeepsWants(hasher, s, e);
    DroppedIff(s.table, e.wait, k);
    ReapHashes(s0, e, k, d[k].hash);
    var i: nat :| i < |s1.table| && s1.table[i].Slot() == k && s1.table[i].specHash == d[k].hash;
    FirstHalfSameWant(hasher, s1, e, i);
    FirstHalfHashes(s1, d, e, k, d[k].hash);
  }

  lemma DeadSlotGetsNothing(hasher: Hasher, s: State, e: Env, k: Key, p: nat)
    requires DeadSlot(DesiredIn(hasher, s), s.table, k) && p < |Tick(hasher, s, e).table| && Tick(hasher, s, e).table[p].Slot() == k
    ensures p < |Rolled(hasher, Reap(ReverifyChecks(s, e), e), e).table|
  {
    var s1 := Reap(ReverifyChecks(s, e), e);
    var rolled := Rolled(hasher, s1, e);
    DeadSlotCovered(hasher, s, e, k);
    AfterReapAdds(hasher, s1, e, k);
    BeforeProbeIs(hasher, s, e);
    var b := AfterReap(hasher, s1, e);
    ProbeKeeps(b.m, b.table[p], e.probeAt, e.probe(p));
    assert b.table[p].Slot() == k;
  }

  lemma RolledToEnd(hasher: Hasher, s: State, e: Env, k: Key, hash: nat)
    requires DeadSlot(DesiredIn(hasher, s), s.table, k) && hash == DesiredIn(hasher, s)[k].hash
    ensures HasHash(Tick(hasher, s, e).table, k, hash)
  {
    var i: nat :| i < |s.table| && s.table[i].Slot() == k && s.table[i].specHash == hash;
    IdleStopIsKept(hasher, s, e, i);
    DesiredSlotsAre(hasher, s.m, s.selected, s.ports);
    var p := Place(hasher, s, e, i).value;
    assert Tick(hasher, s, e).table[p] == s.table[i];
  }

  /** A tick leaves a dead slot dead, in every environment and with or without surge. */
  lemma TickLeavesDead(hasher: Hasher, s: State, e: Env, k: Key)
    requires DeadSlot(DesiredIn(hasher, s), s.table, k)
    ensures DeadSlot(DesiredIn(hasher, Tick(hasher, s, e)), Tick(hasher, s, e).table, k)
  {
    var t := Tick(hasher, s, e).table;
    DeadSlotCovered(hasher, s, e, k);
    TickWantsAfterRoll(hasher, s, e);
    RolledToEnd(hasher, s, e, k, DesiredIn(hasher, s)[k].hash);
    forall p: nat | p < |t| && t[p].Slot() == k ensures StoppedIdle(t[p]) {
      DeadSlotGetsNothing(hasher, s, e, k, p);
      DeadRecordFrom(hasher, s, e, k, p);
    }
  }

  lemma TickWantsAfterRoll(hasher: Hasher, s: State, e: Env)
    ensures DesiredIn(hasher, Tick(hasher, s, e)) == DesiredIn(hasher, Rolled(hasher, Reap(ReverifyChecks(s, e), e), e))
  {
    var s1, s2 := TickParts(hasher, s, e);
  }

  ghost predicate DeadIn(hasher: Hasher, s: State, k: Key) {
    DeadSlot(DesiredIn(hasher, s), s.table, k)
  }

  lemma StepLeavesDead(hasher: Hasher, s: State, step: Step, s': State, k: Key)
    requires Leads(hasher, s, step, s') && SameConfig(s, s') && DeadIn(hasher, s, k)
    ensures DeadIn(hasher, s', k)
  {
    match step
    case Ticked(e) => TickLeavesDead(hasher, s, e, k);
    case Reloaded(o) =>
      ReloadChanges(s, o);
      assert DesiredIn(hasher, s') == DesiredIn(hasher, s);
  }

  lemma RunStepLeavesDead(hasher: Hasher, ss: seq<State>, steps: seq<Step>, a: nat, b: nat, n: nat, k: Key)
    requires IsRun(hasher, ss, steps) && a <= n < b < |ss| && Unedited(ss, a, b) && DeadIn(hasher, ss[n], k)
    ensures DeadIn(hasher, ss[n + 1], k)
  {
    assert LeadsAt(hasher, ss, steps, n);
    StepLeavesDead(hasher, ss[n], steps[n], ss[n + 1], k);
  }

  /** Until the next edit a dead slot stays dead, whatever happens: its app's replica never starts again. */
  lemma DeadSlotStaysDead(hasher: Hasher, ss: seq<State>, steps: seq<Step>, a: nat, b: nat, k: Key)
    requires IsRun(hasher, ss, steps) && a <= b < |ss| && Unedited(ss, a, b) && DeadIn(hasher, ss[a], k)
    ensures DeadIn(hasher, ss[b], k)
  {
    forall n: nat | a <= n < b && DeadIn(hasher, ss[n], k) ensures DeadIn(hasher, ss[n + 1], k) {
      RunStepLeavesDead(hasher, ss, steps, a, b, n, k);
    }
    AlongStates(ss, (s: State, n: nat) => DeadIn(hasher, s, k), a, b);
  }

  // ----- when a tick leaves a dead slot -----

  /** What the retire stage picks has a replacement, which is not stopped without a process. */
  lemma RetiredIsReplaced(s: State, d: Desired, e: Env, p: nat) returns (q: nat)
    requires p < |s.table| && s.m.defaults.maxSurge > 0 && Retires(d, s.table, s.table[p])
    ensures var u := Probe(RetireStaleSurplus(s, d, e), e).table;
            q < |u| && u[q].Slot() == s.table[p].Slot() && !StoppedIdle(u[q])
  {
    q :| 0 <= q < |s.table| && s.table[q].Slot() == s.table[p].Slot() && s.table[q].specHash == d[s.table[p].Slot()].hash && s.table[q].phase == Ready;
    var u := RetireStaleSurplus(s, d, e);
    assert u.table[q] == s.table[q];
    ProbeStopsNone(u, e, q);
    ProbeSameSlots(u, e);
  }

  /** If no record of a slot is up after the tick, none has been spawned, added or retired since the roll. */
  lemma DeadFromRoll(hasher: Hasher, s: State, d: Desired, e: Env, k: Key, p: nat)
    requires var u := SecondHalf(hasher, s, d, e).table;
             p < |u| && u[p].Slot() == k && forall i :: 0 <= i < |u| && u[i].Slot() == k ==> StoppedIdle(u[i])
    ensures p < |s.table| && StoppedIdle(s.table[p])
  {
    var s1 := SpawnMissing(hasher, s, d, e);
    var s2 := RetireStaleSurplus(s1, d, e);
    ProbeStopsNone(s2, e, p);
    RetireStopsIdleIff(s1, d, e, p);
    SpawnStopsNone(hasher, s, d, e, p);
    ProbeSameSlots(s2, e);
    if s.m.defaults.maxSurge > 0 && Retires(d, s1.table, s1.table[p]) {
      var q := RetiredIsReplaced(s1, d, e, p);
    }
  }

  lemma SecondHalfDead(hasher: Hasher, s: State, d: Desired, e: Env, k: Key)
    requires DeadSlot(d, SecondHalf(hasher, s, d, e).table, k)
    ensures DeadSlot(d, s.table, k)
  {
    var u := SecondHalf(hasher, s, d, e).table;
    var p: nat :| p < |u| && u[p].Slot() == k && u[p].specHash == d[k].hash;
    DeadFromRoll(hasher, s, d, e, k, p);
    SecondHalfIdle(hasher, s, d, e, p);
    forall i: nat | i < |s.table| && s.table[i].Slot() == k ensures StoppedIdle(s.table[i]) {
      SecondHalfKeepsSlot(hasher, s, d, e, i);
      DeadFromRoll(hasher, s, d, e, k, i);
    }
  }

  lemma SecondHalfKeepsSlot(hasher: Hasher, s: State, d: Desired, e: Env, i: nat)
    requires i < |s.table|
    ensures var u := SecondHalf(hasher, s, d, e).table; i < |u| && u[i].Slot() == s.table[i].Slot()
  {
    SecondHalfSlots(hasher, s, d, e);
    ProbeSameSlots(RetireStaleSurplus(SpawnMissing(hasher, s, d, e), d, e), e);
  }

  lemma DeadSecondHalf(hasher: Hasher, s: State, d: Desired, e: Env, k: Key)
    requires DeadSlot(d, s.table, k)
    ensures DeadSlot(d, SecondHalf(hasher, s, d, e).table, k)
  {
    var u := SecondHalf(hasher, s, d, e).table;
    var p: nat :| p < |s.table| && s.table[p].Slot() == k && s.table[p].specHash == d[k].hash;
    SecondHalfIdle(hasher, s, d, e, p);
    assert u[p].Slot() == k;
    forall i: nat | i < |u| && u[i].Slot() == k ensures StoppedIdle(u[i]) {
      DeadGetsNothing(hasher, s, d, e, k, i);
      SecondHalfIdle(hasher, s, d, e, i);
    }
  }

  lemma DeadGetsNothing(hasher: Hasher, s: State, d: Desired, e: Env, k: Key, i: nat)
    requires DeadSlot(d, s.table, k) && i < |SecondHalf(hasher, s, d, e).table| && SecondHalf(hasher, s, d, e).table[i].Slot() == k
    ensures i < |s.table| && s.table[i].Slot() == k
  {
    SecondHalfSlots(hasher, s, d, e);
    ProbeSameSlots(RetireStaleSurplus(SpawnMissing(hasher, s, d, e), d, e), e);
    if i >= |s.table| {
      AddedIsNew(s, d, e, i);
    }
  }

  /**
   * A tick leaves a slot dead exactly when the roll does: when every record it leaves in the
   * slot has been stopped without a process, and one of them has the hash the slot asks for.
   */
  lemma TickDeadIff(hasher: Hasher, s: State, e: Env, k: Key)
    ensures var rolled := Rolled(hasher, Reap(ReverifyChecks(s, e), e), e);
            DeadIn(hasher, Tick(hasher, s, e), k) <==> DeadIn(hasher, rolled, k)
  {
    var rolled := Rolled(hasher, Reap(ReverifyChecks(s, e), e), e);
    var d := DesiredIn(hasher, rolled);
    TickWantsAfterRoll(hasher, s, e);
    if DeadSlot(d, rolled.table, k) {
      DeadSecondHalf(hasher, rolled, d, e, k);
    }
    if DeadSlot(d, SecondHalf(hasher, rolled, d, e).table, k) {
      SecondHalfDead(hasher, rolled, d, e, k);
    }
  }

  // ----- slots that keep a record too many -----

  /**
   * Nothing will ever take the record away: it is idle, comes back when it exits, or serves
   * with the hash its slot asks for; and whenever it is spawned, it is on the slot's port.
   */
  ghost predicate Lodged(d: Desired, r: Instance) {
    && r.Slot() in d && r.port == d[r.Slot()].port
    && (r.Running() && r.phase == Terminating ==> r.restartAfterStop)
    && (r.Serving() ==> UpToDate(d, r)) && (r.phase == Ready ==> r.Running())
  }

  ghost predicate SlotLodged(d: Desired, t: Table, k: Key) {
    forall i :: 0 <= i < |t| && t[i].Slot() == k ==> Lodged(d, t[i])
  }

  function SlotCount(t: Table, k: Key): nat {
    if t == [] then 0 else SlotCount(t[..|t| - 1], k) + if t[|t| - 1].Slot() == k then 1 else 0
  }

  lemma SlotCountOneMore(t: Table, r: Instance, k: Key)
    ensures SlotCount(t + [r], k) == SlotCount(t, k) + if r.Slot() == k then 1 else 0
  {
    assert (t + [r])[..|t + [r]| - 1] == t;
  }

  lemma {:induction false} SlotCountSame(t: Table, u: Table, k: Key)
    requires SameSlots(t, u)
    ensures SlotCount(t, k) == SlotCount(u, k)
  {
    if t != [] {
      assert t[|t| - 1].Slot() == u[|u| - 1].Slot();
      SlotCountSame(t[..|t| - 1], u[..|u| - 1], k);
    }
  }

  lemma {:induction false} SlotCountKept(t: Table, gone: set<Key>, k: Key)
    requires k !in gone
    ensures SlotCount(Retain(t, gone), k) == SlotCount(t, k)
  {
    if t != [] {
      SlotCountKept(t[..|t| - 1], gone, k);
      SlotCountOneMore(Retain(t[..|t| - 1], gone), t[|t| - 1], k);
    }
  }

  lemma {:induction false} SlotCountAt(t: Table, i: nat)
    requires i < |t|
    ensures SlotCount(t, t[i].Slot()) > 0
    decreases |t|
  {
    if i < |t| - 1 {
      SlotCountAt(t[..|t| - 1], i);
    }
  }

  lemma {:induction false} SlotCountMore(t: Table, more: Table, k: Key)
    ensures SlotCount(t + more, k) == SlotCount(t, k) + SlotCount(more, k)
  {
    if more == [] {
      assert t + more == t;
    } else {
      var front, r := more[..|more| - 1], more[|more| - 1];
      var u := t + front;
      assert t + more == u + [r];
      SlotCountMore(t, front, k);
      SlotCountOneMore(u, r, k);
    }
  }

  lemma SlotCountGrows(t: Table, more: Table, k: Key)
    ensures SlotCount(t + more, k) >= SlotCount(t, k)
    ensures HasFrom(more, 0, k) ==> SlotCount(t + more, k) > SlotCount(t, k)
  {
    SlotCountMore(t, more, k);
    if i: nat :| i < |more| && more[i].Slot() == k {
      SlotCountAt(more, i);
    }
  }

  // ----- the stages on a lodged slot -----

  lemma ReapOneLodged(d: Desired, r: Instance, m: Defaults, e: Env)
    ensures var r' := ReapOne(r, m, e.wait, e.reapAt); r'.Slot() == r.Slot() && (Lodged(d, r) ==> Lodged(d, r'))
  {
  }

  lemma ReapLodged(s: State, d: Desired, e: Env, k: Key)
    requires SlotLodged(d, s.table, k)
    ensures SlotLodged(d, Reap(s, e).table, k) && SlotCount(Reap(s, e).table, k) == SlotCount(s.table, k)
    ensures k !in DroppedSlots(s.table, e.wait)
  {
    var t := ReapedTable(s.table, s.m.defaults, e.wait, e.reapAt);
    DroppedIff(s.table, e.wait, k);
    SlotCountSame(s.table, t, k);
    SlotCountKept(t, DroppedSlots(s.table, e.wait), k);
    forall p: nat | p < |Reap(s, e).table| && Reap(s, e).table[p].Slot() == k ensures Lodged(d, Reap(s, e).table[p]) {
      var i := ReapFrom(s, e, p);
      ReapOneLodged(d, s.table[i], s.m.defaults, e);
    }
  }

  lemma TerminateLodged(s: State, d: Desired, e: Env, k: Key)
    requires SlotLodged(d, s.table, k) && k in d
    ensures SlotLodged(d, TerminateUndesired(s, d, e).table, k)
    ensures SlotCount(TerminateUndesired(s, d, e).table, k) == SlotCount(s.table, k)
  {
    var t := StoppedUndesired(s.table, d, e.terminateAt);
    SlotCountSame(s.table, t, k);
    SlotCountKept(t, IdleUndesired(s.table, d), k);
    forall p: nat | p < |TerminateUndesired(s, d, e).table| && TerminateUndesired(s, d, e).table[p].Slot() == k
      ensures Lodged(d, TerminateUndesired(s, d, e).table[p])
    {
      var i := TerminateFrom(s, d, e, p);
    }
  }

  lemma BlockedLodged(s: State, d: Desired, e: Env, k: Key)
    requires SlotLodged(d, s.table, k)
    ensures SlotLodged(d, StopCheckBlocked(s, e).table, k) && SlotCount(StopCheckBlocked(s, e).table, k) == SlotCount(s.table, k)
  {
    SlotCountSame(s.table, StopCheckBlocked(s, e).table, k);
  }

  lemma RollLodged(s: State, d: Desired, e: Env, k: Key)
    requires SlotLodged(d, s.table, k)
    ensures SlotLodged(d, RollStale(s, d, e).table, k) && SlotCount(RollStale(s, d, e).table, k) == SlotCount(s.table, k)
  {
    var u := RollStale(s, d, e).table;
    SlotCountSame(s.table, u, k);
    forall i: nat | i < |u| && u[i].Slot() == k ensures Lodged(d, u[i]) {
      VictimIsStale(s.m, d, s.table, s.table[i].app);
      VictimNotTerminating(s.m, d, s.table, s.table[i].app);
      assert Lodged(d, s.table[i]);
    }
  }

  lemma FirstHalfLodged(s: State, d: Desired, e: Env, k: Key)
    requires SlotLodged(d, s.table, k) && k in d
    ensures SlotLodged(d, FirstHalf(s, d, e).table, k) && SlotCount(FirstHalf(s, d, e).table, k) == SlotCount(s.table, k)
  {
    TerminateLodged(s, d, e, k);
    var s1 := TerminateUndesired(s, d, e);
    BlockedLodged(s1, d, e, k);
    RollLodged(StopCheckBlocked(s1, e), d, e, k);
  }

  lemma AddLodged(s: State, d: Desired, e: Env, k: Key)
    requires SlotLodged(d, s.table, k)
    ensures SlotLodged(d, AddMissing(s, d, e).table, k) && SlotCount(AddMissing(s, d, e).table, k) >= SlotCount(s.table, k)
    ensures k in d && !HasHash(s.table, k, d[k].hash) ==> SlotCount(AddMissing(s, d, e).table, k) > SlotCount(s.table, k)
  {
    InKeyOrderSorts(d.Keys);
    var keys := InKeyOrder(d.Keys);
    var more := Missing(d, s.table, keys, e.spawnAt);
    MissingIff(d, s.table, keys, e.spawnAt, k);
    SlotCountGrows(s.table, more, k);
    forall i | 0 <= i < |more| ensures Lodged(d, more[i]) {
      MissingSlot(d, s.table, keys, e.spawnAt, i);
    }
  }

  lemma SpawnLodged(hasher: Hasher, s: State, e: Env, k: Key)
    requires SlotLodged(DesiredIn(hasher, s), s.table, k)
    ensures SlotLodged(DesiredIn(hasher, s), SpawnReady(hasher, s, e).table, k)
    ensures SlotCount(SpawnReady(hasher, s, e).table, k) == SlotCount(s.table, k)
  {
    var d, u := DesiredIn(hasher, s), SpawnReady(hasher, s, e).table;
    DesiredSlotsAre(hasher, s.m, s.selected, s.ports);
    SlotCountSame(s.table, u, k);
    forall i: nat | i < |u| && u[i].Slot() == k ensures Lodged(d, u[i]) {
      assert Lodged(d, s.table[i]);
      assert d[k] == WantFor(hasher, s.m, s.ports, k);
    }
  }

  lemma ProbeLodged(s: State, d: Desired, e: Env, k: Key)
    requires SlotLodged(d, s.table, k)
    ensures SlotLodged(d, Probe(s, e).table, k) && SlotCount(Probe(s, e).table, k) == SlotCount(s.table, k)
  {
    var u := Probe(s, e).table;
    forall i: nat | i < |u| ensures u[i].Slot() == s.table[i].Slot() && (Lodged(d, s.table[i]) ==> Lodged(d, u[i])) {
      ProbeOneLodged(s.m, d, s.table[i], e.probeAt, e.probe(i));
    }
    SlotCountSame(s.table, u, k);
  }

  lemma ProbeOneLodged(m: Manifest, d: Desired, r: Instance, now: nat, ans: ProbeAnswer)
    ensures var p := ProbeOne(m, r, now, ans); p.Slot() == r.Slot() && (Lodged(d, r) ==> Lodged(d, p))
  {
    if r.Serving() && m.Has(r.app) {
      var p := AfterReadiness(m.Lookup(r.app).value, r, now, ans);
      assert p.Running() && p.Slot() == r.Slot() && (Lodged(d, r) ==> Lodged(d, p));
    }
  }

  lemma LodgedReadyIsCurrent(d: Desired, t: Table, k: Key, j: nat)
    requires SlotLodged(d, t, k) && j < |t|
    ensures t[j].Slot() == k && t[j].phase == Ready ==> !Stale(d, t[j])
  {
  }

  /** The roll moves no lodged slot: it has no stale instance that is Ready. */
  lemma LodgedIsNotMoved(m: Manifest, d: Desired, t: Table, k: Key)
    requires SlotLodged(d, t, k)
    ensures var mv := SurgeMove(m, d, t, k.app); mv.Some? ==> mv.value.slot != k
  {
    if SurgeMove(m, d, t, k.app).Some? {
      var j := MovedIsStale(m, d, t, k.app);
      LodgedReadyIsCurrent(d, t, k, j);
    }
  }

  lemma RollMovesElsewhere(hasher: Hasher, s: State, d: Desired, e: Env, k: Key)
    requires d == DesiredIn(hasher, s) && SlotLodged(d, s.table, k) && k in d
    ensures var d2 := DesiredIn(hasher, RollStale(s, d, e)); k in d2 && d2[k] == d[k]
  {
    ChangedIsMoved(hasher, s, d, e, k);
    LodgedIsNotMoved(s.m, d, s.table, k);
  }

  lemma FirstHalfMovesElsewhere(hasher: Hasher, s: State, e: Env, k: Key)
    requires SlotLodged(DesiredIn(hasher, s), s.table, k) && k in DesiredIn(hasher, s)
    ensures var d, d2 := DesiredIn(hasher, s), DesiredIn(hasher, FirstHalf(s, DesiredIn(hasher, s), e)); k in d2 && d2[k] == d[k]
  {
    var d := DesiredIn(hasher, s);
    TerminateLodged(s, d, e, k);
    var s1 := TerminateUndesired(s, d, e);
    BlockedLodged(s1, d, e, k);
    assert DesiredIn(hasher, StopCheckBlocked(s1, e)) == d;
    RollMovesElsewhere(hasher, StopCheckBlocked(s1, e), d, e, k);
  }

  lemma RetireLodged(s: State, d: Desired, e: Env, k: Key)
    requires SlotLodged(d, s.table, k)
    ensures SlotLodged(d, RetireStaleSurplus(s, d, e).table, k)
    ensures SlotCount(RetireStaleSurplus(s, d, e).table, k) == SlotCount(s.table, k)
  {
    SlotCountSame(s.table, RetireStaleSurplus(s, d, e).table, k);
  }

  // ----- whole ticks and runs -----

  lemma SecondHalfLodged(hasher: Hasher, s: State, e: Env, k: Key)
    requires SlotLodged(DesiredIn(hasher, s), s.table, k)
    ensures var d, u := DesiredIn(hasher, s), SecondHalf(hasher, s, DesiredIn(hasher, s), e).table;
            && SlotLodged(d, u, k) && SlotCount(u, k) >= SlotCount(s.table, k)
            && (k in d && !HasHash(s.table, k, d[k].hash) ==> SlotCount(u, k) > SlotCount(s.table, k))
  {
    var d := DesiredIn(hasher, s);
    AddLodged(s, d, e, k);
    var s1 := AddMissing(s, d, e);
    assert DesiredIn(hasher, s1) == d;
    SpawnLodged(hasher, s1, e, k);
    var s2 := SpawnReady(hasher, s1, e);
    RetireLodged(s2, d, e, k);
    ProbeLodged(RetireStaleSurplus(s2, d, e), d, e, k);
  }

  lemma LodgedForSame(d: Desired, d2: Desired, t: Table, k: Key)
    requires SlotLodged(d, t, k) && k in d && k in d2 && d2[k] == d[k]
    ensures SlotLodged(d2, t, k)
  {
  }

  /** A tick keeps every record of a lodged slot, and adds one if none has the hash asked for. */
  lemma TickLodged(hasher: Hasher, s: State, e: Env, k: Key)
    requires SlotLodged(DesiredIn(hasher, s), s.table, k) && k in DesiredIn(hasher, s)
    ensures var d, d2, u := DesiredIn(hasher, s), DesiredIn(hasher, Tick(hasher, s, e)), Tick(hasher, s, e).table;
            && k in d2 && d2[k] == d[k]
            && SlotLodged(d2, u, k) && SlotCount(u, k) >= SlotCount(s.table, k)
            && (!HasHash(s.table, k, d[k].hash) ==> SlotCount(u, k) > SlotCount(s.table, k))
  {
    var d, s0 := DesiredIn(hasher, s), ReverifyChecks(s, e);
    var s1, s2 := TickParts(hasher, s, e);
    ReapKeepsWants(hasher, s, e);
    ReapLodged(s0, d, e, k);
    ReapHashes(s0, e, k, d[k].hash);
    FirstHalfLodged(s1, d, e, k);
    FirstHalfHashes(s1, d, e, k, d[k].hash);
    FirstHalfMovesElsewhere(hasher, s1, e, k);
    LodgedForSame(d, DesiredIn(hasher, s2), s2.table, k);
    SecondHalfLodged(hasher, s2, e, k);
    TickWantsAfterRoll(hasher, s, e);
  }

  /** The slot has more records than it should, for good. */
  ghost predicate Crowded(hasher: Hasher, s: State, k: Key) {
    k in DesiredIn(hasher, s) && SlotLodged(DesiredIn(hasher, s), s.table, k) && SlotCount(s.table, k) > 1
  }

  lemma StepStaysCrowded(hasher: Hasher, s: State, step: Step, s': State, k: Key)
    requires Leads(hasher, s, step, s') && SameConfig(s, s') && Crowded(hasher, s, k)
    ensures Crowded(hasher, s', k)
  {
    match step
    case Ticked(e) => TickLodged(hasher, s, e, k);
    case Reloaded(o) =>
      ReloadChanges(s, o);
      assert DesiredIn(hasher, s') == DesiredIn(hasher, s);
  }

  /** A slot about to be crowded: all its records will stay, and none has the hash it asks for. */
  ghost predicate Stuck(hasher: Hasher, s: State, k: Key) {
    var d := DesiredIn(hasher, s);
    && k in d && SlotLodged(d, s.table, k) && SlotCount(s.table, k) > 0 && !HasHash(s.table, k, d[k].hash)
  }

  /** A fleet with one record per slot has no crowded one. */
  lemma SteadyNotCrowded(hasher: Hasher, s: State, k: Key)
    requires IsSteady(hasher, s)
    ensures SlotCount(s.table, k) <= 1
  {
    DistinctCountsOne(s.table, k);
  }

  lemma {:induction false} DistinctCountsOne(t: Table, k: Key)
    requires forall i: nat, j: nat :: SlotsDiffer(t, i, j)
    ensures SlotCount(t, k) <= 1
    ensures (forall i :: 0 <= i < |t| ==> t[i].Slot() != k) ==> SlotCount(t, k) == 0
  {
    if t != [] {
      var n := |t| - 1;
      forall i: nat, j: nat ensures SlotsDiffer(t[..n], i, j) {
        assert SlotsDiffer(t, i, j);
      }
      DistinctCountsOne(t[..n], k);
      forall i | 0 <= i < n ensures t[i].Slot() != t[n].Slot() {
        assert SlotsDiffer(t, i, n);
      }
    }
  }

  lemma StuckCrowds(hasher: Hasher, s: State, e: Env, k: Key)
    requires Stuck(hasher, s, k)
    ensures Crowded(hasher, Tick(hasher, s, e), k)
  {
    TickLodged(hasher, s, e, k);
    TickKeepsConfig(hasher, s, e);
  }

  /** Stuck until the first tick, and crowded from then on. */
  ghost predicate StuckOrCrowded(hasher: Hasher, s: State, k: Key, start: nat) {
    s.tick >= start && if s.tick == start then Stuck(hasher, s, k) else Crowded(hasher, s, k)
  }

  lemma StepStaysStuck(hasher: Hasher, s: State, step: Step, s': State, k: Key, start: nat)
    requires Leads(hasher, s, step, s') && SameConfig(s, s') && StuckOrCrowded(hasher, s, k, start)
    ensures StuckOrCrowded(hasher, s', k, start)
  {
    if s.tick > start {
      StepStaysCrowded(hasher, s, step, s', k);
    }
    match step
    case Ticked(e) =>
      TickKeepsConfig(hasher, s, e);
      if s.tick == start {
        StuckCrowds(hasher, s, e, k);
      }
    case Reloaded(o) =>
      ReloadChanges(s, o);
      assert DesiredIn(hasher, s') == DesiredIn(hasher, s);
  }

  lemma RunStepStaysStuck(hasher: Hasher, ss: seq<State>, steps: seq<Step>, a: nat, b: nat, n: nat, k: Key, start: nat)
    requires IsRun(hasher, ss, steps) && a <= n < b < |ss| && Unedited(ss, a, b) && StuckOrCrowded(hasher, ss[n], k, start)
    ensures StuckOrCrowded(hasher, ss[n + 1], k, start)
  {
    assert LeadsAt(hasher, ss, steps, n);
    StepStaysStuck(hasher, ss[n], steps[n], ss[n + 1], k, start);
  }

  /**
   * From a stuck slot no roll ever ends: after the first tick and until the next edit, in every
   * environment, the slot has a record too many.
   */
  lemma StuckNeverSettles(hasher: Hasher, ss: seq<State>, steps: seq<Step>, a: nat, b: nat, k: Key)
    requires IsRun(hasher, ss, steps) && a <= b < |ss| && Unedited(ss, a, b) && Stuck(hasher, ss[a], k)
    requires ss[b].tick > ss[a].tick
    ensures SlotCount(ss[b].table, k) > 1 && !IsSteady(hasher, ss[b])
  {
    var start := ss[a].tick;
    forall n: nat | a <= n < b && StuckOrCrowded(hasher, ss[n], k, start) ensures StuckOrCrowded(hasher, ss[n + 1], k, start) {
      RunStepStaysStuck(hasher, ss, steps, a, b, n, k, start);
    }
    AlongStates(ss, (s: State, n: nat) => StuckOrCrowded(hasher, s, k, start), a, b);
    if IsSteady(hasher, ss[b]) {
      SteadyNotCrowded(hasher, ss[b], k);
    }
  }

  // ----- how a slot comes to run twice -----

  lemma SpawnedWithNewHash(hasher: Hasher, s: State, e: Env, p: nat)
    requires p < |s.table| && s.table[p].Slot() in DesiredIn(hasher, s)
    requires s.table[p].port == DesiredIn(hasher, s)[s.table[p].Slot()].port
    requires SpawnGate(s.m, s.checksOk, ReadyApps(s.table), s.table[p], e.spawnAt) && e.spawn(p).ok
    ensures var r := SpawnReady(hasher, s, e).table[p];
            r.Running() && r.Slot() == s.table[p].Slot() && r.port == s.table[p].port && UpToDate(DesiredIn(hasher, s), r)
  {
    DesiredSlotsAre(hasher, s.m, s.selected, s.ports);
  }

  /** The state the spawn loop of the tick finds. */
  ghost function AtSpawn(hasher: Hasher, s: State, e: Env): State {
    var rolled := Rolled(hasher, Reap(ReverifyChecks(s, e), e), e);
    AddMissing(rolled, DesiredIn(hasher, rolled), e)
  }

  /** Without surge, a record ends the tick as the spawn loop left it, but for its probes. */
  lemma SpawnedAtEnd(hasher: Hasher, s: State, e: Env, p: nat)
    requires s.m.defaults.maxSurge == 0 && p < |AtSpawn(hasher, s, e).table|
    ensures var r, t := SpawnReady(hasher, AtSpawn(hasher, s, e), e).table[p], Tick(hasher, s, e).table;
            && p < |t| && t[p].Running() == r.Running()
            && t[p].Slot() == r.Slot() && t[p].port == r.port && t[p].specHash == r.specHash
  {
    var s1, s2 := TickParts(hasher, s, e);
    ProbeKeeps(s.m, SpawnReady(hasher, AtSpawn(hasher, s, e), e).table[p], e.probeAt, e.probe(p));
  }

  /** A stale record without a process that the roll has not reached, on the slot's port, with its gate open. */
  ghost predicate SpawnsStale(hasher: Hasher, s: State, e: Env, p: nat) {
    var rolled, at := Rolled(hasher, Reap(ReverifyChecks(s, e), e), e), AtSpawn(hasher, s, e);
    var d := DesiredIn(hasher, rolled);
    && p < |rolled.table| && rolled.table[p].Slot() in d
    && rolled.table[p].port == d[rolled.table[p].Slot()].port
    && !HasHash(rolled.table, rolled.table[p].Slot(), d[rolled.table[p].Slot()].hash)
    && SpawnGate(s.m, at.checksOk, ReadyApps(at.table), rolled.table[p], e.spawnAt) && e.spawn(p).ok
  }

  lemma StaleIsSpawned(hasher: Hasher, s: State, e: Env, p: nat)
    requires SpawnsStale(hasher, s, e, p) && s.m.defaults.maxSurge == 0
    ensures var t, rolled := Tick(hasher, s, e).table, Rolled(hasher, Reap(ReverifyChecks(s, e), e), e);
            && p < |rolled.table| && p < |t| && t[p].Running() && t[p].Slot() == rolled.table[p].Slot()
            && UpToDate(DesiredIn(hasher, rolled), t[p]) && t[p].port == DesiredIn(hasher, rolled)[t[p].Slot()].port
  {
    AtSpawnHas(hasher, s, e, p);
    SpawnedWithNewHash(hasher, AtSpawn(hasher, s, e), e, p);
    SpawnedAtEnd(hasher, s, e, p);
  }

  /** The spawn loop finds what the roll left, with the same wants. */
  lemma AtSpawnHas(hasher: Hasher, s: State, e: Env, p: nat)
    requires p < |Rolled(hasher, Reap(ReverifyChecks(s, e), e), e).table|
    ensures var rolled, at := Rolled(hasher, Reap(ReverifyChecks(s, e), e), e), AtSpawn(hasher, s, e);
            p < |at.table| && at.table[p] == rolled.table[p] && at.m == s.m && DesiredIn(hasher, at) == DesiredIn(hasher, rolled)
  {
    var s1, s2 := TickParts(hasher, s, e);
  }

  /** A record just added is spawned if the gate of its app is open and the spawn succeeds. */
  lemma AddedIsSpawned(hasher: Hasher, s: State, d: Desired, e: Env, k: Key) returns (q: nat)
    requires k in d && !HasHash(s.table, k, d[k].hash)
    requires var at := AddMissing(s, d, e); DependenciesUp(at.m, at.checksOk, ReadyApps(at.table), k.app)
    ensures |s.table| <= q < |AddMissing(s, d, e).table|
    ensures var r := SpawnReady(hasher, AddMissing(s, d, e), e).table[q];
            r.Slot() == k && r.port == d[k].port && (r.Running() <==> e.spawn(q).ok)
  {
    AddsIff(s, d, e, k);
    q :| |s.table| <= q < |AddMissing(s, d, e).table| && AddMissing(s, d, e).table[q].Slot() == k;
    AddedIsNew(s, d, e, q);
  }

  lemma AddedAtEnd(hasher: Hasher, s: State, e: Env, k: Key) returns (q: nat)
    requires var rolled, at := Rolled(hasher, Reap(ReverifyChecks(s, e), e), e), AtSpawn(hasher, s, e);
             && k in DesiredIn(hasher, rolled) && !HasHash(rolled.table, k, DesiredIn(hasher, rolled)[k].hash)
             && DependenciesUp(at.m, at.checksOk, ReadyApps(at.table), k.app)
    requires s.m.defaults.maxSurge == 0
    ensures var rolled, t := Rolled(hasher, Reap(ReverifyChecks(s, e), e), e), Tick(hasher, s, e).table;
            && |rolled.table| <= q < |t| && t[q].Slot() == k && t[q].port == DesiredIn(hasher, rolled)[k].port
            && (t[q].Running() <==> e.spawn(q).ok)
  {
    var rolled := Rolled(hasher, Reap(ReverifyChecks(s, e), e), e);
    q := AddedIsSpawned(hasher, rolled, DesiredIn(hasher, rolled), e, k);
    SpawnedAtEnd(hasher, s, e, q);
  }

  /**
   * It is spawned with the new hash, beside the record just added for its slot; and if the
   * spawn of that one succeeds too, the slot runs twice, on one port.
   */
  lemma StaleIdleRunsTwice(hasher: Hasher, s: State, e: Env, p: nat) returns (q: nat)
    requires SpawnsStale(hasher, s, e, p) && s.m.defaults.maxSurge == 0
    ensures var t := Tick(hasher, s, e).table;
            && p < q < |t| && t[p].Running() && UpToDate(DesiredIn(hasher, Tick(hasher, s, e)), t[p])
            && t[q].Slot() == t[p].Slot() && t[q].port == t[p].port && (t[q].Running() <==> e.spawn(q).ok)
  {
    StaleIsSpawned(hasher, s, e, p);
    AtSpawnHas(hasher, s, e, p);
    TickWantsAfterRoll(hasher, s, e);
    q := AddedAtEnd(hasher, s, e, Rolled(hasher, Reap(ReverifyChecks(s, e), e), e).table[p].Slot());
  }
}
