/** Records stopped while they have no process: nothing ever moves them again. */
module IdleStops {
  import opened Prelude
  import opened Manifests
  import opened Instances
  import opened Stages
  import opened Tracking
  import opened Fates
  import opened Runs
  import opened Stopping
  import opened SurgeRolls

  /** Stopped, but there is no process whose exit could complete the stop. */
  predicate StoppedIdle(r: Instance) {
    !r.Running() && r.phase == Terminating
  }

  lemma SecondHalfIdle(hasher: Hasher, s: State, d: Desired, e: Env, p: nat)
    requires p < |s.table| && StoppedIdle(s.table[p])
    ensures At(SecondHalf(hasher, s, d, e).table, p, s.table[p])
  {
    var spawned, retired := SecondHalfAt(hasher, s, d, e, p);
  }

  // ----- where such records come from -----

  /** The loop's state in a tick when the roll finds it. */
  ghost function BeforeRoll(hasher: Hasher, s: State, e: Env): State {
    var reaped := Reap(ReverifyChecks(s, e), e);
    StopCheckBlocked(TerminateUndesired(reaped, DesiredIn(hasher, reaped), e), e)
  }

  /** The roll picks record `p`, which has no process. */
  ghost predicate RollsIdle(hasher: Hasher, s: State, e: Env, p: nat) {
    var b := BeforeRoll(hasher, s, e);
    && p < |b.table| && !b.table[p].Running() && b.table[p].app in b.selected
    && RollVictim(b.m, DesiredIn(hasher, b), b.table, b.table[p].app) == Some(p)
  }

  /** The retire stage picks record `p`, which has no process: its slot has a Ready replacement. */
  ghost predicate RetiresIdle(hasher: Hasher, s: State, e: Env, p: nat) {
    var b := BeforeRetire(hasher, s, e);
    && s.m.defaults.maxSurge > 0 && p < |b.table| && !b.table[p].Running()
    && Retires(DesiredIn(hasher, b), b.table, b.table[p])
  }

  lemma RolledIs(hasher: Hasher, s: State, e: Env)
    ensures var b := BeforeRoll(hasher, s, e);
            Rolled(hasher, Reap(ReverifyChecks(s, e), e), e) == RollStale(b, DesiredIn(hasher, b), e)
  {
    var reaped := Reap(ReverifyChecks(s, e), e);
    assert DesiredIn(hasher, BeforeRoll(hasher, s, e)) == DesiredIn(hasher, reaped);
  }

  /** The roll makes exactly its idle victims such records. */
  lemma RollStopsIdleIff(s: State, d: Desired, e: Env, p: nat)
    requires p < |s.table|
    ensures StoppedIdle(RollStale(s, d, e).table[p]) <==>
              StoppedIdle(s.table[p])
              || (!s.table[p].Running() && s.table[p].app in s.selected && RollVictim(s.m, d, s.table, s.table[p].app) == Some(p))
  {
  }

  lemma AddStopsNone(s: State, d: Desired, e: Env, p: nat)
    requires p < |AddMissing(s, d, e).table|
    ensures StoppedIdle(AddMissing(s, d, e).table[p]) <==> p < |s.table| && StoppedIdle(s.table[p])
  {
    if p >= |s.table| {
      AddedIsNew(s, d, e, p);
    }
  }

  lemma SpawnReadyStopsNone(hasher: Hasher, s: State, e: Env, p: nat)
    requires p < |s.table|
    ensures StoppedIdle(SpawnReady(hasher, s, e).table[p]) <==> StoppedIdle(s.table[p])
  {
  }

  /** Spawning leaves them alone and makes none. */
  lemma SpawnStopsNone(hasher: Hasher, s: State, d: Desired, e: Env, p: nat)
    requires p < |SpawnMissing(hasher, s, d, e).table|
    ensures StoppedIdle(SpawnMissing(hasher, s, d, e).table[p]) <==> p < |s.table| && StoppedIdle(s.table[p])
  {
    AddStopsNone(s, d, e, p);
    SpawnReadyStopsNone(hasher, AddMissing(s, d, e), e, p);
  }

  lemma RetireStopsIdleIff(s: State, d: Desired, e: Env, p: nat)
    requires p < |s.table|
    ensures StoppedIdle(RetireStaleSurplus(s, d, e).table[p]) <==>
              StoppedIdle(s.table[p]) || (s.m.defaults.maxSurge > 0 && !s.table[p].Running() && Retires(d, s.table, s.table[p]))
  {
  }

  lemma ProbeStopsNone(s: State, e: Env, p: nat)
    requires p < |s.table|
    ensures StoppedIdle(Probe(s, e).table[p]) <==> StoppedIdle(s.table[p])
  {
    ProbeKeeps(s.m, s.table[p], e.probeAt, e.probe(p));
  }

  /**
   * A tick ends with such a record at place `p` exactly when it was one before the roll, or the
   * roll or the retire stage picked it while it had no process.
   */
  lemma StoppedIdleIff(hasher: Hasher, s: State, e: Env, p: nat)
    requires p < |Tick(hasher, s, e).table|
    ensures StoppedIdle(Tick(hasher, s, e).table[p]) <==>
              (p < |BeforeRoll(hasher, s, e).table| && StoppedIdle(BeforeRoll(hasher, s, e).table[p]))
              || RollsIdle(hasher, s, e, p)
              || RetiresIdle(hasher, s, e, p)
  {
    var b, b3 := BeforeRoll(hasher, s, e), BeforeRetire(hasher, s, e);
    var d, d3 := DesiredIn(hasher, b), DesiredIn(hasher, b3);
    RolledIs(hasher, s, e);
    BeforeRetireIs(hasher, s, e);
    var rolled := RollStale(b, d, e);
    SpawnStopsNone(hasher, rolled, DesiredIn(hasher, rolled), e, p);
    RetireStopsIdleIff(b3, d3, e, p);
    ProbeStopsNone(RetireStaleSurplus(b3, d3, e), e, p);
    if p < |b.table| {
      RollStopsIdleIff(b, d, e, p);
    }
  }

  /** Nothing before the roll makes one: it was in the table before the tick, just as it is. */
  lemma StoppedIdleBeforeRoll(hasher: Hasher, s: State, e: Env, p: nat) returns (i: nat)
    requires p < |BeforeRoll(hasher, s, e).table| && StoppedIdle(BeforeRoll(hasher, s, e).table[p])
    ensures i < |s.table| && Place(hasher, s, e, i) == Some(p) && s.table[i] == BeforeRoll(hasher, s, e).table[p]
  {
    var s0 := ReverifyChecks(s, e);
    var reaped := Reap(s0, e);
    var d := DesiredIn(hasher, reaped);
    BlockedStopsNone(TerminateUndesired(reaped, d, e), e, p);
    var q := TerminateFrom(reaped, d, e, p);
    i := ReapFrom(s0, e, q);
    ReapStopsNone(s0, e, i, q);
  }

  lemma BlockedStopsNone(s: State, e: Env, p: nat)
    requires p < |s.table| && !StopCheckBlocked(s, e).table[p].Running()
    ensures StopCheckBlocked(s, e).table[p] == s.table[p]
  {
  }

  /** An exit after a final stop takes the record away, so no reap leaves a new one. */
  lemma ReapStopsNone(s: State, e: Env, i: nat, p: nat)
    requires i < |s.table| && PlaceAfterReap(s, e, i) == Some(p)
    requires StoppedIdle(ReapOne(s.table[i], s.m.defaults, e.wait, e.reapAt))
    ensures ReapOne(s.table[i], s.m.defaults, e.wait, e.reapAt) == s.table[i]
  {
    assert !ExitDrops(s.table[i], e.wait);
  }

  /**
   * A tick leaves such a record exactly as it is, and removes it exactly when its slot is no
   * longer desired or another record of the slot exits after a final stop.
   */
  lemma IdleStopIsKept(hasher: Hasher, s: State, e: Env, i: nat)
    requires i < |s.table| && StoppedIdle(s.table[i])
    ensures Place(hasher, s, e, i).None? <==>
              !IsSlot(s.m, s.selected, s.table[i].Slot())
              || exists j :: 0 <= j < |s.table| && s.table[j].Slot() == s.table[i].Slot() && ExitDrops(s.table[j], e.wait)
    ensures var p := Place(hasher, s, e, i); p.Some? ==> At(Tick(hasher, s, e).table, p.value, s.table[i])
  {
    var s0, k, d := ReverifyChecks(s, e), s.table[i].Slot(), DesiredIn(hasher, s);
    PlaceNoneIff(hasher, s, e, i);
    DroppedIff(s.table, e.wait, k);
    DesiredSlotsAre(hasher, s.m, s.selected, s.ports);
    if k !in DroppedSlots(s.table, e.wait) && k !in d {
      IdleAfterReapIff(s0, d, e, k);
      assert !ReapOne(s.table[i], s.m.defaults, e.wait, e.reapAt).Running();
    }
    if Place(hasher, s, e, i).Some? {
      var v := TickAt(hasher, s, e, i);
      IdleRecordStays(hasher, s.m, s.tick, e, s.table[i], Place(hasher, s, e, i).value, v);
    }
  }

  lemma IdleRecordStays(hasher: Hasher, m: Manifest, tick: nat, e: Env, r: Instance, p: nat, v: Verdict)
    requires StoppedIdle(r) && Lawful(hasher, m, tick, e, r, p, v)
    ensures TickRecord(hasher, m, tick, e, r, p, v) == r
  {
  }

  lemma IdleStep(hasher: Hasher, s: State, step: Step, s': State, i: nat, j: nat)
    requires Leads(hasher, s, step, s') && Carries(hasher, s, step, i, j) && StoppedIdle(s.table[i])
    ensures At(s'.table, j, s.table[i])
  {
    match step
    case Ticked(e) => IdleStopIsKept(hasher, s, e, i);
    case Reloaded(o) => ReloadChanges(s, o);
  }

  lemma RunIdleStep(hasher: Hasher, ss: seq<State>, steps: seq<Step>, pos: seq<nat>, a: nat, b: nat, k: nat, r: Instance)
    requires IsRun(hasher, ss, steps) && Tracks(hasher, ss, steps, pos, a, b) && a <= k < b
    requires StoppedIdle(r) && At(ss[k].table, pos[k], r)
    ensures At(ss[k + 1].table, pos[k + 1], r)
  {
    assert LeadsAt(hasher, ss, steps, k);
    IdleStep(hasher, ss[k], steps[k], ss[k + 1], pos[k], pos[k + 1]);
  }

  /** In every run, however long, it stays as it was for as long as it stays. */
  lemma IdleStopNeverMoves(hasher: Hasher, ss: seq<State>, steps: seq<Step>, pos: seq<nat>, a: nat, b: nat)
    requires IsRun(hasher, ss, steps) && Tracks(hasher, ss, steps, pos, a, b) && StoppedIdle(ss[a].table[pos[a]])
    ensures At(ss[b].table, pos[b], ss[a].table[pos[a]])
  {
    var r := ss[a].table[pos[a]];
    forall j: nat | a <= j < b && At(ss[j].table, pos[j], r) ensures At(ss[j + 1].table, pos[j + 1], r) {
      RunIdleStep(hasher, ss, steps, pos, a, b, j, r);
    }
    AlongStates(ss, (s: State, j: nat) => j < |pos| && At(s.table, pos[j], r), a, b);
  }
}
