/** Where a surge roll ends: the exit of the replaced instance takes its replacement with it. */
module SurgeRolls {
  import opened KeyOrder
  import opened Instances
  import opened Stages
  import opened Lifecycle
  import opened Tracking
  import opened Fates
  import opened Runs
  import opened Stopping
  import opened Startup
  import opened Gates
  import opened Availability

  ghost predicate NoneOf(t: Table, k: Key) {
    forall i :: 0 <= i < |t| ==> t[i].Slot() != k
  }

  lemma RetainNoneOf(t: Table, gone: set<Key>, k: Key)
    requires k in gone || NoneOf(t, k)
    ensures NoneOf(Retain(t, gone), k)
  {
    forall p | 0 <= p < |Retain(t, gone)| ensures Retain(t, gone)[p].Slot() != k {
      var i := RetainFrom(t, gone, p);
    }
  }

  lemma ReapClears(s: State, e: Env, i: nat)
    requires i < |s.table| && ExitDrops(s.table[i], e.wait)
    ensures NoneOf(Reap(s, e).table, s.table[i].Slot())
  {
    RetainNoneOf(ReapedTable(s.table, s.m.defaults, e.wait, e.reapAt), DroppedSlots(s.table, e.wait), s.table[i].Slot());
  }

  lemma FirstHalfNoneOf(s: State, d: Desired, e: Env, k: Key)
    requires NoneOf(s.table, k)
    ensures NoneOf(FirstHalf(s, d, e).table, k)
  {
    var t := StoppedUndesired(s.table, d, e.terminateAt);
    assert NoneOf(t, k);
    RetainNoneOf(t, IdleUndesired(s.table, d), k);
    var s1 := TerminateUndesired(s, d, e);
    assert NoneOf(StopCheckBlocked(s1, e).table, k);
  }

  /** What fills an empty slot in the second half of a tick is a process of that tick. */
  lemma RefilledByTick(hasher: Hasher, s: State, d: Desired, e: Env, p: nat)
    requires p < |SecondHalf(hasher, s, d, e).table| && NoneOf(s.table, SecondHalf(hasher, s, d, e).table[p].Slot())
    ensures var r := SecondHalf(hasher, s, d, e).table[p]; r.Running() ==> r.handle.value.pid.tick == s.tick
  {
    if p < |s.table| {
      var spawned, retired := SecondHalfAt(hasher, s, d, e, p);
      var r := if spawned then SpawnOne(hasher, s.m.defaults, s.m.Lookup(s.table[p].app).value, s.table[p], e.spawn(p), Pid(s.tick, p))
               else s.table[p];
      ProbeKeeps(s.m, StopIf(retired, r, false, e.retireAt), e.probeAt, e.probe(p));
    } else {
      var r, spawned, retired := AddedRecord(hasher, s, d, e, p);
      var tried := if spawned then SpawnOne(hasher, s.m.defaults, s.m.Lookup(r.app).value, r, e.spawn(p), Pid(s.tick, p)) else r;
      ProbeOneProcess(s.m, StopIf(retired, tried, false, e.retireAt), e.probeAt, e.probe(p));
    }
  }

  /**
   * The tick that sees a process exit after a final stop removes every record of its slot:
   * what runs in the slot afterwards was spawned in that same tick.
   */
  lemma FinalExitClearsSlot(hasher: Hasher, s: State, e: Env, i: nat, p: nat)
    requires i < |s.table| && ExitDrops(s.table[i], e.wait)
    requires p < |Tick(hasher, s, e).table| && Tick(hasher, s, e).table[p].Slot() == s.table[i].Slot()
    ensures var r := Tick(hasher, s, e).table[p]; r.Running() ==> r.handle.value.pid.tick == s.tick
  {
    var s1, s2 := TickParts(hasher, s, e);
    ReapClears(ReverifyChecks(s, e), e, i);
    FirstHalfNoneOf(s1, DesiredIn(hasher, s1), e, s.table[i].Slot());
    RefilledByTick(hasher, s2, DesiredIn(hasher, s2), e, p);
  }

  // ----- the tick that retires -----

  /** The table when the retire stage of the tick finds it. */
  ghost function BeforeRetire(hasher: Hasher, s: State, e: Env): State {
    var rolled := Rolled(hasher, Reap(ReverifyChecks(s, e), e), e);
    SpawnMissing(hasher, rolled, DesiredIn(hasher, rolled), e)
  }

  /** The running record `p` is retired because record `q` of its slot, the replacement, is Ready. */
  ghost predicate Replaces(s: State, d: Desired, p: nat, q: nat) {
    && s.m.defaults.maxSurge > 0
    && p < |s.table| && q < |s.table| && s.table[p].Slot() == s.table[q].Slot()
    && s.table[p].Running() && s.table[p].phase != Terminating && Stale(d, s.table[p])
    && UpToDate(d, s.table[q]) && s.table[q].phase == Ready
  }

  ghost predicate RetiresFor(hasher: Hasher, s: State, e: Env, p: nat, q: nat) {
    var s3 := BeforeRetire(hasher, s, e);
    Replaces(s3, DesiredIn(hasher, s3), p, q)
  }

  /** Both records of the slot: one stopped for good, the other running. */
  ghost predicate StoppedBeside(t: Table, p: nat, q: nat) {
    && p < |t| && q < |t| && t[p].Slot() == t[q].Slot()
    && IsStopping(t[p]) && !t[p].restartAfterStop
    && t[q].Running()
  }

  lemma BeforeRetireIs(hasher: Hasher, s: State, e: Env)
    ensures var s3 := BeforeRetire(hasher, s, e);
            Tick(hasher, s, e).table == Probe(RetireStaleSurplus(s3, DesiredIn(hasher, s3), e), e).table
    ensures BeforeRetire(hasher, s, e).m == s.m
  {
    var s1, s2 := TickParts(hasher, s, e);
    assert DesiredIn(hasher, BeforeRetire(hasher, s, e)) == DesiredIn(hasher, s2);
  }

  lemma RetireBeside(s: State, d: Desired, e: Env, p: nat, q: nat)
    requires TableOk(s.table) && Replaces(s, d, p, q)
    ensures StoppedBeside(RetireStaleSurplus(s, d, e).table, p, q)
  {
    assert Replaced(d, s.table, s.table[p].Slot());
    assert Retires(d, s.table, s.table[p]) && !Retires(d, s.table, s.table[q]);
    assert RecordOk(s.table[q]);
  }

  lemma ProbeBeside(s: State, e: Env, p: nat, q: nat)
    requires StoppedBeside(s.table, p, q)
    ensures StoppedBeside(Probe(s, e).table, p, q)
  {
    var t := Probe(s, e).table;
    ProbeKeeps(s.m, s.table[q], e.probeAt, e.probe(q));
    assert t[p] == ProbeOne(s.m, s.table[p], e.probeAt, e.probe(p)) == s.table[p];
    assert t[q] == ProbeOne(s.m, s.table[q], e.probeAt, e.probe(q));
  }

  lemma BeforeRetireOk(hasher: Hasher, s: State, e: Env)
    requires TableOk(s.table)
    ensures TableOk(BeforeRetire(hasher, s, e).table)
  {
    var s0 := ReverifyChecks(s, e);
    ReapKeepsOk(s0, e);
    var s1 := Reap(s0, e);
    FirstHalfKeepsOk(s1, DesiredIn(hasher, s1), e);
    var s2 := Rolled(hasher, s1, e);
    AddKeepsOk(s2, DesiredIn(hasher, s2), e);
    SpawnKeepsOk(hasher, AddMissing(s2, DesiredIn(hasher, s2), e), e);
  }

  /** The tick leaves the record stopped for good, with the replacement still running. */
  lemma RetiredForReplacement(hasher: Hasher, s: State, e: Env, p: nat, q: nat)
    requires TableOk(s.table) && RetiresFor(hasher, s, e, p, q)
    ensures StoppedBeside(Tick(hasher, s, e).table, p, q)
  {
    var s3 := BeforeRetire(hasher, s, e);
    var d := DesiredIn(hasher, s3);
    BeforeRetireOk(hasher, s, e);
    BeforeRetireIs(hasher, s, e);
    RetireBeside(s3, d, e, p, q);
    ProbeBeside(RetireStaleSurplus(s3, d, e), e, p, q);
  }

  // ----- runs -----

  /** The process is held by no record of the slot. */
  ghost predicate GoneFrom(t: Table, k: Key, pid: Pid) {
    forall i :: 0 <= i < |t| && t[i].Slot() == k && t[i].Running() ==> t[i].handle.value.pid != pid
  }

  lemma ExitClearsEarlier(hasher: Hasher, s: State, e: Env, i: nat, pid: Pid)
    requires i < |s.table| && ExitDrops(s.table[i], e.wait) && pid.tick < s.tick
    ensures GoneFrom(Tick(hasher, s, e).table, s.table[i].Slot(), pid)
  {
    var t := Tick(hasher, s, e).table;
    forall p | 0 <= p < |t| && t[p].Slot() == s.table[i].Slot() && t[p].Running() ensures t[p].handle.value.pid != pid {
      FinalExitClearsSlot(hasher, s, e, i, p);
    }
  }

  /**
   * In any run, a tick that retires an instance because its replacement is Ready leaves the
   * two in the table, one stopped for good, the other running ...
   */
  lemma RetiringStep(hasher: Hasher, ss: seq<State>, steps: seq<Step>, a: nat, p: nat, q: nat)
    requires IsRun(hasher, ss, steps) && a < |steps| && steps[a].Ticked? && RetiresFor(hasher, ss[a], steps[a].e, p, q)
    ensures StoppedBeside(ss[a + 1].table, p, q)
  {
    ReachableOk(hasher, ss, steps, a);
    assert LeadsAt(hasher, ss, steps, a);
    RetiredForReplacement(hasher, ss[a], steps[a].e, p, q);
  }

  /** The process has not exited up to state `b`, and the tick that follows sees it exit. */
  ghost predicate ExitsFirstIn(steps: seq<Step>, a: nat, b: nat, pid: Pid) {
    b < |steps| && NotSeenExiting(steps, a, b, pid) && steps[b].Ticked? && steps[b].e.wait(pid).Exited?
  }

  /**
   * ... and from there, after any number of ticks and reloads, the tick that sees the stopped
   * process exit leaves the other one, however healthy, out of the slot: a surge roll always
   * loses the instance it was made for.
   */
  lemma SurgeReplacementIsLost(hasher: Hasher, ss: seq<State>, steps: seq<Step>, pos: seq<nat>, a: nat, b: nat, q: nat)
    requires IsRun(hasher, ss, steps) && Tracks(hasher, ss, steps, pos, a, b) && StoppedBeside(ss[a].table, pos[a], q)
    requires ExitsFirstIn(steps, a, b, ss[a].table[pos[a]].handle.value.pid)
    ensures GoneFrom(ss[b + 1].table, ss[a].table[q].Slot(), ss[a].table[q].handle.value.pid)
  {
    StopIsFinal(hasher, ss, steps, pos, a, b);
    RunFromEarlier(hasher, ss, steps, a);
    TicksGrow(hasher, ss, steps, a, b);
    LastExit(hasher, ss, steps, pos, a, b, q);
  }

  lemma LastExit(hasher: Hasher, ss: seq<State>, steps: seq<Step>, pos: seq<nat>, a: nat, b: nat, q: nat)
    requires IsRun(hasher, ss, steps) && a <= b < |steps| && |pos| == |ss| && StoppedBeside(ss[a].table, pos[a], q)
    requires pos[b] < |ss[b].table| && StillStopping(ss[a].table[pos[a]], ss[b].table[pos[b]])
    requires steps[b].Ticked? && steps[b].e.wait(ss[a].table[pos[a]].handle.value.pid).Exited?
    requires ss[a].table[q].handle.value.pid.tick < ss[b].tick
    ensures GoneFrom(ss[b + 1].table, ss[a].table[q].Slot(), ss[a].table[q].handle.value.pid)
  {
    assert LeadsAt(hasher, ss, steps, b);
    ExitClearsEarlier(hasher, ss[b], steps[b].e, pos[b], ss[a].table[q].handle.value.pid);
  }

  // ----- a roll that waits -----

  /** With surge, the first half of a tick leaves a Ready instance of a desired slot alone, up to date or not. */
  lemma ReadyToRoll(s: State, d: Desired, e: Env, i: nat)
    requires s.m.defaults.maxSurge > 0 && i < |s.table| && s.table[i].Running() && s.table[i].phase == Ready && s.table[i].Slot() in d
    requires !CheckBlocked(s.m, s.checksOk, s.table[i].app)
    ensures var p := PlaceAfterTerminate(s, d, e, i); p.Some? && At(FirstHalf(s, d, e).table, p.value, s.table[i])
  {
    var p := TerminateAt(s, d, e, i);
    var s1 := TerminateUndesired(s, d, e);
    var s2 := StopCheckBlocked(s1, e);
    assert s1.table[p.value] == s.table[i];
    assert s2.table[p.value] == s.table[i];
    SurgeSparesReady(s2.m, d, s2.table, s.table[i].app);
  }

  /** Then it depends on the replacement alone. */
  lemma ReadyToProbe(hasher: Hasher, s: State, d: Desired, e: Env, p: nat)
    requires p < |s.table| && s.table[p].Running()
    ensures var s3 := SpawnMissing(hasher, s, d, e);
            && At(s3.table, p, s.table[p])
            && At(RetireStaleSurplus(s3, d, e).table, p,
                  StopIf(s.m.defaults.maxSurge > 0 && Retires(d, s3.table, s.table[p]), s.table[p], false, e.retireAt))
  {
    assert AddMissing(s, d, e).table[p] == s.table[p];
  }

  lemma CoveredWants(hasher: Hasher, s: State, e: Env, k: Key)
    requires var d := DesiredIn(hasher, s); k in d && HasHash(s.table, k, d[k].hash)
    ensures var d2 := DesiredIn(hasher, FirstHalf(s, DesiredIn(hasher, s), e)); k in d2 && d2[k].hash == DesiredIn(hasher, s)[k].hash
  {
    var d := DesiredIn(hasher, s);
    var j: nat :| j < |s.table| && s.table[j].Slot() == k && s.table[j].specHash == d[k].hash;
    FirstHalfSameWant(hasher, s, e, j);
  }

  /** What becomes of it between the reap and the probes. */
  lemma WaitsAfterReap(hasher: Hasher, s: State, e: Env, i: nat)
    requires s.m.defaults.maxSurge > 0 && i < |s.table| && s.table[i].Running() && s.table[i].phase == Ready
    requires Stale(DesiredIn(hasher, s), s.table[i]) && !CheckBlocked(s.m, s.checksOk, s.table[i].app)
    requires HasHash(s.table, s.table[i].Slot(), DesiredIn(hasher, s)[s.table[i].Slot()].hash)
    ensures var d, p, k, s2 := DesiredIn(hasher, s), PlaceAfterTerminate(s, DesiredIn(hasher, s), e, i), s.table[i].Slot(), Rolled(hasher, s, e);
            var d2 := DesiredIn(hasher, s2);
            && p.Some? && k in d2 && d2[k].hash == d[k].hash
            && At(AfterReap(hasher, s, e).table, p.value,
                  if Replaced(d2, SpawnMissing(hasher, s2, d2, e).table, k) then BeginStop(s.table[i], false, e.retireAt) else s.table[i])
  {
    var d, s2 := DesiredIn(hasher, s), Rolled(hasher, s, e);
    ReadyToRoll(s, d, e, i);
    CoveredWants(hasher, s, e, s.table[i].Slot());
    FirstHalfChanges(s, d, e);
    ReadyToProbe(hasher, s2, DesiredIn(hasher, s2), e, PlaceAfterTerminate(s, d, e, i).value);
  }

  /**
   * With surge, a stale Ready instance whose slot already has a record of the new hash is
   * neither moved nor stopped before a current record of the slot is Ready, and is stopped then;
   * so one whose replacement cannot come up on the port the two share is never rolled.
   */
  lemma SurgeWaitsIff(hasher: Hasher, s: State, e: Env, i: nat)
    requires s.m.defaults.maxSurge > 0 && i < |s.table| && s.table[i].Running() && s.table[i].phase == Ready
    requires Stale(DesiredIn(hasher, s), s.table[i])
    requires HasHash(s.table, s.table[i].Slot(), DesiredIn(hasher, s)[s.table[i].Slot()].hash)
    requires !e.wait(s.table[i].handle.value.pid).Exited? && s.table[i].Slot() !in DroppedSlots(s.table, e.wait)
    requires !CheckBlocked(s.m, ReverifyChecks(s, e).checksOk, s.table[i].app)
    ensures var p, k, s3 := Place(hasher, s, e, i), s.table[i].Slot(), BeforeRetire(hasher, s, e);
            var d2 := DesiredIn(hasher, s3);
            && p.Some? && k in d2 && d2[k].hash == DesiredIn(hasher, s)[k].hash
            && At(BeforeProbe(hasher, s, e).table, p.value,
                  if Replaced(d2, s3.table, k) then BeginStop(s.table[i], false, e.retireAt) else s.table[i])
  {
    var s0, r := ReverifyChecks(s, e), s.table[i];
    ReapKeepsWants(hasher, s, e);
    var q := PlaceIs(hasher, s, e, i);
    PlaceAfterReapSome(s0, e, i);
    ReapHashes(s0, e, r.Slot(), DesiredIn(hasher, s)[r.Slot()].hash);
    WaitsAfterReap(hasher, Reap(s0, e), e, q.value);
    WantsAtRetire(hasher, Rolled(hasher, Reap(s0, e), e), e);
  }

  lemma PlaceAfterReapSome(s: State, e: Env, i: nat)
    requires i < |s.table| && s.table[i].Slot() !in DroppedSlots(s.table, e.wait)
    ensures PlaceAfterReap(s, e, i).Some?
  {
  }

  lemma WantsAtRetire(hasher: Hasher, s: State, e: Env)
    ensures DesiredIn(hasher, SpawnMissing(hasher, s, DesiredIn(hasher, s), e)) == DesiredIn(hasher, s)
  {
  }
}
