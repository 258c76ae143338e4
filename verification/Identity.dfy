/** Every process belongs to one record, in every reachable table. */
module Identity {
  import opened KeyOrder
  import opened Instances
  import opened Stages
  import opened Tracking
  import opened Runs
  import opened Startup
  import opened Gates

  /** Two records do not hold the same process. */
  ghost predicate PidsDiffer(t: Table, i: nat, j: nat) {
    i < j < |t| && t[i].Running() && t[j].Running() ==> t[i].handle.value.pid != t[j].handle.value.pid
  }

  ghost predicate OneRecordPerProcess(t: Table) {
    forall i: nat, j: nat :: PidsDiffer(t, i, j)
  }

  lemma KeepsIdentity(t: Table, u: Table)
    requires KeepsProcesses(t, u) && OneRecordPerProcess(t)
    ensures OneRecordPerProcess(u)
  {
    forall i: nat, j: nat ensures PidsDiffer(u, i, j) {
      assert PidsDiffer(t, i, j);
    }
  }

  lemma {:induction false} PosAfterGrows(t: Table, gone: set<Key>, i: nat, j: nat)
    requires j <= i <= |t|
    ensures PosAfter(t, gone, j) <= PosAfter(t, gone, i)
    decreases i
  {
    if j < i {
      PosAfterGrows(t, gone, i - 1, j);
      assert t[..i][..i - 1] == t[..i - 1];
    }
  }

  lemma RetainIdentity(t: Table, gone: set<Key>)
    requires OneRecordPerProcess(t)
    ensures OneRecordPerProcess(Retain(t, gone))
  {
    var u := Retain(t, gone);
    forall p: nat, q: nat ensures PidsDiffer(u, p, q) {
      if p < q < |u| {
        var i := RetainFrom(t, gone, p);
        var j := RetainFrom(t, gone, q);
        if j <= i {
          PosAfterGrows(t, gone, i, j);
        }
        assert PidsDiffer(t, i, j);
      }
    }
  }

  lemma ReapIdentity(s: State, e: Env)
    requires OneRecordPerProcess(s.table)
    ensures OneRecordPerProcess(Reap(s, e).table)
  {
    var t := ReapedTable(s.table, s.m.defaults, e.wait, e.reapAt);
    KeepsIdentity(s.table, t);
    RetainIdentity(t, DroppedSlots(s.table, e.wait));
  }

  lemma TerminateIdentity(s: State, d: Desired, e: Env)
    requires OneRecordPerProcess(s.table)
    ensures OneRecordPerProcess(TerminateUndesired(s, d, e).table)
  {
    var t := StoppedUndesired(s.table, d, e.terminateAt);
    KeepsIdentity(s.table, t);
    RetainIdentity(t, IdleUndesired(s.table, d));
  }

  lemma FirstHalfIdentity(s: State, d: Desired, e: Env)
    requires OneRecordPerProcess(s.table)
    ensures OneRecordPerProcess(FirstHalf(s, d, e).table)
  {
    TerminateIdentity(s, d, e);
    var s1 := TerminateUndesired(s, d, e);
    KeepsIdentity(s1.table, StopCheckBlocked(s1, e).table);
    var s2 := StopCheckBlocked(s1, e);
    KeepsIdentity(s2.table, RollStale(s2, d, e).table);
  }

  lemma AddIdentity(s: State, d: Desired, e: Env)
    requires OneRecordPerProcess(s.table)
    ensures OneRecordPerProcess(AddMissing(s, d, e).table)
  {
    InKeyOrderSorts(d.Keys);
    var more := Missing(d, s.table, InKeyOrder(d.Keys), e.spawnAt);
    forall i | 0 <= i < |more| ensures !more[i].Running() {
      MissingSlot(d, s.table, InKeyOrder(d.Keys), e.spawnAt, i);
    }
    forall i: nat, j: nat ensures PidsDiffer(s.table + more, i, j) {
      assert PidsDiffer(s.table, i, j);
    }
  }

  lemma AddFromEarlier(s: State, d: Desired, e: Env)
    requires FromEarlierTicks(s.tick, s.table)
    ensures FromEarlierTicks(s.tick, AddMissing(s, d, e).table)
  {
    var u := AddMissing(s, d, e).table;
    AddProcesses(s, d, e);
    forall i | 0 <= i < |u| && u[i].Running() ensures u[i].handle.value.pid.tick < s.tick {
      ProcessAt(u, i);
    }
  }

  /** The processes a tick spawns differ from each other and from all earlier ones. */
  lemma SpawnIdentity(hasher: Hasher, s: State, e: Env)
    requires OneRecordPerProcess(s.table) && FromEarlierTicks(s.tick, s.table)
    ensures OneRecordPerProcess(SpawnReady(hasher, s, e).table)
  {
    var u := SpawnReady(hasher, s, e).table;
    forall i: nat, j: nat ensures PidsDiffer(u, i, j) {
      assert PidsDiffer(s.table, i, j);
      if i < j < |u| {
        SpawnedPid(hasher, s, e, i);
        SpawnedPid(hasher, s, e, j);
      }
    }
  }

  lemma SpawnedPid(hasher: Hasher, s: State, e: Env, i: nat)
    requires i < |s.table|
    ensures var r := SpawnReady(hasher, s, e).table[i];
            r.Running() ==> r.handle.value.pid == if s.table[i].Running() then s.table[i].handle.value.pid else Pid(s.tick, i)
  {
  }

  lemma SecondHalfIdentity(hasher: Hasher, s: State, d: Desired, e: Env)
    requires OneRecordPerProcess(s.table) && FromEarlierTicks(s.tick, s.table)
    ensures OneRecordPerProcess(SecondHalf(hasher, s, d, e).table)
  {
    AddIdentity(s, d, e);
    AddFromEarlier(s, d, e);
    var s1 := AddMissing(s, d, e);
    SpawnIdentity(hasher, s1, e);
    var s2 := SpawnReady(hasher, s1, e);
    var s3 := RetireStaleSurplus(s2, d, e);
    KeepsIdentity(s2.table, s3.table);
    ProbeIdentity(s3, e);
  }

  lemma ProbeIdentity(s: State, e: Env)
    requires OneRecordPerProcess(s.table)
    ensures OneRecordPerProcess(Probe(s, e).table)
  {
    forall i | 0 <= i < |s.table| {
      ProbeOneProcess(s.m, s.table[i], e.probeAt, e.probe(i));
    }
    KeepsIdentity(s.table, Probe(s, e).table);
  }

  lemma FirstHalfFromEarlier(s: State, d: Desired, e: Env)
    requires FromEarlierTicks(s.tick, s.table)
    ensures FromEarlierTicks(s.tick, FirstHalf(s, d, e).table)
  {
    var u := FirstHalf(s, d, e).table;
    FirstHalfProcesses(s, d, e);
    forall i | 0 <= i < |u| && u[i].Running() ensures u[i].handle.value.pid.tick < s.tick {
      ProcessAt(u, i);
    }
  }

  lemma TickIdentity(hasher: Hasher, s: State, e: Env)
    requires OneRecordPerProcess(s.table) && FromEarlierTicks(s.tick, s.table)
    ensures OneRecordPerProcess(Tick(hasher, s, e).table)
  {
    var s1, s2 := TickParts(hasher, s, e);
    ReapIdentity(ReverifyChecks(s, e), e);
    ReapFromEarlier(ReverifyChecks(s, e), e);
    FirstHalfIdentity(s1, DesiredIn(hasher, s1), e);
    FirstHalfFromEarlier(s1, DesiredIn(hasher, s1), e);
    SecondHalfIdentity(hasher, s2, DesiredIn(hasher, s2), e);
  }

  lemma StepIdentity(hasher: Hasher, s: State, step: Step, s': State)
    requires Leads(hasher, s, step, s') && FromEarlierTicks(s.tick, s.table) && OneRecordPerProcess(s.table)
    ensures OneRecordPerProcess(s'.table)
  {
    match step
    case Ticked(e) => TickIdentity(hasher, s, e);
    case Reloaded(o) => ReloadChanges(s, o);
  }

  lemma RunStepIdentity(hasher: Hasher, ss: seq<State>, steps: seq<Step>, k: nat)
    requires IsRun(hasher, ss, steps) && k < |steps|
    requires FromEarlierTicks(ss[k].tick, ss[k].table) && OneRecordPerProcess(ss[k].table)
    ensures OneRecordPerProcess(ss[k + 1].table)
  {
    assert LeadsAt(hasher, ss, steps, k);
    StepIdentity(hasher, ss[k], steps[k], ss[k + 1]);
  }

  /** In every reachable state no process is held by two records, so no exit is counted twice. */
  lemma {:induction false} ProcessesAreNotShared(hasher: Hasher, ss: seq<State>, steps: seq<Step>, k: nat)
    requires IsRun(hasher, ss, steps) && k < |ss|
    ensures OneRecordPerProcess(ss[k].table)
    decreases k
  {
    if k > 0 {
      ProcessesAreNotShared(hasher, ss, steps, k - 1);
      RunFromEarlier(hasher, ss, steps, k - 1);
      RunStepIdentity(hasher, ss, steps, k - 1);
    }
  }
}
