/** What holds of every record in every reachable table, whatever processes, probes and checks do. */
module Lifecycle {
  import opened Prelude
  import opened Manifests
  import opened KeyOrder
  import opened Instances
  import opened Stages

  /** Time that must have passed before signal `i` of a stop. */
  function Grace(i: nat): nat {
    if i <= 1 then 10_000 else 2_000
  }

  /**
   * The signals of a process that was asked to stop: one SIGTERM, then SIGKILLs, the first
   * after the grace period and each later one at least two seconds after the one before.
   */
  ghost predicate StopLog(sent: seq<Signal>) {
    && sent != []
    && sent[0].Sigterm?
    && forall i :: 1 <= i < |sent| ==> sent[i].Sigkill? && sent[i].at >= sent[i - 1].at + Grace(i)
  }

  ghost predicate StopClock(sent: seq<Signal>, deadline: Option<nat>) {
    sent != [] && deadline == Some(sent[|sent| - 1].at + Grace(|sent|))
  }

  ghost predicate RecordOk(r: Instance) {
    && (r.phase in {Starting, Ready, Unready} ==> r.Running())
    && (r.phase in {Pending, CrashLoopBackOff} ==> !r.Running())
    && (r.Serving() ==> (r.phase == Starting <==> !r.everReady) && r.handle.value.sent == [])
    && (r.phase == Terminating ==> r.killDeadline.Some?)
    && (r.Running() ==> r.startedAt.Some?)
    && (r.Running() && r.phase == Terminating ==>
          StopLog(r.handle.value.sent) && StopClock(r.handle.value.sent, r.killDeadline))
  }

  ghost predicate TableOk(t: Table) {
    forall i :: 0 <= i < |t| ==> RecordOk(t[i])
  }

  // ----- each thing that can happen to a record -----

  lemma BeginStopOk(r: Instance, respawn: bool, now: nat)
    requires RecordOk(r) && r.phase != Terminating
    ensures RecordOk(BeginStop(r, respawn, now))
  {
  }

  lemma ReapOneOk(r: Instance, d: Defaults, wait: Pid -> Wait, now: nat)
    requires RecordOk(r)
    ensures RecordOk(ReapOne(r, d, wait, now))
  {
  }

  lemma SpawnOneOk(hasher: Hasher, d: Defaults, a: App, r: Instance, ans: SpawnAnswer, pid: Pid)
    requires RecordOk(r) && !r.Running() && r.phase != Terminating
    ensures RecordOk(SpawnOne(hasher, d, a, r, ans, pid))
  {
  }

  lemma ProbeOneOk(m: Manifest, r: Instance, now: nat, ans: ProbeAnswer)
    requires RecordOk(r)
    ensures RecordOk(ProbeOne(m, r, now, ans))
  {
    if r.Serving() && m.Has(r.app) {
      var a := m.Lookup(r.app).value;
      ReadinessOk(a, r, now, ans);
      var p := AfterReadiness(a, r, now, ans);
      if p.phase != Terminating && LiveProbeRuns(a, p, now) {
        LiveProbeOk(a, p, ans);
      }
    }
  }

  lemma ReadinessOk(a: App, r: Instance, now: nat, ans: ProbeAnswer)
    requires RecordOk(r) && r.Serving()
    ensures var p := AfterReadiness(a, r, now, ans); RecordOk(p) && p.Running()
  {
    BeginStopOk(r.(nextReadyProbe := ans.readyAt + READY_PERIOD), true, ans.readyAt);
  }

  lemma LiveProbeOk(a: App, r: Instance, ans: ProbeAnswer)
    requires RecordOk(r) && r.Serving()
    ensures RecordOk(LiveProbe(a, r, ans))
  {
    var q := r.(nextLiveProbe := ans.liveAt + a.livePeriod * 1000, consecutiveLiveFail := r.consecutiveLiveFail + 1);
    BeginStopOk(q, true, ans.liveAt);
  }

  // ----- each stage -----

  lemma RetainOk(t: Table, gone: set<Key>)
    requires TableOk(t)
    ensures TableOk(Retain(t, gone))
  {
    RetainMembers(t, gone);
    forall i | 0 <= i < |Retain(t, gone)| ensures RecordOk(Retain(t, gone)[i]) {
      assert Retain(t, gone)[i] in Retain(t, gone);
    }
  }

  lemma ReapKeepsOk(s: State, e: Env)
    requires TableOk(s.table)
    ensures TableOk(Reap(s, e).table)
  {
    var t := ReapedTable(s.table, s.m.defaults, e.wait, e.reapAt);
    forall i | 0 <= i < |t| ensures RecordOk(t[i]) {
      ReapOneOk(s.table[i], s.m.defaults, e.wait, e.reapAt);
    }
    RetainOk(t, DroppedSlots(s.table, e.wait));
  }

  lemma TerminateKeepsOk(s: State, d: Desired, e: Env)
    requires TableOk(s.table)
    ensures TableOk(TerminateUndesired(s, d, e).table)
  {
    var t := StoppedUndesired(s.table, d, e.terminateAt);
    forall i | 0 <= i < |t| ensures RecordOk(t[i]) {
      if s.table[i].Serving() {
        BeginStopOk(s.table[i], false, e.terminateAt);
      }
    }
    RetainOk(t, IdleUndesired(s.table, d));
  }

  lemma StopBlockedKeepsOk(s: State, e: Env)
    requires TableOk(s.table)
    ensures TableOk(StopCheckBlocked(s, e).table)
  {
    forall i | 0 <= i < |s.table| ensures RecordOk(StopCheckBlocked(s, e).table[i]) {
      if s.table[i].Serving() {
        BeginStopOk(s.table[i], true, e.blockedAt);
      }
    }
  }

  lemma VictimNotTerminating(m: Manifest, d: Desired, t: Table, app: string)
    ensures var v := RollVictim(m, d, t, app); v.Some? ==> v.value < |t| && t[v.value].phase != Terminating
  {
  }

  lemma RollKeepsOk(s: State, d: Desired, e: Env)
    requires TableOk(s.table)
    ensures TableOk(RollStale(s, d, e).table)
  {
    var v := RollVictims(s.m, s.selected, d, s.table);
    var t := StopVictims(v, s.table, e.rollAt);
    forall i | 0 <= i < |t| ensures RecordOk(t[i]) {
      if IsVictim(v, s.table, i) {
        VictimNotTerminating(s.m, d, s.table, s.table[i].app);
        BeginStopOk(s.table[i], false, e.rollAt);
      }
    }
  }

  lemma AddKeepsOk(s: State, d: Desired, e: Env)
    requires TableOk(s.table)
    ensures TableOk(AddMissing(s, d, e).table)
  {
    InKeyOrderSorts(d.Keys);
    var more := Missing(d, s.table, InKeyOrder(d.Keys), e.spawnAt);
    forall i | 0 <= i < |more| ensures RecordOk(more[i]) {
      MissingSlot(d, s.table, InKeyOrder(d.Keys), e.spawnAt, i);
    }
  }

  lemma SpawnKeepsOk(hasher: Hasher, s: State, e: Env)
    requires TableOk(s.table)
    ensures TableOk(SpawnReady(hasher, s, e).table)
  {
    var ready := ReadyApps(s.table);
    forall i | 0 <= i < |s.table| ensures RecordOk(SpawnAt(hasher, s, ready, e, i)) {
      var r := s.table[i];
      if SpawnGate(s.m, s.checksOk, ready, r, e.spawnAt) {
        SpawnOneOk(hasher, s.m.defaults, s.m.Lookup(r.app).value, r, e.spawn(i), Pid(s.tick, i));
      }
    }
  }

  lemma RetireKeepsOk(s: State, d: Desired, e: Env)
    requires TableOk(s.table)
    ensures TableOk(RetireStaleSurplus(s, d, e).table)
  {
    forall i | 0 <= i < |s.table| && s.table[i].phase != Terminating
      ensures RecordOk(BeginStop(s.table[i], false, e.retireAt))
    {
      BeginStopOk(s.table[i], false, e.retireAt);
    }
  }

  lemma ProbeKeepsOk(s: State, e: Env)
    requires TableOk(s.table)
    ensures TableOk(Probe(s, e).table)
  {
    forall i | 0 <= i < |s.table| ensures RecordOk(Probe(s, e).table[i]) {
      ProbeOneOk(s.m, s.table[i], e.probeAt, e.probe(i));
    }
  }

  lemma FirstHalfKeepsOk(s: State, d: Desired, e: Env)
    requires TableOk(s.table)
    ensures TableOk(FirstHalf(s, d, e).table)
  {
    TerminateKeepsOk(s, d, e);
    var s1 := TerminateUndesired(s, d, e);
    StopBlockedKeepsOk(s1, e);
    RollKeepsOk(StopCheckBlocked(s1, e), d, e);
  }

  lemma SecondHalfKeepsOk(hasher: Hasher, s: State, d: Desired, e: Env)
    requires TableOk(s.table)
    ensures TableOk(SecondHalf(hasher, s, d, e).table)
  {
    AddKeepsOk(s, d, e);
    var s1 := AddMissing(s, d, e);
    SpawnKeepsOk(hasher, s1, e);
    var s2 := SpawnReady(hasher, s1, e);
    RetireKeepsOk(s2, d, e);
    ProbeKeepsOk(RetireStaleSurplus(s2, d, e), e);
  }

  /** One tick keeps the invariant, for every environment. */
  lemma TickKeepsOk(hasher: Hasher, s: State, e: Env)
    requires TableOk(s.table)
    ensures TableOk(Tick(hasher, s, e).table)
  {
    var s0 := ReverifyChecks(s, e);
    ReapKeepsOk(s0, e);
    var s1 := Reap(s0, e);
    FirstHalfKeepsOk(s1, DesiredIn(hasher, s1), e);
    var s2 := FirstHalf(s1, DesiredIn(hasher, s1), e);
    SecondHalfKeepsOk(hasher, s2, DesiredIn(hasher, s2), e);
  }
}
