/** What holds at the end of every tick: desired slots, stops, and the check gate. */
module Gates {
  import opened Manifests
  import opened KeyOrder
  import opened Instances
  import opened Stages
  import opened Lifecycle
  import opened Tracking
  import opened Runs
  import opened Startup

  // ----- records outside the desired slots -----

  /** A record of a slot that is no longer desired: its process, from an earlier tick, is being stopped. */
  ghost predicate Leaving(tick: nat, r: Instance) {
    r.Running() && r.phase == Terminating && r.handle.value.pid.tick < tick
  }

  ghost predicate DesiredOrLeaving(d: Desired, tick: nat, t: Table) {
    forall i :: 0 <= i < |t| ==> t[i].Slot() in d || Leaving(tick, t[i])
  }

  /** Every process in the table comes from an earlier tick. */
  ghost predicate FromEarlierTicks(tick: nat, t: Table) {
    forall i :: 0 <= i < |t| && t[i].Running() ==> t[i].handle.value.pid.tick < tick
  }

  lemma ReapFromEarlier(s: State, e: Env)
    requires FromEarlierTicks(s.tick, s.table)
    ensures FromEarlierTicks(s.tick, Reap(s, e).table)
  {
    var t, gone := ReapedTable(s.table, s.m.defaults, e.wait, e.reapAt), DroppedSlots(s.table, e.wait);
    forall p | 0 <= p < |Retain(t, gone)| && Retain(t, gone)[p].Running()
      ensures Retain(t, gone)[p].handle.value.pid.tick < s.tick
    {
      var i := RetainFrom(t, gone, p);
    }
  }

  lemma TerminateLeaves(s: State, d: Desired, e: Env)
    requires FromEarlierTicks(s.tick, s.table)
    ensures DesiredOrLeaving(d, s.tick, TerminateUndesired(s, d, e).table)
  {
    var t, gone := StoppedUndesired(s.table, d, e.terminateAt), IdleUndesired(s.table, d);
    forall p | 0 <= p < |Retain(t, gone)|
      ensures Retain(t, gone)[p].Slot() in d || Leaving(s.tick, Retain(t, gone)[p])
    {
      var i := RetainFrom(t, gone, p);
    }
  }

  lemma FirstHalfLeaves(s: State, d: Desired, e: Env)
    requires FromEarlierTicks(s.tick, s.table)
    ensures DesiredOrLeaving(d, s.tick, FirstHalf(s, d, e).table)
  {
    TerminateLeaves(s, d, e);
    BlockedLeaves(TerminateUndesired(s, d, e), d, e);
    RollLeaves(StopCheckBlocked(TerminateUndesired(s, d, e), e), d, e);
  }

  lemma BlockedLeaves(s: State, d: Desired, e: Env)
    requires DesiredOrLeaving(d, s.tick, s.table)
    ensures DesiredOrLeaving(d, s.tick, StopCheckBlocked(s, e).table)
  {
  }

  lemma RollLeaves(s: State, d: Desired, e: Env)
    requires DesiredOrLeaving(d, s.tick, s.table)
    ensures DesiredOrLeaving(d, s.tick, RollStale(s, d, e).table)
  {
  }

  lemma AddLeaves(s: State, d: Desired, e: Env)
    requires DesiredOrLeaving(d, s.tick, s.table)
    ensures DesiredOrLeaving(d, s.tick, AddMissing(s, d, e).table)
  {
    InKeyOrderSorts(d.Keys);
    var more := Missing(d, s.table, InKeyOrder(d.Keys), e.spawnAt);
    forall i | 0 <= i < |more| ensures more[i].Slot() in d {
      MissingSlot(d, s.table, InKeyOrder(d.Keys), e.spawnAt, i);
    }
  }

  lemma SpawnLeaves(hasher: Hasher, s: State, d: Desired, e: Env)
    requires DesiredOrLeaving(d, s.tick, s.table)
    ensures DesiredOrLeaving(d, s.tick, SpawnReady(hasher, s, e).table)
  {
  }

  lemma RetireLeaves(s: State, d: Desired, e: Env)
    requires DesiredOrLeaving(d, s.tick, s.table)
    ensures DesiredOrLeaving(d, s.tick, RetireStaleSurplus(s, d, e).table)
  {
  }

  lemma ProbeLeaves(s: State, d: Desired, e: Env)
    requires DesiredOrLeaving(d, s.tick, s.table)
    ensures DesiredOrLeaving(d, s.tick, Probe(s, e).table)
  {
    forall i | 0 <= i < |s.table| ensures ProbeOne(s.m, s.table[i], e.probeAt, e.probe(i)).Slot() == s.table[i].Slot() {
      ProbeKeeps(s.m, s.table[i], e.probeAt, e.probe(i));
    }
  }

  // ----- the check gate -----

  /** The condition that stops an instance is the exact complement of the check half of the spawn gate. */
  lemma GatesAreComplements(m: Manifest, ok: map<string, bool>, ready: set<string>, app: string)
    requires m.Has(app)
    ensures DependenciesUp(m, ok, ready, app) <==>
              !CheckBlocked(m, ok, app) && forall d :: d in m.Lookup(app).value.dependsOn && m.Has(d) ==> d in ready
  {
  }

  /** No process that is not being stopped belongs to an app that depends on a failed check. */
  ghost predicate NoneBlocked(m: Manifest, ok: map<string, bool>, t: Table) {
    forall i :: 0 <= i < |t| && t[i].Serving() ==> !CheckBlocked(m, ok, t[i].app)
  }

  lemma FirstHalfUnblocked(s: State, d: Desired, e: Env)
    ensures NoneBlocked(s.m, s.checksOk, FirstHalf(s, d, e).table)
  {
    var s1 := TerminateUndesired(s, d, e);
    BlockedStops(s1, e);
    RollUnblocked(StopCheckBlocked(s1, e), d, e);
  }

  lemma BlockedStops(s: State, e: Env)
    ensures NoneBlocked(s.m, s.checksOk, StopCheckBlocked(s, e).table)
  {
  }

  lemma RollUnblocked(s: State, d: Desired, e: Env)
    requires NoneBlocked(s.m, s.checksOk, s.table)
    ensures NoneBlocked(s.m, s.checksOk, RollStale(s, d, e).table)
  {
  }

  lemma AddUnblocked(s: State, d: Desired, e: Env)
    requires NoneBlocked(s.m, s.checksOk, s.table)
    ensures NoneBlocked(s.m, s.checksOk, AddMissing(s, d, e).table)
  {
    InKeyOrderSorts(d.Keys);
    var more := Missing(d, s.table, InKeyOrder(d.Keys), e.spawnAt);
    forall i | 0 <= i < |more| ensures !more[i].Running() {
      MissingSlot(d, s.table, InKeyOrder(d.Keys), e.spawnAt, i);
    }
  }

  lemma SpawnUnblocked(hasher: Hasher, s: State, e: Env)
    requires NoneBlocked(s.m, s.checksOk, s.table)
    ensures NoneBlocked(s.m, s.checksOk, SpawnReady(hasher, s, e).table)
  {
    forall i | 0 <= i < |s.table| && SpawnAt(hasher, s, ReadyApps(s.table), e, i).Serving()
      ensures !CheckBlocked(s.m, s.checksOk, s.table[i].app)
    {
      if !s.table[i].Serving() {
        GatesAreComplements(s.m, s.checksOk, ReadyApps(s.table), s.table[i].app);
      }
    }
  }

  lemma RetireUnblocked(s: State, d: Desired, e: Env)
    requires NoneBlocked(s.m, s.checksOk, s.table)
    ensures NoneBlocked(s.m, s.checksOk, RetireStaleSurplus(s, d, e).table)
  {
  }

  lemma ProbeUnblocked(s: State, e: Env)
    requires NoneBlocked(s.m, s.checksOk, s.table)
    ensures NoneBlocked(s.m, s.checksOk, Probe(s, e).table)
  {
    forall i | 0 <= i < |s.table|
      ensures Probe(s, e).table[i].Serving() ==> s.table[i].Serving()
      ensures Probe(s, e).table[i].app == s.table[i].app
    {
      ProbeKeeps(s.m, s.table[i], e.probeAt, e.probe(i));
    }
  }

  // ----- whole ticks -----

  lemma SecondHalfGates(hasher: Hasher, s: State, d: Desired, e: Env)
    requires DesiredOrLeaving(d, s.tick, s.table) && NoneBlocked(s.m, s.checksOk, s.table)
    ensures DesiredOrLeaving(d, s.tick, SecondHalf(hasher, s, d, e).table)
    ensures NoneBlocked(s.m, s.checksOk, SecondHalf(hasher, s, d, e).table)
  {
    var s1 := AddMissing(s, d, e);
    AddLeaves(s, d, e);
    AddUnblocked(s, d, e);
    var s2 := SpawnReady(hasher, s1, e);
    SpawnLeaves(hasher, s1, d, e);
    SpawnUnblocked(hasher, s1, e);
    var s3 := RetireStaleSurplus(s2, d, e);
    RetireLeaves(s2, d, e);
    RetireUnblocked(s2, d, e);
    ProbeLeaves(s3, d, e);
    ProbeUnblocked(s3, e);
  }

  /** The roll may move a slot's port but never changes which slots are desired. */
  lemma SameSlotsDesired(hasher: Hasher, s: State, s': State)
    requires s.m == s'.m && s.selected == s'.selected
    ensures DesiredIn(hasher, s).Keys == DesiredIn(hasher, s').Keys
  {
    DesiredSlotsAre(hasher, s.m, s.selected, s.ports);
    DesiredSlotsAre(hasher, s'.m, s'.selected, s'.ports);
  }

  lemma OnlyKeysMatter(d: Desired, d': Desired, tick: nat, t: Table)
    requires d.Keys == d'.Keys && DesiredOrLeaving(d, tick, t)
    ensures DesiredOrLeaving(d', tick, t)
  {
    assert forall k :: k in d <==> k in d.Keys;
    assert forall k :: k in d' <==> k in d'.Keys;
  }

  /**
   * At the end of every tick, in every environment: a record outside the desired slots is an
   * earlier tick's process being stopped, so every process spawned in the tick fills a desired
   * slot; and nothing that depends on a failed check is left serving.
   */
  lemma TickGates(hasher: Hasher, s: State, e: Env)
    requires FromEarlierTicks(s.tick, s.table)
    ensures var s' := Tick(hasher, s, e);
            && (forall i :: 0 <= i < |s'.table| ==> IsSlot(s'.m, s'.selected, s'.table[i].Slot()) || Leaving(s.tick, s'.table[i]))
            && NoneBlocked(s'.m, s'.checksOk, s'.table)
  {
    var s1, s2 := TickParts(hasher, s, e);
    var d1, d2 := DesiredIn(hasher, s1), DesiredIn(hasher, s2);
    ReapFromEarlier(ReverifyChecks(s, e), e);
    FirstHalfLeaves(s1, d1, e);
    FirstHalfUnblocked(s1, d1, e);
    SameSlotsDesired(hasher, s1, s2);
    OnlyKeysMatter(d1, d2, s.tick, s2.table);
    SecondHalfGates(hasher, s2, d2, e);
    DesiredSlotsAre(hasher, s2.m, s2.selected, s2.ports);
  }

  // ----- whole runs -----

  lemma TickFromEarlier(hasher: Hasher, s: State, e: Env)
    requires TableOk(s.table) && FromEarlierTicks(s.tick, s.table)
    ensures FromEarlierTicks(s.tick + 1, Tick(hasher, s, e).table)
  {
    var u := Tick(hasher, s, e).table;
    forall i | 0 <= i < |u| && u[i].Running() ensures u[i].handle.value.pid.tick < s.tick + 1 {
      ProcessAt(u, i);
      TickProcesses(hasher, s, e, (u[i].handle.value.pid, u[i].app));
    }
  }

  lemma StepFromEarlier(hasher: Hasher, s: State, step: Step, s': State)
    requires LoopOk(s) && Leads(hasher, s, step, s') && FromEarlierTicks(s.tick, s.table)
    ensures FromEarlierTicks(s'.tick, s'.table)
  {
    match step
    case Ticked(e) =>
      TickFromEarlier(hasher, s, e);
      TickKeepsConfig(hasher, s, e);
    case Reloaded(o) =>
      ReloadChanges(s, o);
  }

  lemma RunStepFromEarlier(hasher: Hasher, ss: seq<State>, steps: seq<Step>, k: nat)
    requires IsRun(hasher, ss, steps) && k < |steps| && LoopOk(ss[k])
    requires FromEarlierTicks(ss[k].tick, ss[k].table)
    ensures FromEarlierTicks(ss[k + 1].tick, ss[k + 1].table)
  {
    assert LeadsAt(hasher, ss, steps, k);
    StepFromEarlier(hasher, ss[k], steps[k], ss[k + 1]);
  }

  lemma {:induction false} RunFromEarlier(hasher: Hasher, ss: seq<State>, steps: seq<Step>, k: nat)
    requires IsRun(hasher, ss, steps) && k < |ss|
    ensures FromEarlierTicks(ss[k].tick, ss[k].table)
    decreases k
  {
    if k > 0 {
      RunFromEarlier(hasher, ss, steps, k - 1);
      ReachableOk(hasher, ss, steps, k - 1);
      RunStepFromEarlier(hasher, ss, steps, k - 1);
    }
  }

  /**
   * Every tick of every run, reloads included, ends with the gates holding: each process
   * spawned in the tick fills a desired slot, each other record outside the desired slots is
   * being stopped, and nothing that depends on a failed check is left serving.
   */
  lemma GatesHoldInEveryRun(hasher: Hasher, ss: seq<State>, steps: seq<Step>, k: nat)
    requires IsRun(hasher, ss, steps) && k < |steps| && steps[k].Ticked?
    ensures var s := ss[k + 1];
            && (forall i :: 0 <= i < |s.table| && s.table[i].Running() && s.table[i].handle.value.pid.tick == ss[k].tick ==>
                  IsSlot(s.m, s.selected, s.table[i].Slot()))
            && (forall i :: 0 <= i < |s.table| && !IsSlot(s.m, s.selected, s.table[i].Slot()) ==>
                  s.table[i].Running() && s.table[i].phase == Terminating)
            && NoneBlocked(s.m, s.checksOk, s.table)
  {
    RunFromEarlier(hasher, ss, steps, k);
    assert LeadsAt(hasher, ss, steps, k);
    TickGates(hasher, ss[k], steps[k].e);
  }
}
