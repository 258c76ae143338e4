/** How many instances the rolling stages keep Ready. */
module Availability {
  import opened Prelude
  import opened Manifests
  import opened KeyOrder
  import opened Instances
  import opened Stages
  import opened Lifecycle

  /** Roll, spawn and retire, as a tick runs them with the desired slots computed before and after the roll. */
  function RollingStages(hasher: Hasher, s: State, d: Desired, d': Desired, e: Env): State {
    RetireStaleSurplus(SpawnMissing(hasher, RollStale(s, d, e), d', e), d', e)
  }

  // ----- counting -----

  predicate ReadyFor(app: string, r: Instance) {
    r.app == app && r.phase == Ready
  }

  /** If all Ready records but perhaps one stay Ready, the count drops by at most one. */
  lemma {:induction false} CountDrop(t: Table, u: Table, app: string, except: Option<nat>)
    requires |t| == |u|
    requires forall i: nat :: i < |t| && except != Some(i) && ReadyFor(app, t[i]) ==> ReadyFor(app, u[i])
    ensures ReadyCount(t, app) <= ReadyCount(u, app) + if except.Some? && except.value < |t| then 1 else 0
  {
    if t != [] {
      var n := |t| - 1;
      CountDrop(t[..n], u[..n], app, if except == Some(n) then None else except);
    }
  }

  lemma {:induction false} CountPrefix(t: Table, more: Table, app: string)
    ensures ReadyCount(t, app) <= ReadyCount(t + more, app)
  {
    if more == [] {
      assert t + more == t;
    } else {
      CountPrefix(t, more[..|more| - 1], app);
      assert (t + more)[..|t + more| - 1] == t + more[..|more| - 1];
    }
  }

  // ----- one-for-one rolls -----

  lemma RollCount(s: State, d: Desired, e: Env, app: string)
    ensures var before, after := ReadyCount(s.table, app), ReadyCount(RollStale(s, d, e).table, app);
            after >= before || (s.m.defaults.maxSurge == 0 && after + 1 >= before >= Replicas(s.m, app))
  {
    var t := RollStale(s, d, e).table;
    var v := RollVictims(s.m, s.selected, d, s.table);
    var victim := if app in v then v[app] else None;
    if victim.Some? && s.table[victim.value].phase == Ready {
      CountDrop(s.table, t, app, victim);
    } else {
      forall i: nat | i < |s.table| && ReadyFor(app, s.table[i]) ensures ReadyFor(app, t[i]) {
        assert !IsVictim(v, s.table, i);
      }
      CountDrop(s.table, t, app, None);
    }
  }

  lemma SpawnCount(hasher: Hasher, s: State, d: Desired, e: Env, app: string)
    requires TableOk(s.table)
    ensures ReadyCount(SpawnMissing(hasher, s, d, e).table, app) >= ReadyCount(s.table, app)
  {
    var s1 := AddMissing(s, d, e);
    InKeyOrderSorts(d.Keys);
    CountPrefix(s.table, Missing(d, s.table, InKeyOrder(d.Keys), e.spawnAt), app);
    AddKeepsOk(s, d, e);
    CountDrop(s1.table, SpawnReady(hasher, s1, e).table, app, None);
  }

  /**
   * Replacing one for one (`max_surge = 0`), the rolling stages leave every app at least
   * min(Ready before, replicas - 1) Ready instances, from any table.
   */
  lemma OneUnavailableAtMost(hasher: Hasher, s: State, d: Desired, d': Desired, e: Env, app: string)
    requires TableOk(s.table) && s.m.defaults.maxSurge == 0
    ensures var before, after := ReadyCount(s.table, app), ReadyCount(RollingStages(hasher, s, d, d', e).table, app);
            after >= before || after + 1 >= Replicas(s.m, app)
  {
    RollCount(s, d, e, app);
    RollKeepsOk(s, d, e);
    SpawnCount(hasher, RollStale(s, d, e), d', e, app);
    assert SpawnMissing(hasher, RollStale(s, d, e), d', e).m == s.m;
  }

  // ----- by slots -----

  /** The slots of an app with a Ready instance. */
  function SlotsReady(t: Table, app: string): set<Key> {
    set r | r in t && ReadyFor(app, r) :: r.Slot()
  }

  lemma SlotReadyIff(t: Table, app: string, k: Key)
    ensures k in SlotsReady(t, app) <==> exists i :: 0 <= i < |t| && ReadyFor(app, t[i]) && t[i].Slot() == k
  {
    if i :| 0 <= i < |t| && ReadyFor(app, t[i]) && t[i].Slot() == k {
      assert t[i] in t;
    }
  }

  /** No other record of its slot is Ready. */
  ghost predicate OnlyReady(t: Table, i: nat)
    requires i < |t|
  {
    forall j :: 0 <= j < |t| && j != i && t[j].Slot() == t[i].Slot() ==> t[j].phase != Ready
  }

  /** The roll stops the only Ready record of a slot of the app. */
  ghost predicate RollsOnlyReady(s: State, d: Desired, app: string) {
    var v := RollVictim(s.m, d, s.table, app);
    app in s.selected && v.Some? && v.value < |s.table| && s.table[v.value].phase == Ready && OnlyReady(s.table, v.value)
  }

  lemma VictimFound(m: Manifest, d: Desired, t: Table, app: string)
    ensures var v := RollVictim(m, d, t, app); v.Some? ==> v.value < |t| && t[v.value].app == app
  {
  }

  /** All Ready records but perhaps one stay Ready. */
  ghost predicate ReadyBut(t: Table, u: Table, app: string, stop: Option<nat>) {
    && |u| == |t|
    && forall i: nat :: i < |t| ==> u[i].Slot() == t[i].Slot() && (ReadyFor(app, u[i]) <==> ReadyFor(app, t[i]) && stop != Some(i))
  }

  ghost predicate TakesSlot(t: Table, app: string, stop: Option<nat>) {
    stop.Some? && stop.value < |t| && ReadyFor(app, t[stop.value]) && OnlyReady(t, stop.value)
  }

  lemma OtherReady(t: Table, u: Table, app: string, stop: Option<nat>, k: Key)
    requires ReadyBut(t, u, app, stop) && k in SlotsReady(t, app) && !(TakesSlot(t, app, stop) && t[stop.value].Slot() == k)
    ensures k in SlotsReady(u, app)
  {
    SlotReadyIff(t, app, k);
    SlotReadyIff(u, app, k);
    var i: nat :| i < |t| && ReadyFor(app, t[i]) && t[i].Slot() == k;
    if stop == Some(i) {
      var j: nat :| j < |t| && j != i && t[j].Slot() == k && t[j].phase == Ready;
      assert ReadyFor(app, u[j]) && u[j].Slot() == k;
    } else {
      assert ReadyFor(app, u[i]) && u[i].Slot() == k;
    }
  }

  lemma WasReady(t: Table, u: Table, app: string, stop: Option<nat>, k: Key)
    requires ReadyBut(t, u, app, stop) && k in SlotsReady(u, app)
    ensures k in SlotsReady(t, app) && !(TakesSlot(t, app, stop) && t[stop.value].Slot() == k)
  {
    SlotReadyIff(t, app, k);
    SlotReadyIff(u, app, k);
    var i: nat :| i < |u| && ReadyFor(app, u[i]) && u[i].Slot() == k;
    assert ReadyFor(app, t[i]) && t[i].Slot() == k;
  }

  lemma SlotsBut(t: Table, u: Table, app: string, stop: Option<nat>)
    requires ReadyBut(t, u, app, stop)
    ensures SlotsReady(u, app) == if TakesSlot(t, app, stop) then SlotsReady(t, app) - {t[stop.value].Slot()} else SlotsReady(t, app)
  {
    forall k ensures k in SlotsReady(u, app) <==> k in SlotsReady(t, app) && !(TakesSlot(t, app, stop) && t[stop.value].Slot() == k) {
      if k in SlotsReady(u, app) {
        WasReady(t, u, app, stop, k);
      } else if k in SlotsReady(t, app) && !(TakesSlot(t, app, stop) && t[stop.value].Slot() == k) {
        OtherReady(t, u, app, stop, k);
      }
    }
  }

  /** What the roll does to the slots: only one can go, and only with its only Ready record. */
  lemma RollSlots(s: State, d: Desired, e: Env, app: string)
    ensures var before, after := SlotsReady(s.table, app), SlotsReady(RollStale(s, d, e).table, app);
            after == if RollsOnlyReady(s, d, app) then before - {s.table[RollVictim(s.m, d, s.table, app).value].Slot()} else before
  {
    var t, u, v := s.table, RollStale(s, d, e).table, RollVictim(s.m, d, s.table, app);
    var stop := if app in s.selected then v else None;
    VictimFound(s.m, d, t, app);
    forall i: nat | i < |t| ensures u[i].Slot() == t[i].Slot() && (ReadyFor(app, u[i]) <==> ReadyFor(app, t[i]) && stop != Some(i)) {
      RolledReady(s, d, e, app, i);
    }
    SlotsBut(t, u, app, stop);
  }

  lemma RolledReady(s: State, d: Desired, e: Env, app: string, i: nat)
    requires i < |s.table|
    ensures var t, u := s.table, RollStale(s, d, e).table;
            && u[i].Slot() == t[i].Slot()
            && (ReadyFor(app, u[i]) <==> ReadyFor(app, t[i]) && !(app in s.selected && RollVictim(s.m, d, t, app) == Some(i)))
  {
    VictimFound(s.m, d, s.table, app);
  }

  lemma SpawnKeepsSlots(hasher: Hasher, s: State, d: Desired, e: Env, app: string)
    requires TableOk(s.table)
    ensures SlotsReady(s.table, app) <= SlotsReady(SpawnMissing(hasher, s, d, e).table, app)
  {
    var u := SpawnMissing(hasher, s, d, e).table;
    forall k | k in SlotsReady(s.table, app) ensures k in SlotsReady(u, app) {
      SlotReadyIff(s.table, app, k);
      SlotReadyIff(u, app, k);
      var i :| 0 <= i < |s.table| && ReadyFor(app, s.table[i]) && s.table[i].Slot() == k;
      assert AddMissing(s, d, e).table[i] == s.table[i] && RecordOk(s.table[i]);
      assert u[i] == s.table[i];
    }
  }

  /**
   * Counted by slots the budget is not kept from every table: replacing one for one, the roll
   * leaves min(Ready slots before, replicas - 1) of them Ready exactly when it does not stop the
   * only Ready record of a slot of an app that has fewer Ready slots than replicas. The spawn
   * and retire stages take none.
   */
  lemma SlotBudgetIff(hasher: Hasher, s: State, d: Desired, d': Desired, e: Env, app: string)
    requires TableOk(s.table) && s.m.defaults.maxSurge == 0
    ensures var before, after := |SlotsReady(s.table, app)|, |SlotsReady(RollStale(s, d, e).table, app)|;
            (after >= before || after + 1 >= Replicas(s.m, app)) <==> !(RollsOnlyReady(s, d, app) && before < Replicas(s.m, app))
    ensures SlotsReady(RollStale(s, d, e).table, app) <= SlotsReady(RollingStages(hasher, s, d, d', e).table, app)
  {
    var before, v := SlotsReady(s.table, app), RollVictim(s.m, d, s.table, app);
    RollSlots(s, d, e, app);
    if RollsOnlyReady(s, d, app) {
      VictimFound(s.m, d, s.table, app);
      SlotReadyIff(s.table, app, s.table[v.value].Slot());
    }
    RollKeepsOk(s, d, e);
    SpawnKeepsSlots(hasher, RollStale(s, d, e), d', e, app);
  }

  lemma SlotsReadyMore(t: Table, r: Instance, app: string)
    ensures SlotsReady(t + [r], app) == SlotsReady(t, app) + if ReadyFor(app, r) then {r.Slot()} else {}
  {
  }

  lemma NewSlotReady(t: Table, app: string)
    requires t != [] && OnlyReady(t, |t| - 1) && ReadyFor(app, t[|t| - 1])
    ensures t[|t| - 1].Slot() !in SlotsReady(t[..|t| - 1], app)
  {
    SlotReadyIff(t[..|t| - 1], app, t[|t| - 1].Slot());
  }

  /** So it is kept while no slot has two Ready records: then slots count as records do. */
  lemma {:induction false} SlotsCount(t: Table, app: string)
    requires forall i: nat :: i < |t| && t[i].phase == Ready ==> OnlyReady(t, i)
    ensures |SlotsReady(t, app)| == ReadyCount(t, app)
  {
    if t != [] {
      var front, r := t[..|t| - 1], t[|t| - 1];
      forall i: nat | i < |front| && front[i].phase == Ready ensures OnlyReady(front, i) {
        assert OnlyReady(t, i);
      }
      SlotsCount(front, app);
      if ReadyFor(app, r) {
        assert OnlyReady(t, |t| - 1);
        NewSlotReady(t, app);
      }
      assert t == front + [r];
      SlotsReadyMore(front, r, app);
    }
  }

  lemma RollWithinBudget(m: Manifest, d: Desired, t: Table, app: string)
    requires m.defaults.maxSurge == 0
    ensures var v := RollVictim(m, d, t, app); v.Some? && v.value < |t| && t[v.value].phase == Ready ==> ReadyCount(t, app) >= Replicas(m, app)
  {
  }

  lemma SingleSlotsKeepBudget(s: State, d: Desired, e: Env, app: string)
    requires s.m.defaults.maxSurge == 0 && forall i: nat :: i < |s.table| && s.table[i].phase == Ready ==> OnlyReady(s.table, i)
    ensures !(RollsOnlyReady(s, d, app) && |SlotsReady(s.table, app)| < Replicas(s.m, app))
  {
    SlotsCount(s.table, app);
    RollWithinBudget(s.m, d, s.table, app);
  }

  /** A reap leaves a slot Ready exactly if a Ready process of it has not exited and no other one exits after a final stop. */
  lemma ReapSlotsIff(s: State, e: Env, app: string, k: Key)
    requires TableOk(s.table)
    ensures k in SlotsReady(Reap(s, e).table, app)
       <==> k !in DroppedSlots(s.table, e.wait)
            && exists i :: 0 <= i < |s.table| && ReadyFor(app, s.table[i]) && s.table[i].Slot() == k && !e.wait(s.table[i].handle.value.pid).Exited?
  {
    var t, gone := ReapedTable(s.table, s.m.defaults, e.wait, e.reapAt), DroppedSlots(s.table, e.wait);
    RetainMembers(t, gone);
    SlotReadyIff(t, app, k);
    forall i: nat | i < |t|
      ensures t[i].Slot() == s.table[i].Slot()
      ensures ReadyFor(app, t[i]) <==> ReadyFor(app, s.table[i]) && !e.wait(s.table[i].handle.value.pid).Exited?
    {
      assert RecordOk(s.table[i]);
    }
  }

  // ----- surge rolls -----

  function ReadySlots(t: Table): set<Key> {
    set r | r in t && r.phase == Ready :: r.Slot()
  }

  lemma ReadySlotAt(t: Table, i: nat)
    requires i < |t| && t[i].phase == Ready
    ensures t[i].Slot() in ReadySlots(t)
  {
    assert t[i] in t;
  }

  lemma RollKeepsReadySlots(s: State, d: Desired, e: Env)
    requires s.m.defaults.maxSurge > 0
    ensures ReadySlots(s.table) <= ReadySlots(RollStale(s, d, e).table)
  {
    var t := RollStale(s, d, e).table;
    var v := RollVictims(s.m, s.selected, d, s.table);
    forall r | r in s.table && r.phase == Ready ensures r.Slot() in ReadySlots(t) {
      var i :| 0 <= i < |s.table| && s.table[i] == r;
      SurgeSparesReady(s.m, d, s.table, r.app);
      assert !IsVictim(v, s.table, i);
      ReadySlotAt(t, i);
    }
  }

  lemma SurgeSparesReady(m: Manifest, d: Desired, t: Table, app: string)
    requires m.defaults.maxSurge > 0
    ensures var v := RollVictim(m, d, t, app); v.Some? ==> v.value < |t| && t[v.value].phase != Ready
  {
  }

  lemma SpawnKeepsReadySlots(hasher: Hasher, s: State, d: Desired, e: Env)
    requires TableOk(s.table)
    ensures ReadySlots(s.table) <= ReadySlots(SpawnMissing(hasher, s, d, e).table)
  {
    var t := SpawnMissing(hasher, s, d, e).table;
    forall r | r in s.table && r.phase == Ready ensures r.Slot() in ReadySlots(t) {
      var i :| 0 <= i < |s.table| && s.table[i] == r;
      assert AddMissing(s, d, e).table[i] == r && RecordOk(s.table[i]);
      ReadySlotAt(t, i);
    }
  }

  lemma RetireKeepsReadySlots(s: State, d: Desired, e: Env)
    ensures ReadySlots(s.table) <= ReadySlots(RetireStaleSurplus(s, d, e).table)
  {
    var t := RetireStaleSurplus(s, d, e).table;
    forall r | r in s.table && r.phase == Ready ensures r.Slot() in ReadySlots(t) {
      var i :| 0 <= i < |s.table| && s.table[i] == r;
      if s.m.defaults.maxSurge > 0 && Retires(d, s.table, r) {
        var j :| 0 <= j < |s.table| && s.table[j].Slot() == r.Slot() && s.table[j].specHash == d[r.Slot()].hash && s.table[j].phase == Ready;
        ReadySlotAt(t, j);
      } else {
        ReadySlotAt(t, i);
      }
    }
  }

  /** With `max_surge > 0` no slot that has a Ready instance loses its last one to the rolling stages. */
  lemma SurgeKeepsReadySlots(hasher: Hasher, s: State, d: Desired, d': Desired, e: Env)
    requires TableOk(s.table) && s.m.defaults.maxSurge > 0
    ensures ReadySlots(s.table) <= ReadySlots(RollingStages(hasher, s, d, d', e).table)
  {
    var s1 := RollStale(s, d, e);
    RollKeepsReadySlots(s, d, e);
    RollKeepsOk(s, d, e);
    SpawnKeepsReadySlots(hasher, s1, d', e);
    RetireKeepsReadySlots(SpawnMissing(hasher, s1, d', e), d', e);
  }

  // ----- the reap -----

  /**
   * An untouched serving process keeps its record in a reap exactly when no other record of
   * its slot exits after being stopped for good.
   */
  lemma ReapKeepsIffNoSiblingDrops(s: State, e: Env, i: nat)
    requires i < |s.table| && s.table[i].Serving() && e.wait(s.table[i].handle.value.pid).StillRunning?
    ensures s.table[i] in Reap(s, e).table
       <==> forall j :: 0 <= j < |s.table| && s.table[j].Slot() == s.table[i].Slot() ==> !ExitDrops(s.table[j], e.wait)
  {
    var t := ReapedTable(s.table, s.m.defaults, e.wait, e.reapAt);
    RetainMembers(t, DroppedSlots(s.table, e.wait));
    assert t[i] == s.table[i] && t[i] in t;
  }
}
