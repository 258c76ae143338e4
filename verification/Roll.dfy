/** What one tick does to a fleet in the middle of a roll, while everything but the roll goes well. */
module Rolls {
  import opened Prelude
  import opened Manifests
  import opened KeyOrder
  import opened Instances
  import opened Stages
  import opened Tracking
  import opened Fates
  import opened Convergence

  // ----- records -----

  /** A process that serves. */
  predicate Alive(r: Instance) {
    r.Running() && r.phase in {Ready, Starting, Unready}
  }

  /** A current record that waits to be spawned, perhaps backing off. */
  ghost predicate Waiting(d: Desired, r: Instance) {
    !r.Running() && r.phase in {Pending, CrashLoopBackOff} && UpToDate(d, r)
  }

  /** A current process that is being stopped and will come back. */
  ghost predicate Returning(d: Desired, r: Instance) {
    r.Running() && r.phase == Terminating && r.restartAfterStop && UpToDate(d, r)
  }

  /** A process on its way out for good. */
  predicate GoingDown(r: Instance) {
    r.Running() && r.phase == Terminating && !r.restartAfterStop
  }

  /** The record will stay: it has the hash its slot asks for and is not going down. */
  ghost predicate Stays(d: Desired, r: Instance) {
    UpToDate(d, r) && !GoingDown(r)
  }

  ghost predicate StaysDiffer(d: Desired, t: Table, i: nat, j: nat) {
    i < j < |t| && Stays(d, t[i]) && Stays(d, t[j]) ==> t[i].Slot() != t[j].Slot()
  }

  /** A running process that has been stopped, for good or for a restart. */
  predicate Outgoing(r: Instance) {
    r.Running() && r.phase == Terminating
  }

  /** A record of a desired slot serves, waits or returns and is current, or goes down. */
  ghost predicate Sound(d: Desired, r: Instance) {
    r.Slot() in d ==>
      && (Alive(r) || Waiting(d, r) || Returning(d, r) || GoingDown(r))
      && (Stays(d, r) ==> r.port == d[r.Slot()].port)
  }

  /** Every record is sound, and no slot has two that stay. */
  ghost predicate Rolling(d: Desired, t: Table) {
    && (forall i :: 0 <= i < |t| ==> Sound(d, t[i]))
    && (forall i: nat, j: nat :: StaysDiffer(d, t, i, j))
  }

  /** No process exits that has not been stopped, and everything else goes well. */
  ghost predicate Steadfast(s: State, e: Env) {
    && Helpful(e)
    && forall i :: 0 <= i < |s.table| && s.table[i].Running() && s.table[i].phase != Terminating ==>
         !e.wait(s.table[i].handle.value.pid).Exited?
  }

  /** Another process runs in the record's slot, and with no surge it may be on the same port. */
  ghost predicate Excused(m: Manifest, t: Table, i: nat)
    requires i < |t|
  {
    m.defaults.maxSurge == 0 && exists j :: 0 <= j < |t| && j != i && t[j].Slot() == t[i].Slot() && t[j].Running()
  }

  /** No process exits that has not been stopped, but current ones beside another process; and everything else goes well. */
  ghost predicate Bearable(s: State, d: Desired, e: Env) {
    && Helpful(e)
    && forall i: nat :: i < |s.table| && s.table[i].Running() && s.table[i].phase != Terminating
                        && e.wait(s.table[i].handle.value.pid).Exited? ==>
                          UpToDate(d, s.table[i]) && Excused(s.m, s.table, i)
  }

  lemma SteadfastIsBearable(s: State, d: Desired, e: Env)
    requires Steadfast(s, e)
    ensures Bearable(s, d, e)
  {
  }

  // ----- the reap -----

  /** What a reap makes of a record it keeps: a stopped process may be gone, or killed, and a current one gone. */
  lemma ReapedSound(d: Desired, r: Instance, m: Defaults, e: Env)
    requires Sound(d, r) && !ExitDrops(r, e.wait)
    requires r.Running() && r.phase != Terminating && e.wait(r.handle.value.pid).Exited? ==> UpToDate(d, r)
    ensures var r' := ReapOne(r, m, e.wait, e.reapAt);
            && Sound(d, r') && r'.Slot() == r.Slot() && r'.specHash == r.specHash
            && (GoingDown(r') <==> GoingDown(r))
            && ((Alive(r) && !e.wait(r.handle.value.pid).Exited?) || Waiting(d, r) ==> r' == r)
  {
  }

  lemma ReapRolling(s: State, d: Desired, e: Env)
    requires Rolling(d, s.table) && Bearable(s, d, e)
    ensures Rolling(d, Reap(s, e).table)
  {
    var u := Reap(s, e).table;
    forall p: nat | p < |u| ensures Sound(d, u[p]) {
      var i := ReapFrom(s, e, p);
      ReapedSound(d, s.table[i], s.m.defaults, e);
    }
    forall p: nat, q: nat ensures StaysDiffer(d, u, p, q) {
      if p < q < |u| {
        ReapStaysDiffer(s, d, e, p, q);
      }
    }
  }

  lemma ReapStaysDiffer(s: State, d: Desired, e: Env, p: nat, q: nat)
    requires Rolling(d, s.table) && Bearable(s, d, e) && p < q < |Reap(s, e).table|
    ensures StaysDiffer(d, Reap(s, e).table, p, q)
  {
    var i := ReapFrom(s, e, p);
    var j := ReapFrom(s, e, q);
    ReapedSound(d, s.table[i], s.m.defaults, e);
    ReapedSound(d, s.table[j], s.m.defaults, e);
    assert StaysDiffer(d, s.table, i, j) && StaysDiffer(d, s.table, j, i);
  }

  // ----- terminate and roll -----

  /** After the termination pass: whatever is outside the desired slots is on its way out. */
  ghost predicate Cleared(d: Desired, t: Table) {
    Rolling(d, t) && forall i :: 0 <= i < |t| && t[i].Slot() !in d ==> Outgoing(t[i])
  }

  lemma RollingTerminate(s: State, d: Desired, e: Env)
    requires Rolling(d, s.table)
    ensures Cleared(d, TerminateUndesired(s, d, e).table)
  {
    var u := TerminateUndesired(s, d, e).table;
    forall p: nat | p < |u| ensures Sound(d, u[p]) && (u[p].Slot() !in d ==> Outgoing(u[p])) {
      var i := TerminateFrom(s, d, e, p);
    }
    forall p: nat, q: nat ensures StaysDiffer(d, u, p, q) {
      if p < q < |u| {
        TerminateStaysDiffer(s, d, e, p, q);
      }
    }
  }

  lemma TerminateStaysDiffer(s: State, d: Desired, e: Env, p: nat, q: nat)
    requires Rolling(d, s.table) && p < q < |TerminateUndesired(s, d, e).table|
    ensures StaysDiffer(d, TerminateUndesired(s, d, e).table, p, q)
  {
    var i := TerminateFrom(s, d, e, p);
    var j := TerminateFrom(s, d, e, q);
    assert StaysDiffer(d, s.table, i, j) && StaysDiffer(d, s.table, j, i);
  }

  /** The roll stops serving records only, and only stale ones. */
  lemma VictimIsAlive(m: Manifest, d: Desired, t: Table, app: string)
    requires Rolling(d, t)
    ensures var v := RollVictim(m, d, t, app);
            v.Some? ==> v.value < |t| && Alive(t[v.value]) && Stale(d, t[v.value]) && t[v.value].app == app
  {
    var n := FirstStaleNotReady(d, t, app);
    if n.Some? {
      assert Sound(d, t[n.value]);
    }
    var f := FirstStaleReady(d, t, app);
    if f.Some? {
      assert Sound(d, t[f.value]);
    }
  }

  /** What the roll, going by `d`, does to a record in the eyes of what the slots ask for then. */
  lemma RolledRecord(s: State, d: Desired, d2: Desired, e: Env, i: nat)
    requires Cleared(d, s.table) && Cleared(d2, s.table) && i < |s.table|
    ensures var r := RollStale(s, d, e).table[i];
            && Sound(d2, r) && r.Slot() == s.table[i].Slot() && (r.Slot() !in d2 ==> Outgoing(r))
            && (Stays(d2, r) ==> r == s.table[i])
            && (r == s.table[i] || (GoingDown(r) && Stale(d, r) && RollVictim(s.m, d, s.table, r.app).Some?))
  {
    assert Sound(d2, s.table[i]);
    VictimIsAlive(s.m, d, s.table, s.table[i].app);
  }

  lemma RollingRoll(s: State, d: Desired, d2: Desired, e: Env)
    requires Cleared(d, s.table) && Cleared(d2, s.table)
    ensures Cleared(d2, RollStale(s, d, e).table)
  {
    var u := RollStale(s, d, e).table;
    forall i: nat | i < |u|
      ensures Sound(d2, u[i]) && u[i].Slot() == s.table[i].Slot() && (u[i].Slot() !in d2 ==> Outgoing(u[i])) && (Stays(d2, u[i]) ==> u[i] == s.table[i])
    {
      RolledRecord(s, d, d2, e, i);
    }
    forall i: nat, j: nat ensures StaysDiffer(d2, u, i, j) {
      assert StaysDiffer(d2, s.table, i, j);
    }
  }

  // ----- add -----

  lemma {:induction false} MissingWaits(d: Desired, t: Table, keys: seq<Key>, now: nat)
    requires forall k :: k in keys ==> k in d
    ensures forall i :: 0 <= i < |Missing(d, t, keys, now)| ==>
              var r := Missing(d, t, keys, now)[i]; Waiting(d, r) && r.backoffUntil.None? && r.port == d[r.Slot()].port
  {
    if keys != [] {
      MissingWaits(d, t, keys[..|keys| - 1], now);
    }
  }

  lemma {:induction false} MissingDiffers(d: Desired, t: Table, keys: seq<Key>, now: nat, i: nat, j: nat)
    requires NoDup(keys) && forall k :: k in keys ==> k in d
    requires i < j < |Missing(d, t, keys, now)|
    ensures Missing(d, t, keys, now)[i].Slot() != Missing(d, t, keys, now)[j].Slot()
  {
    var front := keys[..|keys| - 1];
    var before := Missing(d, t, front, now);
    if j < |before| {
      MissingDiffers(d, t, front, now, i, j);
    } else {
      MissingSlot(d, t, front, now, i);
      assert keys[|keys| - 1] !in front;
    }
  }

  lemma AddDiffers(d: Desired, t: Table, keys: seq<Key>, now: nat, i: nat, j: nat)
    requires Rolling(d, t) && NoDup(keys) && forall k :: k in keys ==> k in d
    ensures StaysDiffer(d, t + Missing(d, t, keys, now), i, j)
  {
    var u := t + Missing(d, t, keys, now);
    if i < j < |u| && Stays(d, u[i]) && Stays(d, u[j]) {
      if j < |t| {
        assert StaysDiffer(d, t, i, j);
      } else {
        MissingSlot(d, t, keys, now, j - |t|);
        if i >= |t| {
          MissingDiffers(d, t, keys, now, i - |t|, j - |t|);
        }
      }
    }
  }

  /** Every desired slot has a record of its hash. */
  ghost predicate AllCovered(d: Desired, t: Table) {
    forall k :: k in d ==> HasHash(t, k, d[k].hash)
  }

  lemma RollingAdd(s: State, d: Desired, e: Env)
    requires Rolling(d, s.table)
    ensures Rolling(d, AddMissing(s, d, e).table)
    ensures s.table <= AddMissing(s, d, e).table
    ensures forall p :: |s.table| <= p < |AddMissing(s, d, e).table| ==>
              Waiting(d, AddMissing(s, d, e).table[p]) && AddMissing(s, d, e).table[p].backoffUntil.None?
  {
    InKeyOrderSorts(d.Keys);
    var keys := InKeyOrder(d.Keys);
    var t, more := s.table, Missing(d, s.table, keys, e.spawnAt);
    MissingWaits(d, t, keys, e.spawnAt);
    forall i: nat, j: nat ensures StaysDiffer(d, t + more, i, j) {
      AddDiffers(d, t, keys, e.spawnAt, i, j);
    }
  }

  lemma AddCovers(s: State, d: Desired, e: Env)
    ensures AllCovered(d, AddMissing(s, d, e).table)
  {
    var u := AddMissing(s, d, e).table;
    forall k | k in d ensures HasHash(u, k, d[k].hash) {
      AddsIff(s, d, e, k);
      if HasHash(s.table, k, d[k].hash) {
        var i :| 0 <= i < |s.table| && s.table[i].Slot() == k && s.table[i].specHash == d[k].hash;
        assert u[i].Slot() == k;
      } else {
        var i :| |s.table| <= i < |u| && u[i].Slot() == k;
        AddedIsNew(s, d, e, i);
      }
    }
  }

  // ----- spawn, retire and probe -----

  ghost predicate Open(s: State, app: string) {
    DependenciesUp(s.m, s.checksOk, ReadyApps(s.table), app)
  }

  predicate Rested(r: Instance, now: nat) {
    r.backoffUntil.Some? ==> r.backoffUntil.value <= now
  }

  /** Ready, or about to be asked whether it is. */
  predicate Ripening(m: Manifest, r: Instance, e: Env) {
    Alive(r) && (r.phase == Ready || (m.Has(r.app) && ReadyProbeRuns(m.Lookup(r.app).value, r, e.probeAt)))
  }

  ghost predicate SameSpec(r: Instance, r': Instance) {
    r'.Slot() == r.Slot() && r'.port == r.port && r'.specHash == r.specHash
  }

  /**
   * What spawn, retire and probe make of a record: a waiting one comes up if it is `due`, a
   * serving one is stopped if it `retires` and otherwise serves on.
   */
  ghost predicate Advances(d: Desired, r: Instance, r': Instance, due: bool, retires: bool, ripe: bool) {
    && SameSpec(r, r')
    && (Outgoing(r) ==> r' == r)
    && (Waiting(d, r) ==> if due then Up(r') else r' == r)
    && (Alive(r) ==> if retires then GoingDown(r') else Alive(r') && (ripe ==> Up(r')))
  }

  lemma AliveProbed(m: Manifest, r: Instance, e: Env, i: nat)
    requires Helpful(e) && Alive(r)
    ensures var r' := ProbeOne(m, r, e.probeAt, e.probe(i));
            Alive(r') && SameSpec(r, r') && (Ripening(m, r, e) ==> Up(r'))
  {
    if m.Has(r.app) {
      var p := AfterReadiness(m.Lookup(r.app).value, r, e.probeAt, e.probe(i));
      assert Alive(p) && SameSpec(r, p) && (Ripening(m, r, e) ==> Up(p));
    }
  }

  lemma SpawnAdvances(hasher: Hasher, s: State, e: Env, i: nat)
    requires Helpful(e) && i < |s.table| && Waiting(DesiredIn(hasher, s), s.table[i])
    requires s.table[i].port == DesiredIn(hasher, s)[s.table[i].Slot()].port
    ensures var r, r' := s.table[i], SpawnAt(hasher, s, ReadyApps(s.table), e, i);
            && SameSpec(r, r')
            && if Open(s, r.app) && Rested(r, e.spawnAt) then Ripening(s.m, r', e) else r' == r
  {
    DesiredSlotsAre(hasher, s.m, s.selected, s.ports);
  }

  lemma WaitingAdvances(hasher: Hasher, s: State, d: Desired, e: Env, i: nat)
    requires Helpful(e) && d == DesiredIn(hasher, s) && i < |s.table| && Waiting(d, s.table[i])
    requires s.table[i].port == d[s.table[i].Slot()].port
    ensures var r := s.table[i];
            var r' := Probe(RetireStaleSurplus(SpawnReady(hasher, s, e), d, e), e).table[i];
            SameSpec(r, r') && if Open(s, r.app) && Rested(r, e.spawnAt) then Up(r') else r' == r
  {
    var r, r1 := s.table[i], SpawnAt(hasher, s, ReadyApps(s.table), e, i);
    SpawnAdvances(hasher, s, e, i);
    assert !Stale(d, r1);
    if Open(s, r.app) && Rested(r, e.spawnAt) {
      AliveProbed(s.m, r1, e, i);
    }
  }

  lemma RunningAdvances(hasher: Hasher, s: State, d: Desired, e: Env, i: nat)
    requires Helpful(e) && i < |s.table| && (Alive(s.table[i]) || Outgoing(s.table[i]))
    ensures var r, t := s.table[i], SpawnReady(hasher, s, e).table;
            var r' := Probe(RetireStaleSurplus(SpawnReady(hasher, s, e), d, e), e).table[i];
            SameSpec(r, r') && if Outgoing(r) then r' == r
                               else if s.m.defaults.maxSurge > 0 && Retires(d, t, r) then GoingDown(r')
                               else Alive(r') && (Ripening(s.m, r, e) ==> Up(r'))
  {
    var r := s.table[i];
    assert SpawnAt(hasher, s, ReadyApps(s.table), e, i) == r;
    if Alive(r) {
      AliveProbed(s.m, r, e, i);
    }
  }

  lemma TableAdvances(hasher: Hasher, s: State, d: Desired, e: Env, i: nat)
    requires Helpful(e) && d == DesiredIn(hasher, s) && Rolling(d, s.table) && i < |s.table|
    requires s.table[i].Slot() in d || Outgoing(s.table[i])
    ensures var r, t := s.table[i], SpawnReady(hasher, s, e).table;
            Advances(d, r, Probe(RetireStaleSurplus(SpawnReady(hasher, s, e), d, e), e).table[i],
                     Open(s, r.app) && Rested(r, e.spawnAt),
                     s.m.defaults.maxSurge > 0 && Retires(d, t, r),
                     Ripening(s.m, r, e))
  {
    assert Sound(d, s.table[i]);
    if Waiting(d, s.table[i]) {
      WaitingAdvances(hasher, s, d, e, i);
    } else {
      RunningAdvances(hasher, s, d, e, i);
    }
  }
}
