/** The stages of a tick by the fields of the records alone: what is asked, stopped, moved, added and spawned. */
module Rules {
  import opened Prelude
  import opened Manifests
  import opened KeyOrder
  import opened Instances
  import opened Stages

  // ----- checks -----

  ghost predicate HasTarget(checks: seq<Check>, name: string) {
    exists i :: 0 <= i < |checks| && checks[i].name == name && (checks[i].tcp.Some? || checks[i].http.Some?)
  }

  /** What is recorded for a name. */
  function Recorded(ok: map<string, bool>, name: string): Option<bool> {
    if name in ok then Some(ok[name]) else None
  }

  lemma {:induction false} VerifiedName(checks: seq<Check>, answer: string -> bool, ok: map<string, bool>, name: string)
    ensures Recorded(VerifiedChecks(checks, answer, ok), name)
         == if HasTarget(checks, name) then Some(answer(name)) else Recorded(ok, name)
  {
    if checks != [] {
      var front, c := checks[..|checks| - 1], checks[|checks| - 1];
      VerifiedName(front, answer, ok, name);
      if i :| 0 <= i < |front| && front[i].name == name && (front[i].tcp.Some? || front[i].http.Some?) {
        assert checks[i].name == name;
      }
      assert HasTarget(checks, name) <==> HasTarget(front, name) || (c.name == name && (c.tcp.Some? || c.http.Some?));
    }
  }

  /**
   * Ten seconds after the round before, and not earlier, a tick asks every check that has a
   * target, over TCP or HTTP, and records the answer; what is recorded for other names stays.
   */
  lemma ChecksAreVerified(hasher: Hasher, s: State, e: Env, name: string)
    ensures var s', due := Tick(hasher, s, e), s.nextCheckVerify <= e.checkAt;
            && s'.nextCheckVerify == (if due then e.checkAt + 10_000 else s.nextCheckVerify)
            && Recorded(s'.checksOk, name)
               == if due && HasTarget(s.m.checks, name) then Some(e.check(name)) else Recorded(s.checksOk, name)
  {
    var s1, s2 := TickParts(hasher, s, e);
    VerifiedName(s.m.checks, e.check, s.checksOk, name);
  }

  // ----- stops -----

  /** The record after `begin_stop`: one SIGTERM to its process, ten seconds to exit, and what is to happen then. */
  predicate AskedToStop(r: Instance, r': Instance, respawn: bool, now: nat) {
    && r' == r.(handle := r'.handle, phase := Terminating, restartAfterStop := respawn, killDeadline := Some(now + 10_000))
    && r'.handle == if r.handle.None? then None
                    else Some(r.handle.value.(sent := r.handle.value.sent + [Sigterm(now)]))
  }

  /** The app depends on something that is no app but a check known to have failed. */
  ghost predicate BehindFailedCheck(m: Manifest, ok: map<string, bool>, app: string) {
    match m.Lookup(app)
    case None => false
    case Some(a) => exists d :: d in a.dependsOn && d !in m.AppNames() && d in ok && !ok[d]
  }

  lemma BlockedIff(m: Manifest, ok: map<string, bool>, app: string)
    ensures CheckBlocked(m, ok, app) <==> BehindFailedCheck(m, ok, app)
  {
    HasIffNamed(m);
  }

  /** The check gate stops, for respawn, exactly the serving records of apps that depend on a failed check. */
  lemma BlockedAreStopped(s: State, e: Env, i: nat)
    requires i < |s.table|
    ensures var r, r' := s.table[i], StopCheckBlocked(s, e).table[i];
            if r.handle.Some? && r.phase != Terminating && BehindFailedCheck(s.m, s.checksOk, r.app)
            then AskedToStop(r, r', true, e.blockedAt) else r' == r
  {
    BlockedIff(s.m, s.checksOk, s.table[i].app);
  }

  // ----- the roll -----

  /** Its slot asks for another hash than the record's. */
  predicate Outdated(d: Desired, r: Instance) {
    Key(r.app, r.replica) in d && d[Key(r.app, r.replica)].hash != r.specHash
  }

  predicate OutdatedUp(d: Desired, app: string, r: Instance) {
    r.app == app && r.phase == Ready && Outdated(d, r)
  }

  predicate OutdatedDown(d: Desired, app: string, r: Instance) {
    r.app == app && r.phase in {Pending, Starting, Unready, CrashLoopBackOff} && Outdated(d, r)
  }

  ghost predicate FirstDown(d: Desired, t: Table, app: string, i: nat) {
    i < |t| && OutdatedDown(d, app, t[i]) && forall j :: 0 <= j < i ==> !OutdatedDown(d, app, t[j])
  }

  ghost predicate FirstUp(d: Desired, t: Table, app: string, i: nat) {
    i < |t| && OutdatedUp(d, app, t[i]) && forall j :: 0 <= j < i ==> !OutdatedUp(d, app, t[j])
  }

  ghost predicate NoneDown(d: Desired, t: Table, app: string) {
    forall i :: 0 <= i < |t| ==> !OutdatedDown(d, app, t[i])
  }

  /** The positions of an app's Ready records, and of all its records. */
  function ReadyAt(t: Table, app: string): set<nat> {
    set i: nat | i < |t| && t[i].app == app && t[i].phase == Ready
  }

  function AllAt(t: Table, app: string): set<nat> {
    set i: nat | i < |t| && t[i].app == app
  }

  lemma {:induction false} ReadyCountIs(t: Table, app: string)
    ensures ReadyCount(t, app) == |ReadyAt(t, app)|
  {
    if t != [] {
      var n := |t| - 1;
      ReadyCountIs(t[..n], app);
      if t[n].app == app && t[n].phase == Ready {
        assert ReadyAt(t, app) == ReadyAt(t[..n], app) + {n};
      } else {
        assert ReadyAt(t, app) == ReadyAt(t[..n], app);
      }
    }
  }

  lemma {:induction false} AppCountIs(t: Table, app: string)
    ensures AppCount(t, app) == |AllAt(t, app)|
  {
    if t != [] {
      var n := |t| - 1;
      AppCountIs(t[..n], app);
      if t[n].app == app {
        assert AllAt(t, app) == AllAt(t[..n], app) + {n};
      } else {
        assert AllAt(t, app) == AllAt(t[..n], app);
      }
    }
  }

  /** The replicas the manifest asks for. */
  function Asked(m: Manifest, app: string): nat {
    match m.Lookup(app)
    case None => 0
    case Some(a) => a.replicas
  }

  /**
   * Who is stopped by the roll: the app's first outdated record that is not Ready; if it has
   * none, and there is no surge and as many Ready records as replicas, the first outdated one
   * that is.
   */
  ghost predicate Rolls(s: State, d: Desired, i: nat)
    requires i < |s.table|
  {
    var t, app := s.table, s.table[i].app;
    && app in s.selected
    && (FirstDown(d, t, app, i)
        || (NoneDown(d, t, app) && s.m.defaults.maxSurge == 0 && |ReadyAt(t, app)| >= Asked(s.m, app) && FirstUp(d, t, app, i)))
  }

  lemma FirstFound(d: Desired, t: Table, app: string, i: nat)
    ensures FirstStaleNotReady(d, t, app) == Some(i) <==> FirstDown(d, t, app, i)
    ensures FirstStaleReady(d, t, app) == Some(i) <==> FirstUp(d, t, app, i)
    ensures FirstStaleNotReady(d, t, app).None? <==> NoneDown(d, t, app)
  {
    forall r: Instance ensures StaleNotReady(d, app, r) <==> OutdatedDown(d, app, r) {
    }
    forall r: Instance ensures StaleReady(d, app, r) <==> OutdatedUp(d, app, r) {
    }
    var down, up := FirstStaleNotReady(d, t, app), FirstStaleReady(d, t, app);
    if FirstDown(d, t, app, i) {
      assert StaleNotReady(d, app, t[i]) && down.Some?;
      assert !(down.value < i) && !(i < down.value);
    }
    if FirstUp(d, t, app, i) {
      assert StaleReady(d, app, t[i]) && up.Some?;
      assert !(up.value < i) && !(i < up.value);
    }
  }

  lemma VictimIff(m: Manifest, d: Desired, t: Table, app: string, i: nat)
    ensures RollVictim(m, d, t, app) == Some(i) <==>
              || FirstDown(d, t, app, i)
              || (NoneDown(d, t, app) && m.defaults.maxSurge == 0 && |ReadyAt(t, app)| >= Asked(m, app) && FirstUp(d, t, app, i))
  {
    FirstFound(d, t, app, i);
    ReadyCountIs(t, app);
    if FirstDown(d, t, app, i) {
      assert OutdatedDown(d, app, t[i]);
    }
  }

  lemma RollStopsExactly(s: State, d: Desired, e: Env, i: nat)
    requires i < |s.table|
    ensures var r, r' := s.table[i], RollStale(s, d, e).table[i];
            if Rolls(s, d, i) then AskedToStop(r, r', false, e.rollAt) else r' == r
  {
    VictimIff(s.m, d, s.table, s.table[i].app, i);
  }

  // ----- surge ports -----

  /** No app declares the port. */
  ghost predicate Undeclared(m: Manifest, p: nat) {
    forall a :: a in m.apps ==> p < a.port || a.port + a.replicas <= p
  }

  /** The least undeclared port above the app's window, and if there is none its end truncated to 16 bits. */
  ghost predicate SurgesTo(m: Manifest, a: App, p: nat) {
    var base := a.port + a.replicas;
    if exists q :: base <= q <= 65_535 && Undeclared(m, q)
    then base <= p <= 65_535 && Undeclared(m, p) && forall q :: base <= q < p ==> !Undeclared(m, q)
    else p == base % 65_536
  }

  lemma {:induction false} FirstFreeIsLeast(m: Manifest, p: nat)
    ensures var r := FirstFree(m, p); r.Some? ==> forall q :: p <= q < r.value ==> Declared(m, q)
    decreases 65_536 - p
  {
    if p <= 65_535 && Declared(m, p) {
      FirstFreeIsLeast(m, p + 1);
    }
  }

  lemma UndeclaredIff(m: Manifest, p: nat)
    ensures Undeclared(m, p) <==> !Declared(m, p)
  {
  }

  lemma SurgePortIsLeast(m: Manifest, a: App)
    ensures SurgesTo(m, a, SurgePort(m, a))
  {
    var base := a.port + a.replicas;
    FirstFreeIsLeast(m, base);
    forall q: nat ensures Undeclared(m, q) <==> !Declared(m, q) {
      UndeclaredIff(m, q);
    }
  }

  /**
   * The roll moves a slot: with surge, nothing of the app outdated but its Ready records, the
   * first of these in this slot, no record of the slot current, and fewer records than
   * replicas and surge allow.
   */
  ghost predicate MovesSlot(s: State, d: Desired, k: Key) {
    var t, app := s.table, k.app;
    && app in s.selected && s.m.defaults.maxSurge > 0 && s.m.Lookup(app).Some?
    && NoneDown(d, t, app)
    && (exists i: nat :: FirstUp(d, t, app, i) && t[i].replica == k.replica)
    && !(exists j :: 0 <= j < |t| && t[j].app == app && t[j].replica == k.replica && k in d && t[j].specHash == d[k].hash)
    && |AllAt(t, app)| < Asked(s.m, app) + s.m.defaults.maxSurge
  }

  lemma MoveIff(s: State, d: Desired, k: Key)
    ensures var mv := SurgeMove(s.m, d, s.table, k.app);
            (k.app in s.selected && mv.Some? && mv.value.slot == k) <==> MovesSlot(s, d, k)
    ensures var mv := SurgeMove(s.m, d, s.table, k.app);
            mv.Some? ==> s.m.Lookup(k.app).Some? && mv.value.port == SurgePort(s.m, s.m.Lookup(k.app).value)
  {
    var t, app, up := s.table, k.app, FirstStaleReady(d, s.table, k.app);
    FirstFound(d, t, app, 0);
    if up.Some? {
      FirstFound(d, t, app, up.value);
    }
    if i: nat :| FirstUp(d, t, app, i) {
      FirstFound(d, t, app, i);
    }
    AppCountIs(t, app);
  }

  lemma RollMovesExactly(s: State, d: Desired, e: Env, k: Key)
    ensures var was, now := s.ports, RollStale(s, d, e).ports;
            if MovesSlot(s, d, k) then k in now && s.m.Lookup(k.app).Some? && SurgesTo(s.m, s.m.Lookup(k.app).value, now[k])
            else (k in now <==> k in was) && (k in was ==> now[k] == was[k])
  {
    MoveIff(s, d, k);
    if s.m.Lookup(k.app).Some? {
      SurgePortIsLeast(s.m, s.m.Lookup(k.app).value);
    }
    var moves := SurgeMoves(s.m, s.selected, d, s.table);
    MovedPortsAre(moves, s.selected, k);
  }

  lemma MovedPortsAre(moves: map<string, Option<Move>>, apps: set<string>, k: Key)
    requires moves.Keys == apps
    ensures k in MovedPorts(moves, apps) <==> k.app in apps && k.app in moves && moves[k.app].Some? && moves[k.app].value.slot == k
  {
  }

  // ----- desired slots, new records, spawns and retirements -----

  /** A desired slot is a replica of a selected app, on its surge port if it has one, else on its own of the window. */
  lemma DesiredSlotIs(hasher: Hasher, m: Manifest, selected: set<string>, ports: map<Key, nat>, k: Key)
    ensures var d := DesiredSlots(hasher, m, selected, ports);
            match m.Lookup(k.app)
            case None => k !in d
            case Some(a) =>
              && (k in d <==> k.app in selected && k.replica < a.replicas)
              && (k in d ==> d[k].port == if k in ports then ports[k] else a.port + k.replica)
              && (k in d ==> d[k].hash == hasher(m.defaults, a, k.replica, d[k].port))
  {
    DesiredSlotsAre(hasher, m, selected, ports);
  }

  /** A record waiting to be spawned: no process, no failure, nothing to wait for. */
  predicate Fresh(r: Instance, k: Key, w: Want) {
    && r.app == k.app && r.replica == k.replica && r.port == w.port && r.specHash == w.hash
    && r.handle.None? && r.phase == Pending && r.restarts == 0 && r.backoffUntil.None? && !r.restartAfterStop && !r.everReady
  }

  ghost predicate SlotBefore(t: Table, p: nat, q: nat) {
    p < q < |t| ==> KeyLe(t[p].Slot(), t[q].Slot()) && t[p].Slot() != t[q].Slot()
  }

  ghost predicate SlotsAscend(t: Table) {
    forall p: nat, q: nat :: SlotBefore(t, p, q)
  }

  lemma {:induction false} MissingInOrder(d: Desired, t: Table, keys: seq<Key>, now: nat)
    requires forall k :: k in keys ==> k in d
    requires NoDup(keys) && forall i, j :: 0 <= i < j < |keys| ==> KeyLe(keys[i], keys[j])
    ensures SlotsAscend(Missing(d, t, keys, now))
  {
    if keys != [] {
      var front, last := keys[..|keys| - 1], keys[|keys| - 1];
      MissingInOrder(d, t, front, now);
      var before := Missing(d, t, front, now);
      forall p | 0 <= p < |before| ensures KeyLe(before[p].Slot(), last) && before[p].Slot() != last {
        MissingSlot(d, t, front, now, p);
        var i :| 0 <= i < |front| && front[i] == before[p].Slot();
        assert keys[i] == front[i];
      }
      var more := Missing(d, t, keys, now);
      forall p: nat, q: nat ensures SlotBefore(more, p, q) {
        assert SlotBefore(before, p, q);
      }
    }
  }

  /** The records added come one for a slot, in key order, each as its slot wants it. */
  lemma AddedInOrder(s: State, d: Desired, e: Env)
    ensures var n, u := |s.table|, AddMissing(s, d, e).table;
            && u[..n] == s.table
            && (forall p :: n <= p < |u| ==> u[p].Slot() in d && Fresh(u[p], u[p].Slot(), d[u[p].Slot()]))
            && SlotsAscend(u[n..])
  {
    InKeyOrderSorts(d.Keys);
    var keys := InKeyOrder(d.Keys);
    var n, more, u := |s.table|, Missing(d, s.table, keys, e.spawnAt), AddMissing(s, d, e).table;
    MissingInOrder(d, s.table, keys, e.spawnAt);
    forall p: nat | n <= p < |u| ensures u[p].Slot() in d && Fresh(u[p], u[p].Slot(), d[u[p].Slot()]) {
      AddedIsNew(s, d, e, p);
    }
    assert u[n..] == more;
  }

  /** Every app it depends on has a Ready record, and no check it depends on has failed; one never asked counts as passed. */
  ghost predicate DependenciesMet(m: Manifest, ok: map<string, bool>, t: Table, a: App) {
    forall d :: d in a.dependsOn ==>
      if d in m.AppNames() then exists j :: 0 <= j < |t| && t[j].app == d && t[j].phase == Ready
      else (d in ok ==> ok[d])
  }

  ghost predicate Spawns(s: State, e: Env, i: nat)
    requires i < |s.table|
  {
    var r := s.table[i];
    && r.handle.None? && r.phase != Terminating
    && (r.backoffUntil.Some? ==> r.backoffUntil.value <= e.spawnAt)
    && match s.m.Lookup(r.app)
       case None => false
       case Some(a) => DependenciesMet(s.m, s.checksOk, s.table, a)
  }

  /** The process's record: one with a new process, or one with a failure more that backs off. */
  ghost predicate SpawnedAs(hasher: Hasher, s: State, a: App, r: Instance, r': Instance, ans: SpawnAnswer, pid: Pid) {
    if ans.ok then
      && r' == r.(handle := Some(Handle(pid, [])), phase := r'.phase, everReady := r'.everReady, startedAt := Some(ans.at), backoffUntil := None,
                  consecutiveLiveFail := 0, specHash := hasher(s.m.defaults, a, r.replica, r.port), nextReadyProbe := ans.at,
                  nextLiveProbe := ans.at + 1000 * a.livePeriod, readyDeadline := Some(ans.at + 1000 * a.readyTimeout))
      && r'.everReady == (a.readyPath == "") && r'.phase == if a.readyPath == "" then Ready else Starting
    else
      r' == r.(restarts := r.restarts + 1, backoffUntil := Some(ans.at + NextDelay(s.m.defaults, r.restarts + 1)), phase := CrashLoopBackOff)
  }

  /** The spawn loop judges every record on the Ready records it starts from, and spawns exactly those whose turn it is. */
  lemma SpawnsExactly(hasher: Hasher, s: State, e: Env, i: nat)
    requires i < |s.table|
    ensures var r, r' := s.table[i], SpawnReady(hasher, s, e).table[i];
            if Spawns(s, e, i) then s.m.Lookup(r.app).Some? && SpawnedAs(hasher, s, s.m.Lookup(r.app).value, r, r', e.spawn(i), Pid(s.tick, i))
            else r' == r
  {
    HasIffNamed(s.m);
  }

  /** Of a slot with a current Ready record, every outdated one is stopped for good. */
  lemma RetiresExactly(s: State, d: Desired, e: Env, i: nat)
    requires i < |s.table|
    ensures var t, r, r' := s.table, s.table[i], RetireStaleSurplus(s, d, e).table[i];
            if && s.m.defaults.maxSurge > 0 && r.phase != Terminating && Outdated(d, r)
               && exists j :: 0 <= j < |t| && t[j].app == r.app && t[j].replica == r.replica && t[j].phase == Ready
                              && t[j].specHash == d[Key(r.app, r.replica)].hash
            then AskedToStop(r, r', false, e.retireAt) else r' == r
  {
    assert forall j :: 0 <= j < |s.table| ==> (s.table[j].Slot() == s.table[i].Slot() <==> s.table[j].app == s.table[i].app && s.table[j].replica == s.table[i].replica);
  }
}
