/**
 * The control loop. Each stage updates the table in place; its postcondition says that the
 * loop's state becomes what the stage's specification makes of it.
 */
module ControlLoop {
  import opened Prelude
  import opened Manifests
  import opened KeyOrder
  import opened Instances
  import opened Stages
  import opened Graph
  import opened Selection
  import opened StartOrder
  import opened Teardowns
  import opened Runs

  /** `e.rollOrder` lists the selected apps, each once, in whatever order the hash set gives them. */
  ghost predicate ListsSelected(order: seq<string>, selected: set<string>) {
    NoDup(order) && forall a :: a in order <==> a in selected
  }

  class Reconciler {
    const hasher: Hasher
    var manifest: Manifest
    var selected: set<string>
    var instances: Table
    var slotPorts: map<Key, nat>
    var checksOk: map<string, bool>
    var nextCheckVerify: nat
    var manifestMtime: Option<nat>
    var pendingMtime: Option<nat>
    var tick: nat

    ghost function Snapshot(): State
      reads this
    {
      State(manifest, selected, instances, slotPorts, checksOk, nextCheckVerify, manifestMtime, pendingMtime, tick)
    }

    constructor (hasher: Hasher, m: Manifest, selected: set<string>, checksOk: map<string, bool>, mtime: Option<nat>, now: nat)
      ensures this.hasher == hasher
      ensures Snapshot() == State(m, selected, [], map[], checksOk, now + 10_000, mtime, None, 0)
    {
      this.hasher := hasher;
      manifest, this.selected, this.checksOk := m, selected, checksOk;
      instances, slotPorts := [], map[];
      nextCheckVerify := now + CHECK_VERIFY_PERIOD;
      manifestMtime, pendingMtime, tick := mtime, None, 0;
    }

    method ReverifyChecks(e: Env)
      modifies this`checksOk, this`nextCheckVerify
      ensures Snapshot() == Stages.ReverifyChecks(old(Snapshot()), e)
    {
      if e.checkAt < nextCheckVerify {
        return;
      }
      nextCheckVerify := e.checkAt + CHECK_VERIFY_PERIOD;
      var checks := manifest.checks;
      for i := 0 to |checks|
        invariant nextCheckVerify == e.checkAt + CHECK_VERIFY_PERIOD
        invariant checksOk == VerifiedChecks(checks[..i], e.check, old(checksOk))
      {
        assert checks[..i + 1][..i] == checks[..i];
        if checks[i].tcp.Some? || checks[i].http.Some? {
          checksOk := checksOk[checks[i].name := e.check(checks[i].name)];
        }
      }
      assert checks[..|checks|] == checks;
    }

    /** Harvests exited children and escalates stops that outlived their grace. */
    method Reap(e: Env)
      modifies this`instances
      ensures Snapshot() == Stages.Reap(old(Snapshot()), e)
    {
      ghost var was, target := instances, ReapedTable(instances, manifest.defaults, e.wait, e.reapAt);
      ghost var done: set<nat> := {};
      MixEnds(was, target, done);
      var dropSlots: set<Key> := {};
      for i := 0 to |instances|
        invariant instances == Mixed(was, target, done)
        invariant forall j: nat :: j in done <==> j < i
        invariant dropSlots == set j | 0 <= j < i && ExitDrops(was[j], e.wait) :: was[j].Slot()
      {
        MixStep(was, target, done, i);
        done := done + {i};
        var drop := ReapInstance(i, e);
        if drop {
          dropSlots := dropSlots + {instances[i].Slot()};
        }
      }
      MixEnds(was, target, done);
      RetainExcept(dropSlots);
    }

    method ReapInstance(i: nat, e: Env) returns (drop: bool)
      requires i < |instances|
      modifies this`instances
      ensures instances == old(instances)[i := ReapOne(old(instances[i]), manifest.defaults, e.wait, e.reapAt)]
      ensures drop == ExitDrops(old(instances[i]), e.wait)
    {
      var inst, now := instances[i], e.reapAt;
      drop := false;
      if inst.handle.None? {
        return;
      }
      match e.wait(inst.handle.value.pid) {
        case Exited =>
          var uptime := Uptime(inst, now);
          inst := inst.(handle := None, startedAt := None, everReady := false);
          var respawn := inst.phase != Terminating || inst.restartAfterStop;
          if respawn {
            if uptime >= manifest.defaults.stableAfterSecs * 1000 {
              inst := inst.(restarts := 0);
            }
            inst := inst.(restarts := inst.restarts + 1);
            inst := inst.(backoffUntil := Some(now + NextDelay(manifest.defaults, inst.restarts)));
            inst := inst.(phase := CrashLoopBackOff, restartAfterStop := false);
          } else {
            drop := true;
          }
        case StillRunning =>
          if inst.phase == Terminating {
            if inst.killDeadline.Some? && now >= inst.killDeadline.value {
              inst := inst.(handle := Some(Send(inst.handle.value, Sigkill(now))));
              inst := inst.(killDeadline := Some(now + KILL_RETRY));
            }
          }
        case WaitFailed =>
      }
      instances := instances[i := inst];
    }

    method RetainExcept(gone: set<Key>)
      modifies this`instances
      ensures instances == Retain(old(instances), gone)
    {
      var kept: Table := [];
      for i := 0 to |instances|
        invariant kept == Retain(instances[..i], gone)
      {
        assert instances[..i + 1][..i] == instances[..i];
        if instances[i].Slot() !in gone {
          kept := kept + [instances[i]];
        }
      }
      assert instances[..|instances|] == instances;
      instances := kept;
    }

    method DesiredSlots() returns (out: Desired)
      requires WellFormed(manifest)
      ensures out == DesiredIn(hasher, Snapshot())
      ensures forall k :: k in out ==> manifest.Has(k.app)
    {
      out := map[];
      for x := 0 to |manifest.apps|
        invariant forall k :: k in out <==> IsSlot(manifest, selected, k) && Earlier(manifest, x, k.app)
        invariant AsWanted(out)
      {
        var app := manifest.apps[x];
        LookupUnique(manifest, app);
        EarlierStep(manifest, x);
        if app.name in selected {
          out := AddSlots(app, out);
        }
      }
      EarlierAll(manifest);
      DesiredSlotsAre(hasher, manifest, selected, slotPorts);
      assert out.Keys == SlotKeys(manifest, selected);
    }

    ghost predicate AsWanted(out: Desired)
      reads this
    {
      forall k :: k in out ==> manifest.Has(k.app) && out[k] == WantFor(hasher, manifest, slotPorts, k)
    }

    method AddSlots(app: App, before: Desired) returns (out: Desired)
      requires manifest.Lookup(app.name) == Some(app) && AsWanted(before)
      ensures forall k :: k in out <==> k in before || (k.app == app.name && k.replica < app.replicas)
      ensures AsWanted(out)
    {
      out := before;
      for i := 0 to app.replicas
        invariant forall k :: k in out <==> k in before || (k.app == app.name && k.replica < i)
        invariant AsWanted(out)
      {
        var k := Key(app.name, i);
        var want := SlotWant(app, k);
        out := out[k := want];
      }
    }

    method SlotWant(app: App, k: Key) returns (w: Want)
      requires manifest.Lookup(k.app) == Some(app)
      ensures w == WantFor(hasher, manifest, slotPorts, k)
    {
      var port := if k in slotPorts then slotPorts[k] else app.port + k.replica;
      w := Want(port, hasher(manifest.defaults, app, k.replica, port));
    }

    /** Stops what is no longer desired, the highest replica index first; idle records just go. */
    method TerminateUndesired(desired: Desired, e: Env) returns (stopped: seq<nat>)
      modifies this`instances
      ensures Snapshot() == Stages.TerminateUndesired(old(Snapshot()), desired, e)
      ensures forall i: nat :: i in stopped <==> i < |old(instances)| && old(instances)[i].Slot() !in desired && old(instances)[i].Serving()
      ensures ReplicasDescend(old(instances), stopped)
    {
      var indices := UndesiredIndices(desired);
      var remove;
      stopped, remove := StopEach(indices, desired, e);
      RetainExcept(remove);
    }

    method StopEach(indices: seq<nat>, desired: Desired, e: Env) returns (stopped: seq<nat>, remove: set<Key>)
      requires forall j: nat :: j in indices <==> j < |instances| && instances[j].Slot() !in desired
      requires NoDup(indices) && ReplicasDescend(instances, indices)
      modifies this`instances
      ensures instances == StoppedUndesired(old(instances), desired, e.terminateAt)
      ensures remove == IdleUndesired(old(instances), desired)
      ensures forall i: nat :: i in stopped <==> i < |old(instances)| && old(instances)[i].Slot() !in desired && old(instances)[i].Serving()
      ensures ReplicasDescend(old(instances), stopped)
    {
      ghost var was, target := instances, StoppedUndesired(instances, desired, e.terminateAt);
      ghost var done: set<nat> := {};
      MixEnds(was, target, done);
      remove, stopped := {}, [];
      for n := 0 to |indices|
        invariant instances == Mixed(was, target, done)
        invariant done == ToSet(indices[..n])
        invariant remove == set j | j in indices[..n] && j < |was| && !was[j].Running() :: was[j].Slot()
        invariant forall j: nat :: j in stopped <==> j in indices[..n] && j < |was| && was[j].Serving()
        invariant ReplicasDescend(was, stopped)
      {
        var idx := indices[n];
        assert idx in indices;
        assert indices[..n + 1] == indices[..n] + [idx];
        assert idx !in indices[..n];
        MixStep(was, target, done, idx);
        done := done + {idx};
        PushDescends(was, indices, n, stopped);
        var stops, idle := StopOrRemove(idx, e);
        if stops {
          stopped := stopped + [idx];
        }
        if idle {
          remove := remove + {instances[idx].Slot()};
        }
      }
      assert indices[..|indices|] == indices;
      MixEnds(was, target, done);
    }

    method StopOrRemove(idx: nat, e: Env) returns (stops: bool, idle: bool)
      requires idx < |instances|
      modifies this`instances
      ensures stops == old(instances[idx]).Serving() && idle == !old(instances[idx]).Running()
      ensures instances == if stops then old(instances)[idx := BeginStop(old(instances[idx]), false, e.terminateAt)] else old(instances)
    {
      stops, idle := false, false;
      if instances[idx].Running() {
        if instances[idx].phase != Terminating {
          instances := instances[idx := BeginStop(instances[idx], false, e.terminateAt)];
          stops := true;
        }
      } else {
        idle := true;
      }
    }

    method UndesiredIndices(desired: Desired) returns (indices: seq<nat>)
      ensures forall j: nat :: j in indices <==> j < |instances| && instances[j].Slot() !in desired
      ensures NoDup(indices) && ReplicasDescend(instances, indices)
    {
      indices := [];
      for i := 0 to |instances|
        invariant forall j: nat :: j in indices <==> j < i && instances[j].Slot() !in desired
        invariant NoDup(indices)
      {
        if instances[i].Slot() !in desired {
          indices := indices + [i];
        }
      }
      SortedIndices(instances, indices);
      var t := instances;
      indices := SortByKey(indices, (j: nat) => ReplicaAt(t, j));
    }

    method StopCheckBlocked(e: Env)
      modifies this`instances
      ensures Snapshot() == Stages.StopCheckBlocked(old(Snapshot()), e)
    {
      ghost var was, target := instances, Stages.StopCheckBlocked(Snapshot(), e).table;
      ghost var done: set<nat> := {};
      MixEnds(was, target, done);
      for i := 0 to |instances|
        invariant instances == Mixed(was, target, done)
        invariant forall j: nat :: j in done <==> j < i
      {
        MixStep(was, target, done, i);
        done := done + {i};
        var blocked := AppBlocked(instances[i].app);
        if blocked {
          var inst := instances[i];
          if inst.Running() && inst.phase != Terminating {
            instances := instances[i := BeginStop(inst, true, e.blockedAt)];
          }
        }
      }
      MixEnds(was, target, done);
    }

    method AppBlocked(app: string) returns (blocked: bool)
      ensures blocked == CheckBlocked(manifest, checksOk, app)
    {
      if !manifest.Has(app) {
        return false;
      }
      var deps := manifest.Lookup(app).value.dependsOn;
      blocked := false;
      for k := 0 to |deps|
        invariant blocked == exists l :: 0 <= l < k && !manifest.Has(deps[l]) && deps[l] in checksOk && !checksOk[deps[l]]
      {
        if !manifest.Has(deps[k]) && deps[k] in checksOk && !checksOk[deps[k]] {
          blocked := true;
        }
      }
    }

    /** At most one stale record of each selected app goes, or one slot moves to a surge port. */
    method RollStale(desired: Desired, e: Env)
      requires forall k :: k in desired ==> manifest.Has(k.app)
      requires ListsSelected(e.rollOrder, selected)
      modifies this`instances, this`slotPorts
      ensures Snapshot() == Stages.RollStale(old(Snapshot()), desired, e)
    {
      ghost var was, ports := instances, slotPorts;
      for n := 0 to |e.rollOrder|
        invariant instances == RollEach(manifest, desired, was, e.rollOrder[..n], e.rollAt)
        invariant slotPorts == MoveEach(manifest, desired, was, ports, e.rollOrder[..n], e.rollAt)
      {
        assert e.rollOrder[..n + 1][..n] == e.rollOrder[..n];
        RollApp(e.rollOrder[n], desired, e);
      }
      assert e.rollOrder[..|e.rollOrder|] == e.rollOrder;
      RollEachAtOnce(manifest, selected, desired, was, ports, e.rollOrder, e.rollAt);
    }

    method RollApp(app: string, desired: Desired, e: Env)
      requires forall k :: k in desired ==> manifest.Has(k.app)
      modifies this`instances, this`slotPorts
      ensures instances == RollOne(manifest, desired, old(instances), app, e.rollAt)
      ensures slotPorts == MoveOne(old(slotPorts), SurgeMove(manifest, desired, old(instances), app))
    {
      var target := FirstStaleNotReady(desired, instances, app);
      if target.Some? {
        instances := instances[target.value := BeginStop(instances[target.value], false, e.rollAt)];
        return;
      }
      if manifest.defaults.maxSurge > 0 {
        AllocateSurge(app, desired);
        return;
      }
      var desiredCount, ready := Replicas(manifest, app), ReadyCount(instances, app);
      var unavailable := if ready <= desiredCount then desiredCount - ready else 0;
      if unavailable >= MAX_UNAVAILABLE {
        return;
      }
      target := FirstStaleReady(desired, instances, app);
      if target.Some? {
        instances := instances[target.value := BeginStop(instances[target.value], false, e.rollAt)];
      }
    }

    /** Gives the next instance of a stale Ready slot a temporary port, budget permitting. */
    method AllocateSurge(app: string, desired: Desired)
      requires forall k :: k in desired ==> manifest.Has(k.app)
      requires manifest.defaults.maxSurge > 0 && FirstStaleNotReady(desired, instances, app).None?
      modifies this`slotPorts
      ensures slotPorts == MoveOne(old(slotPorts), SurgeMove(manifest, desired, instances, app))
    {
      var staleReady := FirstStaleReady(desired, instances, app);
      if staleReady.Some? {
        var slot := instances[staleReady.value].Slot();
        var hasNew := HasHash(instances, slot, desired[slot].hash);
        var total, budget := AppCount(instances, app), Replicas(manifest, app) + manifest.defaults.maxSurge;
        if !hasNew && total < budget {
          var surgePort := SurgePortFor(manifest.Lookup(app).value);
          slotPorts := slotPorts[slot := surgePort];
        }
      }
    }

    method SurgePortFor(app: App) returns (p: nat)
      ensures p == SurgePort(manifest, app)
    {
      var claimed := set q: nat | q <= U16_MAX && Declared(manifest, q);
      var base: nat := app.port + app.replicas;
      var candidate := base;
      while candidate <= U16_MAX
        invariant FirstFree(manifest, base) == FirstFree(manifest, candidate)
        decreases U16_MAX + 1 - candidate
      {
        if candidate !in claimed {
          return candidate;
        }
        candidate := candidate + 1;
      }
      return base % 0x1_0000;
    }

    /** Adds Pending records for uncovered slots, then spawns whatever the gate lets through. */
    method SpawnMissing(desired: Desired, e: Env)
      modifies this`instances
      ensures Snapshot() == Stages.SpawnMissing(hasher, old(Snapshot()), desired, e)
    {
      AddMissing(desired, e);
      SpawnReady(e);
    }

    method AddMissing(desired: Desired, e: Env)
      modifies this`instances
      ensures Snapshot() == Stages.AddMissing(old(Snapshot()), desired, e)
    {
      var keys := InKeyOrder(desired.Keys);
      InKeyOrderSorts(desired.Keys);
      AddForKeys(keys, desired, e);
    }

    method AddForKeys(keys: seq<Key>, desired: Desired, e: Env)
      requires NoDup(keys) && forall k :: k in keys ==> k in desired
      modifies this`instances
      ensures instances == old(instances) + Missing(desired, old(instances), keys, e.spawnAt)
    {
      ghost var start := instances;
      for n := 0 to |keys|
        invariant instances == start + Missing(desired, start, keys[..n], e.spawnAt)
      {
        assert keys[n] in keys;
        MissingStep(desired, start, keys, n, e.spawnAt);
        var hasCurrent := HasHash(instances, keys[n], desired[keys[n]].hash);
        if !hasCurrent {
          instances := instances + [NewFor(desired, keys[n], e.spawnAt)];
        }
      }
      assert keys[..|keys|] == keys;
    }

    method SpawnReady(e: Env)
      modifies this`instances
      ensures Snapshot() == Stages.SpawnReady(hasher, old(Snapshot()), e)
    {
      var ready := ReadyApps(instances);
      ghost var start := Snapshot();
      ghost var was, target := instances, Stages.SpawnReady(hasher, start, e).table;
      ghost var done: set<nat> := {};
      MixEnds(was, target, done);
      for i := 0 to |instances|
        invariant instances == Mixed(was, target, done)
        invariant forall j: nat :: j in done <==> j < i
      {
        MixStep(was, target, done, i);
        done := done + {i};
        SpawnIfDue(i, ready, e, start);
      }
      MixEnds(was, target, done);
    }

    method SpawnIfDue(i: nat, ready: set<string>, e: Env, ghost start: State)
      requires i < |instances| && i < |start.table| && instances[i] == start.table[i]
      requires start.m == manifest && start.checksOk == checksOk && start.tick == tick
      modifies this`instances
      ensures instances == old(instances)[i := SpawnAt(hasher, start, ready, e, i)]
    {
      var inst := instances[i];
      if inst.Running() || inst.phase == Terminating {
        return;
      }
      var backoffOk := inst.backoffUntil.None? || e.spawnAt >= inst.backoffUntil.value;
      var depsOk := DependenciesUp(manifest, checksOk, ready, inst.app);
      if !backoffOk || !depsOk {
        return;
      }
      Spawn(i, e);
    }

    method Spawn(idx: nat, e: Env)
      requires idx < |instances| && manifest.Has(instances[idx].app)
      modifies this`instances
      ensures instances == old(instances)[idx := SpawnOne(hasher, manifest.defaults, manifest.Lookup(old(instances[idx]).app).value,
                                                          old(instances[idx]), e.spawn(idx), Pid(tick, idx))]
    {
      var inst := instances[idx];
      var app := manifest.Lookup(inst.app).value;
      var ans := e.spawn(idx);
      if ans.ok {
        var noReadyProbe := app.readyPath == "";
        inst := inst.(handle := Some(Handle(Pid(tick, idx), [])));
        inst := inst.(phase := if noReadyProbe then Ready else Starting);
        inst := inst.(startedAt := Some(ans.at), backoffUntil := None);
        inst := inst.(readyDeadline := Some(ans.at + app.readyTimeout * 1000));
        inst := inst.(consecutiveLiveFail := 0, everReady := noReadyProbe);
        inst := inst.(nextReadyProbe := ans.at, nextLiveProbe := ans.at + app.livePeriod * 1000);
        inst := inst.(specHash := hasher(manifest.defaults, app, inst.replica, inst.port));
      } else {
        inst := inst.(restarts := inst.restarts + 1);
        inst := inst.(backoffUntil := Some(ans.at + NextDelay(manifest.defaults, inst.restarts)));
        inst := inst.(phase := CrashLoopBackOff);
      }
      instances := instances[idx := inst];
    }

    /** After a surge: once a slot's new instance is Ready, its old ones go. */
    method RetireStaleSurplus(desired: Desired, e: Env)
      modifies this`instances
      ensures Snapshot() == Stages.RetireStaleSurplus(old(Snapshot()), desired, e)
    {
      if manifest.defaults.maxSurge == 0 {
        return;
      }
      var toStop := Surplus(desired);
      ghost var was, target := instances, Stages.RetireStaleSurplus(Snapshot(), desired, e).table;
      ghost var done: set<nat> := {};
      MixEnds(was, target, done);
      for n := 0 to |toStop|
        invariant instances == Mixed(was, target, done)
        invariant forall j: nat :: j in done <==> j in toStop[..n]
      {
        var idx := toStop[n];
        assert idx in toStop && idx !in toStop[..n];
        assert toStop[..n + 1] == toStop[..n] + [idx];
        MixStep(was, target, done, idx);
        done := done + {idx};
        instances := instances[idx := BeginStop(instances[idx], false, e.retireAt)];
      }
      assert toStop[..|toStop|] == toStop;
      MixEnds(was, target, done);
    }

    method Surplus(desired: Desired) returns (toStop: seq<nat>)
      ensures forall j: nat :: j in toStop <==> j < |instances| && Retires(desired, instances, instances[j])
      ensures NoDup(toStop)
    {
      var keys := InKeyOrder(desired.Keys);
      InKeyOrderSorts(desired.Keys);
      toStop := [];
      for n := 0 to |keys|
        invariant forall j: nat :: j in toStop <==> RetiresWithin(desired, instances, keys[..n], j)
        invariant NoDup(toStop)
      {
        assert keys[n] in keys;
        var surplus := SlotSurplus(keys[n], desired);
        OneMoreKey(desired, instances, keys, n);
        NoDupConcat(toStop, surplus);
        toStop := toStop + surplus;
      }
      assert keys[..|keys|] == keys;
    }

    method SlotSurplus(k: Key, desired: Desired) returns (surplus: seq<nat>)
      requires k in desired
      ensures forall j: nat :: j in surplus <==>
                j < |instances| && instances[j].Slot() == k && Retires(desired, instances, instances[j])
      ensures NoDup(surplus)
    {
      surplus := [];
      var hasNewReady := Replaced(desired, instances, k);
      if !hasNewReady {
        return;
      }
      for i := 0 to |instances|
        invariant forall j: nat :: j in surplus <==>
                    j < i && instances[j].Slot() == k && Retires(desired, instances, instances[j])
        invariant NoDup(surplus)
      {
        if instances[i].Slot() == k && instances[i].specHash != desired[k].hash && instances[i].phase != Terminating {
          surplus := surplus + [i];
        }
      }
    }

    /** Drives readiness and liveness of every serving instance. */
    method Probe(e: Env)
      modifies this`instances
      ensures Snapshot() == Stages.Probe(old(Snapshot()), e)
    {
      ghost var was, target := instances, Stages.Probe(Snapshot(), e).table;
      ghost var done: set<nat> := {};
      MixEnds(was, target, done);
      for i := 0 to |instances|
        invariant instances == Mixed(was, target, done)
        invariant forall j: nat :: j in done <==> j < i
      {
        MixStep(was, target, done, i);
        done := done + {i};
        ProbeInstance(i, e);
      }
      MixEnds(was, target, done);
    }

    method ProbeInstance(i: nat, e: Env)
      requires i < |instances|
      modifies this`instances
      ensures instances == old(instances)[i := ProbeOne(manifest, old(instances[i]), e.probeAt, e.probe(i))]
    {
      var inst, ans := instances[i], e.probe(i);
      if !inst.Running() || inst.phase == Terminating || !manifest.Has(inst.app) {
        return;
      }
      var app := manifest.Lookup(inst.app).value;
      inst := ProbeReadiness(app, inst, e.probeAt, ans);
      if inst.phase != Terminating {
        inst := ProbeLiveness(app, inst, e.probeAt, ans);
      }
      instances := instances[i := inst];
    }

    method ProbeReadiness(app: App, r: Instance, now: nat, ans: ProbeAnswer) returns (inst: Instance)
      ensures inst == AfterReadiness(app, r, now, ans)
    {
      inst := r;
      if now >= inst.nextReadyProbe && app.readyPath != "" {
        inst := inst.(nextReadyProbe := ans.readyAt + READY_PERIOD);
        if ans.ready {
          inst := inst.(phase := Ready, everReady := true);
        } else if inst.phase == Ready {
          inst := inst.(phase := Unready);
        } else if inst.phase == Starting && inst.readyDeadline.Some? && ans.readyAt >= inst.readyDeadline.value {
          inst := BeginStop(inst, true, ans.readyAt);
        }
      }
    }

    method ProbeLiveness(app: App, r: Instance, now: nat, ans: ProbeAnswer) returns (inst: Instance)
      ensures inst == if LiveProbeRuns(app, r, now) then LiveProbe(app, r, ans) else r
    {
      inst := r;
      if now >= inst.nextLiveProbe && app.livePath != "" && inst.everReady {
        inst := inst.(nextLiveProbe := ans.liveAt + app.livePeriod * 1000);
        if ans.live {
          inst := inst.(consecutiveLiveFail := 0);
        } else {
          inst := inst.(consecutiveLiveFail := inst.consecutiveLiveFail + 1);
          if inst.consecutiveLiveFail >= app.liveFailures {
            inst := BeginStop(inst, true, ans.liveAt);
          }
        }
      }
    }

    /** One tick. */
    method Reconcile(e: Env)
      requires WellFormed(manifest) && ListsSelected(e.rollOrder, selected)
      modifies this
      ensures Snapshot() == Tick(hasher, old(Snapshot()), e)
    {
      ghost var s0 := Snapshot();
      CheckAndReap(e);
      ghost var s1 := Snapshot();
      var desired := DesiredSlots();
      ClearAndRoll(desired, e);
      ghost var s2 := Snapshot();
      desired := DesiredSlots();
      SpawnAndProbe(desired, e);
      ghost var s3 := Snapshot();
      tick := tick + 1;
      TickIs(hasher, e, s0, s1, s2, s3);
    }

    method CheckAndReap(e: Env)
      modifies this`checksOk, this`nextCheckVerify, this`instances
      ensures Snapshot() == Stages.Reap(Stages.ReverifyChecks(old(Snapshot()), e), e)
    {
      ReverifyChecks(e);
      Reap(e);
    }

    method ClearAndRoll(desired: Desired, e: Env)
      requires forall k :: k in desired ==> manifest.Has(k.app)
      requires ListsSelected(e.rollOrder, selected)
      modifies this`instances, this`slotPorts
      ensures Snapshot() == FirstHalf(old(Snapshot()), desired, e)
    {
      var _ := TerminateUndesired(desired, e);
      StopCheckBlocked(e);
      RollStale(desired, e);
    }

    method SpawnAndProbe(desired: Desired, e: Env)
      modifies this`instances
      ensures Snapshot() == SecondHalf(hasher, old(Snapshot()), desired, e)
    {
      SpawnMissing(desired, e);
      RetireStaleSurplus(desired, e);
      Probe(e);
    }

    /** Replaces the manifest once a change to its file has settled and loads well. */
    method MaybeReload(o: Observation)
      modifies this`manifest, this`selected, this`manifestMtime, this`pendingMtime
      ensures Snapshot() == Runs.MaybeReload(old(Snapshot()), o)
    {
      if o.mtime == manifestMtime {
        pendingMtime := None;
        return;
      }
      if pendingMtime != o.mtime {
        pendingMtime := o.mtime;
        return;
      }
      pendingMtime := None;
      manifestMtime := o.mtime;
      if o.loaded.None? || o.loaded.value.apps == [] {
        return;
      }
      var names := OnlyNames();
      var chosen := SelectApps(o.loaded.value, names);
      if chosen.Some? && chosen.value != {} {
        manifest, selected := o.loaded.value, chosen.value;
      }
    }

    method OnlyNames() returns (names: Option<seq<string>>)
      ensures Request(names) == Runs.OnlyNames(Snapshot())
    {
      if |selected| == |manifest.apps| {
        return None;
      }
      var left, listed := selected, [];
      while left != {}
        invariant left + ToSet(listed) == selected
      {
        var name :| name in left;
        left, listed := left - {name}, listed + [name];
      }
      return Some(listed);
    }

    /**
     * Signals every live process once, in reverse start order if there is one, then waits for
     * the exits, killing what is left in every round past the grace period.
     */
    method Teardown(termAt: nat, begun: nat, rounds: seq<Round>)
      returns (order: seq<string>, signalled: seq<nat>, finished: bool)
      modifies this`instances
      ensures if Acyclic(ByName(manifest.apps)) then IsStartOrder(ByName(manifest.apps), order) else order == []
      ensures signalled == LiveIndices(StopOrder(old(instances), order))
      ensures Outcome(instances, finished)
           == Teardowns.AwaitExits(SignalAll(StopOrder(old(instances), order), termAt), rounds, begun + 10_000)
      ensures Orderly(ByName(manifest.apps), old(instances), StopOrder(old(instances), order), signalled,
                      termAt, rounds, begun + 10_000, Outcome(instances, finished))
    {
      ghost var was := instances;
      order, signalled := SignalInOrder(termAt);
      finished := AwaitExits(rounds, begun + STOP_GRACE);
      TeardownIsOrderly(ByName(manifest.apps), order, was, termAt, rounds, begun + STOP_GRACE);
    }

    method SignalInOrder(termAt: nat) returns (order: seq<string>, signalled: seq<nat>)
      modifies this`instances
      ensures if Acyclic(ByName(manifest.apps)) then IsStartOrder(ByName(manifest.apps), order) else order == []
      ensures signalled == LiveIndices(StopOrder(old(instances), order))
      ensures instances == SignalAll(StopOrder(old(instances), order), termAt)
    {
      order := StartOrderOrNone();
      instances := StopOrder(instances, order);
      signalled := SignalEach(termAt);
    }

    method StartOrderOrNone() returns (order: seq<string>)
      ensures if Acyclic(ByName(manifest.apps)) then IsStartOrder(ByName(manifest.apps), order) else order == []
    {
      var ordered := AppsOrdered(manifest);
      return if ordered.Some? then ordered.value else [];
    }

    method SignalEach(now: nat) returns (signalled: seq<nat>)
      modifies this`instances
      ensures instances == SignalAll(old(instances), now)
      ensures signalled == LiveIndices(old(instances))
    {
      ghost var was, target := instances, SignalAll(instances, now);
      ghost var done: set<nat> := {};
      MixEnds(was, target, done);
      signalled := [];
      for i := 0 to |instances|
        invariant instances == Mixed(was, target, done)
        invariant forall j: nat :: j in done <==> j < i
        invariant signalled == LiveIndices(was[..i])
      {
        MixStep(was, target, done, i);
        done := done + {i};
        assert was[..i + 1][..i] == was[..i];
        var inst := instances[i];
        if inst.Running() {
          instances := instances[i := inst.(handle := Some(Send(inst.handle.value, Sigterm(now))), phase := Terminating)];
          signalled := signalled + [i];
        }
      }
      assert was[..|was|] == was;
      MixEnds(was, target, done);
    }

    method AwaitExits(rounds: seq<Round>, deadline: nat) returns (finished: bool)
      modifies this`instances
      ensures Outcome(instances, finished) == Teardowns.AwaitExits(old(instances), rounds, deadline)
    {
      for n := 0 to |rounds|
        invariant Teardowns.AwaitExits(instances, rounds[n..], deadline) == Teardowns.AwaitExits(old(instances), rounds, deadline)
      {
        assert rounds[n..][1..] == rounds[n + 1..];
        var allDone := HarvestEach(rounds[n]);
        if allDone {
          return true;
        }
        if rounds[n].at >= deadline {
          KillEach(rounds[n].at);
        }
      }
      return false;
    }

    method HarvestEach(round: Round) returns (allDone: bool)
      modifies this`instances
      ensures instances == Harvested(old(instances), round.wait)
      ensures allDone == AllGone(instances)
    {
      ghost var was, target := instances, Harvested(instances, round.wait);
      ghost var done: set<nat> := {};
      MixEnds(was, target, done);
      allDone := true;
      for i := 0 to |instances|
        invariant instances == Mixed(was, target, done)
        invariant forall j: nat :: j in done <==> j < i
        invariant allDone == forall j :: 0 <= j < i ==> !target[j].Running()
      {
        MixStep(was, target, done, i);
        done := done + {i};
        var inst := instances[i];
        if inst.Running() {
          if round.wait(inst.handle.value.pid).Exited? {
            instances := instances[i := inst.(handle := None)];
          } else {
            allDone := false;
          }
        }
      }
      MixEnds(was, target, done);
    }

    method KillEach(now: nat)
      modifies this`instances
      ensures instances == KillAll(old(instances), now)
    {
      ghost var was, target := instances, KillAll(instances, now);
      ghost var done: set<nat> := {};
      MixEnds(was, target, done);
      for i := 0 to |instances|
        invariant instances == Mixed(was, target, done)
        invariant forall j: nat :: j in done <==> j < i
      {
        MixStep(was, target, done, i);
        done := done + {i};
        var inst := instances[i];
        if inst.Running() {
          instances := instances[i := inst.(handle := Some(Send(inst.handle.value, Sigkill(now))))];
        }
      }
      MixEnds(was, target, done);
    }
  }

  lemma TickIs(hasher: Hasher, e: Env, s0: State, s1: State, s2: State, s3: State)
    requires s1 == Stages.Reap(Stages.ReverifyChecks(s0, e), e)
    requires s2 == FirstHalf(s1, DesiredIn(hasher, s1), e)
    requires s3 == SecondHalf(hasher, s2, DesiredIn(hasher, s2), e)
    ensures s3.(tick := s0.tick + 1) == Tick(hasher, s0, e)
  {
  }

  // ----- the desired slots are built app by app -----

  ghost predicate Earlier(m: Manifest, x: nat, name: string) {
    exists y :: 0 <= y < x && y < |m.apps| && m.apps[y].name == name
  }

  lemma EarlierStep(m: Manifest, x: nat)
    requires x < |m.apps|
    ensures forall n :: Earlier(m, x + 1, n) <==> Earlier(m, x, n) || n == m.apps[x].name
  {
    forall n ensures Earlier(m, x + 1, n) <==> Earlier(m, x, n) || n == m.apps[x].name {
      if n == m.apps[x].name {
        assert 0 <= x < x + 1 && m.apps[x].name == n;
      }
    }
  }

  lemma EarlierAll(m: Manifest)
    ensures forall n :: m.Has(n) ==> Earlier(m, |m.apps|, n)
  {
    forall n | m.Has(n) ensures Earlier(m, |m.apps|, n) {
      LookupIff(m, n);
      var a := m.Lookup(n).value;
      var y :| 0 <= y < |m.apps| && m.apps[y] == a;
    }
  }

  // ----- rolls of different apps do not interfere -----

  /** Two tables with the same records of `app` at the same places. */
  ghost predicate SameFor(t: Table, u: Table, app: string) {
    |t| == |u| && forall i :: 0 <= i < |t| ==> t[i].app == u[i].app && (t[i].app == app ==> t[i] == u[i])
  }

  lemma {:induction false} CountsLocal(t: Table, u: Table, app: string)
    requires SameFor(t, u, app)
    ensures ReadyCount(t, app) == ReadyCount(u, app) && AppCount(t, app) == AppCount(u, app)
  {
    if t != [] {
      CountsLocal(t[..|t| - 1], u[..|u| - 1], app);
    }
  }

  lemma StaleLocal(d: Desired, t: Table, u: Table, app: string)
    requires SameFor(t, u, app)
    ensures FirstStaleReady(d, t, app) == FirstStaleReady(d, u, app)
    ensures FirstStaleNotReady(d, t, app) == FirstStaleNotReady(d, u, app)
  {
  }

  lemma RollLocal(m: Manifest, d: Desired, t: Table, u: Table, app: string)
    requires SameFor(t, u, app)
    ensures RollVictim(m, d, t, app) == RollVictim(m, d, u, app)
    ensures SurgeMove(m, d, t, app) == SurgeMove(m, d, u, app)
  {
    CountsLocal(t, u, app);
    StaleLocal(d, t, u, app);
    var i := FirstStaleReady(d, t, app);
    if i.Some? {
      var k := t[i.value].Slot();
      assert HasHash(t, k, d[k].hash) == HasHash(u, k, d[k].hash);
    }
  }

  lemma VictimOfApp(m: Manifest, d: Desired, t: Table, app: string)
    ensures var v := RollVictim(m, d, t, app); v.Some? ==> v.value < |t| && t[v.value].app == app
    ensures var mv := SurgeMove(m, d, t, app); mv.Some? ==> mv.value.slot.app == app
  {
  }

  // ----- the roll, app by app -----

  function StopAt(t: Table, victim: Option<nat>, now: nat): (r: Table)
    requires victim.Some? ==> victim.value < |t|
  {
    match victim
    case None => t
    case Some(i) => t[i := BeginStop(t[i], false, now)]
  }

  function RollOne(m: Manifest, d: Desired, t: Table, app: string, now: nat): Table {
    StopAt(t, RollVictim(m, d, t, app), now)
  }

  function RollEach(m: Manifest, d: Desired, t: Table, order: seq<string>, now: nat): Table {
    if order == [] then t
    else RollOne(m, d, RollEach(m, d, t, order[..|order| - 1], now), order[|order| - 1], now)
  }

  function MoveOne(ports: map<Key, nat>, mv: Option<Move>): map<Key, nat> {
    if mv.Some? then ports[mv.value.slot := mv.value.port] else ports
  }

  function MoveEach(m: Manifest, d: Desired, t: Table, ports: map<Key, nat>, order: seq<string>, now: nat): map<Key, nat> {
    if order == [] then ports
    else
      var front, app := order[..|order| - 1], order[|order| - 1];
      MoveOne(MoveEach(m, d, t, ports, front, now), SurgeMove(m, d, RollEach(m, d, t, front, now), app))
  }

  /** A turn for one app leaves the records of every other app alone. */
  lemma RollOneLocal(m: Manifest, d: Desired, t: Table, app: string, now: nat, other: string)
    requires app != other
    ensures SameFor(t, RollOne(m, d, t, app, now), other)
  {
    VictimOfApp(m, d, t, app);
  }

  lemma {:induction false} RollEachLocal(m: Manifest, d: Desired, t: Table, order: seq<string>, now: nat, other: string)
    requires other !in order
    ensures SameFor(t, RollEach(m, d, t, order, now), other)
  {
    if order != [] {
      RollEachLocal(m, d, t, order[..|order| - 1], now, other);
      RollOneLocal(m, d, RollEach(m, d, t, order[..|order| - 1], now), order[|order| - 1], now, other);
    }
  }

  /** Each turn stops the victim its app has on the table at the start. */
  lemma RollTurn(m: Manifest, d: Desired, t: Table, order: seq<string>, now: nat)
    requires order != [] && NoDup(order)
    ensures var front, app := order[..|order| - 1], order[|order| - 1];
            && RollVictim(m, d, RollEach(m, d, t, front, now), app) == RollVictim(m, d, t, app)
            && SurgeMove(m, d, RollEach(m, d, t, front, now), app) == SurgeMove(m, d, t, app)
            && SameFor(t, RollEach(m, d, t, front, now), app)
  {
    var front, app := order[..|order| - 1], order[|order| - 1];
    RollEachLocal(m, d, t, front, now, app);
    RollLocal(m, d, t, RollEach(m, d, t, front, now), app);
  }

  lemma {:induction false} RollEachAt(m: Manifest, d: Desired, t: Table, order: seq<string>, now: nat, i: nat)
    requires NoDup(order) && i < |t|
    ensures |RollEach(m, d, t, order, now)| == |t|
    ensures RollEach(m, d, t, order, now)[i]
         == if t[i].app in order && RollVictim(m, d, t, t[i].app) == Some(i) then BeginStop(t[i], false, now) else t[i]
    decreases |order|
  {
    if order != [] {
      var front, app := order[..|order| - 1], order[|order| - 1];
      assert order == front + [app];
      RollEachAt(m, d, t, front, now, i);
      RollTurn(m, d, t, order, now);
      VictimOfApp(m, d, t, app);
    }
  }

  lemma {:induction false} MoveEachIs(m: Manifest, d: Desired, t: Table, ports: map<Key, nat>, order: seq<string>, now: nat, moves: Moves)
    requires NoDup(order) && forall app :: app in order ==> app in moves && moves[app] == SurgeMove(m, d, t, app)
    ensures MoveEach(m, d, t, ports, order, now) == ports + MovedPorts(moves, ToSet(order))
    decreases |order|
  {
    if order != [] {
      var front, app := order[..|order| - 1], order[|order| - 1];
      assert order == front + [app] && ToSet(order) == ToSet(front) + {app};
      MoveEachIs(m, d, t, ports, front, now, moves);
      RollTurn(m, d, t, order, now);
      VictimOfApp(m, d, t, app);
      OneMorePort(moves, ToSet(front), app, ports);
    }
  }

  /** The turns do not interfere: in any order, the roll is what it would be all at once. */
  lemma RollEachAtOnce(m: Manifest, selected: set<string>, d: Desired, t: Table, ports: map<Key, nat>, order: seq<string>, now: nat)
    requires ListsSelected(order, selected)
    ensures RollEach(m, d, t, order, now) == RolledTable(m, selected, d, t, now)
    ensures MoveEach(m, d, t, ports, order, now) == ports + MovedPorts(SurgeMoves(m, selected, d, t), selected)
  {
    var target := RolledTable(m, selected, d, t, now);
    RollEachLength(m, d, t, order, now);
    forall i | 0 <= i < |t| ensures RollEach(m, d, t, order, now)[i] == target[i] {
      RollEachAt(m, d, t, order, now, i);
    }
    MoveEachIs(m, d, t, ports, order, now, SurgeMoves(m, selected, d, t));
    assert ToSet(order) == selected;
  }

  lemma {:induction false} RollEachLength(m: Manifest, d: Desired, t: Table, order: seq<string>, now: nat)
    ensures |RollEach(m, d, t, order, now)| == |t|
  {
    if order != [] {
      RollEachLength(m, d, t, order[..|order| - 1], now);
    }
  }

  lemma OneMorePort(moves: Moves, apps: set<string>, app: string, ports: map<Key, nat>)
    requires app in moves && (moves[app].Some? ==> moves[app].value.slot.app == app)
    ensures ports + MovedPorts(moves, apps + {app}) == MoveOne(ports + MovedPorts(moves, apps), moves[app])
  {
    assert MovedSlots(moves, apps + {app})
        == MovedSlots(moves, apps) + if moves[app].Some? then {moves[app].value.slot} else {};
  }

  /** Records pushed for other slots do not cover this one, so one turn of the loop adds what it should. */
  lemma MissingStep(d: Desired, t: Table, keys: seq<Key>, n: nat, now: nat)
    requires n < |keys| && NoDup(keys) && forall k :: k in keys ==> k in d
    ensures var k := keys[n];
            var sofar := t + Missing(d, t, keys[..n], now);
            t + Missing(d, t, keys[..n + 1], now) == if HasHash(sofar, k, d[k].hash) then sofar else sofar + [NewFor(d, k, now)]
  {
    var k, more := keys[n], Missing(d, t, keys[..n], now);
    assert keys[..n + 1][..n] == keys[..n];
    forall i | 0 <= i < |more| ensures more[i].Slot() != k {
      MissingSlot(d, t, keys[..n], now, i);
    }
    if HasHash(t, k, d[k].hash) {
      var i :| 0 <= i < |t| && t[i].Slot() == k && t[i].specHash == d[k].hash;
      assert (t + more)[i] == t[i];
    }
    assert t + (more + [NewFor(d, k, now)]) == (t + more) + [NewFor(d, k, now)];
  }

  ghost predicate RetiresWithin(d: Desired, t: Table, keys: seq<Key>, j: nat) {
    j < |t| && t[j].Slot() in keys && Retires(d, t, t[j])
  }

  lemma OneMoreKey(d: Desired, t: Table, keys: seq<Key>, n: nat)
    requires n < |keys| && NoDup(keys)
    ensures forall j: nat :: RetiresWithin(d, t, keys[..n + 1], j) <==>
              RetiresWithin(d, t, keys[..n], j) || (j < |t| && t[j].Slot() == keys[n] && Retires(d, t, t[j]))
    ensures forall j: nat :: RetiresWithin(d, t, keys[..n], j) ==> t[j].Slot() != keys[n]
  {
    assert keys[..n + 1] == keys[..n] + [keys[n]];
    assert keys[n] !in keys[..n];
  }

  // ----- stop order -----

  function ReplicaAt(t: Table, i: nat): int {
    if i < |t| then t[i].replica else -1
  }

  ghost predicate ReplicasDescend(t: Table, ix: seq<nat>) {
    forall x, y :: 0 <= x < y < |ix| ==> ReplicaAt(t, ix[x]) >= ReplicaAt(t, ix[y])
  }

  lemma SortedIndices(t: Table, ix: seq<nat>)
    requires NoDup(ix)
    ensures var r := SortByKey(ix, (j: nat) => ReplicaAt(t, j));
            (forall j :: j in r <==> j in ix) && NoDup(r) && ReplicasDescend(t, r)
  {
    var key := (j: nat) => ReplicaAt(t, j);
    var r := SortByKey(ix, key);
    SameMultiset(r, ix);
    NoDupSorted(r, ix);
    forall x, y | 0 <= x < y < |r| ensures ReplicaAt(t, r[x]) >= ReplicaAt(t, r[y]) {
      assert key(r[x]) >= key(r[y]);
    }
  }

  lemma PushDescends(t: Table, ix: seq<nat>, n: nat, stopped: seq<nat>)
    requires ReplicasDescend(t, ix) && ReplicasDescend(t, stopped)
    requires n < |ix| && forall j :: j in stopped ==> j in ix[..n]
    ensures ReplicasDescend(t, stopped + [ix[n]])
  {
    forall x | 0 <= x < |stopped| ensures ReplicaAt(t, stopped[x]) >= ReplicaAt(t, ix[n]) {
      assert stopped[x] in ix[..n];
    }
  }
}
