/** The stop protocol: what a process that was asked to stop can still receive, over whole runs. */
module Stopping {
  import opened Prelude
  import opened Manifests
  import opened Instances
  import opened Stages
  import opened Lifecycle
  import opened Tracking
  import opened Runs

  // ----- following a record through a run -----

  /** Record `i` before the step is record `j` after it. */
  ghost predicate Carries(hasher: Hasher, s: State, step: Step, i: nat, j: nat) {
    && i < |s.table|
    && match step
       case Ticked(e) => Place(hasher, s, e, i) == Some(j)
       case Reloaded(o) => j == i
  }

  /** `pos` gives the place of one record in every state from `a` to `b`. */
  ghost predicate Tracks(hasher: Hasher, ss: seq<State>, steps: seq<Step>, pos: seq<nat>, a: nat, b: nat) {
    && a <= b < |ss| == |steps| + 1 == |pos|
    && pos[a] < |ss[a].table|
    && forall k {:trigger steps[k]} :: a <= k < b ==> Carries(hasher, ss[k], steps[k], pos[k], pos[k + 1])
  }

  ghost predicate IsStopping(r: Instance) {
    r.Running() && r.phase == Terminating
  }

  /** A tick does nothing to a stopping process that has not exited, except perhaps one SIGKILL that is due. */
  lemma StoppingMoves(hasher: Hasher, m: Manifest, tick: nat, e: Env, r: Instance, p: nat, v: Verdict)
    requires RecordOk(r) && IsStopping(r) && Lawful(hasher, m, tick, e, r, p, v)
    requires !e.wait(r.handle.value.pid).Exited?
    ensures TickRecord(hasher, m, tick, e, r, p, v) == ReapOne(r, m.defaults, e.wait, e.reapAt)
  {
  }

  /** The process is the same, still being stopped, with the same fate, and has been sent no signal out of turn. */
  ghost predicate StillStopping(r: Instance, r': Instance) {
    && IsStopping(r) && IsStopping(r')
    && r'.handle.value.pid == r.handle.value.pid
    && r'.restartAfterStop == r.restartAfterStop
    && r'.Slot() == r.Slot()
    && r.handle.value.sent <= r'.handle.value.sent
    && StopLog(r'.handle.value.sent)
  }

  lemma ReapWhileStopping(r: Instance, d: Defaults, wait: Pid -> Wait, now: nat)
    requires RecordOk(r) && IsStopping(r) && !wait(r.handle.value.pid).Exited?
    ensures StillStopping(r, ReapOne(r, d, wait, now))
  {
    ReapOneOk(r, d, wait, now);
  }

  lemma StopStep(hasher: Hasher, s: State, step: Step, s': State, i: nat, j: nat)
    requires TableOk(s.table) && Leads(hasher, s, step, s') && Carries(hasher, s, step, i, j) && IsStopping(s.table[i])
    requires step.Ticked? ==> !step.e.wait(s.table[i].handle.value.pid).Exited?
    ensures j < |s'.table| && StillStopping(s.table[i], s'.table[j])
  {
    var r := s.table[i];
    match step
    case Ticked(e) =>
      var v := TickAt(hasher, s, e, i);
      StoppingMoves(hasher, s.m, s.tick, e, r, j, v);
      ReapWhileStopping(r, s.m.defaults, e.wait, e.reapAt);
    case Reloaded(o) =>
      ReloadChanges(s, o);
  }

  lemma StillStoppingTransitive(r0: Instance, r1: Instance, r2: Instance)
    requires StillStopping(r0, r1) && StillStopping(r1, r2)
    ensures StillStopping(r0, r2)
  {
  }

  /** No exit of the process is observed by the ticks from `a` to `b`. */
  ghost predicate NotSeenExiting(steps: seq<Step>, a: nat, b: nat, pid: Pid)
    requires b <= |steps|
  {
    forall k :: a <= k < b && steps[k].Ticked? ==> !steps[k].e.wait(pid).Exited?
  }

  /**
   * However ticks and reloads interleave, a process that was asked to stop stays stopping until
   * its exit is seen; the decision what happens then never changes; and by then it has been
   * sent one SIGTERM, no SIGKILL before the grace period, and SIGKILLs at least two seconds apart.
   */
  lemma {:induction false} StopIsFinal(hasher: Hasher, ss: seq<State>, steps: seq<Step>, pos: seq<nat>, a: nat, b: nat)
    requires IsRun(hasher, ss, steps) && Tracks(hasher, ss, steps, pos, a, b)
    requires IsStopping(ss[a].table[pos[a]])
    requires NotSeenExiting(steps, a, b, ss[a].table[pos[a]].handle.value.pid)
    ensures pos[b] < |ss[b].table| && StillStopping(ss[a].table[pos[a]], ss[b].table[pos[b]])
    decreases b - a
  {
    ReachableOk(hasher, ss, steps, a);
    if a == b {
      assert RecordOk(ss[a].table[pos[a]]);
    } else {
      StopIsFinal(hasher, ss, steps, pos, a, b - 1);
      LastStopStep(hasher, ss, steps, pos, a, b);
      StillStoppingTransitive(ss[a].table[pos[a]], ss[b - 1].table[pos[b - 1]], ss[b].table[pos[b]]);
    }
  }

  lemma LastStopStep(hasher: Hasher, ss: seq<State>, steps: seq<Step>, pos: seq<nat>, a: nat, b: nat)
    requires IsRun(hasher, ss, steps) && Tracks(hasher, ss, steps, pos, a, b) && a < b
    requires pos[b - 1] < |ss[b - 1].table| && IsStopping(ss[b - 1].table[pos[b - 1]])
    requires steps[b - 1].Ticked? ==> !steps[b - 1].e.wait(ss[b - 1].table[pos[b - 1]].handle.value.pid).Exited?
    ensures pos[b] < |ss[b].table| && StillStopping(ss[b - 1].table[pos[b - 1]], ss[b].table[pos[b]])
  {
    ReachableOk(hasher, ss, steps, b - 1);
    assert LeadsAt(hasher, ss, steps, b - 1);
    StopStep(hasher, ss[b - 1], steps[b - 1], ss[b], pos[b - 1], pos[b]);
  }

  /** When the next SIGKILL is due: ten seconds after the SIGTERM, two after each SIGKILL. */
  function NextKill(sent: seq<Signal>): nat
    requires sent != []
  {
    sent[|sent| - 1].at + if |sent| == 1 then 10_000 else 2_000
  }

  lemma ReapPresses(r: Instance, d: Defaults, wait: Pid -> Wait, now: nat)
    requires RecordOk(r) && IsStopping(r) && !wait(r.handle.value.pid).Exited?
    ensures var r', sent := ReapOne(r, d, wait, now), r.handle.value.sent;
            && sent != [] && r'.Running()
            && r'.handle.value.sent == if wait(r.handle.value.pid).StillRunning? && NextKill(sent) <= now then sent + [Sigkill(now)] else sent
  {
  }

  /**
   * In every run a stopping process that a tick finds still running is sent a SIGKILL by that
   * tick exactly if one is due, and nothing otherwise.
   */
  lemma KilledWhenDue(hasher: Hasher, ss: seq<State>, steps: seq<Step>, k: nat, i: nat, j: nat)
    requires IsRun(hasher, ss, steps) && k < |steps| && steps[k].Ticked? && Carries(hasher, ss[k], steps[k], i, j)
    requires IsStopping(ss[k].table[i]) && steps[k].e.wait(ss[k].table[i].handle.value.pid).StillRunning?
    ensures j < |ss[k + 1].table| && IsStopping(ss[k + 1].table[j])
    ensures var sent, now := ss[k].table[i].handle.value.sent, steps[k].e.reapAt;
            && sent != []
            && ss[k + 1].table[j].handle.value.sent == if NextKill(sent) <= now then sent + [Sigkill(now)] else sent
  {
    ReachableOk(hasher, ss, steps, k);
    assert LeadsAt(hasher, ss, steps, k);
    var e := steps[k].e;
    var v := TickAt(hasher, ss[k], e, i);
    StoppingMoves(hasher, ss[k].m, ss[k].tick, e, ss[k].table[i], j, v);
    ReapPresses(ss[k].table[i], ss[k].m.defaults, e.wait, e.reapAt);
    StopStep(hasher, ss[k], steps[k], ss[k + 1], i, j);
  }

  /** When the exit is seen, the decision taken at the stop is carried out. */
  lemma ExitDecides(hasher: Hasher, s: State, e: Env, i: nat)
    requires TableOk(s.table) && i < |s.table| && IsStopping(s.table[i])
    requires e.wait(s.table[i].handle.value.pid).Exited?
    ensures !s.table[i].restartAfterStop ==> Place(hasher, s, e, i).None?
    ensures s.table[i].restartAfterStop ==>
              var r := ReapOne(s.table[i], s.m.defaults, e.wait, e.reapAt);
              r.phase == CrashLoopBackOff && !r.Running() && r.backoffUntil == Some(e.reapAt + NextDelay(s.m.defaults, r.restarts))
  {
    if !s.table[i].restartAfterStop {
      assert ExitDrops(s.table[i], e.wait);
      assert s.table[i].Slot() in DroppedSlots(ReverifyChecks(s, e).table, e.wait);
    }
  }
}
