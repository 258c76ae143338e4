/** Following one record through a tick: the loop acts on each record by a fixed sequence of moves. */
module Tracking {
  import opened Prelude
  import opened Manifests
  import opened KeyOrder
  import opened Instances
  import opened Stages
  import opened Lifecycle

  // ----- where a record ends up -----

  /** The place of record `i` among the records a retain keeps. */
  function PosAfter(t: Table, gone: set<Key>, i: nat): nat
    requires i <= |t|
  {
    |Retain(t[..i], gone)|
  }

  lemma {:induction false} RetainAt(t: Table, gone: set<Key>, i: nat)
    requires i < |t| && t[i].Slot() !in gone
    ensures PosAfter(t, gone, i) < |Retain(t, gone)|
    ensures Retain(t, gone)[PosAfter(t, gone, i)] == t[i]
    decreases |t|
  {
    var front := t[..|t| - 1];
    if i == |t| - 1 {
      assert t[..i] == front;
    } else {
      RetainAt(front, gone, i);
      assert front[..i] == t[..i];
    }
  }

  /** Every kept record comes from one before, and the order is kept. */
  lemma {:induction false} RetainFrom(t: Table, gone: set<Key>, p: nat) returns (i: nat)
    requires p < |Retain(t, gone)|
    ensures i < |t| && t[i].Slot() !in gone && PosAfter(t, gone, i) == p && Retain(t, gone)[p] == t[i]
    decreases |t|
  {
    var front := t[..|t| - 1];
    if p < |Retain(front, gone)| {
      i := RetainFrom(front, gone, p);
      assert front[..i] == t[..i];
    } else {
      i := |t| - 1;
      assert t[..i] == front;
    }
  }

  lemma {:induction false} RetainAll(t: Table, gone: set<Key>)
    requires forall i :: 0 <= i < |t| ==> t[i].Slot() !in gone
    ensures Retain(t, gone) == t
  {
    if t != [] {
      RetainAll(t[..|t| - 1], gone);
    }
  }

  // ----- the moves of a tick, on one record -----

  /** Which of the loop's decisions fell on a record during a tick. */
  datatype Verdict = Verdict(undesired: bool, blocked: bool, victim: bool, spawned: bool, retired: bool)

  function StopIf(b: bool, r: Instance, respawn: bool, now: nat): Instance {
    if b then BeginStop(r, respawn, now) else r
  }

  /** The record after the first half of a tick. */
  function ClearedRecord(d: Defaults, e: Env, r: Instance, v: Verdict): Instance {
    var reaped := ReapOne(r, d, e.wait, e.reapAt);
    StopIf(v.victim, StopIf(v.blocked, StopIf(v.undesired, reaped, false, e.terminateAt), true, e.blockedAt), false, e.rollAt)
  }

  function SpawnedRecord(hasher: Hasher, m: Manifest, tick: nat, e: Env, r: Instance, p: nat, v: Verdict): Instance {
    if v.spawned && m.Has(r.app) then SpawnOne(hasher, m.defaults, m.Lookup(r.app).value, r, e.spawn(p), Pid(tick, p)) else r
  }

  /** The record at the end of a tick that found it at place `p` of the spawn loop. */
  function TickRecord(hasher: Hasher, m: Manifest, tick: nat, e: Env, r: Instance, p: nat, v: Verdict): Instance {
    var spawned := SpawnedRecord(hasher, m, tick, e, ClearedRecord(m.defaults, e, r, v), p, v);
    ProbeOne(m, StopIf(v.retired, spawned, false, e.retireAt), e.probeAt, e.probe(p))
  }

  /** No decision falls on a record it does not apply to. */
  ghost predicate Lawful(hasher: Hasher, m: Manifest, tick: nat, e: Env, r: Instance, p: nat, v: Verdict) {
    var reaped := ReapOne(r, m.defaults, e.wait, e.reapAt);
    var r1 := StopIf(v.undesired, reaped, false, e.terminateAt);
    var r2 := StopIf(v.blocked, r1, true, e.blockedAt);
    var r3 := StopIf(v.victim, r2, false, e.rollAt);
    && (v.undesired ==> reaped.Serving())
    && (v.blocked ==> r1.Serving())
    && (v.victim ==> r2.phase != Terminating)
    && (v.spawned ==> !r3.Running() && r3.phase != Terminating && (r3.backoffUntil.Some? ==> r3.backoffUntil.value <= e.spawnAt))
    && (v.retired ==> SpawnedRecord(hasher, m, tick, e, r3, p, v).phase != Terminating)
  }

  // ----- the moves, stage by stage -----

  lemma ReapAt(s: State, e: Env, i: nat) returns (p: Option<nat>)
    requires i < |s.table|
    ensures p.None? <==> s.table[i].Slot() in DroppedSlots(s.table, e.wait)
    ensures p.Some? ==> p.value < |Reap(s, e).table|
    ensures p.Some? ==> Reap(s, e).table[p.value] == ReapOne(s.table[i], s.m.defaults, e.wait, e.reapAt)
    ensures p.Some? ==> p.value == PosAfter(ReapedTable(s.table, s.m.defaults, e.wait, e.reapAt), DroppedSlots(s.table, e.wait), i)
  {
    var t, gone := ReapedTable(s.table, s.m.defaults, e.wait, e.reapAt), DroppedSlots(s.table, e.wait);
    if s.table[i].Slot() in gone {
      return None;
    }
    RetainAt(t, gone, i);
    p := Some(PosAfter(t, gone, i));
  }

  lemma TerminateAt(s: State, d: Desired, e: Env, i: nat) returns (p: Option<nat>)
    requires i < |s.table|
    ensures p.None? <==> s.table[i].Slot() in IdleUndesired(s.table, d)
    ensures p.Some? ==> p.value < |TerminateUndesired(s, d, e).table|
    ensures p.Some? ==> (TerminateUndesired(s, d, e).table[p.value]
                         == StopIf(s.table[i].Slot() !in d && s.table[i].Serving(), s.table[i], false, e.terminateAt))
    ensures p.Some? ==> p.value == PosAfter(StoppedUndesired(s.table, d, e.terminateAt), IdleUndesired(s.table, d), i)
  {
    var t, gone := StoppedUndesired(s.table, d, e.terminateAt), IdleUndesired(s.table, d);
    if s.table[i].Slot() in gone {
      return None;
    }
    RetainAt(t, gone, i);
    p := Some(PosAfter(t, gone, i));
  }

  /** The record is still in the table after the first half of a tick, and where. */
  function PlaceAfterReap(s: State, e: Env, i: nat): Option<nat>
    requires i < |s.table|
  {
    if s.table[i].Slot() in DroppedSlots(s.table, e.wait) then None
    else Some(PosAfter(ReapedTable(s.table, s.m.defaults, e.wait, e.reapAt), DroppedSlots(s.table, e.wait), i))
  }

  function PlaceAfterTerminate(s: State, d: Desired, e: Env, i: nat): Option<nat>
    requires i < |s.table|
  {
    if s.table[i].Slot() in IdleUndesired(s.table, d) then None
    else Some(PosAfter(StoppedUndesired(s.table, d, e.terminateAt), IdleUndesired(s.table, d), i))
  }

  /** Where a tick puts record `i`, if it keeps it. */
  function Place(hasher: Hasher, s: State, e: Env, i: nat): Option<nat>
    requires i < |s.table|
  {
    var s0 := ReverifyChecks(s, e);
    match PlaceAfterReap(s0, e, i)
    case None => None
    case Some(p) =>
      var s1 := Reap(s0, e);
      if p < |s1.table| then PlaceAfterTerminate(s1, DesiredIn(hasher, s1), e, p) else None
  }

  lemma FirstHalfAt(s: State, d: Desired, e: Env, i: nat) returns (p: Option<nat>, undesired: bool, blocked: bool, victim: bool)
    requires i < |s.table|
    ensures p == PlaceAfterTerminate(s, d, e, i)
    ensures p.Some? ==>
              var r1 := StopIf(undesired, s.table[i], false, e.terminateAt);
              var r2 := StopIf(blocked, r1, true, e.blockedAt);
              && p.value < |FirstHalf(s, d, e).table|
              && FirstHalf(s, d, e).table[p.value] == StopIf(victim, r2, false, e.rollAt)
              && (undesired ==> s.table[i].Serving())
              && (blocked ==> r1.Serving())
              && (victim ==> r2.phase != Terminating)
  {
    p := TerminateAt(s, d, e, i);
    undesired := s.table[i].Slot() !in d && s.table[i].Serving();
    if p.None? {
      return p, false, false, false;
    }
    var s1 := TerminateUndesired(s, d, e);
    var r1 := s1.table[p.value];
    blocked := CheckBlocked(s1.m, s1.checksOk, r1.app) && r1.Serving();
    var s2 := StopCheckBlocked(s1, e);
    var v := RollVictims(s2.m, s2.selected, d, s2.table);
    victim := IsVictim(v, s2.table, p.value);
    if victim {
      VictimNotTerminating(s2.m, d, s2.table, s2.table[p.value].app);
    }
  }

  lemma SecondHalfAt(hasher: Hasher, s: State, d: Desired, e: Env, p: nat) returns (spawned: bool, retired: bool)
    requires p < |s.table|
    ensures p < |SecondHalf(hasher, s, d, e).table|
    ensures spawned ==> s.m.Has(s.table[p].app) && !s.table[p].Running() && s.table[p].phase != Terminating
    ensures spawned ==> (s.table[p].backoffUntil.Some? ==> s.table[p].backoffUntil.value <= e.spawnAt)
    ensures var r := if spawned then SpawnOne(hasher, s.m.defaults, s.m.Lookup(s.table[p].app).value, s.table[p], e.spawn(p), Pid(s.tick, p))
                     else s.table[p];
            && (retired ==> r.phase != Terminating)
            && SecondHalf(hasher, s, d, e).table[p] == ProbeOne(s.m, StopIf(retired, r, false, e.retireAt), e.probeAt, e.probe(p))
  {
    var s1 := AddMissing(s, d, e);
    spawned := SpawnGate(s1.m, s1.checksOk, ReadyApps(s1.table), s.table[p], e.spawnAt);
    var s2 := SpawnReady(hasher, s1, e);
    retired := s.m.defaults.maxSurge > 0 && Retires(d, s2.table, s2.table[p]);
  }

  lemma MovesCompose(hasher: Hasher, m: Manifest, tick: nat, e: Env, r: Instance, p: nat, v: Verdict)
    requires var reaped := ReapOne(r, m.defaults, e.wait, e.reapAt);
             var r1 := StopIf(v.undesired, reaped, false, e.terminateAt);
             var r2 := StopIf(v.blocked, r1, true, e.blockedAt);
             && (v.undesired ==> reaped.Serving())
             && (v.blocked ==> r1.Serving())
             && (v.victim ==> r2.phase != Terminating)
    requires var r3 := ClearedRecord(m.defaults, e, r, v);
             var r4 := if v.spawned && m.Has(r3.app)
                       then SpawnOne(hasher, m.defaults, m.Lookup(r3.app).value, r3, e.spawn(p), Pid(tick, p)) else r3;
             && (v.spawned ==> m.Has(r3.app) && !r3.Running() && r3.phase != Terminating)
             && (v.spawned ==> (r3.backoffUntil.Some? ==> r3.backoffUntil.value <= e.spawnAt))
             && (v.retired ==> r4.phase != Terminating)
    ensures Lawful(hasher, m, tick, e, r, p, v)
  {
  }

  /**
   * The whole loop, seen from one record: a tick that keeps it performs a lawful sequence of
   * moves on it, whatever the rest of the table and the environment are.
   */
  lemma TickAt(hasher: Hasher, s: State, e: Env, i: nat) returns (v: Verdict)
    requires i < |s.table| && Place(hasher, s, e, i).Some?
    ensures var p := Place(hasher, s, e, i).value;
            && p < |Tick(hasher, s, e).table|
            && Lawful(hasher, s.m, s.tick, e, s.table[i], p, v)
            && Tick(hasher, s, e).table[p] == TickRecord(hasher, s.m, s.tick, e, s.table[i], p, v)
  {
    var s1, s2 := TickParts(hasher, s, e);
    var d1 := DesiredIn(hasher, s1);
    var p0 := ReapAt(ReverifyChecks(s, e), e, i);
    var p, undesired, blocked, victim := FirstHalfAt(s1, d1, e, p0.value);
    var spawned, retired := SecondHalfAt(hasher, s2, DesiredIn(hasher, s2), e, p.value);
    v := Verdict(undesired, blocked, victim, spawned, retired);
    MovesCompose(hasher, s.m, s.tick, e, s.table[i], p.value, v);
  }

  // ----- where a record comes from -----

  /** Every record a reap leaves comes from one before. */
  lemma ReapFrom(s: State, e: Env, p: nat) returns (i: nat)
    requires p < |Reap(s, e).table|
    ensures i < |s.table| && PlaceAfterReap(s, e, i) == Some(p)
    ensures Reap(s, e).table[p] == ReapOne(s.table[i], s.m.defaults, e.wait, e.reapAt)
  {
    i := RetainFrom(ReapedTable(s.table, s.m.defaults, e.wait, e.reapAt), DroppedSlots(s.table, e.wait), p);
  }

  lemma TerminateFrom(s: State, d: Desired, e: Env, p: nat) returns (i: nat)
    requires p < |TerminateUndesired(s, d, e).table|
    ensures i < |s.table| && PlaceAfterTerminate(s, d, e, i) == Some(p)
    ensures TerminateUndesired(s, d, e).table[p]
         == StopIf(s.table[i].Slot() !in d && s.table[i].Serving(), s.table[i], false, e.terminateAt)
  {
    i := RetainFrom(StoppedUndesired(s.table, d, e.terminateAt), IdleUndesired(s.table, d), p);
  }

  lemma FirstHalfLength(s: State, d: Desired, e: Env)
    ensures |FirstHalf(s, d, e).table| == |TerminateUndesired(s, d, e).table|
  {
  }

  /** A record that a tick has not added is one it found, at the place it found for it. */
  lemma PlaceFrom(hasher: Hasher, s: State, e: Env, p: nat) returns (i: nat)
    requires var s1 := Reap(ReverifyChecks(s, e), e); p < |FirstHalf(s1, DesiredIn(hasher, s1), e).table|
    ensures i < |s.table| && Place(hasher, s, e, i) == Some(p)
  {
    var s0 := ReverifyChecks(s, e);
    var s1 := Reap(s0, e);
    FirstHalfLength(s1, DesiredIn(hasher, s1), e);
    var q := TerminateFrom(s1, DesiredIn(hasher, s1), e, p);
    i := ReapFrom(s0, e, q);
  }
}
