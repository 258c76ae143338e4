/** How many records an app has in the tick after an edit. */
module Edits {
  import opened Prelude
  import opened Manifests
  import opened KeyOrder
  import opened Instances
  import opened Stages
  import opened Fates
  import opened Steady

  // ----- one stage -----

  /** The desired slots of an app that no record of the desired hash covers. */
  function Uncovered(d: Desired, t: Table, app: string): set<Key> {
    set k | k in d && k.app == app && !HasHash(t, k, d[k].hash)
  }

  lemma {:induction false} CountConcat(t: Table, more: Table, app: string)
    ensures AppCount(t + more, app) == AppCount(t, app) + AppCount(more, app)
  {
    if more == [] {
      assert t + more == t;
    } else {
      CountConcat(t, more[..|more| - 1], app);
      assert (t + more)[..|t + more| - 1] == t + more[..|more| - 1];
    }
  }

  function Among(keys: seq<Key>, u: set<Key>): set<Key> {
    set k | k in keys && k in u
  }

  lemma OneMoreAmong(keys: seq<Key>, u: set<Key>)
    requires keys != [] && NoDup(keys)
    ensures var front, k := keys[..|keys| - 1], keys[|keys| - 1];
            NoDup(front) && |Among(keys, u)| == |Among(front, u)| + if k in u then 1 else 0
  {
    var front, k := keys[..|keys| - 1], keys[|keys| - 1];
    assert keys == front + [k] && k !in front;
    assert Among(keys, u) == if k in u then Among(front, u) + {k} else Among(front, u);
  }

  lemma CountOneMore(t: Table, r: Instance, app: string)
    ensures AppCount(t + [r], app) == AppCount(t, app) + if r.app == app then 1 else 0
  {
    assert (t + [r])[..|t + [r]| - 1] == t;
  }

  lemma {:induction false} MissingCount(d: Desired, t: Table, keys: seq<Key>, now: nat, app: string)
    requires NoDup(keys) && forall k :: k in keys ==> k in d
    ensures AppCount(Missing(d, t, keys, now), app) == |Among(keys, Uncovered(d, t, app))|
  {
    if keys == [] {
      assert Among(keys, Uncovered(d, t, app)) == {};
    } else {
      var front, k := keys[..|keys| - 1], keys[|keys| - 1];
      OneMoreAmong(keys, Uncovered(d, t, app));
      MissingCount(d, t, front, now, app);
      CountOneMore(Missing(d, t, front, now), NewFor(d, k, now), app);
    }
  }

  /** One stage adds a record for every uncovered slot of an app at once, whatever `max_surge` is. */
  lemma AddsEveryUncovered(s: State, d: Desired, e: Env, app: string)
    ensures AppCount(AddMissing(s, d, e).table, app) == AppCount(s.table, app) + |Uncovered(d, s.table, app)|
  {
    InKeyOrderSorts(d.Keys);
    var keys := InKeyOrder(d.Keys);
    MissingCount(d, s.table, keys, e.spawnAt, app);
    CountConcat(s.table, Missing(d, s.table, keys, e.spawnAt), app);
    assert Among(keys, Uncovered(d, s.table, app)) == Uncovered(d, s.table, app);
  }

  // ----- counting through the stages -----

  /** The same records in the same places, as far as slots go. */
  lemma {:induction false} CountSameSlots(t: Table, u: Table, app: string)
    requires SameSlots(t, u)
    ensures AppCount(t, app) == AppCount(u, app)
  {
    if t != [] {
      assert t[|t| - 1].Slot() == u[|u| - 1].Slot();
      CountSameSlots(t[..|t| - 1], u[..|u| - 1], app);
    }
  }

  lemma {:induction false} CountRetained(t: Table, u: Table, gone: set<Key>, app: string)
    requires SameSlots(t, u)
    ensures AppCount(Retain(t, gone), app) == AppCount(Retain(u, gone), app)
  {
    if t != [] {
      var a, b := t[|t| - 1], u[|u| - 1];
      assert a.Slot() == b.Slot();
      CountRetained(t[..|t| - 1], u[..|u| - 1], gone, app);
      CountOneMore(Retain(t[..|t| - 1], gone), a, app);
      CountOneMore(Retain(u[..|u| - 1], gone), b, app);
    }
  }

  lemma FirstHalfCount(s: State, d: Desired, e: Env, app: string)
    ensures AppCount(FirstHalf(s, d, e).table, app) == AppCount(Retain(s.table, IdleUndesired(s.table, d)), app)
  {
    var t, gone := StoppedUndesired(s.table, d, e.terminateAt), IdleUndesired(s.table, d);
    CountRetained(t, s.table, gone, app);
    var s1 := TerminateUndesired(s, d, e);
    var s2 := StopCheckBlocked(s1, e);
    CountSameSlots(s1.table, s2.table, app);
    CountSameSlots(s2.table, RollStale(s2, d, e).table, app);
  }

  lemma SecondHalfCount(hasher: Hasher, s: State, d: Desired, e: Env, app: string)
    ensures AppCount(SecondHalf(hasher, s, d, e).table, app) == AppCount(s.table, app) + |Uncovered(d, s.table, app)|
  {
    AddsEveryUncovered(s, d, e, app);
    SecondHalfSlots(hasher, s, d, e);
    var t, s3 := AddMissing(s, d, e).table, RetireStaleSurplus(SpawnMissing(hasher, s, d, e), d, e);
    CountSameSlots(t, s3.table, app);
    ProbeSameSlots(s3, e);
    CountSameSlots(s3.table, Probe(s3, e).table, app);
  }

  lemma ProbeSameSlots(s: State, e: Env)
    ensures SameSlots(s.table, Probe(s, e).table)
  {
    forall i | 0 <= i < |s.table| ensures ProbeOne(s.m, s.table[i], e.probeAt, e.probe(i)).Slot() == s.table[i].Slot() {
      ProbeKeeps(s.m, s.table[i], e.probeAt, e.probe(i));
    }
  }

  // ----- the edit -----

  /** The manifest and selection have been replaced, by an edit of any kind. */
  function Edited(s: State, m: Manifest, selected: set<string>): State {
    s.(m := m, selected := selected)
  }

  /** The slots of an app that `d'` asks for and `d` did not, or not with that hash. */
  function Changed(d: Desired, d': Desired, app: string): set<Key> {
    set k | k in d' && k.app == app && (k !in d || d'[k].hash != d[k].hash)
  }

  /** What the slots ask for once the tick has rolled. */
  ghost function WantsAfterRoll(hasher: Hasher, s: State, e: Env): Desired {
    DesiredIn(hasher, Rolled(hasher, Reap(ReverifyChecks(s, e), e), e))
  }

  /** The records of an app that outlive the termination pass: all but the idle ones of slots no longer desired. */
  ghost function Remaining(hasher: Hasher, s: State, e: Env, app: string): nat {
    var reaped := ReapedTable(s.table, s.m.defaults, e.wait, e.reapAt);
    AppCount(Retain(s.table, IdleUndesired(reaped, DesiredIn(hasher, s))), app)
  }

  /** From one current record per slot, what covers a slot is the hash it had. */
  lemma SteadyHashes(d: Desired, t: Table, k: Key, hash: nat)
    requires AllCurrent(d, t) && Fills(d, t)
    ensures HasHash(t, k, hash) <==> k in d && d[k].hash == hash
  {
    if k in d {
      CurrentHasHash(d, t, k);
    }
    forall i | 0 <= i < |t| ensures t[i].Slot() in d && d[t[i].Slot()].hash == t[i].specHash {
      assert Current(d, t[i]);
    }
  }

  lemma NothingDropped(d: Desired, t: Table, e: Env)
    requires AllCurrent(d, t)
    ensures DroppedSlots(t, e.wait) == {}
  {
    forall i | 0 <= i < |t| ensures !ExitDrops(t[i], e.wait) {
      assert Current(d, t[i]);
    }
  }

  /** After the roll, as before the edit, a desired slot is covered by the hash it had. */
  lemma CoveredAsBefore(hasher: Hasher, s: State, m: Manifest, selected: set<string>, e: Env, k: Key, hash: nat)
    requires IsSteady(hasher, s) && k in DesiredIn(hasher, Edited(s, m, selected))
    ensures var d, s1 := DesiredIn(hasher, s), Reap(ReverifyChecks(Edited(s, m, selected), e), e);
            HasHash(Rolled(hasher, s1, e).table, k, hash) <==> k in d && d[k].hash == hash
  {
    var d, s0 := DesiredIn(hasher, s), ReverifyChecks(Edited(s, m, selected), e);
    ReapKeepsWants(hasher, Edited(s, m, selected), e);
    NothingDropped(d, s.table, e);
    FirstHalfHashes(Reap(s0, e), DesiredIn(hasher, Reap(s0, e)), e, k, hash);
    ReapHashes(s0, e, k, hash);
    SteadyHashes(d, s.table, k, hash);
  }

  lemma UncoveredIsChanged(d: Desired, d2: Desired, t: Table, app: string)
    requires forall k :: k in d2 ==> (HasHash(t, k, d2[k].hash) <==> k in d && d[k].hash == d2[k].hash)
    ensures Uncovered(d2, t, app) == Changed(d, d2, app)
  {
  }

  lemma EditUncovers(hasher: Hasher, s: State, m: Manifest, selected: set<string>, e: Env, app: string)
    requires IsSteady(hasher, s)
    ensures var s' := Edited(s, m, selected);
            var d2 := WantsAfterRoll(hasher, s', e);
            Uncovered(d2, Rolled(hasher, Reap(ReverifyChecks(s', e), e), e).table, app) == Changed(DesiredIn(hasher, s), d2, app)
  {
    var s', d := Edited(s, m, selected), DesiredIn(hasher, s);
    var d2 := WantsAfterRoll(hasher, s', e);
    var t := Rolled(hasher, Reap(ReverifyChecks(s', e), e), e).table;
    WantsSameKeys(hasher, s', e);
    forall k | k in d2 ensures HasHash(t, k, d2[k].hash) <==> k in d && d[k].hash == d2[k].hash {
      CoveredAsBefore(hasher, s, m, selected, e, k, d2[k].hash);
    }
    UncoveredIsChanged(d, d2, t, app);
  }

  lemma SameSlotsAfterRoll(hasher: Hasher, s: State, e: Env)
    ensures DesiredIn(hasher, Rolled(hasher, s, e)).Keys == DesiredIn(hasher, s).Keys
  {
    var s' := Rolled(hasher, s, e);
    FirstHalfChanges(s, DesiredIn(hasher, s), e);
    DesiredSlotsAre(hasher, s.m, s.selected, s.ports);
    DesiredSlotsAre(hasher, s'.m, s'.selected, s'.ports);
  }

  lemma RolledCount(hasher: Hasher, s: State, was: Table, e: Env, app: string)
    requires SameSlots(s.table, was)
    ensures AppCount(Rolled(hasher, s, e).table, app) == AppCount(Retain(was, IdleUndesired(s.table, DesiredIn(hasher, s))), app)
  {
    FirstHalfCount(s, DesiredIn(hasher, s), e, app);
    CountRetained(s.table, was, IdleUndesired(s.table, DesiredIn(hasher, s)), app);
  }

  lemma EditRemains(hasher: Hasher, s: State, m: Manifest, selected: set<string>, e: Env, app: string)
    requires IsSteady(hasher, s)
    ensures var s' := Edited(s, m, selected);
            AppCount(Rolled(hasher, Reap(ReverifyChecks(s', e), e), e).table, app) == Remaining(hasher, s', e, app)
  {
    var s' := Edited(s, m, selected);
    var s0 := ReverifyChecks(s', e);
    ReapCurrent(s0, DesiredIn(hasher, s), e);
    ReapKeepsWants(hasher, s', e);
    RolledCount(hasher, Reap(s0, e), s.table, e, app);
  }

  /**
   * The tick after any edit of a fleet with one current record per slot: an app ends it with
   * the records that remain and one for every slot that is new or has changed its hash.
   */
  lemma EditCount(hasher: Hasher, s: State, m: Manifest, selected: set<string>, e: Env, app: string)
    requires IsSteady(hasher, s)
    ensures var s' := Edited(s, m, selected);
            AppCount(Tick(hasher, s', e).table, app)
            == Remaining(hasher, s', e, app) + |Changed(DesiredIn(hasher, s), WantsAfterRoll(hasher, s', e), app)|
  {
    var s' := Edited(s, m, selected);
    var s1, s2 := TickParts(hasher, s', e);
    EditRemains(hasher, s, m, selected, e, app);
    EditUncovers(hasher, s, m, selected, e, app);
    SecondHalfCount(hasher, s2, DesiredIn(hasher, s2), e, app);
  }

  // ----- the condition, on the edit alone -----

  /** A surge port does not happen to give a changed slot its old hash back. */
  ghost predicate MovesKeepChanges(d: Desired, d': Desired, rolled: Desired) {
    forall k :: k in d && k in d' && k in rolled && d'[k].hash != d[k].hash ==> rolled[k].hash != d[k].hash
  }

  lemma UnchangedStays(hasher: Hasher, s: State, m: Manifest, selected: set<string>, e: Env, k: Key)
    requires IsSteady(hasher, s) && k in DesiredIn(hasher, s) && k in DesiredIn(hasher, Edited(s, m, selected))
    requires DesiredIn(hasher, Edited(s, m, selected))[k].hash == DesiredIn(hasher, s)[k].hash
    ensures var d2 := WantsAfterRoll(hasher, Edited(s, m, selected), e);
            k in d2 && d2[k].hash == DesiredIn(hasher, s)[k].hash
  {
    var s', d := Edited(s, m, selected), DesiredIn(hasher, s);
    var s0 := ReverifyChecks(s', e);
    ReapCurrent(s0, d, e);
    ReapKeepsWants(hasher, s', e);
    var i := SteadyRecord(d, Reap(s0, e).table, s.table, k);
    FirstHalfSameWant(hasher, Reap(s0, e), e, i);
  }

  lemma SteadyRecord(d: Desired, t: Table, was: Table, k: Key) returns (i: nat)
    requires AllCurrent(d, t) && SameSlots(was, t) && Fills(d, was) && k in d
    ensures i < |t| && t[i].Slot() == k && t[i].specHash == d[k].hash
  {
    assert Occupied(was, k);
    i :| i < |was| && was[i].Slot() == k;
    assert Current(d, t[i]);
  }

  lemma ChangedSame(d: Desired, d': Desired, d2: Desired, app: string)
    requires d2.Keys == d'.Keys && MovesKeepChanges(d, d', d2)
    requires forall k :: k in d && k in d' && d'[k].hash == d[k].hash ==> k in d2 && d2[k].hash == d[k].hash
    ensures Changed(d, d2, app) == Changed(d, d', app)
  {
    assert forall k :: k in d2 <==> k in d2.Keys;
    assert forall k :: k in d' <==> k in d'.Keys;
  }

  lemma WantsSameKeys(hasher: Hasher, s: State, e: Env)
    ensures WantsAfterRoll(hasher, s, e).Keys == DesiredIn(hasher, s).Keys
  {
    ReapKeepsWants(hasher, s, e);
    SameSlotsAfterRoll(hasher, Reap(ReverifyChecks(s, e), e), e);
  }

  lemma ChangedBeforeRoll(hasher: Hasher, s: State, m: Manifest, selected: set<string>, e: Env, app: string)
    requires IsSteady(hasher, s)
    requires MovesKeepChanges(DesiredIn(hasher, s), DesiredIn(hasher, Edited(s, m, selected)), WantsAfterRoll(hasher, Edited(s, m, selected), e))
    ensures var d, s' := DesiredIn(hasher, s), Edited(s, m, selected);
            Changed(d, WantsAfterRoll(hasher, s', e), app) == Changed(d, DesiredIn(hasher, s'), app)
  {
    var d, s' := DesiredIn(hasher, s), Edited(s, m, selected);
    var d' := DesiredIn(hasher, s');
    WantsSameKeys(hasher, s', e);
    forall k | k in d && k in d' && d'[k].hash == d[k].hash
      ensures k in WantsAfterRoll(hasher, s', e) && WantsAfterRoll(hasher, s', e)[k].hash == d[k].hash
    {
      UnchangedStays(hasher, s, m, selected, e, k);
    }
    ChangedSame(d, d', WantsAfterRoll(hasher, s', e), app);
  }

  /** Without surge the roll moves no slot at all. */
  lemma NoSurgeNoMoves(hasher: Hasher, s: State, e: Env)
    requires s.m.defaults.maxSurge == 0
    ensures WantsAfterRoll(hasher, s, e) == DesiredIn(hasher, s)
  {
    var s1 := Reap(ReverifyChecks(s, e), e);
    var d := DesiredIn(hasher, s1);
    ReapKeepsWants(hasher, s, e);
    var s2 := StopCheckBlocked(TerminateUndesired(s1, d, e), e);
    NoMoves(s2, d, e);
  }

  lemma NoMoves(s: State, d: Desired, e: Env)
    requires s.m.defaults.maxSurge == 0
    ensures RollStale(s, d, e).ports == s.ports
  {
    assert MovedSlots(SurgeMoves(s.m, s.selected, d, s.table), s.selected) == {};
    assert s.ports + MovedPorts(SurgeMoves(s.m, s.selected, d, s.table), s.selected) == s.ports;
  }

  /**
   * Whatever the edit, the documented bound of `replicas + max_surge` records holds over the
   * tick exactly when the records that remain, and the slots that are new or ask for another
   * hash after the roll, fit under it together. Those are the slots that are new or change their
   * hash in the edit, unless a surge port gives one of them its old hash back.
   */
  lemma EditKeepsBoundIff(hasher: Hasher, s: State, m: Manifest, selected: set<string>, e: Env, app: string)
    requires IsSteady(hasher, s)
    ensures var d, s', bound := DesiredIn(hasher, s), Edited(s, m, selected), Replicas(m, app) + m.defaults.maxSurge;
            AppCount(Tick(hasher, s', e).table, app) <= bound
            <==> Remaining(hasher, s', e, app) + |Changed(d, WantsAfterRoll(hasher, s', e), app)| <= bound
    ensures var d, s' := DesiredIn(hasher, s), Edited(s, m, selected);
            MovesKeepChanges(d, DesiredIn(hasher, s'), WantsAfterRoll(hasher, s', e)) ==>
              Changed(d, WantsAfterRoll(hasher, s', e), app) == Changed(d, DesiredIn(hasher, s'), app)
  {
    EditCount(hasher, s, m, selected, e, app);
    if MovesKeepChanges(DesiredIn(hasher, s), DesiredIn(hasher, Edited(s, m, selected)), WantsAfterRoll(hasher, Edited(s, m, selected), e)) {
      ChangedBeforeRoll(hasher, s, m, selected, e, app);
    }
  }

  // ----- edits that keep an app's slots -----

  function SlotsOf(d: Desired, app: string): set<Key> {
    set k | k in d && k.app == app
  }

  function SlotsIn(t: Table, app: string): set<Key> {
    set i | 0 <= i < |t| && t[i].app == app :: t[i].Slot()
  }

  lemma {:induction false} CountDistinct(t: Table, app: string)
    requires forall i: nat, j: nat :: SlotsDiffer(t, i, j)
    ensures AppCount(t, app) == |SlotsIn(t, app)|
  {
    if t != [] {
      var front, n := t[..|t| - 1], |t| - 1;
      forall i: nat, j: nat ensures SlotsDiffer(front, i, j) {
        assert SlotsDiffer(t, i, j);
      }
      CountDistinct(front, app);
      forall i | 0 <= i < n ensures t[i].Slot() != t[n].Slot() {
        assert SlotsDiffer(t, i, n);
      }
      assert SlotsIn(t, app) == SlotsIn(front, app) + if t[n].app == app then {t[n].Slot()} else {};
    }
  }

  lemma SteadyCount(d: Desired, t: Table, app: string)
    requires AllCurrent(d, t) && Fills(d, t)
    ensures AppCount(t, app) == |SlotsOf(d, app)|
  {
    CountDistinct(t, app);
    forall k | k in SlotsOf(d, app) ensures k in SlotsIn(t, app) {
      assert Occupied(t, k);
    }
    forall i | 0 <= i < |t| ensures t[i].Slot() in d {
      assert Current(d, t[i]);
    }
    assert SlotsIn(t, app) == SlotsOf(d, app);
  }

  lemma {:induction false} CountKeptWhole(t: Table, gone: set<Key>, app: string)
    requires forall i :: 0 <= i < |t| && t[i].app == app ==> t[i].Slot() !in gone
    ensures AppCount(Retain(t, gone), app) == AppCount(t, app)
  {
    if t != [] {
      CountKeptWhole(t[..|t| - 1], gone, app);
      CountOneMore(Retain(t[..|t| - 1], gone), t[|t| - 1], app);
    }
  }

  lemma {:induction false} ReplicaKeys(app: string, n: nat)
    ensures |set i: nat | i < n :: Key(app, i)| == n
  {
    if n == 0 {
      assert (set i: nat | i < n :: Key(app, i)) == {};
    } else {
      ReplicaKeys(app, n - 1);
      assert (set i: nat | i < n :: Key(app, i)) == (set i: nat | i < n - 1 :: Key(app, i)) + {Key(app, n - 1)};
    }
  }

  lemma SlotsOfApp(hasher: Hasher, s: State, app: string)
    requires app in s.selected
    ensures |SlotsOf(DesiredIn(hasher, s), app)| == Replicas(s.m, app)
  {
    DesiredSlotsAre(hasher, s.m, s.selected, s.ports);
    var n := Replicas(s.m, app);
    ReplicaKeys(app, n);
    var keys := set i: nat | i < n :: Key(app, i);
    forall k ensures k in SlotsOf(DesiredIn(hasher, s), app) <==> k in keys {
      assert k.app == app && k.replica < n ==> k == Key(app, k.replica);
    }
    assert SlotsOf(DesiredIn(hasher, s), app) == keys;
  }

  /**
   * An edit that leaves an app its replica count: after the tick the app has one more record
   * for every slot that asks for another hash after the roll, so the bound is kept exactly when
   * at most `max_surge` of its slots do.
   */
  lemma EditInPlace(hasher: Hasher, s: State, m: Manifest, selected: set<string>, e: Env, app: string)
    requires IsSteady(hasher, s) && app in s.selected && app in selected && Replicas(m, app) == Replicas(s.m, app)
    ensures var s' := Edited(s, m, selected);
            var changed := |Changed(DesiredIn(hasher, s), WantsAfterRoll(hasher, s', e), app)|;
            && AppCount(Tick(hasher, s', e).table, app) == Replicas(m, app) + changed
            && (AppCount(Tick(hasher, s', e).table, app) <= Replicas(m, app) + m.defaults.maxSurge <==> changed <= m.defaults.maxSurge)
  {
    EditCount(hasher, s, m, selected, e, app);
    AllRemain(hasher, s, m, selected, e, app);
  }

  lemma AllRemain(hasher: Hasher, s: State, m: Manifest, selected: set<string>, e: Env, app: string)
    requires IsSteady(hasher, s) && app in s.selected && app in selected && Replicas(m, app) == Replicas(s.m, app)
    ensures Remaining(hasher, Edited(s, m, selected), e, app) == Replicas(m, app)
  {
    var d, s' := DesiredIn(hasher, s), Edited(s, m, selected);
    var d' := DesiredIn(hasher, s');
    DesiredSlotsAre(hasher, s.m, s.selected, s.ports);
    DesiredSlotsAre(hasher, m, selected, s.ports);
    forall i | 0 <= i < |s.table| && s.table[i].app == app ensures s.table[i].Slot() in d' {
      assert Current(d, s.table[i]);
    }
    CountKeptWhole(s.table, IdleUndesired(ReapedTable(s.table, m.defaults, e.wait, e.reapAt), d'), app);
    SteadyCount(d, s.table, app);
    SlotsOfApp(hasher, s, app);
  }
}
