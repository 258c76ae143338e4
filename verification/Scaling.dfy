/** Changing only replica counts disturbs no instance that stays desired. */
module Scaling {
  import opened Prelude
  import opened Manifests
  import opened KeyOrder
  import opened Instances
  import opened Stages
  import opened Graph
  import opened Selection
  import opened Tracking
  import opened Runs
  import opened Steady
  import opened Fates

  /** The same app but for its replica count. */
  predicate Rescaled(a: App, b: App) {
    b == a.(replicas := b.replicas)
  }

  /** The manifests differ only in replica counts. */
  ghost predicate OnlyScales(m: Manifest, m': Manifest) {
    && m'.defaults == m.defaults && m'.checks == m.checks
    && |m'.apps| == |m.apps|
    && forall i :: 0 <= i < |m.apps| ==> Rescaled(m.apps[i], m'.apps[i])
  }

  lemma {:induction false} LookupRescaled(apps: seq<App>, apps': seq<App>, name: string)
    requires |apps'| == |apps| && forall i :: 0 <= i < |apps| ==> Rescaled(apps[i], apps'[i])
    ensures LookupIn(apps, name).Some? <==> LookupIn(apps', name).Some?
    ensures LookupIn(apps, name).Some? ==> Rescaled(LookupIn(apps, name).value, LookupIn(apps', name).value)
  {
    if apps != [] {
      assert Rescaled(apps[0], apps'[0]);
      LookupRescaled(apps[1..], apps'[1..], name);
    }
  }

  /** The replica count is not part of an instance's fingerprint. */
  lemma SameHash(hasher: Hasher, d: Defaults, a: App, b: App, replica: nat, port: nat)
    requires HashesFingerprint(hasher) && Rescaled(a, b)
    ensures hasher(d, a, replica, port) == hasher(d, b, replica, port)
  {
    assert FingerprintOf(d, a, replica, port) == FingerprintOf(d, b, replica, port);
  }

  /** Slots desired before and after keep their port and hash. */
  lemma SurvivingSlotsUnchanged(hasher: Hasher, m: Manifest, m': Manifest, selected: set<string>, ports: map<Key, nat>, k: Key)
    requires HashesFingerprint(hasher) && OnlyScales(m, m')
    requires IsSlot(m, selected, k) && IsSlot(m', selected, k)
    ensures var d, d' := DesiredSlots(hasher, m, selected, ports), DesiredSlots(hasher, m', selected, ports);
            k in d && k in d' && d'[k] == d[k]
  {
    LookupRescaled(m.apps, m'.apps, k.app);
    DesiredSlotsAre(hasher, m, selected, ports);
    DesiredSlotsAre(hasher, m', selected, ports);
    SameHash(hasher, m.defaults, m.Lookup(k.app).value, m'.Lookup(k.app).value, k.replica, SlotPort(m, ports, k));
  }

  /** What is up to date before is up to date after, if its slot is still desired. */
  lemma SurvivorUpToDate(hasher: Hasher, s: State, m': Manifest, r: Instance)
    requires HashesFingerprint(hasher) && OnlyScales(s.m, m') && UpToDate(DesiredIn(hasher, s), r)
    ensures r.Slot() in DesiredIn(hasher, s.(m := m')) <==> IsSlot(m', s.selected, r.Slot())
    ensures IsSlot(m', s.selected, r.Slot()) ==> UpToDate(DesiredIn(hasher, s.(m := m')), r)
  {
    DesiredSlotsAre(hasher, s.m, s.selected, s.ports);
    DesiredSlotsAre(hasher, m', s.selected, s.ports);
    if IsSlot(m', s.selected, r.Slot()) {
      SurvivingSlotsUnchanged(hasher, s.m, m', s.selected, s.ports, r.Slot());
    }
  }

  // ----- what is stopped -----

  lemma SurvivorFate(hasher: Hasher, s: State, e: Env, i: nat)
    requires i < |s.table| && s.table[i].Running() && UpToDate(DesiredIn(hasher, s), s.table[i]) && !CheckBlocked(s.m, s.checksOk, s.table[i].app)
    ensures s.table[i] in AfterReap(hasher, s, e).table
  {
    FateAfterReap(hasher, s, e, i);
    assert PlaceAfterTerminate(s, DesiredIn(hasher, s), e, i).Some?;
  }

  /**
   * A reload that changes only replica counts, from any table, mid-roll, with surge ports or
   * with earlier stops under way: every running record that is up to date, and whose slot is
   * still desired and not blocked by a check, comes out of the stop, roll, spawn and retire
   * stages exactly as it went in.
   */
  lemma ScalingIsNonDisruptive(hasher: Hasher, s: State, m': Manifest, e: Env, r: Instance)
    requires HashesFingerprint(hasher) && OnlyScales(s.m, m')
    requires r in s.table && r.Running() && UpToDate(DesiredIn(hasher, s), r) && IsSlot(m', s.selected, r.Slot())
    requires !CheckBlocked(m', s.checksOk, r.app)
    ensures r in AfterReap(hasher, s.(m := m'), e).table
  {
    var i :| 0 <= i < |s.table| && s.table[i] == r;
    SurvivorUpToDate(hasher, s, m', r);
    SurvivorFate(hasher, s.(m := m'), e, i);
  }

  /**
   * The whole tick after such a reload, on each serving record that is up to date and has not
   * exited: it reaches the probes stopped for good if its slot is gone, stopped for respawn if
   * a failed check blocks it, and untouched otherwise, unless its slot is cleared away.
   */
  lemma ScalingStopsExactly(hasher: Hasher, s: State, m': Manifest, e: Env, i: nat)
    requires HashesFingerprint(hasher) && OnlyScales(s.m, m')
    requires i < |s.table| && s.table[i].Serving() && UpToDate(DesiredIn(hasher, s), s.table[i])
    requires !e.wait(s.table[i].handle.value.pid).Exited?
    ensures var s', r := s.(m := m'), s.table[i];
            var p := Place(hasher, s', e, i);
            var ok := ReverifyChecks(s', e).checksOk;
            && (p.None? <==> exists j :: Uproots(s', e, i, j))
            && (p.Some? ==>
                  At(BeforeProbe(hasher, s', e).table, p.value,
                     if !IsSlot(m', s.selected, r.Slot()) then BeginStop(r, false, e.terminateAt)
                     else if CheckBlocked(m', ok, r.app) then BeginStop(r, true, e.blockedAt)
                     else r))
  {
    var s' := s.(m := m');
    SurvivorUpToDate(hasher, s, m', s.table[i]);
    LiveProcessLeavesIff(hasher, s', e, i);
    FateOfTick(hasher, s', e, i);
  }

  /** So over the whole tick a survivor whose siblings do not exit after a final stop reaches the probes untouched. */
  lemma ScalingTickSparesSurvivors(hasher: Hasher, s: State, m': Manifest, e: Env, i: nat)
    requires HashesFingerprint(hasher) && OnlyScales(s.m, m')
    requires i < |s.table| && s.table[i].Serving() && UpToDate(DesiredIn(hasher, s), s.table[i])
    requires !e.wait(s.table[i].handle.value.pid).Exited?
    requires IsSlot(m', s.selected, s.table[i].Slot()) && s.table[i].Slot() !in DroppedSlots(s.table, e.wait)
    requires !CheckBlocked(m', ReverifyChecks(s.(m := m'), e).checksOk, s.table[i].app)
    ensures s.table[i] in BeforeProbe(hasher, s.(m := m'), e).table
  {
    ScalingStopsExactly(hasher, s, m', e, i);
    DroppedIff(s.table, e.wait, s.table[i].Slot());
    assert forall j :: !Uproots(s.(m := m'), e, i, j);
  }

  // ----- what is added -----

  /** The record is stopped for good. */
  predicate Final(r: Instance) {
    r.phase == Terminating && !r.restartAfterStop
  }

  /** Every slot has a record of its hash, and every record is up to date or on its way out. */
  ghost predicate Settled(d: Desired, t: Table) {
    && (forall k :: k in d ==> HasHash(t, k, d[k].hash))
    && (forall i :: 0 <= i < |t| ==> UpToDate(d, t[i]) || Final(t[i]))
  }

  /** No Ready record of the table is stale for `d`. */
  ghost predicate ReadyCurrent(d: Desired, t: Table) {
    forall i :: 0 <= i < |t| && t[i].phase == Ready ==> !Stale(d, t[i])
  }

  lemma RetainReadyCurrent(d: Desired, t: Table, gone: set<Key>)
    requires ReadyCurrent(d, t)
    ensures ReadyCurrent(d, Retain(t, gone))
  {
    forall p | 0 <= p < |Retain(t, gone)| && Retain(t, gone)[p].phase == Ready ensures !Stale(d, Retain(t, gone)[p]) {
      var i := RetainFrom(t, gone, p);
    }
  }

  lemma ReapReadyCurrent(s: State, d: Desired, e: Env)
    requires ReadyCurrent(d, s.table)
    ensures ReadyCurrent(d, Reap(s, e).table)
  {
    var t := ReapedTable(s.table, s.m.defaults, e.wait, e.reapAt);
    assert ReadyCurrent(d, t);
    RetainReadyCurrent(d, t, DroppedSlots(s.table, e.wait));
  }

  lemma RollMovesNothing(hasher: Hasher, s: State, d: Desired, e: Env)
    requires ReadyCurrent(d, s.table)
    ensures RollStale(s, d, e).ports == s.ports
  {
    forall app ensures SurgeMove(s.m, d, s.table, app).None? {
      assert FirstStaleReady(d, s.table, app).None?;
    }
    assert MovedSlots(SurgeMoves(s.m, s.selected, d, s.table), s.selected) == {};
    assert s.ports + MovedPorts(SurgeMoves(s.m, s.selected, d, s.table), s.selected) == s.ports;
  }

  lemma RolledWantsTheSame(hasher: Hasher, s: State, e: Env)
    requires ReadyCurrent(DesiredIn(hasher, s), s.table)
    ensures DesiredIn(hasher, Rolled(hasher, s, e)) == DesiredIn(hasher, s)
  {
    var d := DesiredIn(hasher, s);
    var t := StoppedUndesired(s.table, d, e.terminateAt);
    assert ReadyCurrent(d, t);
    RetainReadyCurrent(d, t, IdleUndesired(s.table, d));
    var s2 := StopCheckBlocked(TerminateUndesired(s, d, e), e);
    assert ReadyCurrent(d, s2.table);
    RollMovesNothing(hasher, s2, d, e);
  }

  lemma SettledReadyCurrent(hasher: Hasher, s: State, m': Manifest)
    requires HashesFingerprint(hasher) && OnlyScales(s.m, m') && Settled(DesiredIn(hasher, s), s.table)
    ensures ReadyCurrent(DesiredIn(hasher, s.(m := m')), s.table)
  {
    forall i | 0 <= i < |s.table| && s.table[i].phase == Ready ensures !Stale(DesiredIn(hasher, s.(m := m')), s.table[i]) {
      assert UpToDate(DesiredIn(hasher, s), s.table[i]);
      SurvivorUpToDate(hasher, s, m', s.table[i]);
    }
  }

  /**
   * The whole tick after such a reload of a settled fleet, surge ports and earlier stops
   * included, adds records exactly for the slots that are new, unless a leftover of the slot
   * has their hash, and for those just dropped.
   */
  lemma ScalingAddsExactly(hasher: Hasher, s: State, m': Manifest, e: Env, k: Key)
    requires HashesFingerprint(hasher) && OnlyScales(s.m, m') && Settled(DesiredIn(hasher, s), s.table)
    ensures var d, d' := DesiredIn(hasher, s), DesiredIn(hasher, s.(m := m'));
            Adds(hasher, s.(m := m'), e, k) <==>
              k in d' && (k in DroppedSlots(s.table, e.wait) || (k !in d && !HasHash(s.table, k, d'[k].hash)))
  {
    var s' := s.(m := m');
    var d, d' := DesiredIn(hasher, s), DesiredIn(hasher, s');
    SettledReadyCurrent(hasher, s, m');
    ReapReadyCurrent(ReverifyChecks(s', e), d', e);
    ReapKeepsWants(hasher, s', e);
    RolledWantsTheSame(hasher, Reap(ReverifyChecks(s', e), e), e);
    TickAddsIff(hasher, s', e, k);
    SurvivingWant(hasher, s, m', k);
  }

  lemma SurvivingWant(hasher: Hasher, s: State, m': Manifest, k: Key)
    requires HashesFingerprint(hasher) && OnlyScales(s.m, m')
    ensures var d, d' := DesiredIn(hasher, s), DesiredIn(hasher, s.(m := m'));
            k in d && k in d' ==> d'[k] == d[k]
  {
    DesiredSlotsAre(hasher, s.m, s.selected, s.ports);
    DesiredSlotsAre(hasher, m', s.selected, s.ports);
    if k in DesiredIn(hasher, s) && k in DesiredIn(hasher, s.(m := m')) {
      SurvivingSlotsUnchanged(hasher, s.m, m', s.selected, s.ports, k);
    }
  }

  /** From one current record per slot, that is exactly the new slots. */
  lemma ScalingAddsTheNewSlots(hasher: Hasher, s: State, m': Manifest, e: Env, k: Key)
    requires HashesFingerprint(hasher) && OnlyScales(s.m, m') && IsSteady(hasher, s)
    ensures Adds(hasher, s.(m := m'), e, k) <==> IsSlot(m', s.selected, k) && !IsSlot(s.m, s.selected, k)
  {
    var d := DesiredIn(hasher, s);
    SteadyIsSettled(d, s.table);
    ScalingAddsExactly(hasher, s, m', e, k);
    DesiredSlotsAre(hasher, s.m, s.selected, s.ports);
    DesiredSlotsAre(hasher, m', s.selected, s.ports);
    NothingElse(d, s.table, e, k);
  }

  lemma SteadyIsSettled(d: Desired, t: Table)
    requires AllCurrent(d, t) && Fills(d, t)
    ensures Settled(d, t)
  {
    forall k | k in d ensures HasHash(t, k, d[k].hash) {
      CurrentHasHash(d, t, k);
    }
    forall i | 0 <= i < |t| ensures UpToDate(d, t[i]) {
      assert Current(d, t[i]);
    }
  }

  lemma NothingElse(d: Desired, t: Table, e: Env, k: Key)
    requires AllCurrent(d, t)
    ensures k !in DroppedSlots(t, e.wait)
    ensures k !in d ==> forall hash :: !HasHash(t, k, hash)
  {
    forall i | 0 <= i < |t| ensures t[i].Slot() in d && !ExitDrops(t[i], e.wait) {
      assert Current(d, t[i]);
    }
  }

  // ----- the reload itself -----

  lemma ScaledNames(m: Manifest, m': Manifest)
    requires OnlyScales(m, m')
    ensures m'.AppNames() == m.AppNames()
  {
    HasIffNamed(m);
    HasIffNamed(m');
    forall n ensures n in m'.AppNames() <==> n in m.AppNames() {
      LookupRescaled(m.apps, m'.apps, n);
    }
  }

  lemma ScaledEdges(m: Manifest, m': Manifest, a: string, b: string)
    requires WellFormed(m) && WellFormed(m') && OnlyScales(m, m')
    ensures Edge(ByName(m'.apps), a, b) <==> Edge(ByName(m.apps), a, b)
  {
    LookupRescaled(m.apps, m'.apps, a);
    LookupRescaled(m.apps, m'.apps, b);
    GraphOfWellFormed(m, a);
    GraphOfWellFormed(m', a);
    GraphOfWellFormed(m, b);
    GraphOfWellFormed(m', b);
  }

  lemma StillClosed(m: Manifest, m': Manifest, selected: set<string>)
    requires WellFormed(m) && WellFormed(m') && OnlyScales(m, m')
    requires DependencyClosed(ByName(m.apps), selected)
    ensures DependencyClosed(ByName(m'.apps), selected)
  {
    forall a, b | a in selected && Edge(ByName(m'.apps), a, b) ensures b in selected {
      ScaledEdges(m, m', a, b);
    }
  }

  lemma SoundIsClosed(m: Manifest, selected: set<string>)
    requires WellFormed(m) && SoundSelection(m, selected)
    ensures selected <= m.AppNames() && DependencyClosed(ByName(m.apps), selected)
  {
    HasIffNamed(m);
    forall a, b | a in selected && Edge(ByName(m.apps), a, b) ensures b in selected {
      GraphOfWellFormed(m, a);
      GraphOfWellFormed(m, b);
      assert DependenciesIn(m, m.Lookup(a).value, selected);
    }
  }

  /** Asking for the apps that were selected selects them again. */
  lemma ReselectsTheSame(m: Manifest, selected: set<string>)
    requires WellFormed(m) && selected <= m.AppNames() && DependencyClosed(ByName(m.apps), selected)
    ensures Selected(m, Some(selected)) == Some(selected)
  {
    SelectedIsLeastClosed(m, selected);
    assert Selected(m, Some(selected)).value == selected;
  }

  lemma ScalingKeepsAll(m: Manifest, m': Manifest, selected: set<string>)
    requires WellFormed(m) && SoundSelection(m, selected) && OnlyScales(m, m') && |selected| == |m.apps|
    ensures Selected(m', None) == Some(selected)
  {
    ScaledNames(m, m');
    SoundIsClosed(m, selected);
    AllNamesSelected(m, selected);
  }

  lemma ScalingKeepsSome(m: Manifest, m': Manifest, selected: set<string>)
    requires WellFormed(m) && WellFormed(m') && SoundSelection(m, selected) && OnlyScales(m, m')
    ensures Selected(m', Some(selected)) == Some(selected)
  {
    ScaledNames(m, m');
    SoundIsClosed(m, selected);
    StillClosed(m, m', selected);
    ReselectsTheSame(m', selected);
  }

  /** Such a reload is accepted and keeps the selection. */
  lemma ScalingKeepsSelection(s: State, o: Observation)
    requires WellFormed(s.m) && SoundSelection(s.m, s.selected)
    requires o.loaded.Some? && WellFormed(o.loaded.value) && OnlyScales(s.m, o.loaded.value) && s.m.apps != []
    ensures Accepted(s, o) == Some((o.loaded.value, s.selected))
  {
    if OnlyNames(s).None? {
      ScalingKeepsAll(s.m, o.loaded.value, s.selected);
    } else {
      ScalingKeepsSome(s.m, o.loaded.value, s.selected);
    }
  }

  /** A selection with as many names as there are apps is all of them. */
  lemma AllNamesSelected(m: Manifest, selected: set<string>)
    requires UniqueNames(m) && selected <= m.AppNames() && |selected| == |m.apps|
    ensures selected == m.AppNames()
  {
    NamesBound(m.apps);
    if selected != m.AppNames() {
      var n :| n in m.AppNames() && n !in selected;
      SubsetSize(selected, m.AppNames() - {n});
    }
  }

  lemma {:induction false} NamesBound(apps: seq<App>)
    ensures |set a | a in apps :: a.name| <= |apps|
  {
    if apps != [] {
      var front := apps[..|apps| - 1];
      NamesBound(front);
      assert apps == front + [apps[|apps| - 1]];
      var names := set a | a in front :: a.name;
      assert (set a | a in apps :: a.name) == names + {apps[|apps| - 1].name};
    }
  }

  lemma {:induction false} SubsetSize<T>(a: set<T>, b: set<T>)
    requires a <= b
    ensures |a| <= |b|
  {
    if a != {} {
      var x :| x in a;
      SubsetSize(a - {x}, b - {x});
    }
  }
}
