/** Which ports a roll with surge hands out, over ticks and runs. */
module SurgePorts {
  import opened Manifests
  import opened KeyOrder
  import opened Instances
  import opened Stages
  import opened Fates
  import opened Runs
  import opened Rules

  /** The surge port of slot `k` is the one it had, or the one the manifest leaves for it. */
  ghost predicate SurgePortFor(m: Manifest, was: map<Key, nat>, k: Key, p: nat) {
    (k in was && was[k] == p) || (m.Lookup(k.app).Some? && SurgesTo(m, m.Lookup(k.app).value, p))
  }

  ghost predicate SurgePortsFor(m: Manifest, was: map<Key, nat>, now: map<Key, nat>) {
    && (forall k :: k in was ==> k in now)
    && (forall k :: k in now ==> SurgePortFor(m, was, k, now[k]))
  }

  lemma RollPorts(s: State, d: Desired, e: Env)
    ensures SurgePortsFor(s.m, s.ports, RollStale(s, d, e).ports)
  {
    var now := RollStale(s, d, e).ports;
    forall k ensures (k in s.ports ==> k in now) && (k in now ==> SurgePortFor(s.m, s.ports, k, now[k])) {
      RollMovesExactly(s, d, e, k);
    }
  }

  lemma TickPorts(hasher: Hasher, s: State, e: Env)
    ensures SurgePortsFor(s.m, s.ports, Tick(hasher, s, e).ports)
  {
    var s1, s2 := TickParts(hasher, s, e);
    var d := DesiredIn(hasher, s1);
    RollPorts(StopCheckBlocked(TerminateUndesired(s1, d, e), e), d, e);
  }

  /** What comes after the records are added leaves each its slot and port. */
  lemma SpawnPorts(hasher: Hasher, s: State, e: Env, p: nat)
    requires p < |s.table|
    ensures SpawnReady(hasher, s, e).table[p].Slot() == s.table[p].Slot() && SpawnReady(hasher, s, e).table[p].port == s.table[p].port
  {
  }

  lemma RetirePorts(s: State, d: Desired, e: Env, p: nat)
    requires p < |s.table|
    ensures RetireStaleSurplus(s, d, e).table[p].Slot() == s.table[p].Slot() && RetireStaleSurplus(s, d, e).table[p].port == s.table[p].port
  {
  }

  lemma ProbePorts(s: State, e: Env, p: nat)
    requires p < |s.table|
    ensures Probe(s, e).table[p].Slot() == s.table[p].Slot() && Probe(s, e).table[p].port == s.table[p].port
  {
    ProbeKeeps(s.m, s.table[p], e.probeAt, e.probe(p));
  }

  lemma SecondHalfPorts(hasher: Hasher, s: State, d: Desired, e: Env, p: nat)
    requires p < |SecondHalf(hasher, s, d, e).table|
    ensures p < |AddMissing(s, d, e).table|
    ensures var r, r' := AddMissing(s, d, e).table[p], SecondHalf(hasher, s, d, e).table[p];
            r'.Slot() == r.Slot() && r'.port == r.port
  {
    var s1 := AddMissing(s, d, e);
    var s2 := SpawnReady(hasher, s1, e);
    SpawnPorts(hasher, s1, e, p);
    RetirePorts(s2, d, e, p);
    ProbePorts(RetireStaleSurplus(s2, d, e), e, p);
  }

  /**
   * A record that a tick adds is given the surge port of its slot, if it has one. If the tick
   * is the one that moved the slot, that is the least port above its app's window that no app
   * declares, as long as there is one.
   */
  lemma AddedPort(hasher: Hasher, s: State, e: Env, p: nat)
    requires AddedAt(hasher, s, e, p)
    ensures var r, ports := Tick(hasher, s, e).table[p], Tick(hasher, s, e).ports;
            match s.m.Lookup(r.app)
            case None => false
            case Some(a) => if r.Slot() in ports then r.port == ports[r.Slot()] else r.port == a.port + r.replica
    ensures var r, ports := Tick(hasher, s, e).table[p], Tick(hasher, s, e).ports;
            r.Slot() in ports ==> SurgePortFor(s.m, s.ports, r.Slot(), r.port)
  {
    var s1, s2 := TickParts(hasher, s, e);
    var d := DesiredIn(hasher, s2);
    SecondHalfPorts(hasher, s2, d, e, p);
    AddedIsNew(s2, d, e, p);
    var k := AddMissing(s2, d, e).table[p].Slot();
    DesiredSlotIs(hasher, s2.m, s2.selected, s2.ports, k);
    TickPorts(hasher, s, e);
  }

  // ----- runs -----

  lemma PortsTransitive(m: Manifest, a: map<Key, nat>, b: map<Key, nat>, c: map<Key, nat>)
    requires SurgePortsFor(m, a, b) && SurgePortsFor(m, b, c)
    ensures SurgePortsFor(m, a, c)
  {
    forall k | k in c ensures SurgePortFor(m, a, k, c[k]) {
      assert SurgePortFor(m, b, k, c[k]);
    }
  }

  lemma StepPorts(hasher: Hasher, s: State, step: Step, s': State)
    requires Leads(hasher, s, step, s')
    ensures SurgePortsFor(s.m, s.ports, s'.ports)
  {
    match step
    case Ticked(e) => TickPorts(hasher, s, e);
    case Reloaded(o) => ReloadChanges(s, o);
  }

  lemma RunStepPorts(hasher: Hasher, ss: seq<State>, steps: seq<Step>, k: nat)
    requires IsRun(hasher, ss, steps) && k < |steps|
    ensures SurgePortsFor(ss[k].m, ss[k].ports, ss[k + 1].ports)
  {
    assert LeadsAt(hasher, ss, steps, k);
    StepPorts(hasher, ss[k], steps[k], ss[k + 1]);
  }

  /**
   * Between two edits, in every run: every surge port given out is the least port above its
   * app's window that no app declares, as long as there is one, and no slot loses its own.
   */
  lemma {:induction false} SurgePortsInRun(hasher: Hasher, ss: seq<State>, steps: seq<Step>, a: nat, b: nat)
    requires IsRun(hasher, ss, steps) && a <= b < |ss| && Unedited(ss, a, b)
    ensures SurgePortsFor(ss[a].m, ss[a].ports, ss[b].ports)
    decreases b
  {
    if a < b {
      SurgePortsInRun(hasher, ss, steps, a, b - 1);
      RunStepPorts(hasher, ss, steps, b - 1);
      PortsTransitive(ss[a].m, ss[a].ports, ss[b - 1].ports, ss[b].ports);
    }
  }
}
