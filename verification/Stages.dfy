/** What each stage of a tick does to the whole table, as functions on the loop's state. */
module Stages {
  import opened Prelude
  import opened Manifests
  import opened KeyOrder
  import opened Instances

  type Table = seq<Instance>

  /** Everything the control loop carries from tick to tick. */
  datatype State = State(
    m: Manifest,
    selected: set<string>,
    table: Table,
    ports: map<Key, nat>,
    checksOk: map<string, bool>,
    nextCheckVerify: nat,
    manifestMtime: Option<nat>,
    pendingMtime: Option<nat>,
    tick: nat)

  /** The outside world during one tick: the clock as each stage reads it, and every answer it gives. */
  datatype Env = Env(
    checkAt: nat,
    check: string -> bool,
    reapAt: nat,
    wait: Pid -> Wait,
    terminateAt: nat,
    blockedAt: nat,
    rollAt: nat,
    rollOrder: seq<string>,
    spawnAt: nat,
    spawn: nat -> SpawnAnswer,
    retireAt: nat,
    probeAt: nat,
    probe: nat -> ProbeAnswer)

  // ----- desired slots -----

  datatype Want = Want(port: nat, hash: nat)

  predicate IsSlot(m: Manifest, selected: set<string>, k: Key) {
    k.app in selected && m.Has(k.app) && k.replica < m.Lookup(k.app).value.replicas
  }

  function SlotKeys(m: Manifest, selected: set<string>): set<Key> {
    set name, i: nat | name in selected && m.Has(name) && i < m.Lookup(name).value.replicas :: Key(name, i)
  }

  lemma SlotKeysAre(m: Manifest, selected: set<string>)
    ensures forall k :: k in SlotKeys(m, selected) <==> IsSlot(m, selected, k)
  {
  }

  function SlotPort(m: Manifest, ports: map<Key, nat>, k: Key): nat
    requires m.Has(k.app)
  {
    if k in ports then ports[k] else m.Lookup(k.app).value.port + k.replica
  }

  function WantFor(hasher: Hasher, m: Manifest, ports: map<Key, nat>, k: Key): Want
    requires m.Has(k.app)
  {
    var port := SlotPort(m, ports, k);
    Want(port, hasher(m.defaults, m.Lookup(k.app).value, k.replica, port))
  }

  type Desired = map<Key, Want>

  function DesiredSlots(hasher: Hasher, m: Manifest, selected: set<string>, ports: map<Key, nat>): Desired {
    map k | k in SlotKeys(m, selected) && m.Has(k.app) :: WantFor(hasher, m, ports, k)
  }

  lemma DesiredSlotsAre(hasher: Hasher, m: Manifest, selected: set<string>, ports: map<Key, nat>)
    ensures var d := DesiredSlots(hasher, m, selected, ports);
            && (forall k :: k in d <==> IsSlot(m, selected, k))
            && (forall k :: k in d ==> d[k] == WantFor(hasher, m, ports, k))
            && d.Keys == SlotKeys(m, selected)
  {
    SlotKeysAre(m, selected);
  }

  function DesiredIn(hasher: Hasher, s: State): Desired {
    DesiredSlots(hasher, s.m, s.selected, s.ports)
  }

  // ----- checks -----

  /** `reverify_checks` over the first `n` checks. */
  function VerifiedChecks(checks: seq<Check>, answer: string -> bool, ok: map<string, bool>): map<string, bool> {
    if checks == [] then ok
    else
      var c := checks[|checks| - 1];
      var before := VerifiedChecks(checks[..|checks| - 1], answer, ok);
      if c.tcp.None? && c.http.None? then before else before[c.name := answer(c.name)]
  }

  function ReverifyChecks(s: State, e: Env): State {
    if e.checkAt < s.nextCheckVerify then s
    else s.(nextCheckVerify := e.checkAt + CHECK_VERIFY_PERIOD,
            checksOk := VerifiedChecks(s.m.checks, e.check, s.checksOk))
  }

  // ----- reap -----

  /** `Vec::retain` by slot key. */
  function Retain(t: Table, gone: set<Key>): Table {
    if t == [] then []
    else
      var rest, last := Retain(t[..|t| - 1], gone), t[|t| - 1];
      if last.Slot() in gone then rest else rest + [last]
  }

  lemma {:induction false} RetainMembers(t: Table, gone: set<Key>)
    ensures forall r :: r in Retain(t, gone) <==> r in t && r.Slot() !in gone
  {
    if t != [] {
      RetainMembers(t[..|t| - 1], gone);
      assert t == t[..|t| - 1] + [t[|t| - 1]];
    }
  }

  function ReapedTable(t: Table, d: Defaults, wait: Pid -> Wait, now: nat): Table {
    seq(|t|, i requires 0 <= i < |t| => ReapOne(t[i], d, wait, now))
  }

  /** Slots of processes that exited after being stopped for good. */
  function DroppedSlots(t: Table, wait: Pid -> Wait): set<Key> {
    set i | 0 <= i < |t| && ExitDrops(t[i], wait) :: t[i].Slot()
  }

  function Reap(s: State, e: Env): State {
    s.(table := Retain(ReapedTable(s.table, s.m.defaults, e.wait, e.reapAt), DroppedSlots(s.table, e.wait)))
  }

  // ----- terminate undesired -----

  function StoppedUndesired(t: Table, d: Desired, now: nat): Table {
    seq(|t|, i requires 0 <= i < |t| =>
        if t[i].Slot() !in d && t[i].Serving() then BeginStop(t[i], false, now) else t[i])
  }

  function IdleUndesired(t: Table, d: Desired): set<Key> {
    set i | 0 <= i < |t| && t[i].Slot() !in d && !t[i].Running() :: t[i].Slot()
  }

  function TerminateUndesired(s: State, d: Desired, e: Env): State {
    s.(table := Retain(StoppedUndesired(s.table, d, e.terminateAt), IdleUndesired(s.table, d)))
  }

  // ----- check gate -----

  /** The app depends on a check that is recorded as failed. */
  predicate CheckBlocked(m: Manifest, ok: map<string, bool>, app: string) {
    m.Has(app) && exists d :: d in m.Lookup(app).value.dependsOn && !m.Has(d) && d in ok && !ok[d]
  }

  function StopCheckBlocked(s: State, e: Env): State {
    s.(table := seq(|s.table|, i requires 0 <= i < |s.table| =>
                    if CheckBlocked(s.m, s.checksOk, s.table[i].app) && s.table[i].Serving()
                    then BeginStop(s.table[i], true, e.blockedAt) else s.table[i]))
  }

  // ----- rolling replace -----

  /** The record's hash is not the one its slot now asks for. */
  predicate Stale(d: Desired, r: Instance) {
    r.Slot() in d && d[r.Slot()].hash != r.specHash
  }

  predicate StaleReady(d: Desired, app: string, r: Instance) {
    r.app == app && r.phase == Ready && Stale(d, r)
  }

  predicate StaleNotReady(d: Desired, app: string, r: Instance) {
    r.app == app && r.phase != Ready && r.phase != Terminating && Stale(d, r)
  }

  function FirstStaleReady(d: Desired, t: Table, app: string): Option<nat> {
    FindFirst(t, (r: Instance) => StaleReady(d, app, r))
  }

  function FirstStaleNotReady(d: Desired, t: Table, app: string): Option<nat> {
    FindFirst(t, (r: Instance) => StaleNotReady(d, app, r))
  }

  function ReadyCount(t: Table, app: string): nat {
    if t == [] then 0
    else ReadyCount(t[..|t| - 1], app) + if t[|t| - 1].app == app && t[|t| - 1].phase == Ready then 1 else 0
  }

  function AppCount(t: Table, app: string): nat {
    if t == [] then 0 else AppCount(t[..|t| - 1], app) + if t[|t| - 1].app == app then 1 else 0
  }

  function Replicas(m: Manifest, app: string): nat {
    if m.Has(app) then m.Lookup(app).value.replicas else 0
  }

  predicate BudgetSpent(m: Manifest, t: Table, app: string) {
    Replicas(m, app) - ReadyCount(t, app) >= MAX_UNAVAILABLE
  }

  /** The one record of an app that a roll stops, if any. */
  function RollVictim(m: Manifest, d: Desired, t: Table, app: string): Option<nat> {
    if FirstStaleNotReady(d, t, app).Some? then FirstStaleNotReady(d, t, app)
    else if m.defaults.maxSurge > 0 || BudgetSpent(m, t, app) then None
    else FirstStaleReady(d, t, app)
  }

  predicate HasHash(t: Table, k: Key, hash: nat) {
    exists i :: 0 <= i < |t| && t[i].Slot() == k && t[i].specHash == hash
  }

  predicate Declared(m: Manifest, p: nat) {
    exists a :: a in m.apps && a.port <= p < a.port + a.replicas
  }

  /** The first undeclared port from `p` up. */
  function FirstFree(m: Manifest, p: nat): (r: Option<nat>)
    ensures r.Some? ==> p <= r.value <= U16_MAX && !Declared(m, r.value)
    ensures r.None? ==> forall q :: p <= q <= U16_MAX ==> Declared(m, q)
    decreases U16_MAX + 1 - p
  {
    if p > U16_MAX then None else if !Declared(m, p) then Some(p) else FirstFree(m, p + 1)
  }

  /** Falls back on the port after the app's window, truncated to 16 bits. */
  function SurgePort(m: Manifest, a: App): nat {
    match FirstFree(m, a.port + a.replicas)
    case Some(p) => p
    case None => (a.port + a.replicas) % 0x1_0000
  }

  type Victims = map<string, Option<nat>>

  /** Each selected app's victim, judged on the table as the stage finds it. */
  function RollVictims(m: Manifest, selected: set<string>, d: Desired, t: Table): Victims {
    map app | app in selected :: RollVictim(m, d, t, app)
  }

  predicate IsVictim(v: Victims, t: Table, i: nat)
    requires i < |t|
  {
    t[i].app in v && v[t[i].app] == Some(i)
  }

  function StopVictims(v: Victims, t: Table, now: nat): Table {
    seq(|t|, i requires 0 <= i < |t| => if IsVictim(v, t, i) then BeginStop(t[i], false, now) else t[i])
  }

  function RolledTable(m: Manifest, selected: set<string>, d: Desired, t: Table, now: nat): Table {
    StopVictims(RollVictims(m, selected, d, t), t, now)
  }

  /** A slot whose next instance goes to a surge port. */
  datatype Move = Move(slot: Key, port: nat)

  /** The slot of an app that a roll moves, if any: its Ready instance is stale and has no successor yet. */
  function SurgeMove(m: Manifest, d: Desired, t: Table, app: string): Option<Move> {
    if FirstStaleNotReady(d, t, app).Some? || m.defaults.maxSurge == 0 || !m.Has(app) then None
    else
      match FirstStaleReady(d, t, app)
      case None => None
      case Some(i) =>
        var k := t[i].Slot();
        if !HasHash(t, k, d[k].hash) && AppCount(t, app) < Replicas(m, app) + m.defaults.maxSurge
        then Some(Move(k, SurgePort(m, m.Lookup(app).value))) else None
  }

  type Moves = map<string, Option<Move>>

  function SurgeMoves(m: Manifest, selected: set<string>, d: Desired, t: Table): Moves {
    map app | app in selected :: SurgeMove(m, d, t, app)
  }

  predicate Moved(moves: Moves, k: Key) {
    k.app in moves && moves[k.app].Some? && moves[k.app].value.slot == k
  }

  function MovedSlots(moves: Moves, apps: set<string>): set<Key> {
    set app | app in apps && app in moves && moves[app].Some? :: moves[app].value.slot
  }

  /** The surge ports given to slots of `apps`. */
  function MovedPorts(moves: Moves, apps: set<string>): map<Key, nat> {
    map k | k in MovedSlots(moves, apps) && Moved(moves, k) :: moves[k.app].value.port
  }

  function RollStale(s: State, d: Desired, e: Env): State {
    s.(table := RolledTable(s.m, s.selected, d, s.table, e.rollAt),
       ports := s.ports + MovedPorts(SurgeMoves(s.m, s.selected, d, s.table), s.selected))
  }

  // ----- spawn missing -----

  function NewFor(d: Desired, k: Key, now: nat): Instance
    requires k in d
  {
    NewInstance(k.app, k.replica, d[k].port, d[k].hash, now)
  }

  /** A Pending record for every desired slot without an instance of the desired hash. */
  function Missing(d: Desired, t: Table, keys: seq<Key>, now: nat): Table
    requires forall k :: k in keys ==> k in d
  {
    if keys == [] then []
    else
      var before := Missing(d, t, keys[..|keys| - 1], now);
      var k := keys[|keys| - 1];
      if HasHash(t, k, d[k].hash) then before else before + [NewFor(d, k, now)]
  }

  /** A pushed record is the new one of an uncovered key. */
  lemma {:induction false} MissingSlot(d: Desired, t: Table, keys: seq<Key>, now: nat, i: nat)
    requires forall k :: k in keys ==> k in d
    requires i < |Missing(d, t, keys, now)|
    ensures var r := Missing(d, t, keys, now)[i];
            var k := r.Slot();
            k in keys && !HasHash(t, k, d[k].hash) && r == NewFor(d, k, now)
  {
    if i < |Missing(d, t, keys[..|keys| - 1], now)| {
      MissingSlot(d, t, keys[..|keys| - 1], now, i);
    }
  }

  function ReadyApps(t: Table): set<string> {
    set i | 0 <= i < |t| && t[i].phase == Ready :: t[i].app
  }

  predicate DependenciesUp(m: Manifest, ok: map<string, bool>, ready: set<string>, app: string) {
    m.Has(app) && forall d :: d in m.Lookup(app).value.dependsOn ==>
                    if m.Has(d) then d in ready else (d in ok ==> ok[d])
  }

  predicate SpawnGate(m: Manifest, ok: map<string, bool>, ready: set<string>, r: Instance, now: nat) {
    && !r.Running()
    && r.phase != Terminating
    && (r.backoffUntil.Some? ==> r.backoffUntil.value <= now)
    && DependenciesUp(m, ok, ready, r.app)
  }

  function SpawnAt(hasher: Hasher, s: State, ready: set<string>, e: Env, i: nat): Instance
    requires i < |s.table|
  {
    var r := s.table[i];
    if SpawnGate(s.m, s.checksOk, ready, r, e.spawnAt)
    then SpawnOne(hasher, s.m.defaults, s.m.Lookup(r.app).value, r, e.spawn(i), Pid(s.tick, i))
    else r
  }

  function AddMissing(s: State, d: Desired, e: Env): State {
    InKeyOrderSorts(d.Keys);
    s.(table := s.table + Missing(d, s.table, InKeyOrder(d.Keys), e.spawnAt))
  }

  /** A record the stage adds is the new one of a slot no record covers. */
  lemma AddedIsNew(s: State, d: Desired, e: Env, p: nat)
    requires |s.table| <= p < |AddMissing(s, d, e).table|
    ensures var r := AddMissing(s, d, e).table[p];
            r.Slot() in d && !HasHash(s.table, r.Slot(), d[r.Slot()].hash) && r == NewFor(d, r.Slot(), e.spawnAt)
  {
    InKeyOrderSorts(d.Keys);
    var keys := InKeyOrder(d.Keys);
    var n, more := |s.table|, Missing(d, s.table, keys, e.spawnAt);
    MissingSlot(d, s.table, keys, e.spawnAt, p - n);
    assert AddMissing(s, d, e).table == s.table + more;
  }

  function SpawnReady(hasher: Hasher, s: State, e: Env): State {
    s.(table := seq(|s.table|, i requires 0 <= i < |s.table| => SpawnAt(hasher, s, ReadyApps(s.table), e, i)))
  }

  function SpawnMissing(hasher: Hasher, s: State, d: Desired, e: Env): State {
    SpawnReady(hasher, AddMissing(s, d, e), e)
  }

  // ----- retire after a surge -----

  /** The slot has a Ready instance of the desired hash. */
  predicate Replaced(d: Desired, t: Table, k: Key) {
    k in d && exists i :: 0 <= i < |t| && t[i].Slot() == k && t[i].specHash == d[k].hash && t[i].phase == Ready
  }

  predicate Retires(d: Desired, t: Table, r: Instance) {
    Stale(d, r) && r.phase != Terminating && Replaced(d, t, r.Slot())
  }

  function RetireStaleSurplus(s: State, d: Desired, e: Env): State {
    if s.m.defaults.maxSurge == 0 then s
    else s.(table := seq(|s.table|, i requires 0 <= i < |s.table| =>
                         if Retires(d, s.table, s.table[i]) then BeginStop(s.table[i], false, e.retireAt) else s.table[i]))
  }

  // ----- probe and the whole tick -----

  function Probe(s: State, e: Env): State {
    s.(table := seq(|s.table|, i requires 0 <= i < |s.table| => ProbeOne(s.m, s.table[i], e.probeAt, e.probe(i))))
  }

  /** The first half of a tick: checks, exits, and whatever has to go or be replaced. */
  function FirstHalf(s: State, d: Desired, e: Env): State {
    RollStale(StopCheckBlocked(TerminateUndesired(s, d, e), e), d, e)
  }

  /** The second half: new processes, and the probes. */
  function SecondHalf(hasher: Hasher, s: State, d: Desired, e: Env): State {
    Probe(RetireStaleSurplus(SpawnMissing(hasher, s, d, e), d, e), e)
  }

  /** One tick, with the desired slots computed twice: a roll may move a slot to a surge port. */
  function Tick(hasher: Hasher, s: State, e: Env): State {
    var reaped := Reap(ReverifyChecks(s, e), e);
    var rolled := FirstHalf(reaped, DesiredIn(hasher, reaped), e);
    SecondHalf(hasher, rolled, DesiredIn(hasher, rolled), e).(tick := s.tick + 1)
  }

  /** The first half only changes the table and the ports. */
  lemma FirstHalfChanges(s: State, d: Desired, e: Env)
    ensures FirstHalf(s, d, e).(table := s.table, ports := s.ports) == s
  {
  }

  /** The second half only changes the table. */
  lemma SecondHalfChanges(hasher: Hasher, s: State, d: Desired, e: Env)
    ensures SecondHalf(hasher, s, d, e).(table := s.table) == s
  {
  }

  /** A tick in three parts: exits, the first half, the second half. */
  lemma TickParts(hasher: Hasher, s: State, e: Env) returns (s1: State, s2: State)
    ensures s1 == Reap(ReverifyChecks(s, e), e)
    ensures s2 == FirstHalf(s1, DesiredIn(hasher, s1), e)
    ensures Tick(hasher, s, e).table == SecondHalf(hasher, s2, DesiredIn(hasher, s2), e).table
    ensures s1.m == s2.m == s.m && s1.tick == s2.tick == s.tick && s1.selected == s2.selected == s.selected
    ensures s1.ports == s.ports && s1.checksOk == s2.checksOk
    ensures Tick(hasher, s, e).(table := s2.table, tick := s2.tick) == s2
    ensures Tick(hasher, s, e).tick == s.tick + 1
    ensures s2.manifestMtime == s.manifestMtime && s2.pendingMtime == s.pendingMtime
  {
    s1 := Reap(ReverifyChecks(s, e), e);
    s2 := FirstHalf(s1, DesiredIn(hasher, s1), e);
    FirstHalfChanges(s1, DesiredIn(hasher, s1), e);
    SecondHalfChanges(hasher, s2, DesiredIn(hasher, s2), e);
  }
}
