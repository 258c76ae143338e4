/** A roll in which stopped processes take their time and replacements may fail to bind: how it ends, and when. */
module Patience {
  import opened Prelude
  import opened Manifests
  import opened KeyOrder
  import opened Instances
  import opened Stages
  import opened Graph
  import opened Lifecycle
  import opened Tracking
  import opened Fates
  import opened Runs
  import opened Steady
  import opened Startup
  import opened Convergence
  import opened Edits
  import opened Rolls
  import opened Rollouts
  import opened Completions
  import opened Availability

  // ----- processes on their way out -----

  /** The processes of an app going down in its desired slots. */
  ghost function Departing(d: Desired, t: Table, app: string): set<Pid> {
    set i | 0 <= i < |t| && t[i].app == app && t[i].Slot() in d && GoingDown(t[i]) :: t[i].handle.value.pid
  }

  /** The processes outside the desired slots. */
  ghost function Strays(d: Desired, t: Table): set<Pid> {
    set i | 0 <= i < |t| && t[i].Slot() !in d && t[i].Running() :: t[i].handle.value.pid
  }

  lemma ReapedProcess(r: Instance, m: Defaults, e: Env)
    requires ReapOne(r, m, e.wait, e.reapAt).Running()
    ensures var r' := ReapOne(r, m, e.wait, e.reapAt);
            r.Running() && r'.Slot() == r.Slot() && r'.handle.value.pid == r.handle.value.pid && !e.wait(r.handle.value.pid).Exited?
            && (GoingDown(r') ==> GoingDown(r))
  {
  }

  lemma RolledProcess(s: State, d: Desired, e: Env, x: Passage, p: nat)
    requires Passes(s, d, e, x) && p < |x.rolled| && x.rolled[p].Running()
    ensures |x.cleared| == |x.rolled| && x.cleared[p].Running() && x.cleared[p].Slot() == x.rolled[p].Slot()
    ensures x.cleared[p].handle.value.pid == x.rolled[p].handle.value.pid
  {
  }

  /** A process in the rolled table has not exited, and was in the table before. */
  lemma ProcessFrom(s: State, d: Desired, e: Env, x: Passage, p: nat) returns (i: nat)
    requires Passes(s, d, e, x) && p < |x.rolled| && x.rolled[p].Running()
    ensures |x.cleared| == |x.rolled| && i < |s.table| && s.table[i].Running() && s.table[i].Slot() == x.rolled[p].Slot()
    ensures s.table[i].handle.value.pid == x.rolled[p].handle.value.pid && !e.wait(s.table[i].handle.value.pid).Exited?
    ensures x.cleared[p].Slot() in d && GoingDown(x.cleared[p]) ==> GoingDown(s.table[i])
  {
    RolledProcess(s, d, e, x, p);
    var q := TerminateFrom(Reap(s, e), d, e, p);
    i := ReapFrom(s, e, q);
    ReapedProcess(s.table[i], s.m.defaults, e);
  }

  /** A stale instance that is retired shows in the count. */
  lemma RetireShows(s: State, d: Desired, e: Env, x: Passage, p: nat, app: string)
    requires Passes(s, d, e, x) && p < |x.end| && StaleAlive(d, app, x.filled.table[p]) && !StaleAlive(d, app, x.end[p])
    ensures StaleCount(d, x.end, app) < StaleCount(d, s.table, app)
  {
    var t := x.filled.table;
    StaleFalls(s, d, e, x, app);
    forall q: nat | q < |t| && StaleAlive(d, app, x.end[q]) ensures StaleAlive(d, app, t[q]) {
      EndSound(s, d, e, x, q);
    }
    StaleShrinks(d, t, x.end, app, Some(p));
  }

  lemma RollStopsOne(m: Manifest, selected: set<string>, d: Desired, t: Table, now: nat, p: nat, app: string)
    requires var u := RolledTable(m, selected, d, t, now); p < |t| && StaleAlive(d, app, t[p]) && !StaleAlive(d, app, u[p])
    ensures StaleCount(d, RolledTable(m, selected, d, t, now), app) < StaleCount(d, t, app)
  {
    StaleShrinks(d, t, RolledTable(m, selected, d, t, now), app, Some(p));
  }

  /** So does one the roll stops. */
  lemma RollShows(s: State, d: Desired, e: Env, x: Passage, p: nat, app: string)
    requires Passes(s, d, e, x) && p < |x.cleared| == |x.rolled| && StaleAlive(d, app, x.cleared[p]) && !StaleAlive(d, app, x.rolled[p])
    ensures StaleCount(d, x.end, app) < StaleCount(d, s.table, app)
  {
    StaleFalls(s, d, e, x, app);
    StaleAfterRoll(s, d, e, x, app);
    RollStopsOne(s.m, s.selected, d, x.cleared, e.rollAt, p, app);
  }

  /** If no stale instance was stopped or lost, what is going down was going down before, and has not exited. */
  lemma DepartingFrom(s: State, d: Desired, e: Env, x: Passage, app: string, pid: Pid)
    requires Passes(s, d, e, x) && StaleCount(d, x.end, app) == StaleCount(d, s.table, app) && pid in Departing(d, x.end, app)
    ensures pid in Departing(d, s.table, app) && !e.wait(pid).Exited?
  {
    var p: nat :| p < |x.end| && x.end[p].app == app && x.end[p].Slot() in d && GoingDown(x.end[p]) && x.end[p].handle.value.pid == pid;
    DownInSlot(s, d, e, x, p);
    EndSound(s, d, e, x, p);
    if Alive(x.filled.table[p]) {
      RetireShows(s, d, e, x, p, app);
    } else if Alive(x.cleared[p]) {
      RollShows(s, d, e, x, p, app);
    } else {
      var i := ProcessFrom(s, d, e, x, p);
    }
  }

  /** No process strays anew. */
  lemma StrayFrom(s: State, d: Desired, e: Env, x: Passage, pid: Pid)
    requires Passes(s, d, e, x) && pid in Strays(d, x.end)
    ensures pid in Strays(d, s.table) && !e.wait(pid).Exited?
  {
    var p: nat :| p < |x.end| && x.end[p].Slot() !in d && x.end[p].Running() && x.end[p].handle.value.pid == pid;
    EndSound(s, d, e, x, p);
    var i := ProcessFrom(s, d, e, x, p);
  }

  // ----- how far an app is -----

  /** Twice the stale instances to stop, and one for those still leaving. */
  ghost function Rank(d: Desired, t: Table, app: string): nat {
    2 * StaleCount(d, t, app) + if Departing(d, t, app) == {} then 0 else 1
  }

  lemma IsStray(d: Desired, t: Table, i: nat)
    requires i < |t|
    ensures t[i].Slot() !in d && t[i].Running() ==> t[i].handle.value.pid in Strays(d, t)
  {
  }

  lemma IsDeparting(d: Desired, t: Table, i: nat)
    requires i < |t|
    ensures t[i].Slot() in d && GoingDown(t[i]) ==> t[i].handle.value.pid in Departing(d, t, t[i].app)
  {
  }

  /** Whatever stays of the app is up, or another process runs in its slot. */
  ghost predicate Served(m: Manifest, d: Desired, t: Table, app: string) {
    forall i: nat :: i < |t| && t[i].app == app && Stays(d, t[i]) ==> Up(t[i]) || Excused(m, t, i)
  }

  /** Nothing keeps what stays of the app from coming up in this tick, but where another process runs in its slot. */
  ghost predicate RipeAlone(m: Manifest, d: Desired, t: Table, e: Env, app: string) {
    forall i: nat :: i < |t| && t[i].app == app && Stays(d, t[i]) ==> Up(t[i]) || Excused(m, t, i) || Ripe(m, d, t[i], e)
  }

  /** What else runs in the slot of a record that stays is stale: it serves, or is going down. */
  lemma OtherIsStale(d: Desired, t: Table, i: nat, j: nat)
    requires Underway(d, t) && i < |t| && j < |t| && i != j && t[j].Slot() == t[i].Slot() && Stays(d, t[i]) && t[j].Running()
    ensures Stale(d, t[j]) && (StaleAlive(d, t[j].app, t[j]) || GoingDown(t[j]))
  {
    assert StaysDiffer(d, t, i, j) && StaysDiffer(d, t, j, i) && Sound(d, t[j]);
  }

  /** A served app of rank zero is renewed, once nothing strays. */
  lemma RankZero(m: Manifest, d: Desired, t: Table, app: string)
    requires Underway(d, t) && Served(m, d, t, app) && Rank(d, t, app) == 0 && Strays(d, t) == {}
    ensures Renewed(d, t, app)
  {
    StaleExists(d, t, app);
    forall i: nat | i < |t| && t[i].app == app ensures Up(t[i]) && UpToDate(d, t[i]) {
      assert Sound(d, t[i]) && !StaleAlive(d, app, t[i]);
      IsStray(d, t, i);
      IsDeparting(d, t, i);
      NotExcused(m, d, t, i);
    }
  }

  /** In such an app no two processes run in one slot. */
  lemma NotExcused(m: Manifest, d: Desired, t: Table, i: nat)
    requires Underway(d, t) && i < |t| && Departing(d, t, t[i].app) == {} && forall j: nat :: j < |t| ==> !StaleAlive(d, t[i].app, t[j])
    ensures Stays(d, t[i]) ==> !Excused(m, t, i)
  {
    if Stays(d, t[i]) && Excused(m, t, i) {
      var j: nat :| j < |t| && j != i && t[j].Slot() == t[i].Slot() && t[j].Running();
      OtherIsStale(d, t, i, j);
      IsDeparting(d, t, j);
    }
  }

  // ----- renewed apps -----

  /** The processes of a renewed app are alone in their slots, so none of them exits. */
  lemma RenewedStands(s: State, d: Desired, e: Env, i: nat)
    requires Bearable(s, d, e) && Underway(d, s.table) && i < |s.table| && Renewed(d, s.table, s.table[i].app)
    ensures !e.wait(s.table[i].handle.value.pid).Exited? && s.table[i].Slot() !in DroppedSlots(s.table, e.wait)
  {
    DroppedIff(s.table, e.wait, s.table[i].Slot());
    if Excused(s.m, s.table, i) {
      var j: nat :| j < |s.table| && j != i && s.table[j].Slot() == s.table[i].Slot() && s.table[j].Running();
      OtherIsStale(d, s.table, i, j);
    }
  }

  /** A renewed app stays renewed, whatever the rest of the fleet does. */
  lemma RenewedStays(s: State, d: Desired, e: Env, x: Passage, app: string)
    requires Passes(s, d, e, x) && Bearable(s, d, e) && Underway(d, s.table) && Renewed(d, s.table, app)
    ensures Renewed(d, x.end, app)
  {
    forall p: nat | p < |x.end| && x.end[p].app == app ensures Up(x.end[p]) && UpToDate(d, x.end[p]) {
      EndSound(s, d, e, x, p);
      assert Ends(s, d, e, x, p);
      if p < |x.rolled| {
        RenewedAt(s, d, e, x, app, p);
      } else {
        NoneAddedTo(s, d, e, x, app, p);
      }
    }
  }

  lemma RenewedAt(s: State, d: Desired, e: Env, x: Passage, app: string, p: nat)
    requires Passes(s, d, e, x) && Bearable(s, d, e) && Underway(d, s.table) && Renewed(d, s.table, app)
    requires p < |x.rolled| && x.rolled[p].app == app
    ensures x.filled.table[p] == x.rolled[p] && Up(x.rolled[p]) && UpToDate(d, x.rolled[p])
  {
    var i, r := FromReap(s, d, e, x, p);
    RenewedStands(s, d, e, i);
    assert Up(s.table[i]) && r == s.table[i];
  }

  /** Every slot of a renewed app has its current instance when the gates are judged. */
  lemma RenewedSlot(s: State, d: Desired, e: Env, x: Passage, k: Key) returns (p: nat)
    requires Passes(s, d, e, x) && Bearable(s, d, e) && Underway(d, s.table) && Renewed(d, s.table, k.app) && k in d
    ensures p < |x.rolled| && x.filled.table[p].Slot() == k && Up(x.filled.table[p]) && UpToDate(d, x.filled.table[p])
  {
    assert HasStaying(d, s.table, k);
    var i: nat :| i < |s.table| && s.table[i].Slot() == k && Stays(d, s.table[i]);
    RenewedStands(s, d, e, i);
    p := UpToGate(s, d, e, x, i);
  }

  lemma FilledDiffers(s: State, d: Desired, x: Passage, q: nat, p: nat)
    requires Filled(s, d, x)
    ensures StaysDiffer(d, x.filled.table, q, p)
  {
  }

  lemma NoneAddedTo(s: State, d: Desired, e: Env, x: Passage, app: string, p: nat)
    requires Passes(s, d, e, x) && Bearable(s, d, e) && Underway(d, s.table) && Renewed(d, s.table, app)
    requires |x.rolled| <= p < |x.end|
    ensures x.filled.table[p].app != app
  {
    var k := x.filled.table[p].Slot();
    if k.app == app {
      var q := RenewedSlot(s, d, e, x, k);
      FilledDiffers(s, d, x, q, p);
    }
  }

  /** So it holds the gate open for its dependents. */
  lemma RenewedOpens(s: State, d: Desired, e: Env, x: Passage, app: string)
    requires Passes(s, d, e, x) && Bearable(s, d, e) && Underway(d, s.table) && Renewed(d, s.table, app) && Key(app, 0) in d
    ensures app in ReadyApps(x.filled.table)
  {
    var p := RenewedSlot(s, d, e, x, Key(app, 0));
    assert x.filled.table[p].phase == Ready && x.filled.table[p].app == app;
  }

  // ----- apps on their way -----

  /** What runs beside a record that stays is still there after the tick, unless the whole slot is cleared. */
  lemma OtherRunsOn(s: State, d: Desired, e: Env, x: Passage, i: nat, j: nat) returns (q: nat)
    requires Passes(s, d, e, x) && Bearable(s, d, e) && Underway(d, s.table)
    requires i < |s.table| && j < |s.table| && i != j && s.table[j].Slot() == s.table[i].Slot() && Stays(d, s.table[i]) && s.table[j].Running()
    requires s.table[i].Slot() !in DroppedSlots(s.table, e.wait)
    ensures q < |x.rolled| && |x.cleared| == |x.rolled| && x.end[q].Running() && x.end[q].Slot() == s.table[j].Slot() && Stale(d, x.end[q])
    ensures x.cleared[q].Slot() == s.table[j].Slot() && (StaleAlive(d, s.table[j].app, s.table[j]) ==> x.cleared[q] == s.table[j])
  {
    OtherIsStale(d, s.table, i, j);
    DroppedIff(s.table, e.wait, s.table[j].Slot());
    q := StaleToRoll(s, d, e, x, j);
    StaleToEnd(s, d, e, x, q);
  }

  /** A stale process in a slot that is not cleared is still there when the roll looks. */
  lemma StaleToRoll(s: State, d: Desired, e: Env, x: Passage, j: nat) returns (q: nat)
    requires Passes(s, d, e, x) && Bearable(s, d, e) && j < |s.table| && s.table[j].Running() && Stale(d, s.table[j])
    requires StaleAlive(d, s.table[j].app, s.table[j]) || GoingDown(s.table[j])
    requires s.table[j].Slot() !in DroppedSlots(s.table, e.wait)
    ensures q < |x.cleared| == |x.rolled| && x.cleared[q].Running() && Stale(d, x.cleared[q]) && x.cleared[q].Slot() == s.table[j].Slot()
    ensures StaleAlive(d, s.table[j].app, s.table[j]) ==> x.cleared[q] == s.table[j]
  {
    DroppedIff(s.table, e.wait, s.table[j].Slot());
    var r := ReapAt(s, e, j);
    var p := TerminateAt(Reap(s, e), d, e, r.value);
    q := p.value;
  }

  lemma StaleToEnd(s: State, d: Desired, e: Env, x: Passage, q: nat)
    requires Passes(s, d, e, x) && q < |x.cleared| == |x.rolled| && x.cleared[q].Running() && Stale(d, x.cleared[q])
    ensures x.end[q].Running() && Stale(d, x.end[q]) && x.end[q].Slot() == x.cleared[q].Slot()
  {
    EndSound(s, d, e, x, q);
    assert Ends(s, d, e, x, q) && Sound(d, x.filled.table[q]) && x.rolled[q] == x.filled.table[q];
  }

  /** A record that stays comes from one that did, unchanged unless it was returning or has exited. */
  lemma StaysFrom(s: State, d: Desired, e: Env, x: Passage, p: nat) returns (i: nat)
    requires Passes(s, d, e, x) && Bearable(s, d, e) && Underway(d, s.table) && p < |x.rolled| && Stays(d, x.filled.table[p])
    ensures i < |s.table| && Stays(d, s.table[i]) && s.table[i].Slot() == x.filled.table[p].Slot()
    ensures s.table[i].Slot() !in DroppedSlots(s.table, e.wait)
    ensures !Returning(d, s.table[i]) && !(s.table[i].Running() && e.wait(s.table[i].handle.value.pid).Exited?) ==> x.filled.table[p] == s.table[i]
  {
    var r;
    i, r := FromReap(s, d, e, x, p);
    DroppedIff(s.table, e.wait, s.table[i].Slot());
    ReapedSound(d, s.table[i], s.m.defaults, e);
  }

  /** What runs beside a record that stays goes on excusing it. */
  lemma StaysExcused(s: State, d: Desired, e: Env, x: Passage, i: nat, p: nat)
    requires Passes(s, d, e, x) && Bearable(s, d, e) && Underway(d, s.table) && i < |s.table| && Stays(d, s.table[i])
    requires Excused(s.m, s.table, i) && s.table[i].Slot() !in DroppedSlots(s.table, e.wait)
    requires p < |x.end| && x.end[p].Slot() == s.table[i].Slot() && Stays(d, x.end[p])
    ensures Excused(s.m, x.end, p)
  {
    var j: nat :| j < |s.table| && j != i && s.table[j].Slot() == s.table[i].Slot() && s.table[j].Running();
    var q := OtherRunsOn(s, d, e, x, i, j);
  }

  /** One that has its slot to itself comes up if it is ripe, and stays up. */
  lemma AloneComesUp(s: State, d: Desired, e: Env, x: Passage, i: nat, p: nat)
    requires Passes(s, d, e, x) && Bearable(s, d, e) && i < |s.table| && !Excused(s.m, s.table, i) && Open(x.filled, s.table[i].app)
    requires p < |x.end| && Stays(d, x.end[p]) && Stays(d, s.table[i]) && (Up(s.table[i]) || Ripe(s.m, d, s.table[i], e))
    requires !Returning(d, s.table[i]) && !(s.table[i].Running() && e.wait(s.table[i].handle.value.pid).Exited?) ==> x.filled.table[p] == s.table[i]
    ensures Up(x.end[p])
  {
    assert Ends(s, d, e, x, p) && Sound(d, x.filled.table[p]);
  }

  lemma NewComesUp(s: State, d: Desired, e: Env, x: Passage, p: nat)
    requires Finishes(s, d, e, x) && |x.rolled| <= p < |x.end| && Open(x.filled, x.end[p].app)
    ensures Up(x.end[p])
  {
    assert Ends(s, d, e, x, p);
  }

  lemma ServedAt(s: State, d: Desired, e: Env, x: Passage, app: string, p: nat)
    requires Passes(s, d, e, x) && Bearable(s, d, e) && Underway(d, s.table) && Open(x.filled, app)
    requires RipeAlone(s.m, d, s.table, e, app) && p < |x.end| && x.end[p].app == app && Stays(d, x.end[p])
    ensures Up(x.end[p]) || Excused(s.m, x.end, p)
  {
    EndSound(s, d, e, x, p);
    if p < |x.rolled| {
      var i := StaysFrom(s, d, e, x, p);
      if Excused(s.m, s.table, i) {
        StaysExcused(s, d, e, x, i, p);
      } else {
        AloneComesUp(s, d, e, x, i, p);
      }
    } else {
      NewComesUp(s, d, e, x, p);
    }
  }

  /** Once its gate is open, a ripe app is served after the tick, and a served one stays served. */
  lemma TickServes(s: State, d: Desired, e: Env, x: Passage, app: string)
    requires Passes(s, d, e, x) && Bearable(s, d, e) && Underway(d, s.table) && Open(x.filled, app) && RipeAlone(s.m, d, s.table, e, app)
    ensures Served(s.m, d, x.end, app)
  {
    forall p: nat | p < |x.end| && x.end[p].app == app && Stays(d, x.end[p]) ensures Up(x.end[p]) || Excused(s.m, x.end, p) {
      ServedAt(s, d, e, x, app, p);
    }
  }

  /** If nothing of an app is leaving, no slot of it is dropped. */
  lemma NothingLost(d: Desired, t: Table, e: Env, k: Key)
    requires Departing(d, t, k.app) == {} && k in d
    ensures k !in DroppedSlots(t, e.wait)
  {
    DroppedIff(t, e.wait, k);
    if k in DroppedSlots(t, e.wait) {
      var i: nat :| i < |t| && t[i].Slot() == k && ExitDrops(t[i], e.wait);
      IsDeparting(d, t, i);
    }
  }

  lemma ExcusedSlotReady(s: State, d: Desired, e: Env, x: Passage, i: nat)
    requires Passes(s, d, e, x) && Bearable(s, d, e) && Underway(d, s.table) && i < |s.table| && Stays(d, s.table[i]) && Excused(s.m, s.table, i)
    requires s.table[i].Slot() !in DroppedSlots(s.table, e.wait)
    requires Departing(d, s.table, s.table[i].app) == {} && FirstStaleNotReady(d, x.cleared, s.table[i].app).None?
    ensures s.table[i].Slot() in SlotsReady(x.cleared, s.table[i].app)
  {
    var j: nat :| j < |s.table| && j != i && s.table[j].Slot() == s.table[i].Slot() && s.table[j].Running();
    var q := OtherRunsOn(s, d, e, x, i, j);
    OtherIsStale(d, s.table, i, j);
    IsDeparting(d, s.table, j);
    assert !StaleNotReady(d, s.table[i].app, x.cleared[q]);
    SlotReadyIff(x.cleared, s.table[i].app, s.table[i].Slot());
  }

  lemma UpSlotReady(s: State, d: Desired, e: Env, x: Passage, i: nat)
    requires Passes(s, d, e, x) && Bearable(s, d, e) && i < |s.table| && Up(s.table[i]) && UpToDate(d, s.table[i]) && !Excused(s.m, s.table, i)
    requires s.table[i].Slot() !in DroppedSlots(s.table, e.wait)
    ensures s.table[i].Slot() in SlotsReady(x.cleared, s.table[i].app)
  {
    var p := UpToGate(s, d, e, x, i);
    SlotReadyIff(x.cleared, s.table[i].app, s.table[i].Slot());
  }

  /** Then every slot of a served app has a Ready instance when the roll looks, if the stale ones are Ready. */
  lemma SlotHasReady(s: State, d: Desired, e: Env, x: Passage, k: Key)
    requires Passes(s, d, e, x) && Bearable(s, d, e) && Underway(d, s.table) && Served(s.m, d, s.table, k.app) && k in d
    requires Departing(d, s.table, k.app) == {} && FirstStaleNotReady(d, x.cleared, k.app).None?
    ensures k in SlotsReady(x.cleared, k.app)
  {
    NothingLost(d, s.table, e, k);
    assert HasStaying(d, s.table, k);
    var i: nat :| i < |s.table| && s.table[i].Slot() == k && Stays(d, s.table[i]);
    if Excused(s.m, s.table, i) {
      ExcusedSlotReady(s, d, e, x, i);
    } else {
      UpSlotReady(s, d, e, x, i);
    }
  }

  /** Ready slots are at most as many as Ready records. */
  lemma {:induction false} SlotsAtMost(t: Table, app: string)
    ensures |SlotsReady(t, app)| <= ReadyCount(t, app)
  {
    if t == [] {
      assert SlotsReady(t, app) == {};
    } else {
      var front, r := t[..|t| - 1], t[|t| - 1];
      SlotsAtMost(front, app);
      assert t == front + [r];
      SlotsReadyMore(front, r, app);
      UnionBound(SlotsReady(front, app), if ReadyFor(app, r) then {r.Slot()} else {});
    }
  }

  lemma SubsetCount<T(!new)>(a: set<T>, b: set<T>)
    requires a <= b
    ensures |a| <= |b|
  {
    assert b == a + (b - a);
  }

  lemma ServedCount(s: State, d: Desired, e: Env, x: Passage, app: string)
    requires Passes(s, d, e, x) && Bearable(s, d, e) && Underway(d, s.table) && Served(s.m, d, s.table, app)
    requires Departing(d, s.table, app) == {} && FirstStaleNotReady(d, x.cleared, app).None?
    ensures ReadyCount(x.cleared, app) >= |SlotsOf(d, app)|
  {
    forall k | k in SlotsOf(d, app) ensures k in SlotsReady(x.cleared, app) {
      SlotHasReady(s, d, e, x, k);
    }
    SubsetCount(SlotsOf(d, app), SlotsReady(x.cleared, app));
    SlotsAtMost(x.cleared, app);
  }

  /** Without surge, the next tick then stops a stale instance of a served app. */
  lemma QuietFalls(s: State, d: Desired, e: Env, x: Passage, app: string)
    requires Passes(s, d, e, x) && Bearable(s, d, e) && Underway(d, s.table) && Served(s.m, d, s.table, app)
    requires app in s.selected && s.m.defaults.maxSurge == 0 && |SlotsOf(d, app)| == Replicas(s.m, app)
    requires Departing(d, s.table, app) == {} && StaleCount(d, s.table, app) > 0
    ensures StaleCount(d, x.end, app) < StaleCount(d, s.table, app)
  {
    StaleFalls(s, d, e, x, app);
    if StaleCount(d, x.cleared, app) > 0 {
      if FirstStaleNotReady(d, x.cleared, app).None? {
        ServedCount(s, d, e, x, app);
      }
      RollFinds(s.m, d, x.cleared, app);
    }
  }

  /** With surge, it stops all of them. */
  lemma ServedRetires(s: State, d: Desired, e: Env, x: Passage, app: string)
    requires Passes(s, d, e, x) && Bearable(s, d, e) && Underway(d, s.table) && Served(s.m, d, s.table, app) && s.m.defaults.maxSurge > 0
    ensures StaleCount(d, x.end, app) == 0
  {
    assert Steadfast(s, e) && Warm(d, s.table, app);
    WarmRetires(s, d, e, x, app);
  }

  // ----- one app over several ticks -----

  /**
   * What has become of an app since its table was `t0`: nothing yet, or it has lost stale
   * instances if it was served and none were leaving, or if the manifest allows surge.
   */
  ghost predicate Since(m: Manifest, d: Desired, t0: Table, t: Table, app: string, ticked: bool) {
    && (!ticked ==> t == t0)
    && StaleCount(d, t, app) <= StaleCount(d, t0, app)
    && (Served(m, d, t0, app) ==> Served(m, d, t, app))
    && (ticked && m.defaults.maxSurge == 0 && Served(m, d, t0, app) && Departing(d, t0, app) == {} && StaleCount(d, t0, app) > 0 ==>
          StaleCount(d, t, app) < StaleCount(d, t0, app))
    && (ticked && m.defaults.maxSurge > 0 && Served(m, d, t0, app) ==> StaleCount(d, t, app) == 0)
  }

  lemma TickSince(hasher: Hasher, s: State, e: Env, x: Passage, t0: Table, app: string, ticked: bool)
    requires Passes(s, DesiredIn(hasher, s), e, x) && Bearable(s, DesiredIn(hasher, s), e) && Underway(DesiredIn(hasher, s), s.table)
    requires app in s.selected && Open(x.filled, app)
    requires Since(s.m, DesiredIn(hasher, s), t0, s.table, app, ticked)
    ensures Since(s.m, DesiredIn(hasher, s), t0, x.end, app, true)
  {
    var d := DesiredIn(hasher, s);
    StaleFalls(s, d, e, x, app);
    if Served(s.m, d, s.table, app) {
      TickServes(s, d, e, x, app);
      if s.m.defaults.maxSurge > 0 {
        ServedRetires(s, d, e, x, app);
      } else if Departing(d, s.table, app) == {} && StaleCount(d, s.table, app) > 0 {
        SlotsOfApp(hasher, s, app);
        QuietFalls(s, d, e, x, app);
      }
    }
  }

  // ----- every step of the run -----

  /** In every tick from state `a` to state `b` nothing exits that need not, and the rest goes well. */
  ghost predicate AllBearable(hasher: Hasher, ss: seq<State>, steps: seq<Step>, a: nat, b: nat)
    requires b < |ss| == |steps| + 1
  {
    forall k {:trigger steps[k]} :: a <= k < b && steps[k].Ticked? ==> Bearable(ss[k], DesiredIn(hasher, ss[k]), steps[k].e)
  }

  /** Nothing that stays, and has its slot to itself, keeps the roll waiting in this tick. */
  ghost predicate RipeAloneTick(hasher: Hasher, s: State, e: Env) {
    forall app :: RipeAlone(s.m, DesiredIn(hasher, s), s.table, e, app)
  }

  /** Underway, and nothing fails but what the roll takes down. */
  ghost predicate OnTheWay(hasher: Hasher, s: State, ports: map<Key, nat>) {
    LoopOk(s) && ChecksPass(s.checksOk) && Underway(DesiredIn(hasher, s), s.table) && s.ports == ports
  }

  lemma OnTheWayCanRoll(hasher: Hasher, s: State, e: Env, ports: map<Key, nat>)
    requires OnTheWay(hasher, s, ports) && Bearable(s, DesiredIn(hasher, s), e)
    ensures CanRoll(hasher, s, e)
  {
    var d := DesiredIn(hasher, s);
    forall k | k in d ensures HasHash(s.table, k, d[k].hash) {
      assert HasStaying(d, s.table, k);
    }
  }

  lemma OnTheWayPasses(hasher: Hasher, s: State, e: Env, ports: map<Key, nat>) returns (x: Passage)
    requires OnTheWay(hasher, s, ports) && Bearable(s, DesiredIn(hasher, s), e)
    ensures Passes(s, DesiredIn(hasher, s), e, x) && x.end == Tick(hasher, s, e).table
    ensures DesiredIn(hasher, Tick(hasher, s, e)) == DesiredIn(hasher, s)
  {
    OnTheWayCanRoll(hasher, s, e, ports);
    TickWants(hasher, s, e);
    x := TickPasses(hasher, s, e);
  }

  lemma TickOnTheWay(hasher: Hasher, s: State, e: Env, ports: map<Key, nat>)
    requires OnTheWay(hasher, s, ports) && Bearable(s, DesiredIn(hasher, s), e)
    ensures OnTheWay(hasher, Tick(hasher, s, e), ports)
  {
    OnTheWayCanRoll(hasher, s, e, ports);
    TickWants(hasher, s, e);
    var x := TickPasses(hasher, s, e);
    EndUnderway(s, DesiredIn(hasher, s), e, x);
    TickKeepsConfig(hasher, s, e);
    TickKeepsOk(hasher, s, e);
  }

  lemma StepOnTheWay(hasher: Hasher, s: State, step: Step, s': State, ports: map<Key, nat>)
    requires Leads(hasher, s, step, s') && SameConfig(s, s') && OnTheWay(hasher, s, ports)
    requires step.Ticked? ==> Bearable(s, DesiredIn(hasher, s), step.e)
    ensures OnTheWay(hasher, s', ports) && DesiredIn(hasher, s') == DesiredIn(hasher, s)
  {
    match step
    case Ticked(e) =>
      TickOnTheWay(hasher, s, e, ports);
      var x := OnTheWayPasses(hasher, s, e, ports);
    case Reloaded(o) => ReloadChanges(s, o);
  }

  lemma StepRenewed(hasher: Hasher, s: State, step: Step, s': State, ports: map<Key, nat>, app: string)
    requires Leads(hasher, s, step, s') && SameConfig(s, s') && OnTheWay(hasher, s, ports)
    requires step.Ticked? ==> Bearable(s, DesiredIn(hasher, s), step.e)
    requires Renewed(DesiredIn(hasher, s), s.table, app)
    ensures Renewed(DesiredIn(hasher, s), s'.table, app)
  {
    match step
    case Ticked(e) =>
      var x := OnTheWayPasses(hasher, s, e, ports);
      RenewedStays(s, DesiredIn(hasher, s), e, x, app);
    case Reloaded(o) => ReloadChanges(s, o);
  }

  /** The app's app dependencies are renewed. */
  ghost predicate DependenciesRenewed(hasher: Hasher, s: State, app: string) {
    && app in s.selected && s.m.Has(app)
    && forall dep :: dep in s.m.Lookup(app).value.dependsOn && s.m.Has(dep) ==>
         dep in s.selected && Renewed(DesiredIn(hasher, s), s.table, dep)
  }

  lemma OpensFor(hasher: Hasher, s: State, e: Env, x: Passage, ports: map<Key, nat>, app: string)
    requires OnTheWay(hasher, s, ports) && Bearable(s, DesiredIn(hasher, s), e) && Passes(s, DesiredIn(hasher, s), e, x) && DependenciesRenewed(hasher, s, app)
    ensures Open(x.filled, app)
  {
    forall dep | dep in s.m.Lookup(app).value.dependsOn && s.m.Has(dep) ensures dep in ReadyApps(x.filled.table) {
      FirstSlotDesired(hasher, s, dep);
      RenewedOpens(s, DesiredIn(hasher, s), e, x, dep);
    }
    GateFromReady(x, s.m, app);
  }

  lemma StepSince(hasher: Hasher, s: State, step: Step, s': State, ports: map<Key, nat>, t0: Table, app: string, ticked: bool)
    requires Leads(hasher, s, step, s') && OnTheWay(hasher, s, ports) && DependenciesRenewed(hasher, s, app)
    requires step.Ticked? ==> Bearable(s, DesiredIn(hasher, s), step.e)
    requires Since(s.m, DesiredIn(hasher, s), t0, s.table, app, ticked)
    ensures Since(s.m, DesiredIn(hasher, s), t0, s'.table, app, ticked || step.Ticked?)
  {
    match step
    case Ticked(e) =>
      var x := OnTheWayPasses(hasher, s, e, ports);
      OpensFor(hasher, s, e, x, ports, app);
      TickSince(hasher, s, e, x, t0, app, ticked);
    case Reloaded(o) => ReloadChanges(s, o);
  }

  /** After a ripe tick the app is served. */
  lemma RipeTickServes(hasher: Hasher, s: State, e: Env, ports: map<Key, nat>, app: string)
    requires OnTheWay(hasher, s, ports) && Bearable(s, DesiredIn(hasher, s), e) && DependenciesRenewed(hasher, s, app) && RipeAloneTick(hasher, s, e)
    ensures Served(s.m, DesiredIn(hasher, s), Tick(hasher, s, e).table, app)
  {
    var x := OnTheWayPasses(hasher, s, e, ports);
    OpensFor(hasher, s, e, x, ports, app);
    TickServes(s, DesiredIn(hasher, s), e, x, app);
  }

  /** If an app loses no stale instance in a step, what is leaving was leaving before, and has not exited. */
  ghost predicate DepartsOn(d: Desired, t: Table, t': Table, step: Step, app: string) {
    && StaleCount(d, t', app) <= StaleCount(d, t, app)
    && (StaleCount(d, t', app) == StaleCount(d, t, app) ==>
          forall pid :: pid in Departing(d, t', app) ==> pid in Departing(d, t, app) && (step.Ticked? ==> !step.e.wait(pid).Exited?))
  }

  lemma StepDeparting(hasher: Hasher, s: State, step: Step, s': State, ports: map<Key, nat>, app: string)
    requires Leads(hasher, s, step, s') && OnTheWay(hasher, s, ports)
    requires step.Ticked? ==> Bearable(s, DesiredIn(hasher, s), step.e)
    ensures DepartsOn(DesiredIn(hasher, s), s.table, s'.table, step, app)
  {
    var d := DesiredIn(hasher, s);
    match step
    case Ticked(e) =>
      var x := OnTheWayPasses(hasher, s, e, ports);
      StaleFalls(s, d, e, x, app);
      if StaleCount(d, x.end, app) == StaleCount(d, s.table, app) {
        forall pid | pid in Departing(d, x.end, app) ensures pid in Departing(d, s.table, app) && !e.wait(pid).Exited? {
          DepartingFrom(s, d, e, x, app, pid);
        }
      }
    case Reloaded(o) => ReloadChanges(s, o);
  }

  lemma StepStrays(hasher: Hasher, s: State, step: Step, s': State, ports: map<Key, nat>, pid: Pid)
    requires Leads(hasher, s, step, s') && OnTheWay(hasher, s, ports) && pid in Strays(DesiredIn(hasher, s), s'.table)
    requires step.Ticked? ==> Bearable(s, DesiredIn(hasher, s), step.e)
    ensures pid in Strays(DesiredIn(hasher, s), s.table) && (step.Ticked? ==> !step.e.wait(pid).Exited?)
  {
    match step
    case Ticked(e) =>
      var x := OnTheWayPasses(hasher, s, e, ports);
      StrayFrom(s, DesiredIn(hasher, s), e, x, pid);
    case Reloaded(o) => ReloadChanges(s, o);
  }

  // ----- stretches of a run -----

  /** From state `a`, which is on the way, to state `b` nothing is edited and nothing fails. */
  ghost predicate Stretch(hasher: Hasher, ss: seq<State>, steps: seq<Step>, a: nat, b: nat) {
    && IsRun(hasher, ss, steps) && a <= b < |ss| && Unedited(ss, a, b) && AllBearable(hasher, ss, steps, a, b)
    && OnTheWay(hasher, ss[a], ss[a].ports)
  }

  lemma RunStepOnTheWay(hasher: Hasher, ss: seq<State>, steps: seq<Step>, a: nat, b: nat, n: nat)
    requires Stretch(hasher, ss, steps, a, b) && a <= n < b && OnTheWay(hasher, ss[n], ss[a].ports)
    ensures OnTheWay(hasher, ss[n + 1], ss[a].ports)
  {
    assert LeadsAt(hasher, ss, steps, n);
    StepOnTheWay(hasher, ss[n], steps[n], ss[n + 1], ss[a].ports);
  }

  lemma OnTheWayAt(hasher: Hasher, ss: seq<State>, steps: seq<Step>, a: nat, b: nat, n: nat)
    requires Stretch(hasher, ss, steps, a, b) && a <= n <= b
    ensures OnTheWay(hasher, ss[n], ss[a].ports) && SameConfig(ss[a], ss[n]) && DesiredIn(hasher, ss[n]) == DesiredIn(hasher, ss[a])
  {
    var ports := ss[a].ports;
    forall j: nat | a <= j < n && OnTheWay(hasher, ss[j], ports) ensures OnTheWay(hasher, ss[j + 1], ports) {
      RunStepOnTheWay(hasher, ss, steps, a, b, j);
    }
    AlongStates(ss, (s: State, j: nat) => OnTheWay(hasher, s, ports), a, n);
  }

  /** What one step of a stretch does. */
  ghost predicate Goes(hasher: Hasher, s: State, step: Step, s': State, ports: map<Key, nat>) {
    Leads(hasher, s, step, s') && SameConfig(s, s') && OnTheWay(hasher, s, ports) && (step.Ticked? ==> Bearable(s, DesiredIn(hasher, s), step.e))
  }

  lemma StretchGoes(hasher: Hasher, ss: seq<State>, steps: seq<Step>, a: nat, b: nat, n: nat)
    requires Stretch(hasher, ss, steps, a, b) && a <= n < b
    ensures Goes(hasher, ss[n], steps[n], ss[n + 1], ss[a].ports) && DesiredIn(hasher, ss[n]) == DesiredIn(hasher, ss[a])
    ensures ss[n + 1].tick == ss[n].tick + if steps[n].Ticked? then 1 else 0
  {
    OnTheWayAt(hasher, ss, steps, a, b, n);
    assert LeadsAt(hasher, ss, steps, n);
    StepCounts(hasher, ss[n], steps[n], ss[n + 1]);
  }

  lemma SubStretch(hasher: Hasher, ss: seq<State>, steps: seq<Step>, a: nat, b: nat, x: nat, y: nat)
    requires Stretch(hasher, ss, steps, a, b) && a <= x <= y <= b
    ensures Stretch(hasher, ss, steps, x, y) && DesiredIn(hasher, ss[x]) == DesiredIn(hasher, ss[a]) && SameConfig(ss[a], ss[x])
    ensures ss[x].ports == ss[a].ports
  {
    OnTheWayAt(hasher, ss, steps, a, b, x);
  }

  lemma RenewedAlong(hasher: Hasher, ss: seq<State>, steps: seq<Step>, a: nat, b: nat, n: nat, app: string)
    requires Stretch(hasher, ss, steps, a, b) && a <= n <= b && Renewed(DesiredIn(hasher, ss[a]), ss[a].table, app)
    ensures Renewed(DesiredIn(hasher, ss[a]), ss[n].table, app)
  {
    var d := DesiredIn(hasher, ss[a]);
    forall j: nat | a <= j < n && Renewed(d, ss[j].table, app) ensures Renewed(d, ss[j + 1].table, app) {
      StretchGoes(hasher, ss, steps, a, b, j);
      StepRenewed(hasher, ss[j], steps[j], ss[j + 1], ss[a].ports, app);
    }
    AlongStates(ss, (s: State, j: nat) => Renewed(d, s.table, app), a, n);
  }

  lemma DependenciesAlong(hasher: Hasher, ss: seq<State>, steps: seq<Step>, a: nat, b: nat, n: nat, app: string)
    requires Stretch(hasher, ss, steps, a, b) && a <= n <= b && DependenciesRenewed(hasher, ss[a], app)
    ensures DependenciesRenewed(hasher, ss[n], app)
  {
    OnTheWayAt(hasher, ss, steps, a, b, n);
    forall dep | dep in ss[n].m.Lookup(app).value.dependsOn && ss[n].m.Has(dep)
      ensures dep in ss[n].selected && Renewed(DesiredIn(hasher, ss[n]), ss[n].table, dep)
    {
      RenewedAlong(hasher, ss, steps, a, b, n, dep);
    }
  }

  lemma SinceAlong(hasher: Hasher, ss: seq<State>, steps: seq<Step>, a: nat, b: nat, n: nat, app: string)
    requires Stretch(hasher, ss, steps, a, b) && a <= n <= b && DependenciesRenewed(hasher, ss[a], app)
    ensures Since(ss[a].m, DesiredIn(hasher, ss[a]), ss[a].table, ss[n].table, app, ss[n].tick > ss[a].tick)
  {
    var m, d, t0, start := ss[a].m, DesiredIn(hasher, ss[a]), ss[a].table, ss[a].tick;
    forall j: nat | a <= j < n && SinceAt(m, d, t0, start, ss[j], app) ensures SinceAt(m, d, t0, start, ss[j + 1], app) {
      RunStepSince(hasher, ss, steps, a, b, j, app);
    }
    AlongStates(ss, (s: State, j: nat) => SinceAt(m, d, t0, start, s, app), a, n);
  }

  ghost predicate SinceAt(m: Manifest, d: Desired, t0: Table, start: nat, s: State, app: string) {
    s.tick >= start && Since(m, d, t0, s.table, app, s.tick > start)
  }

  lemma RunStepSince(hasher: Hasher, ss: seq<State>, steps: seq<Step>, a: nat, b: nat, j: nat, app: string)
    requires Stretch(hasher, ss, steps, a, b) && a <= j < b && DependenciesRenewed(hasher, ss[a], app)
    requires SinceAt(ss[a].m, DesiredIn(hasher, ss[a]), ss[a].table, ss[a].tick, ss[j], app)
    ensures SinceAt(ss[a].m, DesiredIn(hasher, ss[a]), ss[a].table, ss[a].tick, ss[j + 1], app)
  {
    OnTheWayAt(hasher, ss, steps, a, b, j);
    StretchGoes(hasher, ss, steps, a, b, j);
    DependenciesAlong(hasher, ss, steps, a, b, j, app);
    StepSince(hasher, ss[j], steps[j], ss[j + 1], ss[a].ports, ss[a].table, app, ss[j].tick > ss[a].tick);
  }

  // ----- windows -----

  ghost predicate ExitedIn(steps: seq<Step>, a: nat, b: nat, pid: Pid) {
    exists k {:trigger steps[k]} :: a <= k < b && k < |steps| && steps[k].Ticked? && steps[k].e.wait(pid).Exited?
  }

  ghost predicate DepartingSince(d: Desired, t0: Table, t: Table, steps: seq<Step>, a: nat, n: nat, app: string) {
    && StaleCount(d, t, app) <= StaleCount(d, t0, app)
    && (StaleCount(d, t, app) == StaleCount(d, t0, app) ==>
          forall pid :: pid in Departing(d, t, app) ==> pid in Departing(d, t0, app) && !ExitedIn(steps, a, n, pid))
  }

  lemma ExitedOneMore(steps: seq<Step>, a: nat, n: nat, pid: Pid)
    requires n < |steps| && !ExitedIn(steps, a, n, pid) && (steps[n].Ticked? ==> !steps[n].e.wait(pid).Exited?)
    ensures !ExitedIn(steps, a, n + 1, pid)
  {
  }

  lemma DepartingNext(d: Desired, t0: Table, t: Table, t': Table, steps: seq<Step>, a: nat, j: nat, app: string)
    requires j < |steps| && DepartingSince(d, t0, t, steps, a, j, app) && DepartsOn(d, t, t', steps[j], app)
    ensures DepartingSince(d, t0, t', steps, a, j + 1, app)
  {
  }

  lemma RunStepDeparting(hasher: Hasher, ss: seq<State>, steps: seq<Step>, a: nat, b: nat, j: nat, app: string)
    requires Stretch(hasher, ss, steps, a, b) && a <= j < b
    requires DepartingSince(DesiredIn(hasher, ss[a]), ss[a].table, ss[j].table, steps, a, j, app)
    ensures DepartingSince(DesiredIn(hasher, ss[a]), ss[a].table, ss[j + 1].table, steps, a, j + 1, app)
  {
    StretchGoes(hasher, ss, steps, a, b, j);
    StepDeparting(hasher, ss[j], steps[j], ss[j + 1], ss[a].ports, app);
    DepartingNext(DesiredIn(hasher, ss[a]), ss[a].table, ss[j].table, ss[j + 1].table, steps, a, j, app);
  }

  lemma DepartingAlong(hasher: Hasher, ss: seq<State>, steps: seq<Step>, a: nat, b: nat, app: string)
    requires Stretch(hasher, ss, steps, a, b)
    ensures DepartingSince(DesiredIn(hasher, ss[a]), ss[a].table, ss[b].table, steps, a, b, app)
  {
    var d, t0 := DesiredIn(hasher, ss[a]), ss[a].table;
    forall j: nat | a <= j < b && DepartingSince(d, t0, ss[j].table, steps, a, j, app) ensures DepartingSince(d, t0, ss[j + 1].table, steps, a, j + 1, app) {
      RunStepDeparting(hasher, ss, steps, a, b, j, app);
    }
    AlongStates(ss, (s: State, j: nat) => DepartingSince(d, t0, s.table, steps, a, j, app), a, b);
  }

  ghost predicate StraysSince(d: Desired, t0: Table, t: Table, steps: seq<Step>, a: nat, n: nat) {
    forall pid :: pid in Strays(d, t) ==> pid in Strays(d, t0) && !ExitedIn(steps, a, n, pid)
  }

  lemma RunStepStrays(hasher: Hasher, ss: seq<State>, steps: seq<Step>, a: nat, b: nat, j: nat)
    requires Stretch(hasher, ss, steps, a, b) && a <= j < b
    requires StraysSince(DesiredIn(hasher, ss[a]), ss[a].table, ss[j].table, steps, a, j)
    ensures StraysSince(DesiredIn(hasher, ss[a]), ss[a].table, ss[j + 1].table, steps, a, j + 1)
  {
    var d, t := DesiredIn(hasher, ss[a]), ss[j + 1].table;
    StretchGoes(hasher, ss, steps, a, b, j);
    forall pid | pid in Strays(d, t) ensures pid in Strays(d, ss[a].table) && !ExitedIn(steps, a, j + 1, pid) {
      StepStrays(hasher, ss[j], steps[j], ss[j + 1], ss[a].ports, pid);
      ExitedOneMore(steps, a, j, pid);
    }
  }

  lemma StraysAlong(hasher: Hasher, ss: seq<State>, steps: seq<Step>, a: nat, b: nat)
    requires Stretch(hasher, ss, steps, a, b)
    ensures StraysSince(DesiredIn(hasher, ss[a]), ss[a].table, ss[b].table, steps, a, b)
  {
    var d, t0 := DesiredIn(hasher, ss[a]), ss[a].table;
    forall j: nat | a <= j < b && StraysSince(d, t0, ss[j].table, steps, a, j) ensures StraysSince(d, t0, ss[j + 1].table, steps, a, j + 1) {
      RunStepStrays(hasher, ss, steps, a, b, j);
    }
    AlongStates(ss, (s: State, j: nat) => StraysSince(d, t0, s.table, steps, a, j), a, b);
  }

  /** Every process being stopped at state `x` has exited by state `y`. */
  ghost predicate AllExit(ss: seq<State>, steps: seq<Step>, x: nat, y: nat)
    requires x < |ss|
  {
    forall i :: 0 <= i < |ss[x].table| && Outgoing(ss[x].table[i]) ==> ExitedIn(steps, x, y, ss[x].table[i].handle.value.pid)
  }

  /** In between, nothing keeps the roll waiting for one tick at least. */
  ghost predicate Ripens(hasher: Hasher, ss: seq<State>, steps: seq<Step>, x: nat, y: nat) {
    exists k: nat :: x <= k < y && RipensAt(hasher, ss, steps, k)
  }

  ghost predicate RipensAt(hasher: Hasher, ss: seq<State>, steps: seq<Step>, k: nat) {
    k < |ss| && k < |steps| && steps[k].Ticked? && RipeAloneTick(hasher, ss[k], steps[k].e)
  }

  lemma WindowClears(hasher: Hasher, ss: seq<State>, steps: seq<Step>, x: nat, y: nat, app: string)
    requires Stretch(hasher, ss, steps, x, y) && AllExit(ss, steps, x, y)
    ensures var d := DesiredIn(hasher, ss[x]);
            && StaleCount(d, ss[y].table, app) <= StaleCount(d, ss[x].table, app)
            && (StaleCount(d, ss[y].table, app) == StaleCount(d, ss[x].table, app) ==> Departing(d, ss[y].table, app) == {})
  {
    var d := DesiredIn(hasher, ss[x]);
    DepartingAlong(hasher, ss, steps, x, y, app);
    forall pid | pid in Departing(d, ss[x].table, app) ensures ExitedIn(steps, x, y, pid) {
    }
  }

  lemma WindowClearsStrays(hasher: Hasher, ss: seq<State>, steps: seq<Step>, x: nat, y: nat)
    requires Stretch(hasher, ss, steps, x, y) && AllExit(ss, steps, x, y)
    ensures Strays(DesiredIn(hasher, ss[x]), ss[y].table) == {}
  {
    StraysAlong(hasher, ss, steps, x, y);
    forall pid | pid in Strays(DesiredIn(hasher, ss[x]), ss[x].table) ensures ExitedIn(steps, x, y, pid) {
    }
  }

  lemma ServedAfter(hasher: Hasher, ss: seq<State>, steps: seq<Step>, x: nat, y: nat, k: nat, app: string)
    requires Stretch(hasher, ss, steps, x, y) && DependenciesRenewed(hasher, ss[x], app)
    requires x <= k < y && RipensAt(hasher, ss, steps, k)
    ensures Served(ss[x].m, DesiredIn(hasher, ss[x]), ss[k + 1].table, app)
  {
    StretchGoes(hasher, ss, steps, x, y, k);
    RunTick(hasher, ss, steps, k);
    DependenciesAlong(hasher, ss, steps, x, y, k, app);
    RipeTickServes(hasher, ss[k], steps[k].e, ss[x].ports, app);
  }

  lemma StaysServed(hasher: Hasher, ss: seq<State>, steps: seq<Step>, x: nat, y: nat, n: nat, app: string)
    requires Stretch(hasher, ss, steps, x, y) && DependenciesRenewed(hasher, ss[x], app)
    requires x <= n <= y && Served(ss[x].m, DesiredIn(hasher, ss[x]), ss[n].table, app)
    ensures Served(ss[x].m, DesiredIn(hasher, ss[x]), ss[y].table, app)
  {
    DependenciesAlong(hasher, ss, steps, x, y, n, app);
    SubStretch(hasher, ss, steps, x, y, n, y);
    SinceAlong(hasher, ss, steps, n, y, y, app);
  }

  lemma ServedFrom(hasher: Hasher, ss: seq<State>, steps: seq<Step>, x: nat, y: nat, k: nat, app: string)
    requires Stretch(hasher, ss, steps, x, y) && DependenciesRenewed(hasher, ss[x], app)
    requires x <= k < y && RipensAt(hasher, ss, steps, k)
    ensures Served(ss[x].m, DesiredIn(hasher, ss[x]), ss[y].table, app)
  {
    var n := k + 1;
    ServedAfter(hasher, ss, steps, x, y, k, app);
    StaysServed(hasher, ss, steps, x, y, n, app);
  }

  /** After a window every app whose dependencies are renewed is served. */
  lemma WindowServes(hasher: Hasher, ss: seq<State>, steps: seq<Step>, x: nat, y: nat, app: string)
    requires Stretch(hasher, ss, steps, x, y) && Ripens(hasher, ss, steps, x, y) && DependenciesRenewed(hasher, ss[x], app)
    ensures Served(ss[x].m, DesiredIn(hasher, ss[x]), ss[y].table, app)
  {
    var k: nat :| x <= k < y && RipensAt(hasher, ss, steps, k);
    ServedFrom(hasher, ss, steps, x, y, k, app);
  }

  /** In a window every stopped process exits, and at least one tick is ripe. */
  ghost predicate Window(hasher: Hasher, ss: seq<State>, steps: seq<Step>, x: nat, y: nat) {
    Stretch(hasher, ss, steps, x, y) && AllExit(ss, steps, x, y) && Ripens(hasher, ss, steps, x, y)
  }

  lemma TickBetween(hasher: Hasher, ss: seq<State>, steps: seq<Step>, x: nat, y: nat, k: nat)
    requires IsRun(hasher, ss, steps) && x <= k < y < |ss| && steps[k].Ticked?
    ensures ss[y].tick > ss[x].tick
  {
    var n := k + 1;
    OneStepCounts(hasher, ss, steps, k);
    TicksGrow(hasher, ss, steps, x, k);
    TicksGrow(hasher, ss, steps, n, y);
  }

  lemma WindowTicks(hasher: Hasher, ss: seq<State>, steps: seq<Step>, x: nat, y: nat)
    requires Window(hasher, ss, steps, x, y)
    ensures ss[y].tick > ss[x].tick
  {
    var k: nat :| x <= k < y && RipensAt(hasher, ss, steps, k);
    TickBetween(hasher, ss, steps, x, y, k);
  }

  // ----- the bound -----

  /** The rank an app is allowed after `n` windows in which it was served. */
  function Allowed(m: Manifest, most: nat, n: nat): nat {
    if m.defaults.maxSurge > 0 then (if n == 0 then 2 * most + 1 else if n == 1 then 1 else 0)
    else if n > 2 * most then 0 else 2 * most + 1 - n
  }

  lemma AllowedEnds(m: Manifest, most: nat)
    ensures Allowed(m, most, Span(m, 2 * most) + 1) == 0
  {
  }

  /** What a window makes of an app whose dependencies are renewed. */
  ghost predicate Ended(m: Manifest, d: Desired, t0: Table, t: Table, app: string) {
    && Since(m, d, t0, t, app, true) && Served(m, d, t, app)
    && (StaleCount(d, t, app) == StaleCount(d, t0, app) ==> Departing(d, t, app) == {})
  }

  lemma WindowEnds(hasher: Hasher, ss: seq<State>, steps: seq<Step>, x: nat, y: nat, app: string)
    requires Window(hasher, ss, steps, x, y) && DependenciesRenewed(hasher, ss[x], app)
    ensures Ended(ss[x].m, DesiredIn(hasher, ss[x]), ss[x].table, ss[y].table, app)
  {
    WindowTicks(hasher, ss, steps, x, y);
    SinceAlong(hasher, ss, steps, x, y, y, app);
    WindowClears(hasher, ss, steps, x, y, app);
    WindowServes(hasher, ss, steps, x, y, app);
  }

  /** How far an app is `since` windows after its dependencies were renewed. */
  ghost predicate Ranks(s: State, d: Desired, most: nat, since: int, app: string) {
    since > 0 ==> Served(s.m, d, s.table, app) && Rank(d, s.table, app) <= Allowed(s.m, most, since - 1)
  }

  /** How far an app of depth `k` is after `n` windows. */
  ghost predicate InTime(s: State, d: Desired, most: nat, n: nat, app: string, k: nat) {
    (app in s.selected && k > 0 && DepthAtMost(AppsOf(s), app, k)) ==> Ranks(s, d, most, n - Enough(k - 1, Span(s.m, 2 * most)), app)
  }

  ghost predicate AllInTime(s: State, d: Desired, most: nat, n: nat) {
    && (n > 0 ==> Strays(d, s.table) == {})
    && (forall app :: StaleCount(d, s.table, app) <= most)
    && (forall app, k: nat :: InTime(s, d, most, n, app, k))
  }

  lemma InTimeAt(s: State, d: Desired, most: nat, n: nat, app: string, k: nat)
    requires AllInTime(s, d, most, n) && app in s.selected && k > 0 && DepthAtMost(AppsOf(s), app, k)
    ensures Ranks(s, d, most, n - Enough(k - 1, Span(s.m, 2 * most)), app)
  {
    assert InTime(s, d, most, n, app, k);
  }

  /** An app is allowed no rank after that many windows. */
  lemma RenewedInTime(s: State, d: Desired, most: nat, n: nat, app: string, k: nat)
    requires Underway(d, s.table) && AllInTime(s, d, most, n) && app in s.selected && k > 0 && DepthAtMost(AppsOf(s), app, k)
    requires n >= Enough(k, Span(s.m, 2 * most))
    ensures Renewed(d, s.table, app)
  {
    InTimeAt(s, d, most, n, app, k);
    AllowedEnds(s.m, most);
    AllowedFalls(s.m, most, Span(s.m, 2 * most) + 1, n - Enough(k - 1, Span(s.m, 2 * most)) - 1);
    RankZero(s.m, d, s.table, app);
  }

  lemma AllowedFalls(m: Manifest, most: nat, n: nat, n': nat)
    requires n <= n'
    ensures Allowed(m, most, n') <= Allowed(m, most, n)
  {
  }

  /** Once an app's dependencies have had their windows, they are renewed. */
  lemma DependenciesInTime(hasher: Hasher, s: State, most: nat, n: nat, app: string, k: nat)
    requires LoopOk(s) && Underway(DesiredIn(hasher, s), s.table) && AllInTime(s, DesiredIn(hasher, s), most, n)
    requires app in s.selected && k > 0 && DepthAtMost(AppsOf(s), app, k) && n >= Enough(k - 1, Span(s.m, 2 * most))
    ensures DependenciesRenewed(hasher, s, app)
  {
    assert s.m.Has(app);
    forall dep | dep in s.m.Lookup(app).value.dependsOn && s.m.Has(dep)
      ensures dep in s.selected && Renewed(DesiredIn(hasher, s), s.table, dep)
    {
      SelectedDependency(s.m, s.selected, app, dep);
      DepthOfDependency(s.m, app, dep, k);
      RenewedInTime(s, DesiredIn(hasher, s), most, n, dep, k - 1);
    }
  }

  /** One window on: the app is served, and its rank has fallen. */
  lemma RankFalls(s: State, d: Desired, t: Table, app: string, most: nat, since: nat)
    requires Ended(s.m, d, s.table, t, app) && StaleCount(d, s.table, app) <= most
    requires Ranks(s, d, most, since, app)
    ensures Served(s.m, d, t, app) && Rank(d, t, app) <= Allowed(s.m, most, since)
  {
  }

  /** The app's dependencies have had their windows. */
  ghost predicate TimeFor(s: State, most: nat, n: nat, app: string, k: nat) {
    app in s.selected && k > 0 && DepthAtMost(AppsOf(s), app, k) && n >= Enough(k - 1, Span(s.m, 2 * most))
  }

  lemma NextInTime(s: State, t: Table, d: Desired, most: nat, n: nat, app: string, k: nat)
    requires TimeFor(s, most, n, app, k) && Ended(s.m, d, s.table, t, app)
    requires InTime(s, d, most, n, app, k) && StaleCount(d, s.table, app) <= most
    ensures InTime(s.(table := t), d, most, n + 1, app, k)
  {
    RankFalls(s, d, t, app, most, n - Enough(k - 1, Span(s.m, 2 * most)));
  }

  lemma NotYetInTime(s: State, t: Table, d: Desired, most: nat, n: nat, app: string, k: nat)
    requires !TimeFor(s, most, n, app, k)
    ensures InTime(s.(table := t), d, most, n + 1, app, k)
  {
  }

  lemma SameInTime(s: State, s': State, d: Desired, most: nat, n: nat, app: string, k: nat)
    requires s'.table == s.table && s'.m == s.m && s'.selected == s.selected && InTime(s, d, most, n, app, k)
    ensures InTime(s', d, most, n, app, k)
  {
    assert AppsOf(s') == AppsOf(s);
  }

  lemma WindowInTime(hasher: Hasher, ss: seq<State>, steps: seq<Step>, x: nat, y: nat, most: nat, n: nat, app: string, k: nat)
    requires Window(hasher, ss, steps, x, y) && AllInTime(ss[x], DesiredIn(hasher, ss[x]), most, n)
    ensures InTime(ss[x].(table := ss[y].table), DesiredIn(hasher, ss[x]), most, n + 1, app, k)
  {
    if TimeFor(ss[x], most, n, app, k) {
      DependenciesInTime(hasher, ss[x], most, n, app, k);
      WindowEnds(hasher, ss, steps, x, y, app);
      NextInTime(ss[x], ss[y].table, DesiredIn(hasher, ss[x]), most, n, app, k);
    } else {
      NotYetInTime(ss[x], ss[y].table, DesiredIn(hasher, ss[x]), most, n, app, k);
    }
  }

  lemma WindowStale(hasher: Hasher, ss: seq<State>, steps: seq<Step>, x: nat, y: nat, most: nat)
    requires Window(hasher, ss, steps, x, y) && forall app :: StaleCount(DesiredIn(hasher, ss[x]), ss[x].table, app) <= most
    ensures forall app :: StaleCount(DesiredIn(hasher, ss[x]), ss[y].table, app) <= most
  {
    forall app ensures StaleCount(DesiredIn(hasher, ss[x]), ss[y].table, app) <= most {
      WindowClears(hasher, ss, steps, x, y, app);
    }
  }

  lemma WindowEachInTime(hasher: Hasher, ss: seq<State>, steps: seq<Step>, x: nat, y: nat, most: nat, n: nat, n': nat, s': State)
    requires Window(hasher, ss, steps, x, y) && AllInTime(ss[x], DesiredIn(hasher, ss[x]), most, n) && n' == n + 1
    requires s' == ss[x].(table := ss[y].table)
    ensures forall app, k: nat :: InTime(s', DesiredIn(hasher, ss[x]), most, n', app, k)
  {
    var d := DesiredIn(hasher, ss[x]);
    forall app, k: nat ensures InTime(s', d, most, n', app, k) {
      WindowInTime(hasher, ss, steps, x, y, most, n, app, k);
    }
  }

  lemma SameAllInTime(s: State, s': State, d: Desired, most: nat, n: nat)
    requires s'.table == s.table && s'.m == s.m && s'.selected == s.selected && AllInTime(s, d, most, n)
    ensures AllInTime(s', d, most, n)
  {
    forall app, k: nat ensures InTime(s', d, most, n, app, k) {
      SameInTime(s, s', d, most, n, app, k);
    }
  }

  /** A window is one step of the schedule. */
  lemma WindowAllInTime(hasher: Hasher, ss: seq<State>, steps: seq<Step>, x: nat, y: nat, most: nat, n: nat)
    requires Window(hasher, ss, steps, x, y) && AllInTime(ss[x], DesiredIn(hasher, ss[x]), most, n)
    ensures AllInTime(ss[y], DesiredIn(hasher, ss[x]), most, n + 1)
  {
    var d, s' := DesiredIn(hasher, ss[x]), ss[x].(table := ss[y].table);
    WindowClearsStrays(hasher, ss, steps, x, y);
    WindowStale(hasher, ss, steps, x, y, most);
    WindowEachInTime(hasher, ss, steps, x, y, most, n, n + 1, s');
    SameAllInTime(s', ss[y], d, most, n + 1);
  }

  // ----- the end -----

  /** Every `wait` ticks make a window: what is being stopped exits within them, and one of them is ripe. */
  ghost predicate Patient(hasher: Hasher, ss: seq<State>, steps: seq<Step>, a: nat, b: nat, wait: nat) {
    forall x: nat, y: nat :: Settles(hasher, ss, steps, a, b, wait, x, y)
  }

  ghost predicate Settles(hasher: Hasher, ss: seq<State>, steps: seq<Step>, a: nat, b: nat, wait: nat, x: nat, y: nat) {
    a <= x <= y <= b < |ss| == |steps| + 1 && ss[y].tick == ss[x].tick + wait ==>
      AllExit(ss, steps, x, y) && Ripens(hasher, ss, steps, x, y)
  }

  lemma {:induction false} TickIndex(hasher: Hasher, ss: seq<State>, steps: seq<Step>, x: nat, b: nat, tick: nat) returns (y: nat)
    requires IsRun(hasher, ss, steps) && x <= b < |ss| && ss[x].tick <= tick <= ss[b].tick
    ensures x <= y <= b && ss[y].tick == tick
    decreases b
  {
    y := b;
    if tick < ss[b].tick {
      OneStepCounts(hasher, ss, steps, b - 1);
      y := TickIndex(hasher, ss, steps, x, b - 1, tick);
    }
  }

  lemma NextWindow(hasher: Hasher, ss: seq<State>, steps: seq<Step>, a: nat, b: nat, wait: nat, x: nat) returns (y: nat)
    requires Stretch(hasher, ss, steps, a, b) && Patient(hasher, ss, steps, a, b, wait) && a <= x <= b && ss[b].tick >= ss[x].tick + wait
    ensures x <= y <= b && ss[y].tick == ss[x].tick + wait && Window(hasher, ss, steps, x, y)
    ensures DesiredIn(hasher, ss[x]) == DesiredIn(hasher, ss[a])
  {
    y := TickIndex(hasher, ss, steps, x, b, ss[x].tick + wait);
    SubStretch(hasher, ss, steps, a, b, x, y);
    assert Settles(hasher, ss, steps, a, b, wait, x, y);
  }

  /** The ticks of `n` windows. */
  function WindowsTake(n: nat, wait: nat): nat {
    if n == 0 then 0 else WindowsTake(n - 1, wait) + wait
  }

  lemma {:induction false} WindowsTakeIs(n: nat, wait: nat)
    ensures WindowsTake(n, wait) == n * wait
  {
    if n > 0 {
      WindowsTakeIs(n - 1, wait);
    }
  }

  /** State `y` ends `n` windows of the stretch. */
  ghost predicate WindowsEnd(hasher: Hasher, ss: seq<State>, a: nat, b: nat, most: nat, wait: nat, n: nat, y: nat) {
    a <= y <= b < |ss| && ss[y].tick == ss[a].tick + WindowsTake(n, wait) && AllInTime(ss[y], DesiredIn(hasher, ss[a]), most, n)
  }

  lemma OneWindowMore(hasher: Hasher, ss: seq<State>, steps: seq<Step>, a: nat, b: nat, most: nat, wait: nat, n: nat, x: nat) returns (y: nat)
    requires Stretch(hasher, ss, steps, a, b) && Patient(hasher, ss, steps, a, b, wait) && WindowsEnd(hasher, ss, a, b, most, wait, n, x)
    requires ss[b].tick >= ss[x].tick + wait
    ensures WindowsEnd(hasher, ss, a, b, most, wait, n + 1, y)
  {
    y := NextWindow(hasher, ss, steps, a, b, wait, x);
    WindowAllInTime(hasher, ss, steps, x, y, most, n);
  }

  ghost predicate HasWindows(hasher: Hasher, ss: seq<State>, a: nat, b: nat, most: nat, wait: nat, n: nat) {
    exists y :: WindowsEnd(hasher, ss, a, b, most, wait, n, y)
  }

  lemma {:induction false} WindowsTakeMore(n: nat, n': nat, wait: nat)
    requires n <= n'
    ensures WindowsTake(n, wait) <= WindowsTake(n', wait)
  {
    if n < n' {
      WindowsTakeMore(n, n' - 1, wait);
    }
  }

  lemma NextHasWindows(hasher: Hasher, ss: seq<State>, steps: seq<Step>, a: nat, b: nat, most: nat, wait: nat, n: nat)
    requires Stretch(hasher, ss, steps, a, b) && Patient(hasher, ss, steps, a, b, wait) && HasWindows(hasher, ss, a, b, most, wait, n)
    requires ss[b].tick >= ss[a].tick + WindowsTake(n + 1, wait)
    ensures HasWindows(hasher, ss, a, b, most, wait, n + 1)
  {
    var x: nat :| WindowsEnd(hasher, ss, a, b, most, wait, n, x);
    var y := OneWindowMore(hasher, ss, steps, a, b, most, wait, n, x);
  }

  lemma Windows(hasher: Hasher, ss: seq<State>, steps: seq<Step>, a: nat, b: nat, most: nat, wait: nat, n: nat)
    requires Stretch(hasher, ss, steps, a, b) && Patient(hasher, ss, steps, a, b, wait) && ss[b].tick >= ss[a].tick + WindowsTake(n, wait)
    requires AllInTime(ss[a], DesiredIn(hasher, ss[a]), most, 0)
    ensures HasWindows(hasher, ss, a, b, most, wait, n)
  {
    assert WindowsEnd(hasher, ss, a, b, most, wait, 0, a);
    forall j: nat | 0 <= j < n && HasWindows(hasher, ss, a, b, most, wait, j) ensures HasWindows(hasher, ss, a, b, most, wait, j + 1) {
      WindowsTakeMore(j + 1, n, wait);
      NextHasWindows(hasher, ss, steps, a, b, most, wait, j);
    }
    Climb((j: nat) => HasWindows(hasher, ss, a, b, most, wait, j), 0, n);
  }

  /** Windows enough for dependency chains of `k` apps, each with at most `most` stale instances. */
  function WindowsFor(m: Manifest, most: nat, k: nat): nat {
    k * (Span(m, 2 * most) + 2)
  }

  /** Every record that is left is of a selected app, or a stray. */
  lemma AppSelected(hasher: Hasher, s: State, i: nat)
    requires Underway(DesiredIn(hasher, s), s.table) && Strays(DesiredIn(hasher, s), s.table) == {} && i < |s.table|
    ensures s.table[i].Slot() in DesiredIn(hasher, s) && s.table[i].app in s.selected
  {
    DesiredSlotsAre(hasher, s.m, s.selected, s.ports);
    IsStray(DesiredIn(hasher, s), s.table, i);
  }

  lemma RenewedSettles(hasher: Hasher, s: State)
    requires Underway(DesiredIn(hasher, s), s.table) && Strays(DesiredIn(hasher, s), s.table) == {}
    requires forall app :: app in s.selected ==> Renewed(DesiredIn(hasher, s), s.table, app)
    ensures IsSteady(hasher, s) && AllReady(s.table)
  {
    var d := DesiredIn(hasher, s);
    forall i: nat | i < |s.table| ensures Up(s.table[i]) && Current(d, s.table[i]) && Stays(d, s.table[i]) {
      AppSelected(hasher, s, i);
      assert Sound(d, s.table[i]) && Renewed(d, s.table, s.table[i].app);
    }
    StayingFills(d, s.table);
  }

  lemma RenewedByThen(s: State, d: Desired, most: nat, k: nat, app: string)
    requires Underway(d, s.table) && AllInTime(s, d, most, WindowsFor(s.m, most, k)) && k > 0 && app in s.selected && DepthAtMost(AppsOf(s), app, k)
    ensures Renewed(d, s.table, app)
  {
    EnoughIs(k, Span(s.m, 2 * most));
    RenewedInTime(s, d, most, WindowsFor(s.m, most, k), app, k);
  }

  lemma AllRenewed(hasher: Hasher, ss: seq<State>, steps: seq<Step>, a: nat, b: nat, y: nat, most: nat, k: nat, app: string)
    requires Stretch(hasher, ss, steps, a, b) && a <= y <= b && k > 0 && DepthsWithin(ss[a], k) && app in ss[a].selected
    requires AllInTime(ss[y], DesiredIn(hasher, ss[a]), most, WindowsFor(ss[a].m, most, k))
    ensures Renewed(DesiredIn(hasher, ss[a]), ss[b].table, app)
  {
    SubStretch(hasher, ss, steps, a, b, y, b);
    assert AppsOf(ss[y]) == AppsOf(ss[a]);
    RenewedByThen(ss[y], DesiredIn(hasher, ss[a]), most, k, app);
    RenewedAlong(hasher, ss, steps, y, b, b, app);
  }

  lemma NoStrays(hasher: Hasher, ss: seq<State>, steps: seq<Step>, a: nat, b: nat, y: nat)
    requires Stretch(hasher, ss, steps, a, b) && a <= y <= b && Strays(DesiredIn(hasher, ss[a]), ss[y].table) == {}
    ensures Strays(DesiredIn(hasher, ss[a]), ss[b].table) == {}
  {
    SubStretch(hasher, ss, steps, a, b, y, b);
    StraysAlong(hasher, ss, steps, y, b);
  }

  lemma EveryAppRenewed(hasher: Hasher, ss: seq<State>, steps: seq<Step>, a: nat, b: nat, y: nat, most: nat, k: nat)
    requires Stretch(hasher, ss, steps, a, b) && a <= y <= b && k > 0 && DepthsWithin(ss[a], k)
    requires AllInTime(ss[y], DesiredIn(hasher, ss[a]), most, WindowsFor(ss[a].m, most, k))
    ensures forall app :: app in ss[a].selected ==> Renewed(DesiredIn(hasher, ss[a]), ss[b].table, app)
  {
    forall app | app in ss[a].selected ensures Renewed(DesiredIn(hasher, ss[a]), ss[b].table, app) {
      AllRenewed(hasher, ss, steps, a, b, y, most, k, app);
    }
  }

  lemma SettledAt(hasher: Hasher, ss: seq<State>, steps: seq<Step>, a: nat, b: nat, y: nat, most: nat, k: nat)
    requires Stretch(hasher, ss, steps, a, b) && a <= y <= b && k > 0 && DepthsWithin(ss[a], k)
    requires AllInTime(ss[y], DesiredIn(hasher, ss[a]), most, WindowsFor(ss[a].m, most, k)) && WindowsFor(ss[a].m, most, k) > 0
    ensures IsSteady(hasher, ss[b]) && AllReady(ss[b].table) && ss[b].ports == ss[a].ports
  {
    EveryAppRenewed(hasher, ss, steps, a, b, y, most, k);
    NoStrays(hasher, ss, steps, a, b, y);
    OnTheWayAt(hasher, ss, steps, a, b, b);
    RenewedSettles(hasher, ss[b]);
  }

  /** No app has more than `most` stale instances. */
  ghost predicate StaleAtMost(hasher: Hasher, s: State, most: nat) {
    forall app :: StaleCount(DesiredIn(hasher, s), s.table, app) <= most
  }

  lemma SomeWindows(m: Manifest, most: nat, k: nat)
    requires k > 0
    ensures WindowsFor(m, most, k) > 0
  {
    EnoughIs(k, Span(m, 2 * most));
  }

  lemma InTimeAtFirst(hasher: Hasher, s: State, most: nat)
    requires StaleAtMost(hasher, s, most)
    ensures AllInTime(s, DesiredIn(hasher, s), most, 0)
  {
  }

  /**
   * However long stopped processes take, if every `wait` ticks make a window: a fleet that is
   * underway is renewed within `wait * k * (span + 2)` ticks, with `k` the longest dependency
   * chain and `span` twice the most stale instances of any app, or 1 with surge. Then there is
   * one record per desired slot, current and Ready, on the ports the roll started with.
   */
  lemma PatientRolloutCompletes(hasher: Hasher, ss: seq<State>, steps: seq<Step>, a: nat, b: nat, most: nat, k: nat, wait: nat)
    requires Stretch(hasher, ss, steps, a, b) && Patient(hasher, ss, steps, a, b, wait)
    requires StaleAtMost(hasher, ss[a], most) && k > 0 && DepthsWithin(ss[a], k)
    requires ss[b].tick >= ss[a].tick + WindowsFor(ss[a].m, most, k) * wait
    ensures IsSteady(hasher, ss[b]) && AllReady(ss[b].table) && ss[b].ports == ss[a].ports
  {
    SomeWindows(ss[a].m, most, k);
    InTimeAtFirst(hasher, ss[a], most);
    WindowsTakeIs(WindowsFor(ss[a].m, most, k), wait);
    Windows(hasher, ss, steps, a, b, most, wait, WindowsFor(ss[a].m, most, k));
    var y: nat :| WindowsEnd(hasher, ss, a, b, most, wait, WindowsFor(ss[a].m, most, k), y);
    SettledAt(hasher, ss, steps, a, b, y, most, k);
  }

  // ----- from an edit -----

  /** Nothing in a fleet with one current record per slot is going down. */
  lemma NoneDown(was: Desired, d: Desired, t: Table)
    requires AllCurrent(was, t)
    ensures DownsStale(d, t)
  {
    forall i | 0 <= i < |t| ensures !GoingDown(t[i]) {
      assert Current(was, t[i]);
    }
  }

  /** The first tick of a roll, after which it is on its way. */
  lemma FirstTickOnTheWay(hasher: Hasher, s: State, e: Env, most: nat)
    requires Rollout(hasher, s, most, 0) && Bearable(s, DesiredIn(hasher, s), e) && DownsStale(DesiredIn(hasher, s), s.table) && LoopOk(s)
    ensures OnTheWay(hasher, Tick(hasher, s, e), s.ports) && StaleAtMost(hasher, Tick(hasher, s, e), most)
  {
    var d := DesiredIn(hasher, s);
    RolloutCanRoll(hasher, s, e, most, 0);
    TickWants(hasher, s, e);
    TickKeepsConfig(hasher, s, e);
    TickKeepsOk(hasher, s, e);
    var x := TickPasses(hasher, s, e);
    EndUnderway(s, d, e, x);
    forall app ensures StaleCount(d, x.end, app) <= most {
      StaleFalls(s, d, e, x, app);
    }
  }

  lemma ReloadedTable(hasher: Hasher, ss: seq<State>, steps: seq<Step>, c: nat)
    requires IsRun(hasher, ss, steps) && 0 < c < |ss| && steps[c - 1].Reloaded?
    ensures ss[c].table == ss[c - 1].table && ss[c].checksOk == ss[c - 1].checksOk
  {
    ReloadEdits(hasher, ss, steps, c - 1, c);
  }

  lemma ReloadedFleet(hasher: Hasher, ss: seq<State>, steps: seq<Step>, c: nat)
    requires IsRun(hasher, ss, steps) && 0 < c < |ss| && steps[c - 1].Reloaded? && IsSteady(hasher, ss[c - 1])
    ensures AllCurrent(DesiredIn(hasher, ss[c - 1]), ss[c].table) && Fills(DesiredIn(hasher, ss[c - 1]), ss[c].table) && LoopOk(ss[c])
    ensures ss[c].checksOk == ss[c - 1].checksOk
  {
    ReachableOk(hasher, ss, steps, c);
    ReloadedTable(hasher, ss, steps, c);
  }

  lemma EditOnTheWay(hasher: Hasher, ss: seq<State>, steps: seq<Step>, c: nat, a: nat, most: nat)
    requires IsRun(hasher, ss, steps) && 0 < c && a == c + 1 < |ss| && steps[c - 1].Reloaded? && steps[c].Ticked?
    requires EditsFleet(hasher, ss[c - 1], ss[c], most) && ss[c].m.defaults.maxSurge == 0
    requires StaleServe(DesiredIn(hasher, ss[c]), ss[c - 1].table) && Bearable(ss[c], DesiredIn(hasher, ss[c]), steps[c].e)
    ensures OnTheWay(hasher, ss[a], ss[c].ports) && StaleAtMost(hasher, ss[a], most) && SameConfig(ss[c], ss[a])
  {
    EditedStarts(hasher, ss, steps, c - 1, c, most);
    ReloadedFleet(hasher, ss, steps, c);
    NoneDown(DesiredIn(hasher, ss[c - 1]), DesiredIn(hasher, ss[c]), ss[c].table);
    RunTick(hasher, ss, steps, c);
    FirstTickOnTheWay(hasher, ss[c], steps[c].e, most);
  }

  lemma EditRollsOutInTime(hasher: Hasher, ss: seq<State>, steps: seq<Step>, c: nat, a: nat, b: nat, most: nat, k: nat, wait: nat)
    requires IsRun(hasher, ss, steps) && a == c + 1 <= b < |ss| && Unedited(ss, c, b) && AllBearable(hasher, ss, steps, c, b)
    requires OnTheWay(hasher, ss[a], ss[c].ports) && StaleAtMost(hasher, ss[a], most)
    requires Patient(hasher, ss, steps, a, b, wait) && k > 0 && DepthsWithin(ss[c], k)
    requires ss[b].tick >= ss[a].tick + WindowsFor(ss[c].m, most, k) * wait
    ensures IsSteady(hasher, ss[b]) && AllReady(ss[b].table) && ss[b].ports == ss[c].ports
  {
    assert AppsOf(ss[a]) == AppsOf(ss[c]);
    PatientRolloutCompletes(hasher, ss, steps, a, b, most, k, wait);
  }

  lemma TickGrows(hasher: Hasher, ss: seq<State>, steps: seq<Step>, c: nat, b: nat)
    requires IsRun(hasher, ss, steps) && c < b < |ss| && steps[c].Ticked?
    ensures ss[b].tick > ss[c].tick
  {
    OneStepCounts(hasher, ss, steps, c);
    TicksGrow(hasher, ss, steps, c + 1, b);
  }

  lemma EditNeverInTime(hasher: Hasher, ss: seq<State>, steps: seq<Step>, c: nat, b: nat, most: nat)
    requires IsRun(hasher, ss, steps) && 0 < c < b < |ss| && Unedited(ss, c, b) && ss[b].tick > ss[c].tick
    requires steps[c - 1].Reloaded? && EditsFleet(hasher, ss[c - 1], ss[c], most)
    requires !StaleServe(DesiredIn(hasher, ss[c]), ss[c - 1].table)
    ensures !IsSteady(hasher, ss[b])
  {
    EditNeverRollsOut(hasher, ss, steps, c - 1, c, b, most);
  }

  /**
   * Without surge, and with windows of `wait` ticks: from a fleet with one current record per
   * slot, through a reload that keeps the ports and the tick that sees it first, the fleet is
   * renewed in time exactly when every record the edit made stale was serving.
   */
  lemma EditRollsOutIff(hasher: Hasher, ss: seq<State>, steps: seq<Step>, c: nat, a: nat, b: nat, most: nat, k: nat, wait: nat)
    requires IsRun(hasher, ss, steps) && 0 < c && a == c + 1 <= b < |ss| && Unedited(ss, c, b) && AllBearable(hasher, ss, steps, c, b)
    requires steps[c - 1].Reloaded? && EditsFleet(hasher, ss[c - 1], ss[c], most) && ss[c].m.defaults.maxSurge == 0 && steps[c].Ticked?
    requires Patient(hasher, ss, steps, a, b, wait) && k > 0 && DepthsWithin(ss[c], k)
    requires ss[b].tick >= ss[a].tick + WindowsFor(ss[c].m, most, k) * wait
    ensures IsSteady(hasher, ss[b]) <==> StaleServe(DesiredIn(hasher, ss[c]), ss[c - 1].table)
    ensures IsSteady(hasher, ss[b]) ==> AllReady(ss[b].table) && ss[b].ports == ss[c].ports
  {
    if StaleServe(DesiredIn(hasher, ss[c]), ss[c - 1].table) {
      EditOnTheWay(hasher, ss, steps, c, a, most);
      EditRollsOutInTime(hasher, ss, steps, c, a, b, most, k, wait);
    } else {
      TickGrows(hasher, ss, steps, c, b);
      EditNeverInTime(hasher, ss, steps, c, b, most);
    }
  }
}
