/** `teardown`: every process stopped, dependents before what they depend on. */
module Teardowns {
  import opened Prelude
  import opened Instances
  import opened Stages
  import opened Graph
  import opened StartOrder

  const USIZE_MAX: nat := 0xFFFF_FFFF_FFFF_FFFF

  /** Position in the start order; apps outside it rank above all. */
  function Rank(order: seq<string>, app: string): nat {
    match FindFirst(order, (n: string) => n == app)
    case None => USIZE_MAX
    case Some(i) => i
  }

  /** The table in the order it is signalled. */
  function StopOrder(t: Table, order: seq<string>): Table {
    SortByKey(t, (r: Instance) => Rank(order, r.app))
  }

  /** SIGTERM; unlike `begin_stop` this leaves the kill deadline and the respawn decision alone. */
  function Terminated(r: Instance, now: nat): Instance {
    if r.Running() then r.(handle := Some(Send(r.handle.value, Sigterm(now))), phase := Terminating) else r
  }

  function SignalAll(t: Table, now: nat): Table {
    seq(|t|, i requires 0 <= i < |t| => Terminated(t[i], now))
  }

  /** The positions of the live processes, in table order. */
  function LiveIndices(t: Table): seq<nat> {
    if t == [] then []
    else
      var before := LiveIndices(t[..|t| - 1]);
      if t[|t| - 1].Running() then before + [|t| - 1] else before
  }

  // ----- waiting for the exits -----

  /** One pass of the wait loop: what `try_wait` answers, and the clock. */
  datatype Round = Round(wait: Pid -> Wait, at: nat)

  datatype Outcome = Outcome(table: Table, finished: bool)

  function Harvest(r: Instance, wait: Pid -> Wait): Instance {
    if r.Running() && wait(r.handle.value.pid).Exited? then r.(handle := None) else r
  }

  function Harvested(t: Table, wait: Pid -> Wait): Table {
    seq(|t|, i requires 0 <= i < |t| => Harvest(t[i], wait))
  }

  function Kill(r: Instance, now: nat): Instance {
    if r.Running() then r.(handle := Some(Send(r.handle.value, Sigkill(now)))) else r
  }

  function KillAll(t: Table, now: nat): Table {
    seq(|t|, i requires 0 <= i < |t| => Kill(t[i], now))
  }

  predicate AllGone(t: Table) {
    forall i :: 0 <= i < |t| ==> !t[i].Running()
  }

  /** Past the deadline, what is left after a harvest is killed. */
  function KillLate(left: Table, at: nat, deadline: nat): Table {
    if at >= deadline then KillAll(left, at) else left
  }

  /** The loop over the first rounds: it leaves as soon as a harvest finds no process left. */
  function AwaitExits(t: Table, rounds: seq<Round>, deadline: nat): Outcome
    decreases |rounds|
  {
    if rounds == [] then Outcome(t, false)
    else
      var left := Harvested(t, rounds[0].wait);
      if AllGone(left) then Outcome(left, true)
      else AwaitExits(KillLate(left, rounds[0].at, deadline), rounds[1..], deadline)
  }

  // ----- the order of the stops -----

  lemma RankIsPosition(order: seq<string>, app: string)
    requires app in order
    ensures Rank(order, app) < |order| && order[Rank(order, app)] == app
  {
  }

  lemma DependencyNodes(g: AppGraph, a: string, b: string)
    requires DependsOn(g, a, b)
    ensures a in g && b in g
  {
    var p :| PathFromTo(g, p, a, b) && |p| > 1;
    PathNodes(g, p);
  }

  /**
   * Every instance of an app is signalled before every instance of any app it transitively
   * depends on.
   */
  lemma DependentsStopFirst(g: AppGraph, order: seq<string>, t: Table, i: nat, j: nat)
    requires IsStartOrder(g, order) && i < |StopOrder(t, order)| && j < |StopOrder(t, order)|
    requires DependsOn(g, StopOrder(t, order)[i].app, StopOrder(t, order)[j].app)
    ensures i < j
  {
    var u := StopOrder(t, order);
    var a, b := u[i].app, u[j].app;
    DependencyNodes(g, a, b);
    RankIsPosition(order, a);
    RankIsPosition(order, b);
    DependencyEarlier(g, order, Rank(order, a), Rank(order, b));
    var key := (r: Instance) => Rank(order, r.app);
    assert Descends(u, key);
    assert key(u[i]) > key(u[j]);
  }

  /** Apart from that the order is the start order backwards, and apps that are not in it come before all others. */
  lemma StopsBackwards(order: seq<string>, t: Table, i: nat, j: nat, x: nat, y: nat)
    requires NoDup(order) && |order| <= 0xFFFF_FFFF_FFFF_FFFF && i < |StopOrder(t, order)| && j < |StopOrder(t, order)|
    requires y < |order| && StopOrder(t, order)[j].app == order[y]
    requires StopOrder(t, order)[i].app !in order || (y < x < |order| && StopOrder(t, order)[i].app == order[x])
    ensures i < j
  {
    var u := StopOrder(t, order);
    var key := (r: Instance) => Rank(order, r.app);
    assert Descends(u, key);
    RankIsPosition(order, u[j].app);
    assert Rank(order, u[j].app) == y;
    if u[i].app in order {
      RankIsPosition(order, u[i].app);
      assert Rank(order, u[i].app) == x;
    }
    assert key(u[i]) > key(u[j]);
  }

  lemma {:induction false} SortByConstant<T(!new)>(s: seq<T>, key: T -> int, c: int)
    requires forall i :: 0 <= i < |s| ==> key(s[i]) == c
    ensures SortByKey(s, key) == s
  {
    if s != [] {
      var front := s[..|s| - 1];
      assert s == front + [s[|s| - 1]];
      SortByConstant(front, key, c);
    }
  }

  /** Without a start order, as for a cyclic manifest, the table is signalled as it stands. */
  lemma NoOrderKeepsTable(t: Table)
    ensures StopOrder(t, []) == t
  {
    SortByConstant(t, (r: Instance) => Rank([], r.app), USIZE_MAX);
  }

  lemma {:induction false} LiveIndicesAre(t: Table)
    ensures forall i: nat :: i in LiveIndices(t) <==> i < |t| && t[i].Running()
    ensures forall x, y :: 0 <= x < y < |LiveIndices(t)| ==> LiveIndices(t)[x] < LiveIndices(t)[y]
  {
    if t != [] {
      LiveIndicesAre(t[..|t| - 1]);
      var before := LiveIndices(t[..|t| - 1]);
      forall x | 0 <= x < |before| ensures before[x] < |t| - 1 {
        assert before[x] in before;
      }
    }
  }

  lemma LiveAt(t: Table, x: nat)
    requires x < |LiveIndices(t)|
    ensures LiveIndices(t)[x] < |t| && t[LiveIndices(t)[x]].Running()
  {
    LiveIndicesAre(t);
    assert LiveIndices(t)[x] in LiveIndices(t);
  }

  /** The position in `live` follows the position in the table. */
  lemma LiveAscends(t: Table, x: nat, y: nat)
    requires x < |LiveIndices(t)| && y < |LiveIndices(t)| && LiveIndices(t)[x] < LiveIndices(t)[y]
    ensures x < y
  {
    LiveIndicesAre(t);
  }

  /** In terms of the SIGTERMs: the one to a dependent goes out before the one to its dependency. */
  lemma DependentsSignalledFirst(g: AppGraph, order: seq<string>, t: Table, u: Table, x: nat, y: nat)
    requires IsStartOrder(g, order) && u == StopOrder(t, order)
    requires x < |LiveIndices(u)| && y < |LiveIndices(u)|
    ensures var i, j := LiveIndices(u)[x], LiveIndices(u)[y];
            && i < |u| && j < |u| && u[i].Running() && u[j].Running()
            && (DependsOn(g, u[i].app, u[j].app) ==> x < y)
  {
    LiveAt(u, x);
    LiveAt(u, y);
    var i, j := LiveIndices(u)[x], LiveIndices(u)[y];
    if DependsOn(g, u[i].app, u[j].app) {
      DependentsStopFirst(g, order, t, i, j);
      LiveAscends(u, x, y);
    }
  }

  /** Sorting for the stop loses and invents no record. */
  lemma StopOrderPermutes(t: Table, order: seq<string>)
    ensures multiset(StopOrder(t, order)) == multiset(t)
  {
    var key := (r: Instance) => Rank(order, r.app);
    assert multiset(SortByKey(t, key)) == multiset(t);
  }

  // ----- what the processes are sent -----

  function LateKill(round: Round, deadline: nat): seq<Signal> {
    if round.at >= deadline then [Sigkill(round.at)] else []
  }

  /** A SIGKILL for every round at or after the deadline. */
  function Kills(rounds: seq<Round>, deadline: nat): seq<Signal> {
    if rounds == [] then []
    else LateKill(rounds[0], deadline) + Kills(rounds[1..], deadline)
  }

  lemma {:induction false} KillsAreLate(rounds: seq<Round>, deadline: nat)
    ensures forall s :: s in Kills(rounds, deadline) ==> s.Sigkill? && s.at >= deadline
  {
    if rounds != [] {
      KillsAreLate(rounds[1..], deadline);
    }
  }

  lemma FirstKills(first: Round, rest: seq<Round>, deadline: nat)
    ensures Kills([first] + rest, deadline) == LateKill(first, deadline) + Kills(rest, deadline)
  {
    assert ([first] + rest)[1..] == rest;
  }

  lemma KillsOfOne(round: Round, deadline: nat)
    ensures Kills([round], deadline) == if round.at >= deadline then [Sigkill(round.at)] else []
  {
    FirstKills(round, [], deadline);
    assert [round] + [] == [round];
  }

  lemma Regroup(a: seq<Signal>, b: seq<Signal>, c: seq<Signal>)
    ensures a + (b + c) == (a + b) + c
  {
  }

  /** Each round adds its own SIGKILL, if it is at the deadline or past it. */
  lemma {:induction false} KillsOfConcat(a: seq<Round>, b: seq<Round>, deadline: nat)
    ensures Kills(a + b, deadline) == Kills(a, deadline) + Kills(b, deadline)
  {
    if a == [] {
      assert a + b == b;
      assert [] + Kills(b, deadline) == Kills(b, deadline);
    } else {
      KillsOfConcat(a[1..], b, deadline);
      FirstKills(a[0], a[1..] + b, deadline);
      assert a + b == [a[0]] + (a[1..] + b);
      Regroup(LateKill(a[0], deadline), Kills(a[1..], deadline), Kills(b, deadline));
    }
  }

  /** `r` is what became of `was` while it was sent `more`: dead, or alive with those signals. */
  predicate Sent(was: Instance, r: Instance, more: seq<Signal>) {
    if r.Running() then was.Running() && r == was.(handle := Some(was.handle.value.(sent := was.handle.value.sent + more)))
    else r == was.(handle := None)
  }

  lemma SentMore(a: Instance, b: Instance, c: Instance, more: seq<Signal>, evenMore: seq<Signal>)
    requires Sent(a, b, more) && Sent(b, c, evenMore)
    ensures Sent(a, c, more + evenMore)
  {
    if c.Running() {
      assert a.handle.value.sent + (more + evenMore) == (a.handle.value.sent + more) + evenMore;
    }
  }

  lemma RoundSends(r: Instance, round: Round, deadline: nat)
    ensures var left := Harvest(r, round.wait);
            Sent(r, if round.at >= deadline then Kill(left, round.at) else left, LateKill(round, deadline))
  {
    if r.Running() {
      assert r.handle.value.sent + [] == r.handle.value.sent;
    }
  }

  /** A process the loop still waits for has been killed once in every round since the deadline. */
  lemma {:induction false} AwaitedIsKilled(t: Table, rounds: seq<Round>, deadline: nat, i: nat)
    requires i < |t|
    ensures var u := AwaitExits(t, rounds, deadline).table;
            |u| == |t| && Sent(t[i], u[i], Kills(rounds, deadline))
    decreases |rounds|
  {
    if rounds == [] {
      if t[i].Running() {
        assert t[i].handle.value.sent + [] == t[i].handle.value.sent;
      }
    } else {
      var left := Harvested(t, rounds[0].wait);
      if !AllGone(left) {
        var next := KillLate(left, rounds[0].at, deadline);
        RoundSends(t[i], rounds[0], deadline);
        AwaitedIsKilled(next, rounds[1..], deadline, i);
        var u := AwaitExits(next, rounds[1..], deadline).table;
        SentMore(t[i], next[i], u[i], LateKill(rounds[0], deadline), Kills(rounds[1..], deadline));
      }
    }
  }

  // ----- when it ends -----

  ghost predicate SeenExiting(r: Instance, rounds: seq<Round>) {
    r.Running() ==> exists k :: 0 <= k < |rounds| && rounds[k].wait(r.handle.value.pid).Exited?
  }

  lemma SeenLater(r: Instance, rounds: seq<Round>)
    requires rounds != []
    ensures SeenExiting(r, rounds) <==> SeenExiting(Harvest(r, rounds[0].wait), rounds[1..])
  {
    var h := Harvest(r, rounds[0].wait);
    if r.Running() && h.Running() {
      if SeenExiting(r, rounds) {
        var k :| 0 <= k < |rounds| && rounds[k].wait(r.handle.value.pid).Exited?;
        assert rounds[1..][k - 1] == rounds[k];
      }
      if SeenExiting(h, rounds[1..]) {
        var k :| 0 <= k < |rounds[1..]| && rounds[1..][k].wait(r.handle.value.pid).Exited?;
        assert rounds[k + 1].wait(r.handle.value.pid).Exited?;
      }
    }
  }

  ghost predicate AllSeenExiting(t: Table, rounds: seq<Round>) {
    forall i :: 0 <= i < |t| ==> SeenExiting(t[i], rounds)
  }

  lemma KillAllSeen(t: Table, rounds: seq<Round>, now: nat)
    ensures AllSeenExiting(KillAll(t, now), rounds) <==> AllSeenExiting(t, rounds)
  {
    var u := KillAll(t, now);
    forall i | 0 <= i < |t| ensures SeenExiting(u[i], rounds) <==> SeenExiting(t[i], rounds) {
      assert u[i] == Kill(t[i], now);
    }
    if AllSeenExiting(u, rounds) {
      forall i | 0 <= i < |t| ensures SeenExiting(t[i], rounds) {
        assert SeenExiting(u[i], rounds);
      }
    }
  }

  lemma HarvestedSeen(t: Table, rounds: seq<Round>)
    requires rounds != []
    ensures AllSeenExiting(t, rounds) <==> AllSeenExiting(Harvested(t, rounds[0].wait), rounds[1..])
  {
    var u := Harvested(t, rounds[0].wait);
    forall i | 0 <= i < |t| ensures SeenExiting(t[i], rounds) <==> SeenExiting(u[i], rounds[1..]) {
      SeenLater(t[i], rounds);
    }
    if AllSeenExiting(u, rounds[1..]) {
      forall i | 0 <= i < |t| ensures SeenExiting(t[i], rounds) {
        assert SeenExiting(u[i], rounds[1..]);
      }
    }
  }

  /**
   * The loop ends exactly when every process has been seen to exit, and then no handle is left.
   */
  lemma {:induction false} EndsWhenAllExited(t: Table, rounds: seq<Round>, deadline: nat)
    requires rounds != []
    ensures AwaitExits(t, rounds, deadline).finished <==> AllSeenExiting(t, rounds)
    ensures AwaitExits(t, rounds, deadline).finished ==> AllGone(AwaitExits(t, rounds, deadline).table)
    decreases |rounds|
  {
    var left := Harvested(t, rounds[0].wait);
    HarvestedSeen(t, rounds);
    if !AllGone(left) {
      var next := KillLate(left, rounds[0].at, deadline);
      KillAllSeen(left, rounds[1..], rounds[0].at);
      if |rounds| > 1 {
        EndsWhenAllExited(next, rounds[1..], deadline);
      } else {
        var i :| 0 <= i < |left| && left[i].Running();
        assert !SeenExiting(left[i], rounds[1..]);
      }
    }
  }

  // ----- the whole teardown -----

  /** The SIGTERMs go to exactly the live processes, each once, dependents before what they depend on. */
  ghost predicate SignalsInOrder(g: AppGraph, u: Table, signalled: seq<nat>) {
    && (forall i: nat :: i in signalled <==> i < |u| && u[i].Running())
    && NoDup(signalled)
    && (Acyclic(g) ==> forall x: nat, y: nat :: DependentFirst(g, u, signalled, x, y))
  }

  ghost predicate DependentFirst(g: AppGraph, u: Table, signalled: seq<nat>, x: nat, y: nat) {
    (x < |signalled| && y < |signalled| && signalled[x] < |u| && signalled[y] < |u|
     && DependsOn(g, u[signalled[x]].app, u[signalled[y]].app)) ==> x < y
  }

  /** What became of record `was`: no process, or one sent a SIGTERM and the late SIGKILLs. */
  predicate TornDown(was: Instance, r: Instance, termAt: nat, kills: seq<Signal>) {
    if r.Running() then
      && was.Running()
      && r == was.(phase := Terminating,
                   handle := Some(was.handle.value.(sent := was.handle.value.sent + [Sigterm(termAt)] + kills)))
    else r == was.(phase := if was.Running() then Terminating else was.phase, handle := None)
  }

  ghost predicate AllTornDown(u: Table, t: Table, termAt: nat, kills: seq<Signal>) {
    |t| == |u| && forall i :: 0 <= i < |u| ==> TornDown(u[i], t[i], termAt, kills)
  }

  /** Every signal of a teardown that found the table `was`, and how it ended. */
  ghost predicate Orderly(g: AppGraph, was: Table, u: Table, signalled: seq<nat>, termAt: nat, rounds: seq<Round>, deadline: nat, out: Outcome) {
    && multiset(u) == multiset(was)
    && SignalsInOrder(g, u, signalled)
    && AllTornDown(u, out.table, termAt, Kills(rounds, deadline))
    && (forall s :: s in Kills(rounds, deadline) ==> s.Sigkill? && s.at >= deadline)
    && (rounds != [] ==> (out.finished <==> AllSeenExiting(u, rounds)))
    && (rounds != [] && out.finished ==> AllGone(out.table))
  }

  lemma SignalsAreInOrder(g: AppGraph, order: seq<string>, was: Table)
    requires Acyclic(g) ==> IsStartOrder(g, order)
    ensures SignalsInOrder(g, StopOrder(was, order), LiveIndices(StopOrder(was, order)))
  {
    var u := StopOrder(was, order);
    LiveIndicesAre(u);
    if Acyclic(g) {
      forall x: nat, y: nat ensures DependentFirst(g, u, LiveIndices(u), x, y) {
        if x < |LiveIndices(u)| && y < |LiveIndices(u)| {
          DependentsSignalledFirst(g, order, was, u, x, y);
        }
      }
    }
  }

  lemma SignalAllSeen(t: Table, termAt: nat, rounds: seq<Round>)
    ensures AllSeenExiting(SignalAll(t, termAt), rounds) <==> AllSeenExiting(t, rounds)
  {
    var u := SignalAll(t, termAt);
    forall i | 0 <= i < |t| ensures SeenExiting(u[i], rounds) <==> SeenExiting(t[i], rounds) {
      assert u[i] == Terminated(t[i], termAt);
    }
    if AllSeenExiting(u, rounds) {
      forall i | 0 <= i < |t| ensures SeenExiting(t[i], rounds) {
        assert SeenExiting(u[i], rounds);
      }
    }
  }

  lemma EveryoneTornDown(t: Table, termAt: nat, rounds: seq<Round>, deadline: nat)
    ensures AllTornDown(t, AwaitExits(SignalAll(t, termAt), rounds, deadline).table, termAt, Kills(rounds, deadline))
  {
    SameLength(SignalAll(t, termAt), rounds, deadline);
    var u := AwaitExits(SignalAll(t, termAt), rounds, deadline).table;
    forall i | 0 <= i < |t| ensures TornDown(t[i], u[i], termAt, Kills(rounds, deadline)) {
      AwaitedIsKilled(SignalAll(t, termAt), rounds, deadline, i);
    }
  }

  /**
   * A teardown of any table, under any rounds: it permutes the table, signals every live
   * process once with dependents first, kills nothing before the deadline, and ends exactly
   * when every process has been seen to exit.
   */
  lemma TeardownIsOrderly(g: AppGraph, order: seq<string>, was: Table, termAt: nat, rounds: seq<Round>, deadline: nat)
    requires Acyclic(g) ==> IsStartOrder(g, order)
    ensures var u := StopOrder(was, order);
            Orderly(g, was, u, LiveIndices(u), termAt, rounds, deadline, AwaitExits(SignalAll(u, termAt), rounds, deadline))
  {
    var u := StopOrder(was, order);
    StopOrderPermutes(was, order);
    SignalsAreInOrder(g, order, was);
    EveryoneTornDown(u, termAt, rounds, deadline);
    KillsAreLate(rounds, deadline);
    SignalAllSeen(u, termAt, rounds);
    if rounds != [] {
      EndsWhenAllExited(SignalAll(u, termAt), rounds, deadline);
    }
  }

  lemma {:induction false} SameLength(t: Table, rounds: seq<Round>, deadline: nat)
    ensures |AwaitExits(t, rounds, deadline).table| == |t|
    decreases |rounds|
  {
    if rounds != [] {
      SameLength(KillLate(Harvested(t, rounds[0].wait), rounds[0].at, deadline), rounds[1..], deadline);
    }
  }
}
