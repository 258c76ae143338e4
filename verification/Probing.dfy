/** What readiness and liveness probing decides over the whole life of one process. */
module Probing {
  import opened Prelude
  import opened Manifests
  import opened Instances
  import opened Stages
  import opened Lifecycle
  import opened Tracking
  import opened Runs
  import opened Stopping

  /** One pass of the probe stage over a record. */
  datatype Round = Round(now: nat, ans: ProbeAnswer)

  function ProbeRounds(a: App, r: Instance, rounds: seq<Round>): Instance {
    if rounds == [] then r
    else
      var before, last := ProbeRounds(a, r, rounds[..|rounds| - 1]), rounds[|rounds| - 1];
      if before.Serving() then ProbeApp(a, before, last.now, last.ans) else before
  }

  // ----- what the process has answered -----

  /** The answer of one probe: asked for in the pass at `asked`, and in by `at`. */
  datatype Heard = Heard(ok: bool, asked: nat, at: nat)

  /** All that a process has answered since its spawn, oldest first. */
  datatype Past = Past(ready: seq<Heard>, live: seq<Heard>)

  predicate SaidYes(answers: seq<Heard>) {
    exists i :: 0 <= i < |answers| && answers[i].ok
  }

  function TrailingFails(answers: seq<Heard>): nat {
    if answers == [] || answers[|answers| - 1].ok then 0 else 1 + TrailingFails(answers[..|answers| - 1])
  }

  /** The process was still not ready when its time for that was up. */
  predicate TimedOut(a: App, start: nat, ready: seq<Heard>) {
    ready != [] && !SaidYes(ready) && ready[|ready| - 1].at >= start + 1000 * a.readyTimeout
  }

  predicate Unhealthy(a: App, live: seq<Heard>) {
    TrailingFails(live) >= Max(1, a.liveFailures)
  }

  predicate GivenUp(a: App, start: nat, past: Past) {
    TimedOut(a, start, past.ready) || Unhealthy(a, past.live)
  }

  /** When readiness is next asked for: at once, and a second after each answer. */
  function ReadyDue(start: nat, ready: seq<Heard>): nat {
    if ready == [] then start else ready[|ready| - 1].at + 1000
  }

  /** When liveness is: a period after the spawn, and after each answer. */
  function LiveDue(a: App, start: nat, live: seq<Heard>): nat {
    (if live == [] then start else live[|live| - 1].at) + 1000 * a.livePeriod
  }

  function HearReady(a: App, start: nat, past: Past, round: Round): Past {
    if a.readyPath != "" && ReadyDue(start, past.ready) <= round.now
    then past.(ready := past.ready + [Heard(round.ans.ready, round.now, round.ans.readyAt)])
    else past
  }

  /** Liveness is asked for only once the process has been ready. */
  function HearLive(a: App, start: nat, past: Past, round: Round): Past {
    if a.livePath != "" && (a.readyPath == "" || SaidYes(past.ready)) && LiveDue(a, start, past.live) <= round.now
    then past.(live := past.live + [Heard(round.ans.live, round.now, round.ans.liveAt)])
    else past
  }

  /** The answers of a process spawned at `start`, up to the one it was given up for. */
  function PastOf(a: App, start: nat, rounds: seq<Round>): Past {
    if rounds == [] then Past([], [])
    else
      var before, last := PastOf(a, start, rounds[..|rounds| - 1]), rounds[|rounds| - 1];
      if GivenUp(a, start, before) then before
      else
        var asked := HearReady(a, start, before, last);
        if TimedOut(a, start, asked.ready) then asked else HearLive(a, start, asked, last)
  }

  /** One answer comes no sooner than `first`, and each later one is asked for at least `gap` after the one before was in. */
  ghost predicate Spaced(answers: seq<Heard>, first: nat, gap: nat) {
    && (answers != [] ==> answers[0].asked >= first)
    && forall i :: 1 <= i < |answers| ==> answers[i].asked >= answers[i - 1].at + gap
  }

  lemma SpacedMore(answers: seq<Heard>, first: nat, gap: nat, h: Heard)
    requires Spaced(answers, first, gap) && h.asked >= if answers == [] then first else answers[|answers| - 1].at + gap
    ensures Spaced(answers + [h], first, gap)
  {
  }

  lemma RoundIsSpaced(a: App, start: nat, before: Past, round: Round)
    requires Spaced(before.ready, start, 1000) && Spaced(before.live, start + 1000 * a.livePeriod, 1000 * a.livePeriod)
    ensures Spaced(HearReady(a, start, before, round).ready, start, 1000) && HearReady(a, start, before, round).live == before.live
    ensures Spaced(HearLive(a, start, before, round).live, start + 1000 * a.livePeriod, 1000 * a.livePeriod)
    ensures HearLive(a, start, before, round).ready == before.ready
  {
    if HearReady(a, start, before, round) != before {
      SpacedMore(before.ready, start, 1000, Heard(round.ans.ready, round.now, round.ans.readyAt));
    }
    if HearLive(a, start, before, round) != before {
      SpacedMore(before.live, start + 1000 * a.livePeriod, 1000 * a.livePeriod, Heard(round.ans.live, round.now, round.ans.liveAt));
    }
  }

  /** Readiness probes are a second apart at least, and liveness probes a period, the first of them a period after the spawn. */
  lemma {:induction false} ProbesAreSpaced(a: App, start: nat, rounds: seq<Round>)
    ensures var past := PastOf(a, start, rounds);
            && Spaced(past.ready, start, 1000)
            && Spaced(past.live, start + 1000 * a.livePeriod, 1000 * a.livePeriod)
    decreases |rounds|
  {
    if rounds != [] {
      var before, last := PastOf(a, start, rounds[..|rounds| - 1]), rounds[|rounds| - 1];
      ProbesAreSpaced(a, start, rounds[..|rounds| - 1]);
      RoundIsSpaced(a, start, before, last);
      RoundIsSpaced(a, start, HearReady(a, start, before, last), last);
    }
  }

  // ----- what the record says of them -----

  /** A process as `spawn` leaves it. */
  ghost predicate JustSpawned(a: App, r: Instance) {
    && r.Running() && RecordOk(r) && r.consecutiveLiveFail == 0
    && r.phase == (if a.readyPath == "" then Ready else Starting)
    && r.startedAt.Some?
    && r.readyDeadline == Some(r.startedAt.value + 1000 * a.readyTimeout)
    && r.nextReadyProbe == r.startedAt.value
    && r.nextLiveProbe == r.startedAt.value + 1000 * a.livePeriod
  }

  lemma SpawnIsFresh(hasher: Hasher, d: Defaults, a: App, r: Instance, ans: SpawnAnswer, pid: Pid)
    requires RecordOk(r) && !r.Running() && r.phase != Terminating && ans.ok
    ensures JustSpawned(a, SpawnOne(hasher, d, a, r, ans, pid))
    ensures SpawnOne(hasher, d, a, r, ans, pid).startedAt == Some(ans.at)
  {
    SpawnOneOk(hasher, d, a, r, ans, pid);
  }

  /** The last answer was positive, or it was negative and an earlier one positive, or none was positive. */
  ghost predicate LastAnswerTells(phase: Phase, ready: seq<Heard>) {
    && (phase == Ready <==> ready != [] && ready[|ready| - 1].ok)
    && (phase == Unready <==> ready != [] && !ready[|ready| - 1].ok && exists i :: 0 <= i < |ready| && ready[i].ok)
    && (phase == Starting <==> forall i :: 0 <= i < |ready| ==> !ready[i].ok)
  }

  /** Without a ready path a process is Ready as long as it serves. */
  ghost predicate PhaseTells(a: App, phase: Phase, ready: seq<Heard>) {
    if a.readyPath == "" then phase == Ready else LastAnswerTells(phase, ready)
  }

  /** What probing has made of the record a spawn left: nothing but what the answers say. */
  ghost predicate Tells(a: App, born: Instance, r: Instance, past: Past) {
    && JustSpawned(a, born) && RecordOk(r) && r.Running()
    && r == born.(handle := r.handle, phase := r.phase, restartAfterStop := r.restartAfterStop, killDeadline := r.killDeadline,
                  everReady := r.everReady, consecutiveLiveFail := r.consecutiveLiveFail,
                  nextReadyProbe := r.nextReadyProbe, nextLiveProbe := r.nextLiveProbe)
    && r.everReady == (a.readyPath == "" || SaidYes(past.ready))
    && r.consecutiveLiveFail == TrailingFails(past.live)
    && r.nextReadyProbe == ReadyDue(born.startedAt.value, past.ready)
    && r.nextLiveProbe == LiveDue(a, born.startedAt.value, past.live)
    && (past.live != [] ==> r.everReady)
    && (a.readyPath == "" ==> past.ready == [])
  }

  /** It serves on, or it was stopped for respawn at the answer it was given up for. */
  ghost predicate Judged(a: App, born: Instance, r: Instance, past: Past) {
    && Tells(a, born, r, past)
    && (r.Serving() <==> !GivenUp(a, born.startedAt.value, past))
    && (r.Serving() ==>
          && PhaseTells(a, r.phase, past.ready)
          && r.handle == born.handle && r.restartAfterStop == born.restartAfterStop && r.killDeadline == born.killDeadline)
    && (!r.Serving() ==> StoppedAt(born, r, if past.live != [] then past.live else past.ready))
  }

  /** One SIGTERM at the last answer, ten seconds for it to work, and a respawn to follow. */
  ghost predicate StoppedAt(born: Instance, r: Instance, answers: seq<Heard>)
    requires born.Running()
  {
    && answers != []
    && var at := answers[|answers| - 1].at;
       && r.phase == Terminating && r.restartAfterStop && r.killDeadline == Some(at + 10_000)
       && r.handle == Some(born.handle.value.(sent := [Sigterm(at)]))
  }

  lemma OneMoreAnswer(answers: seq<Heard>, h: Heard)
    ensures SaidYes(answers + [h]) <==> SaidYes(answers) || h.ok
    ensures TrailingFails(answers + [h]) == if h.ok then 0 else 1 + TrailingFails(answers)
  {
    var more := answers + [h];
    assert more[..|answers|] == answers;
    assert more[|answers|] == h;
    if i :| 0 <= i < |answers| && answers[i].ok {
      assert more[i].ok;
    }
    if i :| 0 <= i < |more| && more[i].ok {
      assert i < |answers| ==> answers[i].ok;
    }
  }

  lemma ReadinessTells(a: App, born: Instance, r: Instance, past: Past, ans: ProbeAnswer, asked: nat)
    requires r.Serving() && Judged(a, born, r, past) && a.readyPath != ""
    ensures Judged(a, born, ReadyProbe(r, ans), past.(ready := past.ready + [Heard(ans.ready, asked, ans.readyAt)]))
  {
    var h, p := Heard(ans.ready, asked, ans.readyAt), ReadyProbe(r, ans);
    var now := past.ready + [h];
    OneMoreAnswer(past.ready, h);
    assert now[|now| - 1] == h;
    assert [] + [Sigterm(ans.readyAt)] == [Sigterm(ans.readyAt)];
    if ans.ready {
      assert p.phase == Ready && p.everReady;
    } else if past.ready != [] {
      assert r.phase == Unready || r.phase == Ready || r.phase == Starting;
    }
  }

  lemma LivenessTells(a: App, born: Instance, p: Instance, past: Past, ans: ProbeAnswer, asked: nat)
    requires p.Serving() && p.everReady && Judged(a, born, p, past)
    ensures Judged(a, born, LiveProbe(a, p, ans), past.(live := past.live + [Heard(ans.live, asked, ans.liveAt)]))
  {
    LiveProbeOk(a, p, ans);
    OneMoreAnswer(past.live, Heard(ans.live, asked, ans.liveAt));
    assert [] + [Sigterm(ans.liveAt)] == [Sigterm(ans.liveAt)];
  }

  lemma RoundTells(a: App, born: Instance, r: Instance, past: Past, round: Round)
    requires r.Serving() && Judged(a, born, r, past)
    ensures var start := born.startedAt.value;
            var asked := HearReady(a, start, past, round);
            Judged(a, born, ProbeApp(a, r, round.now, round.ans),
                   if TimedOut(a, start, asked.ready) then asked else HearLive(a, start, asked, round))
  {
    var start, p := born.startedAt.value, AfterReadiness(a, r, round.now, round.ans);
    var asked := HearReady(a, start, past, round);
    if ReadyProbeRuns(a, r, round.now) {
      ReadinessTells(a, born, r, past, round.ans, round.now);
    }
    assert Judged(a, born, p, asked);
    if p.Serving() && LiveProbeRuns(a, p, round.now) {
      LivenessTells(a, born, p, asked, round.ans, round.now);
    }
  }

  /**
   * Over every history of passes since the spawn, the record says exactly what the process has
   * answered, and the process is stopped exactly at the answer it is given up for: the
   * liveness answer that makes the trailing failures reach `max(1, live_failures)`, or the
   * first negative readiness answer after its time to get ready, if it has never been ready.
   */
  lemma {:induction false} ProbeDecisions(a: App, r: Instance, rounds: seq<Round>)
    requires JustSpawned(a, r)
    ensures Judged(a, r, ProbeRounds(a, r, rounds), PastOf(a, r.startedAt.value, rounds))
    decreases |rounds|
  {
    if rounds != [] {
      var front, last := rounds[..|rounds| - 1], rounds[|rounds| - 1];
      ProbeDecisions(a, r, front);
      var before, past := ProbeRounds(a, r, front), PastOf(a, r.startedAt.value, front);
      if before.Serving() {
        RoundTells(a, r, before, past, last);
      }
    }
  }

  // ----- the passes are what a run does to a serving process -----

  /** A tick that leaves a serving process serving has only probed it. */
  lemma ServingMoves(hasher: Hasher, m: Manifest, tick: nat, e: Env, r: Instance, p: nat, v: Verdict)
    requires RecordOk(r) && r.Serving() && Lawful(hasher, m, tick, e, r, p, v)
    requires !e.wait(r.handle.value.pid).Exited?
    requires TickRecord(hasher, m, tick, e, r, p, v).Serving()
    ensures TickRecord(hasher, m, tick, e, r, p, v) == ProbeOne(m, r, e.probeAt, e.probe(p))
  {
  }

  /** The probe passes of the tracked record in the ticks from `a` to `k`. */
  function RoundsOf(steps: seq<Step>, pos: seq<nat>, a: nat, k: nat): seq<Round>
    requires a <= k <= |steps| < |pos|
    decreases k
  {
    if k == a then []
    else
      RoundsOf(steps, pos, a, k - 1)
      + match steps[k - 1]
        case Ticked(e) => [Round(e.probeAt, e.probe(pos[k]))]
        case Reloaded(_) => []
  }

  /** From `a` to `b` the tracked process serves under the same app settings, and is not seen to exit. */
  ghost predicate ServesUnder(ss: seq<State>, steps: seq<Step>, pos: seq<nat>, a: nat, b: nat, app: App, pid: Pid)
    requires b < |ss| == |steps| + 1 == |pos|
  {
    && NotSeenExiting(steps, a, b, pid)
    && forall k {:trigger ss[k]} :: a <= k <= b ==>
         && ss[k].m.Lookup(app.name) == Some(app)
         && pos[k] < |ss[k].table|
         && ss[k].table[pos[k]].Serving()
         && ss[k].table[pos[k]].app == app.name
         && ss[k].table[pos[k]].handle.value.pid == pid
  }

  ghost predicate ProbedBy(app: App, step: Step, j: nat, r: Instance, r': Instance) {
    r' == match step
          case Ticked(e) => ProbeApp(app, r, e.probeAt, e.probe(j))
          case Reloaded(_) => r
  }

  lemma ServingStep(hasher: Hasher, s: State, step: Step, s': State, i: nat, j: nat, app: App)
    requires TableOk(s.table) && Leads(hasher, s, step, s') && Carries(hasher, s, step, i, j)
    requires s.table[i].Serving() && s.m.Lookup(s.table[i].app) == Some(app)
    requires j < |s'.table| && s'.table[j].Serving()
    requires step.Ticked? ==> !step.e.wait(s.table[i].handle.value.pid).Exited?
    ensures ProbedBy(app, step, j, s.table[i], s'.table[j])
  {
    match step
    case Ticked(e) =>
      var v := TickAt(hasher, s, e, i);
      ServingMoves(hasher, s.m, s.tick, e, s.table[i], j, v);
    case Reloaded(o) =>
      ReloadChanges(s, o);
  }

  lemma ServingStepAt(hasher: Hasher, ss: seq<State>, steps: seq<Step>, pos: seq<nat>, a: nat, b: nat, k: nat, app: App, pid: Pid)
    requires IsRun(hasher, ss, steps) && Tracks(hasher, ss, steps, pos, a, b) && a <= k < b
    requires ServesUnder(ss, steps, pos, a, b, app, pid)
    ensures pos[k] < |ss[k].table| && pos[k + 1] < |ss[k + 1].table|
    ensures ProbedBy(app, steps[k], pos[k + 1], ss[k].table[pos[k]], ss[k + 1].table[pos[k + 1]])
  {
    ReachableOk(hasher, ss, steps, k);
    assert LeadsAt(hasher, ss, steps, k);
    ServingStep(hasher, ss[k], steps[k], ss[k + 1], pos[k], pos[k + 1], app);
  }

  /** Records linked by probe passes are what those passes make of the first. */
  lemma {:induction false} LinkedByRounds(rs: seq<Instance>, steps: seq<Step>, pos: seq<nat>, a: nat, k: nat, app: App)
    requires a <= k <= |steps| && |rs| == |pos| == |steps| + 1
    requires forall l {:trigger rs[l]} :: a <= l < k ==> rs[l].Serving() && ProbedBy(app, steps[l], pos[l + 1], rs[l], rs[l + 1])
    ensures rs[k] == ProbeRounds(app, rs[a], RoundsOf(steps, pos, a, k))
    decreases k
  {
    if a < k {
      LinkedByRounds(rs, steps, pos, a, k - 1, app);
      assert rs[k - 1].Serving();
      var before, after := RoundsOf(steps, pos, a, k - 1), RoundsOf(steps, pos, a, k);
      assert steps[k - 1].Ticked? ==> after[..|after| - 1] == before;
      assert steps[k - 1].Reloaded? ==> after == before;
    }
  }

  lemma ServedAt(ss: seq<State>, steps: seq<Step>, pos: seq<nat>, a: nat, b: nat, app: App, pid: Pid, k: nat)
    requires a <= k <= b < |ss| == |steps| + 1 == |pos| && ServesUnder(ss, steps, pos, a, b, app, pid)
    ensures pos[k] < |ss[k].table| && ss[k].table[pos[k]].Serving()
    ensures RecordsAt(ss, pos, a, b, ss[a].table[pos[a]])[k] == ss[k].table[pos[k]]
  {
    var r := ss[k];
    assert pos[a] < |ss[a].table|;
  }

  lemma LinkedRecords(hasher: Hasher, ss: seq<State>, steps: seq<Step>, pos: seq<nat>, a: nat, b: nat, l: nat, app: App, pid: Pid, rs: seq<Instance>)
    requires IsRun(hasher, ss, steps) && Tracks(hasher, ss, steps, pos, a, b) && a <= l < b
    requires ServesUnder(ss, steps, pos, a, b, app, pid) && rs == RecordsAt(ss, pos, a, b, ss[a].table[pos[a]])
    ensures rs[l].Serving() && ProbedBy(app, steps[l], pos[l + 1], rs[l], rs[l + 1])
  {
    ServedAt(ss, steps, pos, a, b, app, pid, l);
    ServedAt(ss, steps, pos, a, b, app, pid, l + 1);
    ServingStepAt(hasher, ss, steps, pos, a, b, l, app, pid);
  }

  /** While a process serves, a run applies exactly the probe passes of its ticks to its record. */
  lemma ServingIsProbing(hasher: Hasher, ss: seq<State>, steps: seq<Step>, pos: seq<nat>, a: nat, b: nat, app: App, pid: Pid)
    requires IsRun(hasher, ss, steps) && Tracks(hasher, ss, steps, pos, a, b)
    requires ServesUnder(ss, steps, pos, a, b, app, pid)
    ensures pos[a] < |ss[a].table| && pos[b] < |ss[b].table|
    ensures ss[b].table[pos[b]] == ProbeRounds(app, ss[a].table[pos[a]], RoundsOf(steps, pos, a, b))
  {
    var rs := RecordsAt(ss, pos, a, b, ss[a].table[pos[a]]);
    forall l {:trigger rs[l]} | a <= l < b ensures rs[l].Serving() && ProbedBy(app, steps[l], pos[l + 1], rs[l], rs[l + 1]) {
      LinkedRecords(hasher, ss, steps, pos, a, b, l, app, pid, rs);
    }
    LinkedByRounds(rs, steps, pos, a, b, app);
    assert ss[b].table[pos[b]] == rs[b];
  }

  function RecordsAt(ss: seq<State>, pos: seq<nat>, a: nat, b: nat, other: Instance): seq<Instance>
    requires |ss| == |pos|
  {
    seq(|ss|, k requires 0 <= k < |ss| => if a <= k <= b && pos[k] < |ss[k].table| then ss[k].table[pos[k]] else other)
  }
}
