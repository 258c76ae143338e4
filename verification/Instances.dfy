/** One managed process slot and everything a tick can do to it. */
module Instances {
  import opened Prelude
  import opened Manifests
  import opened KeyOrder

  datatype Phase = Pending | Starting | Ready | Unready | CrashLoopBackOff | Terminating

  /** Identity of a process: the tick and table index at which it was spawned. */
  datatype Pid = Pid(tick: nat, slot: nat)

  datatype Signal = Sigterm(at: nat) | Sigkill(at: nat)

  /** A live child and the signals its process group has been sent. Times are in milliseconds. */
  datatype Handle = Handle(pid: Pid, sent: seq<Signal>)

  datatype Instance = Instance(
    app: string,
    replica: nat,
    port: nat,
    specHash: nat,
    handle: Option<Handle>,
    phase: Phase,
    restarts: nat,
    startedAt: Option<nat>,
    backoffUntil: Option<nat>,
    readyDeadline: Option<nat>,
    killDeadline: Option<nat>,
    restartAfterStop: bool,
    consecutiveLiveFail: nat,
    nextReadyProbe: nat,
    nextLiveProbe: nat,
    everReady: bool)
  {
    predicate Running() {
      handle.Some?
    }

    /** Running and not asked to stop. */
    predicate Serving() {
      Running() && phase != Terminating
    }

    function Slot(): Key {
      Key(app, replica)
    }
  }

  const READY_PERIOD: nat := 1_000
  const CHECK_VERIFY_PERIOD: nat := 10_000
  const STOP_GRACE: nat := 10_000
  const KILL_RETRY: nat := 2_000
  const MAX_UNAVAILABLE: nat := 1

  function NewInstance(app: string, replica: nat, port: nat, specHash: nat, now: nat): Instance {
    Instance(app, replica, port, specHash, None, Pending, 0, None, None, None, None, false, 0, now, now, false)
  }

  /** `process::terminate` and `process::kill`: one more signal to the process group. */
  function Send(h: Handle, s: Signal): Handle {
    h.(sent := h.sent + [s])
  }

  function BeginStop(r: Instance, respawn: bool, now: nat): Instance {
    r.(handle := if r.handle.Some? then Some(Send(r.handle.value, Sigterm(now))) else None,
       phase := Terminating,
       restartAfterStop := respawn,
       killDeadline := Some(now + STOP_GRACE))
  }

  // ----- crash back-off -----

  function Pow2(n: nat): (r: nat)
    ensures r > 0
  {
    if n == 0 then 1 else 2 * Pow2(n - 1)
  }

  /** `u64::saturating_mul`. */
  function SaturatingMul(a: nat, b: nat): nat {
    Min(a * b, U64_MAX)
  }

  function BackoffDelay(base: U64, cap: U64, restarts: nat): nat {
    var shift := Min(if restarts == 0 then 0 else restarts - 1, 20);
    Min(SaturatingMul(base, Pow2(shift)), cap)
  }

  function NextDelay(d: Defaults, restarts: nat): nat {
    BackoffDelay(d.restartBackoffMs, d.restartBackoffMaxMs, restarts)
  }

  // ----- reap -----

  /** What `try_wait` answers. */
  datatype Wait = Exited | StillRunning | WaitFailed

  /** The exit of a process that was stopped for good: its slot is to be dropped. */
  predicate ExitDrops(r: Instance, wait: Pid -> Wait) {
    r.Running() && wait(r.handle.value.pid).Exited? && r.phase == Terminating && !r.restartAfterStop
  }

  function Uptime(r: Instance, now: nat): nat {
    if r.startedAt.Some? && r.startedAt.value <= now then now - r.startedAt.value else 0
  }

  predicate StableExit(r: Instance, d: Defaults, now: nat) {
    Uptime(r, now) >= d.stableAfterSecs * 1000
  }

  function ReapOne(r: Instance, d: Defaults, wait: Pid -> Wait, now: nat): Instance {
    if !r.Running() then r
    else
      match wait(r.handle.value.pid)
      case Exited =>
        var gone := r.(handle := None, startedAt := None, everReady := false);
        if r.phase != Terminating || r.restartAfterStop then
          var restarts := (if StableExit(r, d, now) then 0 else r.restarts) + 1;
          gone.(restarts := restarts,
                backoffUntil := Some(now + NextDelay(d, restarts)),
                phase := CrashLoopBackOff,
                restartAfterStop := false)
        else gone
      case StillRunning =>
        if r.phase == Terminating && r.killDeadline.Some? && r.killDeadline.value <= now then
          r.(handle := Some(Send(r.handle.value, Sigkill(now))), killDeadline := Some(now + KILL_RETRY))
        else r
      case WaitFailed => r
  }

  // ----- spawn -----

  /** The fields an instance's hash is computed from. */
  datatype Fingerprint = Fingerprint(
    bin: string,
    args: seq<string>,
    dir: Option<string>,
    port: nat,
    readyPath: string,
    livePath: string,
    livePeriod: nat,
    liveFailures: nat,
    readyTimeout: nat,
    env: map<string, string>)

  function Decimal(n: nat): string {
    if n < 10 then [('0' as int + n) as char] else Decimal(n / 10) + [('0' as int + n % 10) as char]
  }

  /** The app's env over the defaults, and the per-instance pointers over both. */
  function ConfiguredEnv(d: Defaults, a: App, replica: nat, port: nat): map<string, string> {
    d.env + a.env + map["PORT" := Decimal(port), "ARTZAIN_APP" := a.name, "ARTZAIN_REPLICA" := Decimal(replica)]
  }

  function FingerprintOf(d: Defaults, a: App, replica: nat, port: nat): Fingerprint {
    Fingerprint(a.bin, a.args, a.dir, port, a.readyPath, a.livePath, a.livePeriod, a.liveFailures, a.readyTimeout,
                ConfiguredEnv(d, a, replica, port))
  }

  /** `spec_hash`: any function, collisions included. */
  type Hasher = (Defaults, App, nat, nat) -> nat

  /** The hash of an instance depends on its fingerprint alone. */
  ghost predicate HashesFingerprint(hasher: Hasher) {
    forall d, a, i, p, d', a', i', p' {:trigger hasher(d, a, i, p), hasher(d', a', i', p')} ::
      FingerprintOf(d, a, i, p) == FingerprintOf(d', a', i', p') ==> hasher(d, a, i, p) == hasher(d', a', i', p')
  }

  datatype SpawnAnswer = SpawnAnswer(ok: bool, at: nat)

  function SpawnOne(hasher: Hasher, d: Defaults, a: App, r: Instance, ans: SpawnAnswer, pid: Pid): Instance {
    if ans.ok then
      var noReadyProbe := a.readyPath == "";
      r.(handle := Some(Handle(pid, [])),
         phase := if noReadyProbe then Ready else Starting,
         startedAt := Some(ans.at),
         backoffUntil := None,
         readyDeadline := Some(ans.at + a.readyTimeout * 1000),
         consecutiveLiveFail := 0,
         everReady := noReadyProbe,
         nextReadyProbe := ans.at,
         nextLiveProbe := ans.at + a.livePeriod * 1000,
         specHash := hasher(d, a, r.replica, r.port))
    else
      r.(restarts := r.restarts + 1,
         backoffUntil := Some(ans.at + NextDelay(d, r.restarts + 1)),
         phase := CrashLoopBackOff)
  }

  // ----- probe -----

  /** The answers the two probes would get, and the clock when each has answered. */
  datatype ProbeAnswer = ProbeAnswer(ready: bool, readyAt: nat, live: bool, liveAt: nat)

  predicate ReadyProbeRuns(a: App, r: Instance, now: nat) {
    r.nextReadyProbe <= now && a.readyPath != ""
  }

  function ReadyProbe(r: Instance, ans: ProbeAnswer): Instance {
    var p := r.(nextReadyProbe := ans.readyAt + READY_PERIOD);
    if ans.ready then p.(phase := Ready, everReady := true)
    else if p.phase == Ready then p.(phase := Unready)
    else if p.phase == Starting && p.readyDeadline.Some? && p.readyDeadline.value <= ans.readyAt then
      BeginStop(p, true, ans.readyAt)
    else p
  }

  predicate LiveProbeRuns(a: App, r: Instance, now: nat) {
    r.nextLiveProbe <= now && a.livePath != "" && r.everReady
  }

  function LiveProbe(a: App, r: Instance, ans: ProbeAnswer): Instance {
    var p := r.(nextLiveProbe := ans.liveAt + a.livePeriod * 1000);
    if ans.live then p.(consecutiveLiveFail := 0)
    else
      var q := p.(consecutiveLiveFail := p.consecutiveLiveFail + 1);
      if q.consecutiveLiveFail >= a.liveFailures then BeginStop(q, true, ans.liveAt) else q
  }

  /** The record after the readiness half of a probe round. */
  function AfterReadiness(a: App, r: Instance, now: nat, ans: ProbeAnswer): Instance {
    if ReadyProbeRuns(a, r, now) then ReadyProbe(r, ans) else r
  }

  function ProbeApp(a: App, r: Instance, now: nat, ans: ProbeAnswer): Instance {
    var p := AfterReadiness(a, r, now, ans);
    if p.phase != Terminating && LiveProbeRuns(a, p, now) then LiveProbe(a, p, ans) else p
  }

  function ProbeOne(m: Manifest, r: Instance, now: nat, ans: ProbeAnswer): Instance {
    if r.Serving() && m.Has(r.app) then ProbeApp(m.Lookup(r.app).value, r, now, ans) else r
  }

  /** A probe round leaves a record its slot, port, hash and process. */
  lemma ProbeKeeps(m: Manifest, r: Instance, now: nat, ans: ProbeAnswer)
    ensures var p := ProbeOne(m, r, now, ans);
            && p.Slot() == r.Slot() && p.port == r.port && p.specHash == r.specHash
            && p.Running() == r.Running() && (p.Serving() ==> r.Serving())
  {
    if r.Serving() && m.Has(r.app) {
      var a := AfterReadiness(m.Lookup(r.app).value, r, now, ans);
      assert a.Slot() == r.Slot() && a.port == r.port && a.specHash == r.specHash && a.Running();
    }
  }
}
