/** What the hash of an instance covers: which edits relaunch it and which do not. */
module Fingerprints {
  import opened Prelude
  import opened Manifests
  import opened Instances

  // ----- numbers in the environment -----

  /** The number a decimal string stands for. */
  function Parse(s: string): nat {
    if s == "" then 0 else 10 * Parse(s[..|s| - 1]) + Digit(s[|s| - 1])
  }

  function Digit(c: char): nat {
    if '0' <= c <= '9' then c as int - '0' as int else 0
  }

  lemma {:induction false} DecimalParses(n: nat)
    ensures forall c :: c in Decimal(n) ==> '0' <= c <= '9'
    ensures Parse(Decimal(n)) == n
  {
    var s := Decimal(n);
    if n < 10 {
      assert s[..|s| - 1] == "";
    } else {
      DecimalParses(n / 10);
      assert s[..|s| - 1] == Decimal(n / 10);
    }
  }

  lemma DecimalsDiffer(a: nat, b: nat)
    ensures Decimal(a) == Decimal(b) <==> a == b
  {
    DecimalParses(a);
    DecimalParses(b);
  }

  // ----- the environment -----

  function Value(env: map<string, string>, name: string): Option<string> {
    if name in env then Some(env[name]) else None
  }

  /** The app's own settings go before the defaults. */
  function Setting(d: Defaults, a: App, name: string): Option<string> {
    if name in a.env then Some(a.env[name]) else Value(d.env, name)
  }

  /** The pointers of the instance go before all settings. */
  lemma ConfiguredValue(d: Defaults, a: App, replica: nat, port: nat, name: string)
    ensures Value(ConfiguredEnv(d, a, replica, port), name)
         == if name == "PORT" then Some(Decimal(port))
            else if name == "ARTZAIN_APP" then Some(a.name)
            else if name == "ARTZAIN_REPLICA" then Some(Decimal(replica))
            else Setting(d, a, name)
  {
    PointersDiffer();
  }

  lemma PointersDiffer()
    ensures "PORT" != "ARTZAIN_APP" && "PORT" != "ARTZAIN_REPLICA" && "ARTZAIN_APP" != "ARTZAIN_REPLICA"
  {
    assert "PORT"[0] != "ARTZAIN_APP"[0] && "PORT"[0] != "ARTZAIN_REPLICA"[0] && "ARTZAIN_APP"[8] != "ARTZAIN_REPLICA"[8];
  }

  // ----- the fingerprint -----

  /** The settings differ only in what the pointers hide. */
  ghost predicate SameSettings(d: Defaults, a: App, d': Defaults, a': App) {
    forall name {:trigger Setting(d, a, name)} :: name != "PORT" && name != "ARTZAIN_APP" && name != "ARTZAIN_REPLICA" ==> Setting(d', a', name) == Setting(d, a, name)
  }

  ghost predicate SameProgram(a: App, a': App) {
    && a'.name == a.name && a'.bin == a.bin && a'.args == a.args && a'.dir == a.dir
    && a'.readyPath == a.readyPath && a'.livePath == a.livePath
    && a'.livePeriod == a.livePeriod && a'.liveFailures == a.liveFailures && a'.readyTimeout == a.readyTimeout
  }

  lemma SameValues(env: map<string, string>, env': map<string, string>)
    requires forall name :: Value(env', name) == Value(env, name)
    ensures env' == env
  {
    forall name ensures name in env' <==> name in env {
      assert Value(env', name) == Value(env, name);
    }
    forall name | name in env ensures name in env' && env'[name] == env[name] {
      assert Value(env', name) == Value(env, name);
    }
  }

  lemma SameEnvIff(d: Defaults, a: App, i: nat, p: nat, d': Defaults, a': App, i': nat, p': nat)
    ensures ConfiguredEnv(d', a', i', p') == ConfiguredEnv(d, a, i, p)
       <==> a'.name == a.name && i' == i && p' == p && SameSettings(d, a, d', a')
  {
    var env, env' := ConfiguredEnv(d, a, i, p), ConfiguredEnv(d', a', i', p');
    DecimalsDiffer(i, i');
    DecimalsDiffer(p, p');
    if env' == env {
      ConfiguredValue(d, a, i, p, "PORT");
      ConfiguredValue(d', a', i', p', "PORT");
      ConfiguredValue(d, a, i, p, "ARTZAIN_APP");
      ConfiguredValue(d', a', i', p', "ARTZAIN_APP");
      ConfiguredValue(d, a, i, p, "ARTZAIN_REPLICA");
      ConfiguredValue(d', a', i', p', "ARTZAIN_REPLICA");
      PointersDiffer();
      forall name {:trigger Setting(d, a, name)} | name != "PORT" && name != "ARTZAIN_APP" && name != "ARTZAIN_REPLICA" ensures Setting(d', a', name) == Setting(d, a, name) {
        ConfiguredValue(d, a, i, p, name);
        ConfiguredValue(d', a', i', p', name);
      }
    }
    if a'.name == a.name && i' == i && p' == p && SameSettings(d, a, d', a') {
      forall name ensures Value(env', name) == Value(env, name) {
        ConfiguredValue(d, a, i, p, name);
        ConfiguredValue(d', a', i', p', name);
      }
      SameValues(env, env');
    }
  }

  /**
   * Two instances have the same fingerprint exactly if they are the same replica of the same
   * app on the same port, running the same program with the same probes and the same configured
   * environment. Replica counts, dependencies, users and groups, the port windows and the
   * restart settings are not part of it.
   */
  lemma SameFingerprintIff(d: Defaults, a: App, i: nat, p: nat, d': Defaults, a': App, i': nat, p': nat)
    ensures FingerprintOf(d', a', i', p') == FingerprintOf(d, a, i, p)
       <==> i' == i && p' == p && SameProgram(a, a') && SameSettings(d, a, d', a')
  {
    SameEnvIff(d, a, i, p, d', a', i', p');
  }
}
