/** The declarative desired state: `artzain.toml` once it has been parsed. */
module Manifests {
  import opened Prelude

  datatype Defaults = Defaults(
    env: map<string, string>,
    restartBackoffMs: U64,
    restartBackoffMaxMs: U64,
    stableAfterSecs: nat,
    maxSurge: nat)

  datatype Check = Check(name: string, tcp: Option<string>, http: Option<string>)

  datatype App = App(
    name: string,
    bin: string,
    args: seq<string>,
    dir: Option<string>,
    replicas: nat,
    port: Port,
    env: map<string, string>,
    dependsOn: seq<string>,
    user: Option<string>,
    group: Option<string>,
    readyPath: string,
    livePath: string,
    readyTimeout: nat,
    livePeriod: nat,
    liveFailures: nat)

  function LookupIn(apps: seq<App>, name: string): (r: Option<App>)
    ensures r.Some? ==> r.value.name == name
  {
    if apps == [] then None else if apps[0].name == name then Some(apps[0]) else LookupIn(apps[1..], name)
  }

  lemma {:induction false} LookupInIff(apps: seq<App>, name: string)
    ensures LookupIn(apps, name).Some? ==> LookupIn(apps, name).value in apps
    ensures LookupIn(apps, name).None? <==> forall a :: a in apps ==> a.name != name
  {
    if apps != [] && apps[0].name != name {
      LookupInIff(apps[1..], name);
      assert forall a :: a in apps <==> a == apps[0] || a in apps[1..];
    }
  }

  datatype Manifest = Manifest(defaults: Defaults, checks: seq<Check>, apps: seq<App>) {
    /** The first app of that name. */
    function Lookup(name: string): (r: Option<App>)
      ensures r.Some? ==> r.value.name == name
    {
      LookupIn(apps, name)
    }

    predicate Has(name: string) {
      Lookup(name).Some?
    }

    function AppNames(): set<string> {
      set a | a in apps :: a.name
    }
  }

  /** Why a manifest is rejected. */
  datatype Problem =
    | DuplicateApp(name: string)
    | ZeroReplicas(name: string)
    | WindowOverflow(name: string)
    | CheckCollides(name: string)
    | CheckWithoutTarget(name: string)
    | PortClaimedTwice(port: nat, first: string, second: string)
    | UnknownDependency(app: string, dep: string)
    | UnknownUser(app: string, user: string)
    | UnknownGroup(app: string, group: string)

  /** What the host's account database answers: a user's id and primary group, and a group's id. */
  datatype Accounts = Accounts(user: string -> Option<(nat, nat)>, group: string -> Option<nat>)

  // ----- what an accepted manifest promises -----

  ghost predicate NamesDiffer(m: Manifest, i: nat, j: nat) {
    i < j < |m.apps| ==> m.apps[i].name != m.apps[j].name
  }

  ghost predicate UniqueNames(m: Manifest) {
    forall i: nat, j: nat :: NamesDiffer(m, i, j)
  }

  /** Every replica has a port of its own that fits a `u16`. */
  ghost predicate WindowsFit(m: Manifest) {
    forall a :: a in m.apps ==> 0 < a.replicas && a.port + a.replicas - 1 <= U16_MAX
  }

  ghost predicate WindowsApart(m: Manifest, i: nat, j: nat) {
    i < j < |m.apps| ==>
      m.apps[i].port + m.apps[i].replicas <= m.apps[j].port || m.apps[j].port + m.apps[j].replicas <= m.apps[i].port
  }

  /** The windows `[port, port + replicas)` of two different apps do not meet. */
  ghost predicate WindowsDisjoint(m: Manifest) {
    forall i: nat, j: nat :: WindowsApart(m, i, j)
  }

  ghost predicate ChecksSound(m: Manifest) {
    && (forall i, j :: 0 <= i < j < |m.checks| ==> m.checks[i].name != m.checks[j].name)
    && (forall c, a :: c in m.checks && a in m.apps ==> c.name != a.name)
    && (forall c :: c in m.checks ==> c.tcp.Some? || c.http.Some?)
  }

  ghost predicate KnownName(m: Manifest, d: string) {
    m.Has(d) || exists c :: c in m.checks && c.name == d
  }

  ghost predicate DependenciesKnown(m: Manifest) {
    forall a, d :: a in m.apps && d in a.dependsOn ==> KnownName(m, d)
  }

  ghost predicate AccountsKnown(m: Manifest, acc: Accounts) {
    forall a :: a in m.apps ==> AccountKnown(a, acc)
  }

  predicate AccountKnown(a: App, acc: Accounts) {
    && (a.user.Some? ==> acc.user(a.user.value).Some?)
    && (a.group.Some? ==> acc.group(a.group.value).Some?)
  }

  /** All that does not depend on the host. */
  ghost predicate WellFormed(m: Manifest) {
    && UniqueNames(m)
    && WindowsFit(m)
    && WindowsDisjoint(m)
    && ChecksSound(m)
    && DependenciesKnown(m)
  }

  lemma LookupIff(m: Manifest, name: string)
    ensures m.Has(name) ==> m.Lookup(name).value in m.apps
    ensures m.Has(name) <==> exists a :: a in m.apps && a.name == name
  {
    LookupInIff(m.apps, name);
  }

  lemma HasIffNamed(m: Manifest)
    ensures forall n :: m.Has(n) <==> n in m.AppNames()
  {
    forall n ensures m.Has(n) <==> n in m.AppNames() {
      LookupIff(m, n);
    }
  }

  lemma LookupUnique(m: Manifest, a: App)
    requires UniqueNames(m) && a in m.apps
    ensures m.Lookup(a.name) == Some(a)
  {
    LookupIff(m, a.name);
    var b := m.Lookup(a.name).value;
    var i :| 0 <= i < |m.apps| && m.apps[i] == a;
    var j :| 0 <= j < |m.apps| && m.apps[j] == b;
    assert NamesDiffer(m, i, j) && NamesDiffer(m, j, i);
  }

  /** Distinct slots of an accepted manifest have distinct declared ports. */
  lemma DeclaredPortsDistinct(m: Manifest, a: App, i: nat, b: App, j: nat)
    requires WellFormed(m)
    requires a in m.apps && b in m.apps && i < a.replicas && j < b.replicas
    ensures a.port + i <= U16_MAX
    ensures a.port + i == b.port + j ==> a == b && i == j
  {
    var x :| 0 <= x < |m.apps| && m.apps[x] == a;
    var y :| 0 <= y < |m.apps| && m.apps[y] == b;
    assert WindowsApart(m, x, y) && WindowsApart(m, y, x);
  }
}
