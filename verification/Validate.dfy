/** `Manifest::validate`: which manifests are accepted, and what a rejection reports. */
module Validation {
  import opened Prelude
  import opened Manifests

  ghost predicate InWindow(a: App, p: nat) {
    a.port <= p < a.port + a.replicas
  }

  ghost predicate SharedPort(m: Manifest, p: nat, i: nat, j: nat) {
    i < j < |m.apps| && InWindow(m.apps[i], p) && InWindow(m.apps[j], p)
  }

  ghost predicate SameAppName(m: Manifest, i: nat, j: nat) {
    i < j < |m.apps| && m.apps[i].name == m.apps[j].name
  }

  ghost predicate CheckNameTaken(m: Manifest, j: nat) {
    && j < |m.checks|
    && ((exists a :: a in m.apps && a.name == m.checks[j].name)
        || exists i :: 0 <= i < j && m.checks[i].name == m.checks[j].name)
  }

  /** The problem named by an error message is present in the manifest. */
  ghost predicate Present(m: Manifest, acc: Accounts, e: Problem) {
    match e
    case DuplicateApp(n) => exists i: nat, j: nat :: SameAppName(m, i, j) && m.apps[j].name == n
    case ZeroReplicas(n) => exists a :: a in m.apps && a.name == n && a.replicas == 0
    case WindowOverflow(n) => exists a :: a in m.apps && a.name == n && a.port + a.replicas - 1 > U16_MAX
    case CheckCollides(n) => exists j: nat :: CheckNameTaken(m, j) && m.checks[j].name == n
    case CheckWithoutTarget(n) => exists c :: c in m.checks && c.name == n && c.tcp.None? && c.http.None?
    case PortClaimedTwice(p, x, y) =>
      exists i: nat, j: nat :: SharedPort(m, p, i, j) && m.apps[i].name == x && m.apps[j].name == y
    case UnknownDependency(n, d) => exists a :: a in m.apps && a.name == n && d in a.dependsOn && !KnownName(m, d)
    case UnknownUser(n, u) => exists a :: a in m.apps && a.name == n && a.user == Some(u) && acc.user(u).None?
    case UnknownGroup(n, g) => exists a :: a in m.apps && a.name == n && a.group == Some(g) && acc.group(g).None?
  }

  ghost predicate AllPresent(m: Manifest, acc: Accounts, errors: seq<Problem>) {
    forall e :: e in errors ==> Present(m, acc, e)
  }

  /** The problems of one app by itself are reported. */
  ghost predicate AppTold(m: Manifest, errors: seq<Problem>, j: nat)
    requires j < |m.apps|
  {
    var a := m.apps[j];
    && ((exists i: nat :: SameAppName(m, i, j)) ==> DuplicateApp(a.name) in errors)
    && (a.replicas == 0 ==> ZeroReplicas(a.name) in errors)
    && (a.port + a.replicas - 1 > U16_MAX ==> WindowOverflow(a.name) in errors)
  }

  ghost predicate CheckTold(m: Manifest, errors: seq<Problem>, j: nat)
    requires j < |m.checks|
  {
    && (CheckNameTaken(m, j) ==> CheckCollides(m.checks[j].name) in errors)
    && (m.checks[j].tcp.None? && m.checks[j].http.None? ==> CheckWithoutTarget(m.checks[j].name) in errors)
  }

  ghost predicate PortTold(errors: seq<Problem>, p: nat) {
    exists e :: e in errors && e.PortClaimedTwice? && e.port == p
  }

  ghost predicate DependencyTold(m: Manifest, errors: seq<Problem>, a: App, d: string) {
    !KnownName(m, d) ==> UnknownDependency(a.name, d) in errors
  }

  ghost predicate AccountTold(acc: Accounts, errors: seq<Problem>, a: App) {
    && (a.user.Some? && acc.user(a.user.value).None? ==> UnknownUser(a.name, a.user.value) in errors)
    && (a.group.Some? && acc.group(a.group.value).None? ==> UnknownGroup(a.name, a.group.value) in errors)
  }

  /** The problem is among those reported; of a port that several apps claim, at least one pair is. */
  ghost predicate Told(errors: seq<Problem>, e: Problem) {
    if e.PortClaimedTwice? then PortTold(errors, e.port) else e in errors
  }

  /** The ids an app's processes run under: the group given, else the user's primary one. */
  datatype Ids = Ids(uid: Option<nat>, gid: Option<nat>)

  function IdsOf(a: App, acc: Accounts): Ids {
    var user := if a.user.Some? then acc.user(a.user.value) else None;
    var group := if a.group.Some? then acc.group(a.group.value) else None;
    Ids(if user.Some? then Some(user.value.0) else None,
        if group.Some? then group else if user.Some? then Some(user.value.1) else None)
  }

  /**
   * `validate` accepts exactly the well-formed manifests whose users and groups exist, reports
   * only real problems and every one of them, and resolves every app's ids.
   */
  method Validate(m: Manifest, acc: Accounts) returns (errors: seq<Problem>, ids: seq<Ids>)
    ensures errors == [] <==> WellFormed(m) && AccountsKnown(m, acc)
    ensures forall e :: e in errors ==> Present(m, acc, e)
    ensures forall e :: Present(m, acc, e) ==> Told(errors, e)
    ensures |ids| == |m.apps| && forall i :: 0 <= i < |ids| ==> ids[i] == IdsOf(m.apps[i], acc)
  {
    var appErrors, appNames := ValidateApps(m, acc);
    var checkErrors, names := ValidateChecks(m, acc, appNames);
    var portErrors := ValidatePorts(m, acc);
    var depErrors := ValidateDependencies(m, acc, names);
    var accountErrors;
    accountErrors, ids := ValidateAccounts(m, acc);
    errors := appErrors + checkErrors + portErrors + depErrors + accountErrors;
    forall e | Present(m, acc, e) ensures Told(errors, e) {
      EachTold(m, acc, e, appErrors, checkErrors, portErrors, depErrors, accountErrors);
    }
    if portErrors == [] {
      DisjointFromPorts(m);
    } else {
      assert portErrors[0] in portErrors;
      PortsFromDisjoint(m);
    }
  }

  lemma EachTold(m: Manifest, acc: Accounts, e: Problem, app: seq<Problem>, check: seq<Problem>, port: seq<Problem>, dep: seq<Problem>, account: seq<Problem>)
    requires Present(m, acc, e)
    requires forall j: nat :: j < |m.apps| ==> AppTold(m, app, j)
    requires forall j: nat :: j < |m.checks| ==> CheckTold(m, check, j)
    requires forall p: nat, i: nat, j: nat :: SharedPort(m, p, i, j) ==> PortTold(port, p)
    requires forall a, d :: a in m.apps && d in a.dependsOn ==> DependencyTold(m, dep, a, d)
    requires forall a :: a in m.apps ==> AccountTold(acc, account, a)
    ensures Told(app + check + port + dep + account, e)
  {
    match e
    case DuplicateApp(n) =>
      var i: nat, j: nat :| SameAppName(m, i, j) && m.apps[j].name == n;
      assert AppTold(m, app, j);
    case ZeroReplicas(n) =>
      var j: nat :| j < |m.apps| && m.apps[j].name == n && m.apps[j].replicas == 0;
      assert AppTold(m, app, j);
    case WindowOverflow(n) =>
      var j: nat :| j < |m.apps| && m.apps[j].name == n && m.apps[j].port + m.apps[j].replicas - 1 > U16_MAX;
      assert AppTold(m, app, j);
    case CheckCollides(n) =>
      var j: nat :| CheckNameTaken(m, j) && m.checks[j].name == n;
      assert CheckTold(m, check, j);
    case CheckWithoutTarget(n) =>
      var j: nat :| j < |m.checks| && m.checks[j].name == n && m.checks[j].tcp.None? && m.checks[j].http.None?;
      assert CheckTold(m, check, j);
    case PortClaimedTwice(p, x, y) =>
      var o :| o in port && o.PortClaimedTwice? && o.port == p;
      assert o in app + check + port + dep + account;
    case UnknownDependency(n, d) =>
      var a :| a in m.apps && a.name == n && d in a.dependsOn && !KnownName(m, d);
      assert DependencyTold(m, dep, a, d);
    case UnknownUser(n, u) =>
      var a :| a in m.apps && a.name == n && a.user == Some(u) && acc.user(u).None?;
      assert AccountTold(acc, account, a);
    case UnknownGroup(n, g) =>
      var a :| a in m.apps && a.name == n && a.group == Some(g) && acc.group(g).None?;
      assert AccountTold(acc, account, a);
  }

  method ValidateAccounts(m: Manifest, acc: Accounts) returns (errors: seq<Problem>, ids: seq<Ids>)
    ensures errors == [] <==> AccountsKnown(m, acc)
    ensures AllPresent(m, acc, errors)
    ensures forall a :: a in m.apps ==> AccountTold(acc, errors, a)
    ensures |ids| == |m.apps| && forall i :: 0 <= i < |ids| ==> ids[i] == IdsOf(m.apps[i], acc)
  {
    errors, ids := [], [];
    for x := 0 to |m.apps|
      invariant errors == [] <==> forall j :: 0 <= j < x ==> AccountKnown(m.apps[j], acc)
      invariant AllPresent(m, acc, errors)
      invariant forall j :: 0 <= j < x ==> AccountTold(acc, errors, m.apps[j])
      invariant |ids| == x && forall i :: 0 <= i < x ==> ids[i] == IdsOf(m.apps[i], acc)
    {
      var more, id := ResolveAccount(m, x, acc);
      errors, ids := errors + more, ids + [id];
    }
  }

  method ResolveAccount(m: Manifest, x: nat, acc: Accounts) returns (errors: seq<Problem>, id: Ids)
    requires x < |m.apps|
    ensures errors == [] <==> AccountKnown(m.apps[x], acc)
    ensures AllPresent(m, acc, errors)
    ensures AccountTold(acc, errors, m.apps[x])
    ensures id == IdsOf(m.apps[x], acc)
  {
    var a := m.apps[x];
    var uid, gid: Option<nat> := None, None;
    errors := [];
    if a.user.Some? {
      match acc.user(a.user.value) {
        case Some(found) => uid, gid := Some(found.0), Some(found.1);
        case None => errors := errors + [UnknownUser(a.name, a.user.value)];
      }
    }
    if a.group.Some? {
      match acc.group(a.group.value) {
        case Some(g) => gid := Some(g);
        case None => errors := errors + [UnknownGroup(a.name, a.group.value)];
      }
    }
    id := Ids(uid, gid);
  }

  ghost predicate AppSound(m: Manifest, j: nat)
    requires j < |m.apps|
  {
    && (forall i: nat :: !SameAppName(m, i, j))
    && 0 < m.apps[j].replicas
    && m.apps[j].port + m.apps[j].replicas - 1 <= U16_MAX
  }

  lemma AppSoundIff(m: Manifest)
    ensures UniqueNames(m) && WindowsFit(m) <==> forall j: nat :: j < |m.apps| ==> AppSound(m, j)
  {
    if UniqueNames(m) && WindowsFit(m) {
      forall j: nat | j < |m.apps| ensures AppSound(m, j) {
        assert m.apps[j] in m.apps;
        forall i: nat ensures !SameAppName(m, i, j) {
          assert NamesDiffer(m, i, j);
        }
      }
    }
    if forall j: nat :: j < |m.apps| ==> AppSound(m, j) {
      forall i: nat, j: nat ensures NamesDiffer(m, i, j) {
        if i < j < |m.apps| {
          assert AppSound(m, j) && !SameAppName(m, i, j);
        }
      }
      forall a | a in m.apps ensures 0 < a.replicas && a.port + a.replicas - 1 <= U16_MAX {
        var j: nat :| j < |m.apps| && m.apps[j] == a;
        assert AppSound(m, j);
      }
    }
  }

  lemma MoreChecksTold(m: Manifest, before: seq<Problem>, errors: seq<Problem>, x: nat)
    requires x < |m.checks| && before <= errors && CheckTold(m, errors, x)
    requires forall j: nat :: j < x ==> CheckTold(m, before, j)
    ensures forall j: nat :: j < x + 1 ==> CheckTold(m, errors, j)
  {
    forall j: nat | j < x + 1 ensures CheckTold(m, errors, j) {
      assert j < x ==> CheckTold(m, before, j);
    }
  }

  method ValidateApps(m: Manifest, ghost acc: Accounts) returns (errors: seq<Problem>, names: set<string>)
    ensures names == m.AppNames()
    ensures errors == [] <==> UniqueNames(m) && WindowsFit(m)
    ensures AllPresent(m, acc, errors)
    ensures forall j: nat :: j < |m.apps| ==> AppTold(m, errors, j)
  {
    errors, names := [], {};
    for x := 0 to |m.apps|
      invariant names == set i | 0 <= i < x :: m.apps[i].name
      invariant errors == [] <==> forall j: nat :: j < x ==> AppSound(m, j)
      invariant AllPresent(m, acc, errors)
      invariant forall j: nat :: j < x ==> AppTold(m, errors, j)
    {
      var more := ValidateApp(m, acc, x, names);
      forall j: nat | j < x + 1 ensures AppTold(m, errors + more, j) {
        assert if j < x then AppTold(m, errors, j) else AppTold(m, more, j);
      }
      errors, names := errors + more, names + {m.apps[x].name};
    }
    AppSoundIff(m);
  }

  method ValidateApp(m: Manifest, ghost acc: Accounts, x: nat, names: set<string>) returns (errors: seq<Problem>)
    requires x < |m.apps| && names == set i | 0 <= i < x :: m.apps[i].name
    ensures errors == [] <==> AppSound(m, x)
    ensures AllPresent(m, acc, errors)
    ensures AppTold(m, errors, x)
  {
    var a := m.apps[x];
    errors := [];
    var taken := a.name in names;
    if taken {
      ghost var i :| 0 <= i < x && m.apps[i].name == a.name;
      assert SameAppName(m, i, x);
      errors := errors + [DuplicateApp(a.name)];
    } else {
      assert forall i: nat :: !SameAppName(m, i, x);
    }
    if a.replicas == 0 {
      errors := errors + [ZeroReplicas(a.name)];
    }
    if a.replicas > 1 && a.port + a.replicas - 1 > U16_MAX {
      errors := errors + [WindowOverflow(a.name)];
    }
  }

  method ValidateChecks(m: Manifest, ghost acc: Accounts, appNames: set<string>) returns (errors: seq<Problem>, names: set<string>)
    requires appNames == m.AppNames()
    ensures forall d :: d in names <==> KnownName(m, d)
    ensures errors == [] <==> ChecksSound(m)
    ensures AllPresent(m, acc, errors)
    ensures forall j: nat :: j < |m.checks| ==> CheckTold(m, errors, j)
  {
    errors, names := [], appNames;
    for x := 0 to |m.checks|
      invariant forall j: nat :: j < x ==> CheckTold(m, errors, j)
      invariant names == appNames + set i | 0 <= i < x :: m.checks[i].name
      invariant errors == [] <==>
                forall j :: 0 <= j < x ==> !CheckNameTaken(m, j) && (m.checks[j].tcp.Some? || m.checks[j].http.Some?)
      invariant AllPresent(m, acc, errors)
    {
      var c := m.checks[x];
      ghost var before := errors;
      assert c.name in names <==> CheckNameTaken(m, x);
      if c.name in names {
        errors := errors + [CheckCollides(c.name)];
      }
      names := names + {c.name};
      if c.tcp.None? && c.http.None? {
        errors := errors + [CheckWithoutTarget(c.name)];
      }
      MoreChecksTold(m, before, errors, x);
    }
    ChecksSoundIff(m);
    HasIffNamed(m);
  }

  lemma ChecksSoundIff(m: Manifest)
    ensures ChecksSound(m) <==>
            forall j :: 0 <= j < |m.checks| ==> !CheckNameTaken(m, j) && (m.checks[j].tcp.Some? || m.checks[j].http.Some?)
  {
    if ChecksSound(m) {
      forall j | 0 <= j < |m.checks| ensures !CheckNameTaken(m, j) {
        assert m.checks[j] in m.checks;
      }
    }
    if forall j :: 0 <= j < |m.checks| ==> !CheckNameTaken(m, j) && (m.checks[j].tcp.Some? || m.checks[j].http.Some?) {
      forall c, a | c in m.checks && a in m.apps ensures c.name != a.name {
        var j :| 0 <= j < |m.checks| && m.checks[j] == c;
        assert !CheckNameTaken(m, j);
      }
    }
  }

  ghost predicate NoSharedPort(m: Manifest) {
    forall p: nat, i: nat, j: nat :: !SharedPort(m, p, i, j)
  }

  /** Port `p` was claimed by the time the loops reached replica `k` of app `x`. */
  ghost predicate Claimed(m: Manifest, x: nat, k: nat, p: nat, i: nat) {
    && i <= x && i < |m.apps|
    && InWindow(m.apps[i], p)
    && (i < x || p < m.apps[i].port + k)
  }

  /** The map holds exactly the ports claimed so far, each under the name of an app that claims it. */
  ghost predicate Claims(m: Manifest, x: nat, k: nat, claimed: map<nat, string>) {
    && (forall p: nat :: p in claimed ==> exists i: nat :: Claimed(m, x, k, p, i) && m.apps[i].name == claimed[p])
    && (forall p: nat, i: nat :: Claimed(m, x, k, p, i) ==> p in claimed)
  }

  /** No port claimed so far had been claimed before. */
  ghost predicate NoneSharedYet(m: Manifest, x: nat, k: nat) {
    && (forall p: nat, i: nat, j: nat :: j < x ==> !SharedPort(m, p, i, j))
    && (x < |m.apps| ==> forall p: nat, i: nat :: p < m.apps[x].port + k ==> !SharedPort(m, p, i, x))
  }

  lemma ClaimOne(m: Manifest, x: nat, k: nat, claimed: map<nat, string>)
    requires x < |m.apps| && k < m.apps[x].replicas && Claims(m, x, k, claimed)
    ensures Claims(m, x, k + 1, claimed[m.apps[x].port + k := m.apps[x].name])
  {
    var p, n, claimed' := m.apps[x].port + k, k + 1, claimed[m.apps[x].port + k := m.apps[x].name];
    assert Claimed(m, x, n, p, x);
    forall q: nat | q in claimed' ensures exists i: nat :: Claimed(m, x, n, q, i) && m.apps[i].name == claimed'[q] {
      if q != p {
        var i: nat :| Claimed(m, x, k, q, i) && m.apps[i].name == claimed[q];
        assert Claimed(m, x, n, q, i);
      }
    }
    forall q: nat, i: nat | Claimed(m, x, n, q, i) ensures q in claimed' {
      assert q == p || Claimed(m, x, k, q, i);
    }
  }

  lemma ClaimNext(m: Manifest, x: nat, claimed: map<nat, string>)
    requires x < |m.apps| && Claims(m, x, m.apps[x].replicas, claimed)
    ensures Claims(m, x + 1, 0, claimed)
  {
    var k, n := m.apps[x].replicas, x + 1;
    forall q: nat | q in claimed ensures exists i: nat :: Claimed(m, n, 0, q, i) && m.apps[i].name == claimed[q] {
      var i: nat :| Claimed(m, x, k, q, i) && m.apps[i].name == claimed[q];
      assert Claimed(m, n, 0, q, i);
    }
    forall q: nat, i: nat | Claimed(m, n, 0, q, i) ensures q in claimed {
      assert Claimed(m, x, k, q, i);
    }
  }

  /** A port is shared exactly when it has been claimed before. */
  lemma SharedIff(m: Manifest, x: nat, k: nat, claimed: map<nat, string>)
    requires x < |m.apps| && k < m.apps[x].replicas && Claims(m, x, k, claimed)
    ensures var p := m.apps[x].port + k; p in claimed <==> exists i: nat :: SharedPort(m, p, i, x)
    ensures var p := m.apps[x].port + k; p in claimed ==> exists i: nat :: SharedPort(m, p, i, x) && m.apps[i].name == claimed[p]
    ensures NoneSharedYet(m, x, k + 1) <==> NoneSharedYet(m, x, k) && m.apps[x].port + k !in claimed
  {
    var p := m.apps[x].port + k;
    if p in claimed {
      var i: nat :| Claimed(m, x, k, p, i) && m.apps[i].name == claimed[p];
      assert SharedPort(m, p, i, x);
    }
    if i: nat :| SharedPort(m, p, i, x) {
      assert Claimed(m, x, k, p, i);
    }
  }

  lemma SharedNext(m: Manifest, x: nat)
    requires x < |m.apps|
    ensures NoneSharedYet(m, x + 1, 0) <==> NoneSharedYet(m, x, m.apps[x].replicas)
  {
    var n := x + 1;
    forall p: nat, i: nat ensures n < |m.apps| && p < m.apps[n].port ==> !SharedPort(m, p, i, n) {
    }
    forall p: nat, i: nat ensures p >= m.apps[x].port + m.apps[x].replicas ==> !SharedPort(m, p, i, x) {
    }
  }

  /** Every port claimed twice so far has been reported. */
  ghost predicate SharedTold(m: Manifest, x: nat, k: nat, errors: seq<Problem>) {
    forall p: nat, i: nat, j: nat :: SharedPort(m, p, i, j) && (j < x || (j == x && p < m.apps[x].port + k)) ==> PortTold(errors, p)
  }

  /** What the loops know when they reach replica `k` of app `x`. */
  ghost predicate PortsSeen(m: Manifest, acc: Accounts, x: nat, k: nat, claimed: map<nat, string>, errors: seq<Problem>) {
    Claims(m, x, k, claimed) && (errors == [] <==> NoneSharedYet(m, x, k)) && AllPresent(m, acc, errors) && SharedTold(m, x, k, errors)
  }

  lemma TellOne(m: Manifest, x: nat, k: nat, claimed: map<nat, string>, errors: seq<Problem>, errors': seq<Problem>)
    requires x < |m.apps| && k < m.apps[x].replicas && Claims(m, x, k, claimed) && SharedTold(m, x, k, errors)
    requires var q, a := m.apps[x].port + k, m.apps[x].name;
             errors' == if q in claimed then errors + [PortClaimedTwice(q, claimed[q], a)] else errors
    ensures SharedTold(m, x, k + 1, errors')
  {
    var q := m.apps[x].port + k;
    SharedIff(m, x, k, claimed);
    forall p: nat, i: nat, j: nat | SharedPort(m, p, i, j) && (j < x || (j == x && p < m.apps[x].port + (k + 1))) ensures PortTold(errors', p) {
      if j == x && p == q {
        assert q in claimed && errors'[|errors|] in errors';
      } else {
        assert PortTold(errors, p);
        var e :| e in errors && e.PortClaimedTwice? && e.port == p;
        assert e in errors';
      }
    }
  }

  lemma ToldNext(m: Manifest, x: nat, errors: seq<Problem>)
    requires x < |m.apps| && SharedTold(m, x, m.apps[x].replicas, errors)
    ensures SharedTold(m, x + 1, 0, errors)
  {
    forall p: nat, i: nat, j: nat | SharedPort(m, p, i, j) && j < x + 1 ensures PortTold(errors, p) {
      assert j == x ==> p < m.apps[x].port + m.apps[x].replicas;
    }
  }

  lemma SeeOne(m: Manifest, acc: Accounts, x: nat, k: nat, claimed: map<nat, string>, errors: seq<Problem>)
    requires x < |m.apps| && k < m.apps[x].replicas && PortsSeen(m, acc, x, k, claimed, errors)
    ensures var p, a := m.apps[x].port + k, m.apps[x].name;
            PortsSeen(m, acc, x, k + 1, claimed[p := a], if p in claimed then errors + [PortClaimedTwice(p, claimed[p], a)] else errors)
  {
    SharedIff(m, x, k, claimed);
    ClaimOne(m, x, k, claimed);
    var p, a := m.apps[x].port + k, m.apps[x].name;
    TellOne(m, x, k, claimed, errors, if p in claimed then errors + [PortClaimedTwice(p, claimed[p], a)] else errors);
  }

  lemma SeeNext(m: Manifest, acc: Accounts, x: nat, claimed: map<nat, string>, errors: seq<Problem>)
    requires x < |m.apps| && PortsSeen(m, acc, x, m.apps[x].replicas, claimed, errors)
    ensures PortsSeen(m, acc, x + 1, 0, claimed, errors)
  {
    ClaimNext(m, x, claimed);
    SharedNext(m, x);
    ToldNext(m, x, errors);
  }

  method ValidatePorts(m: Manifest, ghost acc: Accounts) returns (errors: seq<Problem>)
    ensures errors == [] <==> NoSharedPort(m)
    ensures AllPresent(m, acc, errors)
    ensures forall p: nat, i: nat, j: nat :: SharedPort(m, p, i, j) ==> PortTold(errors, p)
  {
    errors := [];
    var claimed: map<nat, string> := map[];
    for x := 0 to |m.apps|
      invariant PortsSeen(m, acc, x, 0, claimed, errors)
    {
      claimed, errors := ClaimWindow(m, acc, x, claimed, errors);
    }
  }

  method ClaimWindow(m: Manifest, ghost acc: Accounts, x: nat, before: map<nat, string>, reported: seq<Problem>)
    returns (claimed: map<nat, string>, errors: seq<Problem>)
    requires x < |m.apps| && PortsSeen(m, acc, x, 0, before, reported)
    ensures PortsSeen(m, acc, x + 1, 0, claimed, errors)
  {
    var a := m.apps[x];
    claimed, errors := before, reported;
    for k := 0 to a.replicas
      invariant PortsSeen(m, acc, x, k, claimed, errors)
    {
      var p := a.port + k;
      SeeOne(m, acc, x, k, claimed, errors);
      if p in claimed {
        errors := errors + [PortClaimedTwice(p, claimed[p], a.name)];
      }
      claimed := claimed[p := a.name];
    }
    SeeNext(m, acc, x, claimed, errors);
  }

  lemma DisjointFromPorts(m: Manifest)
    requires NoSharedPort(m)
    ensures WindowsFit(m) ==> WindowsDisjoint(m)
  {
    if WindowsFit(m) {
      forall i: nat, j: nat ensures WindowsApart(m, i, j) {
        if i < j < |m.apps| {
          assert !SharedPort(m, Max(m.apps[i].port, m.apps[j].port), i, j);
          assert m.apps[i] in m.apps && m.apps[j] in m.apps;
        }
      }
    }
  }

  lemma PortsFromDisjoint(m: Manifest)
    requires !NoSharedPort(m)
    ensures !WindowsDisjoint(m)
  {
    var p: nat, i: nat, j: nat :| SharedPort(m, p, i, j);
    assert !WindowsApart(m, i, j);
  }

  ghost predicate DependenciesSound(m: Manifest, i: nat)
    requires i < |m.apps|
  {
    forall d :: d in m.apps[i].dependsOn ==> KnownName(m, d)
  }

  method ValidateDependencies(m: Manifest, ghost acc: Accounts, names: set<string>) returns (errors: seq<Problem>)
    requires forall d :: d in names <==> KnownName(m, d)
    ensures errors == [] <==> DependenciesKnown(m)
    ensures AllPresent(m, acc, errors)
    ensures forall a, d :: a in m.apps && d in a.dependsOn ==> DependencyTold(m, errors, a, d)
  {
    errors := [];
    for x := 0 to |m.apps|
      invariant forall i, d :: 0 <= i < x && d in m.apps[i].dependsOn ==> DependencyTold(m, errors, m.apps[i], d)
      invariant errors == [] <==> forall i: nat :: i < x ==> DependenciesSound(m, i)
      invariant AllPresent(m, acc, errors)
    {
      var a := m.apps[x];
      ghost var before := errors;
      for k := 0 to |a.dependsOn|
        invariant errors == before <==> forall l :: 0 <= l < k ==> KnownName(m, a.dependsOn[l])
        invariant before <= errors
        invariant forall l :: 0 <= l < k ==> DependencyTold(m, errors, a, a.dependsOn[l])
        invariant AllPresent(m, acc, errors)
      {
        if a.dependsOn[k] !in names {
          errors := errors + [UnknownDependency(a.name, a.dependsOn[k])];
        }
      }
      assert errors == before <==> DependenciesSound(m, x);
    }
    assert DependenciesKnown(m) <==> forall i: nat :: i < |m.apps| ==> DependenciesSound(m, i) by {
      if forall i: nat :: i < |m.apps| ==> DependenciesSound(m, i) {
        forall a, d | a in m.apps && d in a.dependsOn ensures KnownName(m, d) {
          var i :| 0 <= i < |m.apps| && m.apps[i] == a;
          assert DependenciesSound(m, i);
        }
      }
      if DependenciesKnown(m) {
        forall i: nat | i < |m.apps| ensures DependenciesSound(m, i) {
          assert m.apps[i] in m.apps;
        }
      }
    }
  }

  // ----- the rules, written out -----

  /** No port is in the windows of two apps. */
  ghost predicate PortOnce(m: Manifest, p: nat, i: nat, j: nat) {
    i < j < |m.apps| ==>
      !(m.apps[i].port <= p < m.apps[i].port + m.apps[i].replicas && m.apps[j].port <= p < m.apps[j].port + m.apps[j].replicas)
  }

  ghost predicate Ruled(m: Manifest) {
    && (forall i, j :: 0 <= i < j < |m.apps| ==> m.apps[i].name != m.apps[j].name)
    && (forall a :: a in m.apps ==> a.replicas >= 1 && a.port + a.replicas <= 65_536)
    && (forall p: nat, i: nat, j: nat :: PortOnce(m, p, i, j))
    && (forall i, j :: 0 <= i < j < |m.checks| ==> m.checks[i].name != m.checks[j].name)
    && (forall c :: c in m.checks ==> c.name !in m.AppNames() && !(c.tcp.None? && c.http.None?))
    && (forall a, d :: a in m.apps && d in a.dependsOn ==> d in m.AppNames() || exists c :: c in m.checks && c.name == d)
  }

  /** Exactly the manifests that keep these rules are well formed, windows that touch and the last port included. */
  lemma WellFormedIff(m: Manifest)
    ensures WellFormed(m) <==> Ruled(m)
  {
    HasIffNamed(m);
    if Ruled(m) {
      forall i: nat, j: nat ensures NamesDiffer(m, i, j) {
      }
      forall p: nat, i: nat, j: nat ensures !SharedPort(m, p, i, j) {
        assert PortOnce(m, p, i, j);
      }
      DisjointFromPorts(m);
    }
    if WellFormed(m) {
      forall i, j | 0 <= i < j < |m.apps| ensures m.apps[i].name != m.apps[j].name {
        assert NamesDiffer(m, i, j);
      }
      forall p: nat, i: nat, j: nat ensures PortOnce(m, p, i, j) {
        assert WindowsApart(m, i, j);
      }
      forall a, d | a in m.apps && d in a.dependsOn ensures d in m.AppNames() || exists c :: c in m.checks && c.name == d {
        assert KnownName(m, d);
      }
    }
  }

  /** A group that is given decides; otherwise the user's primary group does, if there is a user. */
  lemma IdsAre(a: App, acc: Accounts)
    requires AccountKnown(a, acc)
    ensures var ids := IdsOf(a, acc);
            && (a.user.None? ==> ids.uid.None?)
            && (a.user.Some? ==> ids.uid == Some(acc.user(a.user.value).value.0))
            && ids.gid == (if a.group.Some? then acc.group(a.group.value)
                           else if a.user.Some? then Some(acc.user(a.user.value).value.1) else None)
  {
  }
}
