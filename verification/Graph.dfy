/** The app-dependency graph: paths, cycles, dependency depth, and closed selections. */
module Graph {
  import opened Prelude
  import opened Manifests

  /** The apps keyed by name. */
  type AppGraph = g: map<string, App> | forall n :: n in g ==> g[n].name == n

  /** `by_name`: a later duplicate wins. */
  function ByName(apps: seq<App>): (g: AppGraph)
    ensures g.Keys == set a | a in apps :: a.name
    ensures forall n :: n in g ==> g[n] in apps
  {
    if apps == [] then map[]
    else
      var last := apps[|apps| - 1];
      assert forall a :: a in apps <==> a in apps[..|apps| - 1] || a == last;
      ByName(apps[..|apps| - 1])[last.name := last]
  }

  /** `a` is an app and lists `b`, itself an app, as a dependency. */
  predicate Edge(g: AppGraph, a: string, b: string) {
    a in g && b in g && b in g[a].dependsOn
  }

  ghost predicate IsPath(g: AppGraph, p: seq<string>) {
    && p != []
    && p[0] in g
    && forall i :: 0 <= i < |p| - 1 ==> Edge(g, p[i], p[i + 1])
  }

  ghost predicate PathFromTo(g: AppGraph, p: seq<string>, a: string, b: string) {
    IsPath(g, p) && p[0] == a && p[|p| - 1] == b
  }

  /** `a` depends on `b`, transitively and in at least one step. */
  ghost predicate DependsOn(g: AppGraph, a: string, b: string) {
    exists p :: PathFromTo(g, p, a, b) && |p| > 1
  }

  /** `b` is `a` itself or one of its transitive dependencies. */
  ghost predicate Reaches(g: AppGraph, a: string, b: string) {
    exists p :: PathFromTo(g, p, a, b)
  }

  ghost predicate Acyclic(g: AppGraph) {
    forall n :: !DependsOn(g, n, n)
  }

  lemma PathNodes(g: AppGraph, p: seq<string>)
    requires IsPath(g, p)
    ensures forall n :: n in p ==> n in g
  {
    forall i | 0 <= i < |p| ensures p[i] in g {
      if i > 0 {
        assert Edge(g, p[i - 1], p[i - 1 + 1]);
      }
    }
  }

  lemma ExtendPath(g: AppGraph, p: seq<string>, a: string, b: string, c: string)
    requires PathFromTo(g, p, a, b) && Edge(g, b, c)
    ensures PathFromTo(g, p + [c], a, c)
    ensures DependsOn(g, a, c)
  {
    var q := p + [c];
    forall i | 0 <= i < |q| - 1 ensures Edge(g, q[i], q[i + 1]) {
      if i < |p| - 1 {
        assert Edge(g, p[i], p[i + 1]);
      }
    }
  }

  lemma SubPath(g: AppGraph, p: seq<string>, i: nat, j: nat)
    requires IsPath(g, p) && i <= j < |p|
    ensures PathFromTo(g, p[i..j + 1], p[i], p[j])
    ensures i < j ==> DependsOn(g, p[i], p[j])
  {
    PathNodes(g, p);
    var q := p[i..j + 1];
    forall k | 0 <= k < |q| - 1 ensures Edge(g, q[k], q[k + 1]) {
      assert Edge(g, p[i + k], p[i + k + 1]);
    }
  }

  // ----- dependency depth -----

  /** Every dependency chain that starts at app `a` has at most `k` apps. */
  predicate DepthAtMost(g: AppGraph, a: string, k: nat)
    decreases k
  {
    && a in g
    && k > 0
    && forall d :: d in g[a].dependsOn && d in g ==> DepthAtMost(g, d, k - 1)
  }

  lemma {:induction false} DepthMonotone(g: AppGraph, a: string, k: nat, l: nat)
    requires DepthAtMost(g, a, k) && k <= l
    ensures DepthAtMost(g, a, l)
    decreases k
  {
    forall d | d in g[a].dependsOn && d in g ensures DepthAtMost(g, d, l - 1) {
      DepthMonotone(g, d, k - 1, l - 1);
    }
  }

  /** The recursive depth says what it should about chains: no chain from `a` is longer. */
  lemma {:induction false} DepthBoundsChains(g: AppGraph, a: string, k: nat, p: seq<string>)
    requires DepthAtMost(g, a, k) && IsPath(g, p) && p[0] == a
    ensures |p| <= k
    decreases k
  {
    if |p| > 1 {
      assert Edge(g, p[0], p[0 + 1]);
      SubPath(g, p, 1, |p| - 1);
      assert p[1..|p| - 1 + 1] == p[1..];
      DepthBoundsChains(g, p[1], k - 1, p[1..]);
    }
  }

  /** ... and when the depth exceeds `k` there is a chain of `k + 1` apps to show it. */
  lemma {:induction false} LongChain(g: AppGraph, a: string, k: nat) returns (p: seq<string>)
    requires a in g && !DepthAtMost(g, a, k)
    ensures IsPath(g, p) && p[0] == a && |p| == k + 1
    decreases k
  {
    if k == 0 {
      p := [a];
    } else {
      var d :| d in g[a].dependsOn && d in g && !DepthAtMost(g, d, k - 1);
      var q := LongChain(g, d, k - 1);
      p := [a] + q;
      forall i | 0 <= i < |p| - 1 ensures Edge(g, p[i], p[i + 1]) {
        if i > 0 {
          assert Edge(g, q[i - 1], q[i - 1 + 1]);
        }
      }
    }
  }

  /** An app on a dependency cycle, or with one downstream of it, has no finite depth. */
  lemma {:induction false} CycleHasNoDepth(g: AppGraph, a: string, c: string, k: nat)
    requires Reaches(g, a, c) && DependsOn(g, c, c)
    ensures !DepthAtMost(g, a, k)
    decreases k
  {
    if DepthAtMost(g, a, k) {
      var p :| PathFromTo(g, p, a, c);
      var q :| PathFromTo(g, q, c, c) && |q| > 1;
      var r := if |p| > 1 then p else q;
      assert Edge(g, r[0], r[0 + 1]);
      SubPath(g, r, 1, |r| - 1);
      CycleHasNoDepth(g, r[1], c, k - 1);
    }
  }

  /** The app is on a dependency cycle, or depends on an app that is. */
  ghost predicate ReachesCycle(g: AppGraph, a: string) {
    exists c :: Reaches(g, a, c) && DependsOn(g, c, c)
  }

  /** A chain of more apps than there are passes through a cycle. */
  lemma LongChainReachesCycle(g: AppGraph, a: string, p: seq<string>)
    requires IsPath(g, p) && p[0] == a && |p| > |g|
    ensures ReachesCycle(g, a)
  {
    PathNodes(g, p);
    if NoDup(p) {
      NoDupBound(p, g.Keys);
    } else {
      var i, j :| 0 <= i < j < |p| && p[i] == p[j];
      SubPath(g, p, 0, i);
      SubPath(g, p, i, j);
      assert Reaches(g, a, p[i]);
    }
  }

  /** An app has a finite depth, then at most the number of apps, exactly when it reaches no cycle. */
  lemma DepthIffNoCycle(g: AppGraph, a: string, k: nat)
    requires a in g && k >= |g|
    ensures DepthAtMost(g, a, k) <==> !ReachesCycle(g, a)
  {
    if ReachesCycle(g, a) {
      var c :| Reaches(g, a, c) && DependsOn(g, c, c);
      CycleHasNoDepth(g, a, c, k);
    } else if !DepthAtMost(g, a, |g|) {
      var p := LongChain(g, a, |g|);
      LongChainReachesCycle(g, a, p);
    } else {
      DepthMonotone(g, a, |g|, k);
    }
  }

  /** The graph is acyclic exactly when every app has a finite depth. */
  lemma AcyclicIffDepth(g: AppGraph)
    ensures Acyclic(g) <==> forall a :: a in g ==> DepthAtMost(g, a, |g|)
  {
    forall a | a in g ensures DepthAtMost(g, a, |g|) <==> !ReachesCycle(g, a) {
      DepthIffNoCycle(g, a, |g|);
    }
    if n :| DependsOn(g, n, n) {
      var p :| PathFromTo(g, p, n, n) && |p| > 1;
      assert Reaches(g, n, n) && ReachesCycle(g, n);
    }
  }

  // ----- dependency-closed sets -----

  ghost predicate DependencyClosed(g: AppGraph, s: set<string>) {
    forall a, b :: a in s && Edge(g, a, b) ==> b in s
  }

  /** The requested apps together with everything they transitively depend on. */
  ghost function Closure(g: AppGraph, roots: set<string>): set<string> {
    set n | n in g && exists r :: r in roots && Reaches(g, r, n)
  }

  lemma ClosureContains(g: AppGraph, roots: set<string>)
    requires roots <= g.Keys
    ensures roots <= Closure(g, roots) <= g.Keys
    ensures DependencyClosed(g, Closure(g, roots))
  {
    forall r | r in roots ensures r in Closure(g, roots) {
      assert PathFromTo(g, [r], r, r);
    }
    forall a, b | a in Closure(g, roots) && Edge(g, a, b) ensures b in Closure(g, roots) {
      var r :| r in roots && Reaches(g, r, a);
      var p :| PathFromTo(g, p, r, a);
      ExtendPath(g, p, r, a, b);
    }
  }

  lemma {:induction false} PathStaysIn(g: AppGraph, s: set<string>, p: seq<string>)
    requires DependencyClosed(g, s) && IsPath(g, p) && p[0] in s
    ensures p[|p| - 1] in s
    decreases |p|
  {
    if |p| > 1 {
      assert Edge(g, p[0], p[0 + 1]);
      SubPath(g, p, 1, |p| - 1);
      assert p[1..|p| - 1 + 1] == p[1..];
      PathStaysIn(g, s, p[1..]);
    }
  }

  lemma ClosureIsLeast(g: AppGraph, roots: set<string>, s: set<string>)
    requires roots <= s && DependencyClosed(g, s)
    ensures Closure(g, roots) <= s
  {
    forall n | n in Closure(g, roots) ensures n in s {
      var r :| r in roots && Reaches(g, r, n);
      var p :| PathFromTo(g, p, r, n);
      PathStaysIn(g, s, p);
    }
  }

  lemma GraphOfWellFormed(m: Manifest, n: string)
    requires UniqueNames(m)
    ensures n in ByName(m.apps) <==> m.Has(n)
    ensures m.Has(n) ==> ByName(m.apps)[n] == m.Lookup(n).value
  {
    LookupIff(m, n);
    if m.Has(n) {
      var a := ByName(m.apps)[n];
      LookupUnique(m, a);
    }
  }
}
