/** `Manifest::apps_ordered`: start order by depth-first search, failing on cycles. */
module StartOrder {
  import opened Prelude
  import opened Manifests
  import opened Graph

  datatype Mark = Visiting | Done

  type Marks = map<string, Mark>

  /** No app comes twice, and every app comes after all its app dependencies. */
  ghost predicate DependenciesFirst(g: AppGraph, order: seq<string>) {
    && NoDup(order)
    && (forall n :: n in order ==> n in g)
    && (forall i, d :: 0 <= i < |order| && Edge(g, order[i], d) ==> d in order[..i])
  }

  /** A complete start order of the graph. */
  ghost predicate IsStartOrder(g: AppGraph, order: seq<string>) {
    DependenciesFirst(g, order) && forall n :: n in g ==> n in order
  }

  /** What the search maintains: the finished apps are exactly those pushed, in a valid order. */
  ghost predicate Consistent(g: AppGraph, marks: Marks, order: seq<string>) {
    && marks.Keys <= g.Keys
    && DependenciesFirst(g, order)
    && forall n :: n in order <==> Finished(marks, n)
  }

  ghost predicate Finished(marks: Marks, n: string) {
    n in marks && marks[n].Done?
  }

  ghost function Open(marks: Marks): set<string> {
    set n | n in marks && marks[n].Visiting?
  }

  /** The search stack: every app still being visited leads to `name`. */
  ghost predicate StackLeadsTo(g: AppGraph, marks: Marks, name: string) {
    forall n :: n in Open(marks) && name in g ==> DependsOn(g, n, name)
  }

  /** The list is longer by apps that the app needs, or the app itself. */
  ghost predicate GrowsFor(g: AppGraph, name: string, order: seq<string>, order': seq<string>) {
    order <= order' && forall n :: n in order' ==> n in order || Reaches(g, name, n)
  }

  method Visit(name: string, g: AppGraph, marks: Marks, order: seq<string>)
    returns (ok: bool, marks': Marks, order': seq<string>)
    requires Consistent(g, marks, order)
    requires StackLeadsTo(g, marks, name)
    ensures !ok ==> !Acyclic(g)
    ensures ok ==> Consistent(g, marks', order') && Open(marks') == Open(marks) && marks.Keys <= marks'.Keys
    ensures ok && name in g ==> Finished(marks', name)
    ensures ok ==> forall n :: Finished(marks, n) ==> Finished(marks', n)
    ensures ok ==> GrowsFor(g, name, order, order')
    decreases g.Keys - marks.Keys
  {
    if name in marks {
      if marks[name].Done? {
        return true, marks, order;
      }
      assert name in Open(marks);
      return false, marks, order;
    }
    if name !in g {
      return true, marks, order;
    }
    var deps := g[name].dependsOn;
    marks', order' := marks[name := Visiting], order;
    ghost var stack := Open(marks) + {name};
    assert Open(marks') == stack;
    for k := 0 to |deps|
      invariant Consistent(g, marks', order')
      invariant Open(marks') == stack
      invariant marks.Keys + {name} <= marks'.Keys
      invariant forall n :: Finished(marks, n) ==> Finished(marks', n)
      invariant forall l :: 0 <= l < k && deps[l] in g ==> Finished(marks', deps[l])
      invariant GrowsFor(g, name, order, order')
    {
      ghost var before := order';
      StackGrows(g, marks, name, deps[k]);
      assert StackLeadsTo(g, marks', deps[k]);
      ok, marks', order' := Visit(deps[k], g, marks', order');
      if !ok {
        return;
      }
      GrowsOver(g, name, deps[k], order, before, order');
    }
    assert name in Open(marks');
    PushKeepsOrder(g, order', name);
    GrowsBySelf(g, name, order, order');
    marks', order' := marks'[name := Done], order' + [name];
    assert Open(marks') == Open(marks);
    ok := true;
  }

  lemma StackGrows(g: AppGraph, marks: Marks, name: string, dep: string)
    requires name in g && dep in g[name].dependsOn
    requires StackLeadsTo(g, marks, name)
    ensures dep in g ==> forall n :: n in Open(marks) + {name} ==> DependsOn(g, n, dep)
  {
    if dep in g {
      assert PathFromTo(g, [name], name, name);
      ExtendPath(g, [name], name, name, dep);
      forall n | n in Open(marks) ensures DependsOn(g, n, dep) {
        var p :| PathFromTo(g, p, n, name) && |p| > 1;
        ExtendPath(g, p, n, name, dep);
      }
    }
  }

  /** What a dependency reaches, the app reaches. */
  lemma ReachesOver(g: AppGraph, name: string, dep: string)
    requires name in g && dep in g[name].dependsOn
    ensures forall n :: Reaches(g, dep, n) ==> Reaches(g, name, n)
  {
    forall n | Reaches(g, dep, n) ensures Reaches(g, name, n) {
      var p :| PathFromTo(g, p, dep, n);
      PrependPath(g, name, p);
    }
  }

  lemma GrowsOver(g: AppGraph, name: string, dep: string, a: seq<string>, b: seq<string>, c: seq<string>)
    requires name in g && dep in g[name].dependsOn && GrowsFor(g, name, a, b) && GrowsFor(g, dep, b, c)
    ensures GrowsFor(g, name, a, c)
  {
    ReachesOver(g, name, dep);
    assert c == b + c[|b|..] == a + (b[|a|..] + c[|b|..]);
  }

  lemma GrowsBySelf(g: AppGraph, name: string, a: seq<string>, b: seq<string>)
    requires name in g && GrowsFor(g, name, a, b)
    ensures GrowsFor(g, name, a, b + [name])
  {
    assert PathFromTo(g, [name], name, name);
  }

  lemma PrependPath(g: AppGraph, a: string, p: seq<string>)
    requires IsPath(g, p) && Edge(g, a, p[0])
    ensures PathFromTo(g, [a] + p, a, p[|p| - 1])
  {
    var q := [a] + p;
    forall i | 0 <= i < |q| - 1 ensures Edge(g, q[i], q[i + 1]) {
      if i > 0 {
        assert Edge(g, p[i - 1], p[i - 1 + 1]);
      }
    }
  }

  lemma PushKeepsOrder(g: AppGraph, order: seq<string>, name: string)
    requires DependenciesFirst(g, order) && name in g && name !in order
    requires forall d :: Edge(g, name, d) ==> d in order
    ensures DependenciesFirst(g, order + [name])
  {
    var longer := order + [name];
    forall i, d | 0 <= i < |longer| && Edge(g, longer[i], d) ensures d in longer[..i] {
      if i < |order| {
        assert longer[..i] == order[..i];
      } else {
        assert longer[..i] == order;
      }
    }
  }

  /** Positions fall along every path of a start order. */
  lemma {:induction false} PathDescends(g: AppGraph, order: seq<string>, p: seq<string>, i: nat)
    requires IsStartOrder(g, order) && IsPath(g, p) && |p| > 1
    requires i < |order| && order[i] == p[0]
    ensures p[|p| - 1] in order[..i]
    decreases |p|
  {
    assert Edge(g, p[0], p[0 + 1]);
    var k :| 0 <= k < i && order[k] == p[1];
    if |p| > 2 {
      SubPath(g, p, 1, |p| - 1);
      assert p[1..|p| - 1 + 1] == p[1..];
      PathDescends(g, order, p[1..], k);
    }
  }

  /** A start order exists only on an acyclic graph. */
  lemma OrderedMeansAcyclic(g: AppGraph, order: seq<string>)
    requires IsStartOrder(g, order)
    ensures Acyclic(g)
  {
    forall n | DependsOn(g, n, n) ensures false {
      var p :| PathFromTo(g, p, n, n) && |p| > 1;
      assert n in order;
      var i :| 0 <= i < |order| && order[i] == n;
      PathDescends(g, order, p, i);
    }
  }

  /** In a start order every transitive dependency comes strictly earlier. */
  lemma DependencyEarlier(g: AppGraph, order: seq<string>, i: nat, j: nat)
    requires IsStartOrder(g, order) && i < |order| && j < |order|
    requires DependsOn(g, order[i], order[j])
    ensures j < i
  {
    var p :| PathFromTo(g, p, order[i], order[j]) && |p| > 1;
    PathDescends(g, order, p, i);
  }

  // ----- which start order -----

  /** Some first part of the order is what the first `x` names need, themselves included. */
  ghost predicate ListedTo(g: AppGraph, names: seq<string>, order: seq<string>, x: nat) {
    x <= |names| && exists k :: 0 <= k <= |order| && ToSet(order[..k]) == Closure(g, ToSet(names[..x]))
  }

  /** The apps come in the order of the names, each right after those of its dependencies that are still missing. */
  ghost predicate AsListed(g: AppGraph, names: seq<string>, order: seq<string>) {
    && (forall x: nat :: x <= |names| ==> ListedTo(g, names, order, x))
    && (DependenciesFirst(g, names) ==> order == names)
  }

  lemma ListedLonger(g: AppGraph, names: seq<string>, order: seq<string>, order': seq<string>, x: nat)
    requires ListedTo(g, names, order, x) && order <= order'
    ensures ListedTo(g, names, order', x)
  {
    var k :| 0 <= k <= |order| && ToSet(order[..k]) == Closure(g, ToSet(names[..x]));
    assert order'[..k] == order[..k];
  }

  lemma OrderIsClosed(g: AppGraph, order: seq<string>)
    requires DependenciesFirst(g, order)
    ensures DependencyClosed(g, ToSet(order))
  {
    forall a, b | a in order && Edge(g, a, b) ensures b in order {
      var i :| 0 <= i < |order| && order[i] == a;
      assert b in order[..i];
    }
  }

  /** One more name adds what it needs and nothing else. */
  lemma ListedNext(g: AppGraph, names: seq<string>, x: nat, order: seq<string>, order': seq<string>)
    requires x < |names| && ToSet(order) == Closure(g, ToSet(names[..x])) && DependenciesFirst(g, order')
    requires names[x] in g ==> names[x] in order'
    requires GrowsFor(g, names[x], order, order')
    ensures ToSet(order') == Closure(g, ToSet(names[..x + 1])) && ListedTo(g, names, order', x + 1)
  {
    var before, roots := ToSet(names[..x]), ToSet(names[..x + 1]);
    assert roots == before + {names[x]};
    forall n | n in order' ensures n in Closure(g, roots) {
      if n in order {
        assert n in ToSet(order);
        var r :| r in before && Reaches(g, r, n);
        assert r in roots;
      } else {
        assert names[x] in roots && Reaches(g, names[x], n);
      }
    }
    forall n | n in Closure(g, roots) ensures n in order' {
      var r :| r in roots && Reaches(g, r, n);
      ReachedIsListed(g, names, x, order, order', r, n);
    }
    assert order'[..|order'|] == order';
  }

  lemma ReachedIsListed(g: AppGraph, names: seq<string>, x: nat, order: seq<string>, order': seq<string>, r: string, n: string)
    requires x < |names| && ToSet(order) == Closure(g, ToSet(names[..x])) && DependenciesFirst(g, order') && order <= order'
    requires (names[x] in g ==> names[x] in order') && r in names[..x + 1] && Reaches(g, r, n)
    ensures n in order'
  {
    var p :| PathFromTo(g, p, r, n);
    if r in names[..x] {
      PathNodes(g, p);
      assert n in ToSet(order);
    } else {
      OrderIsClosed(g, order');
      PathStaysIn(g, ToSet(order'), p);
    }
  }

  lemma NothingListed(g: AppGraph, names: seq<string>)
    ensures Closure(g, ToSet(names[..0])) == {} && ListedTo(g, names, [], 0)
  {
    var none: seq<string> := [];
    assert ToSet(none[..0]) == {};
  }

  lemma SameElements(a: seq<string>, b: seq<string>, last: string)
    requires NoDup(b) && a <= b && last !in a && last in b && forall n :: n in b ==> n in a || n == last
    ensures b == a + [last]
  {
    forall k | |a| <= k < |b| ensures b[k] == last {
      assert b[k] in b;
    }
    assert |b| > |a| by {
      assert |b| == |a| ==> b == a;
    }
    var i, j := |a|, |b| - 1;
    assert b[i] == last == b[j];
    assert i == j;
  }

  /** In a list that names dependencies first, the next name is listed next. */
  lemma NextIsListed(g: AppGraph, names: seq<string>, x: nat, order: seq<string>)
    requires DependenciesFirst(g, names) && x < |names| && DependenciesFirst(g, order)
    requires GrowsFor(g, names[x], names[..x], order) && names[x] in order
    ensures order == names[..x + 1]
  {
    var before, name := names[..x], names[x];
    forall n | n in order && n !in before ensures n == name {
      var p :| PathFromTo(g, p, name, n);
      if |p| > 1 {
        assert Edge(g, p[0], p[0 + 1]) && p[1] in before;
        SubPath(g, p, 1, |p| - 1);
        assert p[1..|p| - 1 + 1] == p[1..];
        PrefixFirst(g, names, x);
        OrderIsClosed(g, before);
        PathStaysIn(g, ToSet(before), p[1..]);
      }
    }
    SameElements(before, order, name);
    assert names[..x + 1] == before + [name];
  }

  lemma PrefixFirst(g: AppGraph, names: seq<string>, x: nat)
    requires DependenciesFirst(g, names) && x <= |names|
    ensures DependenciesFirst(g, names[..x])
  {
    forall i, d | 0 <= i < x && Edge(g, names[..x][i], d) ensures d in names[..x][..i] {
      assert names[..x][..i] == names[..i];
    }
  }

  /** The outer loop over the manifest's apps. */
  method VisitAll(g: AppGraph, names: seq<string>) returns (ok: bool, order: seq<string>)
    ensures !ok ==> !Acyclic(g)
    ensures ok ==> DependenciesFirst(g, order) && forall n :: n in names && n in g ==> n in order
    ensures ok ==> AsListed(g, names, order)
  {
    var marks: Marks := map[];
    order := [];
    NothingListed(g, names);
    for x := 0 to |names|
      invariant ToSet(order) == Closure(g, ToSet(names[..x]))
      invariant forall y: nat :: y <= x ==> ListedTo(g, names, order, y)
      invariant DependenciesFirst(g, names) ==> order == names[..x]
      invariant Consistent(g, marks, order)
      invariant Open(marks) == {}
      invariant forall i :: 0 <= i < x && names[i] in g ==> Finished(marks, names[i])
    {
      ghost var before := order;
      ok, marks, order := Visit(names[x], g, marks, order);
      if !ok {
        return;
      }
      ListedNext(g, names, x, before, order);
      if DependenciesFirst(g, names) {
        NextIsListed(g, names, x, order);
      }
      forall y: nat | y <= x ensures ListedTo(g, names, order, y) {
        ListedLonger(g, names, before, order, y);
      }
    }
    assert names[..|names|] == names;
    ok := true;
  }

  /**
   * Succeeds exactly when no app depends on itself, and then returns the name of every
   * app once, each after everything it depends on, and otherwise in the manifest's order.
   */
  method AppsOrdered(m: Manifest) returns (r: Option<seq<string>>)
    ensures r.Some? <==> Acyclic(ByName(m.apps))
    ensures r.Some? ==> IsStartOrder(ByName(m.apps), r.value)
    ensures r.Some? ==> AsListed(ByName(m.apps), seq(|m.apps|, i requires 0 <= i < |m.apps| => m.apps[i].name), r.value)
  {
    var g := ByName(m.apps);
    var names := seq(|m.apps|, i requires 0 <= i < |m.apps| => m.apps[i].name);
    var ok, order := VisitAll(g, names);
    if !ok {
      return None;
    }
    forall n | n in g ensures n in names {
      var i :| 0 <= i < |m.apps| && m.apps[i].name == n;
      assert names[i] == n;
    }
    OrderedMeansAcyclic(g, order);
    return Some(order);
  }
}
