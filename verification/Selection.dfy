/** `select_apps`: the apps to run, closed under app dependencies. */
module Selection {
  import opened Prelude
  import opened Manifests
  import opened Graph

  /** What `--only` selects: nothing if a name is unknown, else the closure of the request. */
  ghost function Selected(m: Manifest, only: Option<set<string>>): Option<set<string>> {
    match only
    case None => Some(m.AppNames())
    case Some(names) => if names <= m.AppNames() then Some(Closure(ByName(m.apps), names)) else None
  }

  ghost function Request(only: Option<seq<string>>): Option<set<string>> {
    match only
    case None => None
    case Some(names) => Some(ToSet(names))
  }

  method SelectApps(m: Manifest, only: Option<seq<string>>) returns (r: Option<set<string>>)
    ensures r == Selected(m, Request(only))
  {
    var g := ByName(m.apps);
    if only.None? {
      return Some(m.AppNames());
    }
    var queue: seq<string> := [];
    for i := 0 to |only.value|
      invariant queue == only.value[..i]
      invariant ToSet(queue) <= g.Keys
    {
      if only.value[i] !in g {
        assert only.value[i] in Request(only).value;
        return None;
      }
      queue := queue + [only.value[i]];
    }
    assert queue == only.value;
    ghost var all := Closure(g, ToSet(queue));
    ClosureContains(g, ToSet(queue));
    var selected := CloseUnderDependencies(g, queue, all);
    ClosureIsLeast(g, ToSet(queue), selected);
    assert selected == all && m.AppNames() == g.Keys && Request(only) == Some(ToSet(queue));
    return Some(selected);
  }

  /**
   * The worklist: pops a name and, on its first visit, pushes its app dependencies.
   * It stays inside every closed set `all` that contains the request.
   */
  method CloseUnderDependencies(g: AppGraph, requested: seq<string>, ghost all: set<string>)
    returns (selected: set<string>)
    requires all <= g.Keys && DependencyClosed(g, all)
    requires forall n :: n in requested ==> n in all
    ensures selected <= all && DependencyClosed(g, selected)
    ensures forall n :: n in requested ==> n in selected
  {
    var queue := requested;
    selected := {};
    while queue != []
      invariant forall n :: n in queue ==> n in all
      invariant selected <= all
      invariant forall n :: n in requested ==> n in selected || n in queue
      invariant forall a, b :: a in selected && Edge(g, a, b) ==> b in selected || b in queue
      decreases all - selected, |queue|
    {
      var name := queue[|queue| - 1];
      ghost var popped := queue;
      queue := queue[..|queue| - 1];
      assert forall n :: n in popped <==> n in queue || n == name;
      if name !in selected {
        var deps := AppDependencies(g, name);
        selected, queue := selected + {name}, queue + deps;
      }
    }
  }

  method AppDependencies(g: AppGraph, name: string) returns (deps: seq<string>)
    requires name in g
    ensures forall n :: n in deps <==> Edge(g, name, n)
  {
    deps := [];
    for k := 0 to |g[name].dependsOn|
      invariant forall n :: n in deps <==> n in g && n in g[name].dependsOn[..k]
    {
      if g[name].dependsOn[k] in g {
        deps := deps + [g[name].dependsOn[k]];
      }
    }
  }

  /** The selection is the least dependency-closed set of apps containing the request. */
  lemma SelectedIsLeastClosed(m: Manifest, names: set<string>)
    ensures Selected(m, Some(names)).None? <==> exists n :: n in names && n !in m.AppNames()
    ensures names <= m.AppNames() ==>
              var s := Selected(m, Some(names)).value;
              && names <= s <= m.AppNames()
              && DependencyClosed(ByName(m.apps), s)
              && forall t :: names <= t && DependencyClosed(ByName(m.apps), t) ==> s <= t
  {
    var g := ByName(m.apps);
    if names <= m.AppNames() {
      ClosureContains(g, names);
      forall t | names <= t && DependencyClosed(g, t) ensures Closure(g, names) <= t {
        ClosureIsLeast(g, names, t);
      }
    }
  }

  /** What every selection the control loop runs with satisfies: apps of the manifest, dependencies included. */
  ghost predicate SoundSelection(m: Manifest, s: set<string>) {
    s != {} && forall a :: a in s ==> m.Has(a) && DependenciesIn(m, m.Lookup(a).value, s)
  }

  ghost predicate DependenciesIn(m: Manifest, a: App, s: set<string>) {
    forall d :: d in a.dependsOn && m.Has(d) ==> d in s
  }

  lemma SelectedIsSound(m: Manifest, only: Option<set<string>>)
    requires UniqueNames(m) && Selected(m, only).Some? && Selected(m, only).value != {}
    ensures SoundSelection(m, Selected(m, only).value)
  {
    var s, g := Selected(m, only).value, ByName(m.apps);
    HasIffNamed(m);
    if only.Some? {
      SelectedIsLeastClosed(m, only.value);
    }
    forall a | a in s ensures m.Has(a) && DependenciesIn(m, m.Lookup(a).value, s) {
      GraphOfWellFormed(m, a);
      forall d | d in m.Lookup(a).value.dependsOn && m.Has(d) ensures d in s {
        GraphOfWellFormed(m, d);
        assert Edge(g, a, d);
      }
    }
  }
}
