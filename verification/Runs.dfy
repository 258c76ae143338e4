/** Manifest reloads, and runs: ticks and reloads in any interleaving. */
module Runs {
  import opened Prelude
  import opened Manifests
  import opened Instances
  import opened Stages
  import opened Graph
  import opened Selection
  import opened Lifecycle

  /** What `maybe_reload` finds: the file's mtime, and what loading it would give. */
  datatype Observation = Observation(mtime: Option<nat>, loaded: Option<Manifest>)

  /** The `--only` list a reload keeps: none if everything was selected. */
  function OnlyNames(s: State): Option<set<string>> {
    if |s.selected| == |s.m.apps| then None else Some(s.selected)
  }

  /** The new manifest and selection, unless the load is rejected. */
  ghost function Accepted(s: State, o: Observation): Option<(Manifest, set<string>)> {
    if o.loaded.None? || o.loaded.value.apps == [] then None
    else
      match Selected(o.loaded.value, OnlyNames(s))
      case None => None
      case Some(chosen) => if chosen == {} then None else Some((o.loaded.value, chosen))
  }

  /** The reload is attempted: a change has been seen that was not already acted on. */
  predicate Attempts(s: State, o: Observation) {
    o.mtime != s.manifestMtime && o.mtime == s.pendingMtime
  }

  ghost function MaybeReload(s: State, o: Observation): State {
    if o.mtime == s.manifestMtime then s.(pendingMtime := None)
    else if o.mtime != s.pendingMtime then s.(pendingMtime := o.mtime)
    else
      var acted := s.(pendingMtime := None, manifestMtime := o.mtime);
      match Accepted(s, o)
      case None => acted
      case Some((m, chosen)) => acted.(m := m, selected := chosen)
  }

  // ----- runs -----

  datatype Step = Ticked(e: Env) | Reloaded(o: Observation)

  ghost function After(hasher: Hasher, s: State, step: Step): State {
    match step
    case Ticked(e) => Tick(hasher, s, e)
    case Reloaded(o) => MaybeReload(s, o)
  }

  /** Loading goes through validation. */
  ghost predicate StepOk(step: Step) {
    step.Reloaded? && step.o.loaded.Some? ==> WellFormed(step.o.loaded.value)
  }

  ghost predicate Initial(s: State) {
    && WellFormed(s.m)
    && SoundSelection(s.m, s.selected)
    && s.table == []
    && s.ports == map[]
    && s.pendingMtime.None?
    && s.tick == 0
  }

  ghost predicate IsRun(hasher: Hasher, ss: seq<State>, steps: seq<Step>) {
    && |ss| == |steps| + 1
    && Initial(ss[0])
    && forall k: nat :: LeadsAt(hasher, ss, steps, k)
  }

  /** Step `k` leads from its state to the next. */
  ghost predicate LeadsAt(hasher: Hasher, ss: seq<State>, steps: seq<Step>, k: nat)
    requires |ss| == |steps| + 1
  {
    k < |steps| ==> Leads(hasher, ss[k], steps[k], ss[k + 1])
  }

  ghost predicate Leads(hasher: Hasher, s: State, step: Step, s': State) {
    StepOk(step) && s' == After(hasher, s, step)
  }

  ghost predicate LoopOk(s: State) {
    WellFormed(s.m) && SoundSelection(s.m, s.selected) && TableOk(s.table)
  }

  lemma TickKeepsConfig(hasher: Hasher, s: State, e: Env)
    ensures var s' := Tick(hasher, s, e);
            && s'.m == s.m && s'.selected == s.selected && s'.tick == s.tick + 1
            && s'.manifestMtime == s.manifestMtime && s'.pendingMtime == s.pendingMtime
  {
    var _, _ := TickParts(hasher, s, e);
  }

  lemma AcceptedIsSound(s: State, o: Observation)
    requires o.loaded.Some? && Accepted(s, o).Some? && UniqueNames(o.loaded.value)
    ensures o.loaded == Some(Accepted(s, o).value.0)
    ensures SoundSelection(Accepted(s, o).value.0, Accepted(s, o).value.1)
  {
    SelectedIsSound(o.loaded.value, OnlyNames(s));
  }

  /**
   * A reload that is attempted is accepted exactly if the file loads and has apps, and either
   * every app was selected or the selection is not empty and every app of it is still there.
   */
  lemma AcceptedIff(s: State, o: Observation)
    ensures Accepted(s, o).Some? <==>
              && o.loaded.Some? && o.loaded.value.apps != []
              && (|s.selected| == |s.m.apps| || (s.selected != {} && s.selected <= o.loaded.value.AppNames()))
  {
    if o.loaded.Some? && o.loaded.value.apps != [] {
      var m := o.loaded.value;
      assert m.apps[0].name in m.AppNames();
      if s.selected <= m.AppNames() {
        ClosureContains(ByName(m.apps), s.selected);
      }
    }
  }

  /** Then everything is selected again, or what was selected with what it depends on now. */
  lemma AcceptedSelects(s: State, o: Observation)
    requires Accepted(s, o).Some?
    ensures var (m, chosen) := Accepted(s, o).value;
            && o.loaded == Some(m)
            && if |s.selected| == |s.m.apps| then chosen == m.AppNames()
               else
                 && s.selected <= chosen <= m.AppNames() && DependencyClosed(ByName(m.apps), chosen)
                 && forall t :: s.selected <= t && DependencyClosed(ByName(m.apps), t) ==> chosen <= t
  {
    SelectedIsLeastClosed(o.loaded.value, s.selected);
  }

  /** A reload only ever touches the manifest, the selection and the two mtimes. */
  lemma ReloadChanges(s: State, o: Observation)
    ensures var s' := MaybeReload(s, o);
            && s'.(m := s.m, selected := s.selected, manifestMtime := s.manifestMtime, pendingMtime := s.pendingMtime) == s
            && ((s'.m == s.m && s'.selected == s.selected)
                || (Attempts(s, o) && Accepted(s, o) == Some((s'.m, s'.selected))))
  {
  }

  lemma StepKeepsOk(hasher: Hasher, s: State, step: Step, s': State)
    requires LoopOk(s) && Leads(hasher, s, step, s')
    ensures LoopOk(s')
  {
    match step
    case Ticked(e) =>
      TickKeepsConfig(hasher, s, e);
      TickKeepsOk(hasher, s, e);
    case Reloaded(o) =>
      ReloadChanges(s, o);
      if Accepted(s, o).Some? {
        AcceptedIsSound(s, o);
      }
  }

  lemma RunStepOk(hasher: Hasher, ss: seq<State>, steps: seq<Step>, k: nat)
    requires IsRun(hasher, ss, steps) && k < |steps| && LoopOk(ss[k])
    ensures LoopOk(ss[k + 1])
  {
    assert LeadsAt(hasher, ss, steps, k);
    StepKeepsOk(hasher, ss[k], steps[k], ss[k + 1]);
  }

  /**
   * Every reachable state has a well-formed manifest, a non-empty dependency-closed selection
   * of its apps, and only records that obey the lifecycle and stop-signal rules.
   */
  lemma {:induction false} ReachableOk(hasher: Hasher, ss: seq<State>, steps: seq<Step>, k: nat)
    requires IsRun(hasher, ss, steps) && k < |ss|
    ensures LoopOk(ss[k])
    decreases k
  {
    if k > 0 {
      ReachableOk(hasher, ss, steps, k - 1);
      RunStepOk(hasher, ss, steps, k - 1);
    }
  }

  /** From state `a` to state `b` no reload changes the manifest or the selection. */
  ghost predicate Unedited(ss: seq<State>, a: nat, b: nat)
    requires b < |ss|
  {
    forall k {:trigger ss[k]} :: a <= k <= b ==> ss[k].m == ss[a].m && ss[k].selected == ss[a].selected
  }

  // ----- longer runs -----

  lemma ExtendStep(hasher: Hasher, ss: seq<State>, steps: seq<Step>, step: Step, s': State, ss': seq<State>, steps': seq<Step>, k: nat)
    requires IsRun(hasher, ss, steps) && Leads(hasher, ss[|steps|], step, s') && ss' == ss + [s'] && steps' == steps + [step]
    ensures LeadsAt(hasher, ss', steps', k)
  {
    if k < |steps| {
      assert LeadsAt(hasher, ss, steps, k);
      assert ss'[k] == ss[k] && ss'[k + 1] == ss[k + 1] && steps'[k] == steps[k];
    } else if k == |steps| {
      assert ss'[k] == ss[k] && ss'[k + 1] == s' && steps'[k] == step;
    }
  }

  lemma ExtendRun(hasher: Hasher, ss: seq<State>, steps: seq<Step>, step: Step, s': State)
    requires IsRun(hasher, ss, steps) && Leads(hasher, ss[|steps|], step, s')
    ensures IsRun(hasher, ss + [s'], steps + [step])
  {
    var ss', steps' := ss + [s'], steps + [step];
    forall k: nat ensures LeadsAt(hasher, ss', steps', k) {
      ExtendStep(hasher, ss, steps, step, s', ss', steps', k);
    }
  }

  // ----- debouncing -----

  /** What the last reload check among the first `k` steps saw, whatever ticks came since. */
  function LastSeen(steps: seq<Step>, k: nat): Option<Observation> {
    if k == 0 || k > |steps| then None else if steps[k - 1].Reloaded? then Some(steps[k - 1].o) else LastSeen(steps, k - 1)
  }

  /** `pendingMtime` is nothing or the last mtime seen, still to be acted on. */
  ghost predicate Debounced(s: State, last: Option<Observation>) {
    && (s.pendingMtime.Some? ==>
          last.Some? && s.pendingMtime == last.value.mtime && s.manifestMtime != last.value.mtime)
    && (last.Some? && s.pendingMtime.None? ==>
          last.value.mtime.None? || s.manifestMtime == last.value.mtime)
  }

  lemma StepDebounces(hasher: Hasher, s: State, step: Step, s': State, last: Option<Observation>)
    requires Leads(hasher, s, step, s') && Debounced(s, last)
    ensures Debounced(s', if step.Reloaded? then Some(step.o) else last)
  {
    if step.Ticked? {
      TickKeepsConfig(hasher, s, step.e);
    }
  }

  lemma RunStepDebounces(hasher: Hasher, ss: seq<State>, steps: seq<Step>, k: nat)
    requires IsRun(hasher, ss, steps) && k < |steps| && Debounced(ss[k], LastSeen(steps, k))
    ensures Debounced(ss[k + 1], LastSeen(steps, k + 1))
  {
    assert LeadsAt(hasher, ss, steps, k);
    StepDebounces(hasher, ss[k], steps[k], ss[k + 1], LastSeen(steps, k));
  }

  lemma StartDebounces(hasher: Hasher, ss: seq<State>, steps: seq<Step>)
    requires IsRun(hasher, ss, steps)
    ensures Debounced(ss[0], LastSeen(steps, 0))
  {
  }

  /** In every run, ticks included, the loop remembers exactly the last mtime it saw and has not acted on. */
  lemma PendingIsLastSeen(hasher: Hasher, ss: seq<State>, steps: seq<Step>, k: nat)
    requires IsRun(hasher, ss, steps) && k < |ss|
    ensures Debounced(ss[k], LastSeen(steps, k))
  {
    StartDebounces(hasher, ss, steps);
    forall j: nat | j < k && Debounced(ss[j], LastSeen(steps, j)) ensures Debounced(ss[j + 1], LastSeen(steps, j + 1)) {
      RunStepDebounces(hasher, ss, steps, j);
    }
    AlongStates(ss, (s, j) => Debounced(s, LastSeen(steps, j)), 0, k);
  }

  lemma RunReload(hasher: Hasher, ss: seq<State>, steps: seq<Step>, k: nat)
    requires IsRun(hasher, ss, steps) && k < |steps| && steps[k].Reloaded?
    ensures ss[k + 1] == MaybeReload(ss[k], steps[k].o)
  {
    assert LeadsAt(hasher, ss, steps, k);
  }

  lemma RunTick(hasher: Hasher, ss: seq<State>, steps: seq<Step>, k: nat)
    requires IsRun(hasher, ss, steps) && k < |steps| && steps[k].Ticked?
    ensures ss[k + 1] == Tick(hasher, ss[k], steps[k].e)
    ensures ss[k + 1].m == ss[k].m && ss[k + 1].selected == ss[k].selected && ss[k + 1].tick == ss[k].tick + 1
  {
    assert LeadsAt(hasher, ss, steps, k);
    TickKeepsConfig(hasher, ss[k], steps[k].e);
  }

  /** A tick never replaces the manifest or the selection. */
  lemma OnlyReloadsReplace(hasher: Hasher, ss: seq<State>, steps: seq<Step>, k: nat)
    requires IsRun(hasher, ss, steps) && k < |steps|
    requires ss[k + 1].m != ss[k].m || ss[k + 1].selected != ss[k].selected
    ensures steps[k].Reloaded?
  {
    assert LeadsAt(hasher, ss, steps, k);
    if steps[k].Ticked? {
      TickKeepsConfig(hasher, ss[k], steps[k].e);
    }
  }

  /**
   * In every run the manifest is replaced only by a reload check that sees the same mtime as
   * the check before it and one not yet acted on, provided a missing file does not load.
   */
  lemma ReplacedOnlyWhenSettled(hasher: Hasher, ss: seq<State>, steps: seq<Step>, k: nat)
    requires IsRun(hasher, ss, steps) && k < |steps|
    requires steps[k].Reloaded? && steps[k].o.mtime.None? ==> steps[k].o.loaded.None?
    requires ss[k + 1].m != ss[k].m || ss[k + 1].selected != ss[k].selected
    ensures steps[k].Reloaded? && LastSeen(steps, k).Some?
    ensures LastSeen(steps, k).value.mtime == steps[k].o.mtime != ss[k].manifestMtime
    ensures steps[k].o.loaded == Some(ss[k + 1].m)
    ensures Accepted(ss[k], steps[k].o) == Some((ss[k + 1].m, ss[k + 1].selected))
  {
    OnlyReloadsReplace(hasher, ss, steps, k);
    PendingIsLastSeen(hasher, ss, steps, k);
    RunReload(hasher, ss, steps, k);
  }

  /**
   * Two equal observations in a row, with any ticks between them, always leave that mtime
   * acted on: the file is loaded if it is acceptable.
   */
  lemma SettledIsActedOn(hasher: Hasher, ss: seq<State>, steps: seq<Step>, k: nat)
    requires IsRun(hasher, ss, steps) && k < |steps| && steps[k].Reloaded?
    requires LastSeen(steps, k).Some? && LastSeen(steps, k).value.mtime == steps[k].o.mtime
    ensures ss[k + 1].manifestMtime == steps[k].o.mtime && ss[k + 1].pendingMtime.None?
    ensures ss[k].manifestMtime != steps[k].o.mtime && Accepted(ss[k], steps[k].o).Some? ==>
              Accepted(ss[k], steps[k].o) == Some((ss[k + 1].m, ss[k + 1].selected))
  {
    PendingIsLastSeen(hasher, ss, steps, k);
    RunReload(hasher, ss, steps, k);
  }

  /** A failed load, an empty file or an empty selection changes nothing the fleet depends on. */
  lemma RejectedReloadIsHarmless(hasher: Hasher, s: State, o: Observation)
    requires o.loaded.None? || o.loaded.value.apps == [] || Selected(o.loaded.value, OnlyNames(s)).None?
          || Selected(o.loaded.value, OnlyNames(s)) == Some({})
    ensures var s' := MaybeReload(s, o);
            && s'.(manifestMtime := s.manifestMtime, pendingMtime := s.pendingMtime) == s
            && DesiredIn(hasher, s') == DesiredIn(hasher, s)
  {
    assert Accepted(s, o).None?;
    var s' := MaybeReload(s, o);
    assert s'.m == s.m && s'.selected == s.selected && s'.ports == s.ports;
  }
}
