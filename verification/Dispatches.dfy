/** Exactly which suggested steps run together: those that wait for nobody and share nothing with the ones ahead of them. */
module Dispatches {
  import opened Common
  import opened Grouping
  import opened Suggestions
  import Plan

  // -- what a dependency names ---------------------------------------------------------------------

  /** `part` stands in the text at position i. */
  ghost predicate StandsAt(text: string, part: string, i: int) {
    0 <= i && i + |part| <= |text| && text[i..i + |part|] == part
  }

  lemma StandsFirst(text: string, part: string)
    ensures StandsAt(text, part, 0) <==> part <= text
  {
  }

  lemma StandsLater(text: string, part: string, i: int)
    requires text != [] && i > 0
    ensures StandsAt(text, part, i) <==> StandsAt(text[1..], part, i - 1)
  {
    if i + |part| <= |text| {
      assert text[1..][i - 1..i - 1 + |part|] == text[i..i + |part|];
    }
  }

  lemma StandsInside(text: string, part: string, i: int)
    requires StandsAt(text, part, i)
    ensures i >= 0 && (i > 0 ==> text != [])
  {
  }

  lemma {:induction false} ContainsMeans(text: string, part: string)
    ensures Contains(text, part) <==> exists i :: StandsAt(text, part, i)
    decreases text
  {
    hide StandsAt;
    StandsFirst(text, part);
    if text != [] {
      ContainsMeans(text[1..], part);
      if i :| StandsAt(text[1..], part, i) {
        StandsInside(text[1..], part, i);
        StandsLater(text, part, i + 1);
      }
    }
    if i :| StandsAt(text, part, i) {
      StandsInside(text, part, i);
      if i > 0 {
        StandsLater(text, part, i);
      }
    }
  }

  /** A step is named by its id in backquotes, or by its label, anywhere in the text. */
  lemma NamesMean(c: Context, dependency: string)
    ensures NamedById(c, dependency) <==>
      c.taskId.Some? && exists i :: StandsAt(dependency, "`" + c.taskId.value + "`", i)
    ensures NamedByLabel(c, dependency) <==> exists i :: StandsAt(dependency, c.name, i)
  {
    hide Contains;
    if c.taskId.Some? {
      ContainsMeans(dependency, "`" + c.taskId.value + "`");
    }
    ContainsMeans(dependency, c.name);
    if dependency == c.name {
      assert StandsAt(dependency, c.name, 0);
    }
  }

  /** Another step, not found yet, that the dependency names. */
  ghost predicate Named(contexts: seq<Context>, self: nat, found: seq<nat>, dependency: string, byId: bool, k: nat) {
    && k < |contexts| && k != self && k !in found
    && if byId then NamedById(contexts[k], dependency) else NamedByLabel(contexts[k], dependency)
  }

  ghost predicate FirstOfNamed(contexts: seq<Context>, self: nat, found: seq<nat>, dependency: string, byId: bool, k: nat) {
    Named(contexts, self, found, dependency, byId, k) && forall j: nat :: j < k ==> !Named(contexts, self, found, dependency, byId, j)
  }

  lemma {:induction false} FirstNamedIsFirst(contexts: seq<Context>, self: nat, found: seq<nat>, dependency: string, byId: bool, i: nat, k: nat)
    requires i <= |contexts| && forall j: nat :: j < i ==> !Named(contexts, self, found, dependency, byId, j)
    ensures FirstNamed(contexts, self, found, dependency, byId, i) == Some(k) <==> FirstOfNamed(contexts, self, found, dependency, byId, k)
    decreases |contexts| - i
  {
    hide NamedById, NamedByLabel;
    if i < |contexts| && !Named(contexts, self, found, dependency, byId, i) {
      FirstNamedIsFirst(contexts, self, found, dependency, byId, i + 1, k);
    }
  }

  /**
   * Each dependency brings in one more step at most: the first that it names by id, and only when it names
   * none so, the first that it names by label.
   */
  lemma {:induction false} DependencyBringsIn(contexts: seq<Context>, self: nat, n: nat, k: nat)
    requires self < |contexts| && n < |contexts[self].dependsOn|
    ensures
      var (before, d) := (DependsOn(contexts, self, n), contexts[self].dependsOn[n]);
      k in DependsOn(contexts, self, n + 1) <==>
        || k in before || FirstOfNamed(contexts, self, before, d, true, k)
        || ((forall j: nat :: !Named(contexts, self, before, d, true, j)) && FirstOfNamed(contexts, self, before, d, false, k))
  {
    hide NamedById, NamedByLabel, FirstNamed, FirstOfNamed;
    var before, d := DependsOn(contexts, self, n), contexts[self].dependsOn[n];
    FirstNamedIsFirst(contexts, self, before, d, true, 0, k);
    FirstNamedIsFirst(contexts, self, before, d, false, 0, k);
    var byId := FirstNamed(contexts, self, before, d, true, 0);
    if byId.Some? {
      assert Named(contexts, self, before, d, true, byId.value);
    }
  }

  /** A step waits only for steps that one of its dependencies names. */
  lemma {:induction false} WaitsOnlyForNamed(contexts: seq<Context>, self: nat, n: nat, k: nat)
    requires self < |contexts| && n <= |contexts[self].dependsOn| && k in DependsOn(contexts, self, n)
    ensures k < |contexts| && exists m :: 0 <= m < n && NamedEither(contexts[k], contexts[self].dependsOn[m])
  {
    hide NamedById, NamedByLabel;
    if k in DependsOn(contexts, self, n - 1) {
      WaitsOnlyForNamed(contexts, self, n - 1, k);
    } else {
      assert NamedEither(contexts[k], contexts[self].dependsOn[n - 1]);
    }
  }

  // -- what two steps share ---------------------------------------------------------------------------

  /** Once anything is declared two steps conflict unless both own something and share no file and no resource. */
  lemma ConflictExactly(x: Context, y: Context, anyDeclared: bool)
    ensures ContextsConflict(x, y, anyDeclared) <==> anyDeclared && !Exclusive(x, y)
  {
    hide PathsOverlap;
    forall i, j | 0 <= i < |x.files| && 0 <= j < |y.files|
      ensures PathsOverlap(x.files[i], y.files[j]) <==> exists f :: SharesFile(x.files[i], y.files[j], f)
    {
      OverlapIsCommonFile(x.files[i], y.files[j]);
      SharedFiles(x.files[i], y.files[j]);
    }
    ExclusiveByPlace(x, y);
  }

  ghost predicate SharesFile(p: Plan.OwnedPath, q: Plan.OwnedPath, f: Plan.FilePath) {
    Plan.MayCover(p, f) && Plan.MayCover(q, f)
  }

  lemma SharedFiles(p: Plan.OwnedPath, q: Plan.OwnedPath)
    ensures (exists f :: SharesFile(p, q, f)) <==> exists f :: Plan.MayCover(p, f) && Plan.MayCover(q, f)
  {
    if f :| Plan.MayCover(p, f) && Plan.MayCover(q, f) {
      assert SharesFile(p, q, f);
    }
  }

  lemma ExclusiveByPlace(x: Context, y: Context)
    ensures Exclusive(x, y) <==>
      && OwnsAnything(x) && OwnsAnything(y)
      && (forall i, j :: 0 <= i < |x.files| && 0 <= j < |y.files| ==> !exists f :: SharesFile(x.files[i], y.files[j], f))
      && !exists i :: 0 <= i < |x.resources| && x.resources[i] in y.resources
  {
    hide Plan.MayCover;
    if Exclusive(x, y) {
      forall i, j | 0 <= i < |x.files| && 0 <= j < |y.files| ensures !exists f :: SharesFile(x.files[i], y.files[j], f) {
        assert x.files[i] in x.files && y.files[j] in y.files;
      }
    }
    if forall i, j :: 0 <= i < |x.files| && 0 <= j < |y.files| ==> !exists f :: SharesFile(x.files[i], y.files[j], f) {
      forall p, q, f | p in x.files && q in y.files ensures !(Plan.MayCover(p, f) && Plan.MayCover(q, f)) {
        var i :| 0 <= i < |x.files| && x.files[i] == p;
        var j :| 0 <= j < |y.files| && y.files[j] == q;
        assert !SharesFile(p, q, f);
      }
    }
  }

  // -- who of a suggested group runs now ------------------------------------------------------------------

  /** Step k may run beside the given ones, once those in `placed` are done. */
  ghost predicate MayJoin(contexts: seq<Context>, k: nat, beside: set<nat>, placed: set<nat>) {
    && k < |contexts| && (forall d :: d in Deps(contexts, k) ==> d in placed)
    && (AnyDeclared(contexts) ==> forall j :: j in beside && j < |contexts| ==> Exclusive(contexts[k], contexts[j]))
  }

  lemma JoinsExactly(contexts: seq<Context>, k: nat, current: seq<nat>, placed: set<nat>)
    requires k < |contexts| && Within(contexts, current)
    ensures MayJoin(contexts, k, AsSet(current), placed) <==> !Blocked(contexts, k, placed) && !Clashes(contexts, k, current)
  {
    hide Deps, Exclusive, ContextsConflict, AnyDeclared;
    forall i | 0 <= i < |current|
      ensures ContextsConflict(contexts[k], contexts[current[i]], AnyDeclared(contexts)) <==>
        AnyDeclared(contexts) && !Exclusive(contexts[k], contexts[current[i]])
    {
      ConflictExactly(contexts[k], contexts[current[i]], AnyDeclared(contexts));
    }
    forall j | j in AsSet(current) ensures exists i :: 0 <= i < |current| && current[i] == j {
    }
    assert forall i :: 0 <= i < |current| ==> current[i] in AsSet(current);
  }

  /** Of the first n steps, those ahead of the k-th that run now. */
  function Ahead(indices: seq<nat>, k: nat, current: seq<nat>): set<nat>
    requires k <= |indices|
  {
    set x | x in indices[..k] && x in current
  }

  /** A step of a suggested group runs now exactly when it may join those ahead of it that do; else it is held back. */
  lemma {:induction false} RunsNowExactly(contexts: seq<Context>, indices: seq<nat>, n: nat, placed: set<nat>, k: nat)
    requires k < n <= |indices| && Within(contexts, indices) && Distinct(indices)
    ensures
      var current := Current(contexts, indices, n, placed);
      && (indices[k] in current <==> MayJoin(contexts, indices[k], Ahead(indices, k, current), placed))
      && (indices[k] in Held(contexts, indices, n, placed) <==> indices[k] !in current)
  {
    hide MayJoin, Blocked, Clashes;
    SplitKeepsAll(contexts, indices, n - 1, placed);
    var front := Current(contexts, indices, n - 1, placed);
    if k < n - 1 {
      RunsNowExactly(contexts, indices, n - 1, placed, k);
      LastIsNew(indices, n, k, front);
    } else {
      AllAhead(indices, k, front, Held(contexts, indices, k, placed));
      JoinsExactly(contexts, indices[k], front, placed);
    }
  }

  lemma LastIsNew(indices: seq<nat>, n: nat, k: nat, front: seq<nat>)
    requires k < n - 1 < |indices| && Distinct(indices)
    ensures indices[k] != indices[n - 1] && Ahead(indices, k, front + [indices[n - 1]]) == Ahead(indices, k, front)
  {
    assert forall x :: x in indices[..k] ==> x != indices[n - 1];
  }

  lemma AllAhead(indices: seq<nat>, k: nat, front: seq<nat>, held: seq<nat>)
    requires k < |indices| && Distinct(indices) && forall x :: x in indices[..k] <==> x in front + held
    ensures Ahead(indices, k, front) == AsSet(front) && Ahead(indices, k, front + [indices[k]]) == AsSet(front)
    ensures indices[k] !in front && indices[k] !in held
  {
    assert indices[k] !in indices[..k];
    assert forall x :: x in front || x in held ==> x in front + held;
  }

  lemma {:induction false} HeldAscends(contexts: seq<Context>, indices: seq<nat>, n: nat, placed: set<nat>)
    requires n <= |indices| && Within(contexts, indices) && Climbs(indices)
    ensures Climbs(Held(contexts, indices, n, placed))
    ensures forall k :: k in Held(contexts, indices, n, placed) ==> n > 0 && k <= indices[n - 1]
  {
    hide Blocked, Clashes;
    if n > 0 {
      HeldAscends(contexts, indices, n - 1, placed);
      var before := Held(contexts, indices, n - 1, placed);
      assert n > 1 ==> indices[n - 2] < indices[n - 1];
      forall i | 0 <= i < |before| ensures before[i] < indices[n - 1] {
        assert before[i] in before;
      }
    }
  }

  // -- the order of the groups --------------------------------------------------------------------------------

  lemma {:induction false} GroupsStay(contexts: seq<Context>, groups: seq<seq<string>>, m: nat, n: nat)
    requires m <= n <= |groups|
    ensures Grouped(contexts, groups, m) <= Grouped(contexts, groups, n)
    decreases n
  {
    hide Current, Held, Flatten, Indices;
    if m < n {
      GroupsStay(contexts, groups, m, n - 1);
    }
  }

  /**
   * Suggestion by suggestion: behind the groups of those before come its steps that run now, as one group, then the
   * ones held back, each alone and in plan order; and the steps nobody suggested come last, each alone and in plan order.
   */
  lemma {:induction false} GroupsInOrder(contexts: seq<Context>, groups: seq<seq<string>>, n: nat)
    requires n < |groups|
    ensures
      var (before, all) := (Grouped(contexts, groups, n), Grouped(contexts, groups, |groups|));
      var placed := AsSet(Flatten(before));
      var indices := Indices(contexts, groups[n], placed);
      var (current, held) := (Current(contexts, indices, |indices|, placed), Held(contexts, indices, |indices|, placed));
      && before + (if current == [] then [] else [current]) + Alone(held) <= Constrained(contexts, groups)
      && Climbs(current) && Climbs(held)
      && all + Alone(Missing(AsSet(Flatten(all)), |contexts|)) == Constrained(contexts, groups)
  {
    hide Current, Held, Flatten, Taken, Ascending, Grouped;
    var before := Grouped(contexts, groups, n);
    var indices := Indices(contexts, groups[n], AsSet(Flatten(before)));
    CurrentAscends(contexts, indices, |indices|, AsSet(Flatten(before)));
    HeldAscends(contexts, indices, |indices|, AsSet(Flatten(before)));
    GroupsStay(contexts, groups, n + 1, |groups|);
    NextGroups(contexts, groups, n);
  }

  lemma {:induction false} NextGroups(contexts: seq<Context>, groups: seq<seq<string>>, n: nat)
    requires n < |groups|
    ensures
      var before := Grouped(contexts, groups, n);
      Grouped(contexts, groups, n + 1) == Placed(contexts, Indices(contexts, groups[n], AsSet(Flatten(before))), before)
  {
  }

  // -- who is dispatched ------------------------------------------------------------------------------------------

  /** What is dispatched of a suggestion: those of its steps that run now, up to the limit, when the first open step's label is among them. */
  lemma {:induction false} DispatchedExactly(contexts: seq<Context>, group: seq<string>, solo: set<string>, notes: bool, maxParallel: int)
    ensures
      var indices := Indices(contexts, Allowed(group, solo), {});
      var (now, r) := (Current(contexts, indices, |indices|, {}), DispatchedGroup(contexts, group, solo, notes, maxParallel));
      if !notes && |contexts| >= 2 && contexts[0].name !in solo && |now| >= 2 && contexts[0].name in LabelsOf(contexts, now)
        then r == if maxParallel <= 1 then now[..1] else if |now| <= maxParallel then now else now[..maxParallel]
        else |r| <= 1
  {
    hide Constrained, Current, Indices, Allowed;
    OneSuggestion(contexts, Allowed(group, solo));
    var indices := Indices(contexts, Allowed(group, solo), {});
    var now := Current(contexts, indices, |indices|, {});
    assert now[..|now|] == now;
  }

  lemma {:induction false} TakesTheNamed(contexts: seq<Context>, group: seq<string>, n: nat, k: nat)
    requires DistinctNames(contexts) && n <= |group| && k < |contexts|
    ensures k in Taken(contexts, group, n, {}) <==> contexts[k].name in group[..n]
  {
    if n > 0 {
      TakesTheNamed(contexts, group, n - 1, k);
      assert group[..n] == group[..n - 1] + [group[n - 1]];
    }
  }

  /** The labels suggested, and not for somebody alone, that are open are those of the given steps. */
  ghost predicate Suggests(contexts: seq<Context>, group: seq<string>, solo: set<string>, steps: seq<nat>) {
    forall k: nat :: k < |contexts| ==> (contexts[k].name in group && contexts[k].name !in solo <==> k in steps)
  }

  lemma {:induction false} SuggestedSteps(contexts: seq<Context>, group: seq<string>, solo: set<string>, steps: seq<nat>)
    requires DistinctNames(contexts) && Within(contexts, steps) && Climbs(steps) && Suggests(contexts, group, solo, steps)
    ensures Indices(contexts, Allowed(group, solo), {}) == steps
  {
    hide DistinctNames, Taken, Ascending;
    var allowed := Allowed(group, solo);
    var indices := Indices(contexts, allowed, {});
    assert allowed[..|allowed|] == allowed;
    forall k: nat ensures k in indices <==> k in steps {
      if k < |contexts| {
        TakesTheNamed(contexts, allowed, |allowed|, k);
      }
    }
    SortedOnce(indices, steps);
  }

  lemma {:induction false} AllRunNow(contexts: seq<Context>, steps: seq<nat>, n: nat)
    requires n <= |steps| && Within(contexts, steps) && Climbs(steps)
    requires forall i :: 0 <= i < |steps| ==> Deps(contexts, steps[i]) == []
    requires AnyDeclared(contexts) ==> forall i, j :: 0 <= i < j < |steps| ==> Exclusive(contexts[steps[j]], contexts[steps[i]])
    ensures Current(contexts, steps, n, {}) == steps[..n]
  {
    hide Deps, AnyDeclared, Exclusive, Clashes;
    if n > 0 {
      AllRunNow(contexts, steps, n - 1);
      assert steps[..n] == steps[..n - 1] + [steps[n - 1]];
      forall j | j in AsSet(steps[..n - 1]) && AnyDeclared(contexts) ensures Exclusive(contexts[steps[n - 1]], contexts[j]) {
        var i :| 0 <= i < n - 1 && steps[i] == j;
      }
      JoinsExactly(contexts, steps[n - 1], steps[..n - 1], {});
    }
  }

  /**
   * Steps that wait for nobody and share nothing run together: suggested with the first open step, all of them
   * are dispatched, up to the limit - however the suggestion orders or repeats them, and whatever else it names.
   */
  lemma IndependentStepsGoTogether(contexts: seq<Context>, group: seq<string>, solo: set<string>, steps: seq<nat>, maxParallel: int)
    requires DistinctNames(contexts) && Within(contexts, steps) && Climbs(steps) && Suggests(contexts, group, solo, steps)
    requires |steps| >= 2 && steps[0] == 0 && maxParallel >= 2
    requires forall i :: 0 <= i < |steps| ==> Deps(contexts, steps[i]) == []
    requires AnyDeclared(contexts) ==> forall i, j :: 0 <= i < j < |steps| ==> Exclusive(contexts[steps[j]], contexts[steps[i]])
    ensures DispatchedGroup(contexts, group, solo, false, maxParallel) ==
      if |steps| <= maxParallel then steps else steps[..maxParallel]
  {
    hide DistinctNames, Deps, AnyDeclared, Exclusive, Indices, DispatchedGroup;
    SuggestedSteps(contexts, group, solo, steps);
    AllRunNow(contexts, steps, |steps|);
    assert steps[..|steps|] == steps;
    assert LabelsOf(contexts, steps)[0] == contexts[0].name;
    assert 0 in steps && steps[1] > 0;
    DispatchedExactly(contexts, group, solo, false, maxParallel);
  }
}
