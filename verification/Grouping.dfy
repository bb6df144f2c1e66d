/** Turning an untrusted suggestion of steps to run together into groups that may. */
module Grouping {
  import opened Common
  import Plan

  /** An open checkbox step with what is declared under it. */
  datatype Context = Context(
    name: string, taskId: Option<string>, dependsOn: seq<string>, files: seq<Plan.OwnedPath>, resources: seq<string>)

  predicate OwnsAnything(c: Context) {
    c.files != [] || c.resources != []
  }

  // -- which steps a step depends on ----------------------------------------------------

  predicate Contains(text: string, part: string) {
    part <= text || (text != "" && Contains(text[1..], part))
  }

  predicate NamedById(c: Context, dependency: string) {
    c.taskId.Some? && Contains(dependency, "`" + c.taskId.value + "`")
  }

  predicate NamedByLabel(c: Context, dependency: string) {
    dependency == c.name || Contains(dependency, c.name)
  }

  predicate Names(c: Context, dependency: string, byId: bool) {
    if byId then NamedById(c, dependency) else NamedByLabel(c, dependency)
  }

  /** The first other step from i on that the dependency names and that is not found yet. */
  function FirstNamed(contexts: seq<Context>, self: nat, found: seq<nat>, dependency: string, byId: bool, i: nat): (k: Option<nat>)
    requires i <= |contexts|
    ensures k.Some? ==> k.value < |contexts| && k.value != self && k.value !in found
    ensures k.Some? ==> Names(contexts[k.value], dependency, byId)
    ensures k.None? ==> forall j :: i <= j < |contexts| ==> j == self || j in found || !Names(contexts[j], dependency, byId)
    decreases |contexts| - i
  {
    if i == |contexts| then None
    else if i != self && i !in found && Names(contexts[i], dependency, byId) then Some(i)
    else FirstNamed(contexts, self, found, dependency, byId, i + 1)
  }

  /** Named by its id if any step is, else by its label. */
  function Resolve(contexts: seq<Context>, self: nat, found: seq<nat>, dependency: string): Option<nat> {
    var byId := FirstNamed(contexts, self, found, dependency, true, 0);
    if byId.Some? then byId else FirstNamed(contexts, self, found, dependency, false, 0)
  }

  /** The steps that the first n dependencies of step `self` name. */
  function DependsOn(contexts: seq<Context>, self: nat, n: nat): (found: seq<nat>)
    requires self < |contexts| && n <= |contexts[self].dependsOn|
    ensures Distinct(found)
    ensures forall j :: 0 <= j < |found| ==> found[j] < |contexts| && found[j] != self
  {
    if n == 0 then []
    else
      var before := DependsOn(contexts, self, n - 1);
      var k := Resolve(contexts, self, before, contexts[self].dependsOn[n - 1]);
      if k.Some? then before + [k.value] else before
  }

  function Deps(contexts: seq<Context>, self: nat): seq<nat>
    requires self < |contexts|
  {
    DependsOn(contexts, self, |contexts[self].dependsOn|)
  }

  method DependsOnLabels(contexts: seq<Context>, self: nat) returns (found: seq<nat>)
    requires self < |contexts|
    ensures found == Deps(contexts, self)
  {
    found := [];
    for n := 0 to |contexts[self].dependsOn|
      invariant found == DependsOn(contexts, self, n)
    {
      var dependency := contexts[self].dependsOn[n];
      var hit := Scan(contexts, self, found, dependency, true);
      if hit.None? {
        hit := Scan(contexts, self, found, dependency, false);
      }
      if hit.Some? {
        found := found + [hit.value];
      }
    }
  }

  method Scan(contexts: seq<Context>, self: nat, found: seq<nat>, dependency: string, byId: bool) returns (k: Option<nat>)
    ensures k == FirstNamed(contexts, self, found, dependency, byId, 0)
  {
    for i := 0 to |contexts|
      invariant FirstNamed(contexts, self, found, dependency, byId, 0) == FirstNamed(contexts, self, found, dependency, byId, i)
    {
      if i != self && i !in found && Names(contexts[i], dependency, byId) {
        return Some(i);
      }
    }
    k := None;
  }

  ghost predicate NamedEither(c: Context, dependency: string) {
    NamedById(c, dependency) || NamedByLabel(c, dependency)
  }

  ghost predicate Answered(contexts: seq<Context>, found: seq<nat>, dependency: string) {
    exists i :: 0 <= i < |found| && found[i] < |contexts| && NamedEither(contexts[found[i]], dependency)
  }

  /** A dependency that names another step, by id or by label, always brings in a step it names. */
  lemma {:induction false} NamedStepsAreFound(contexts: seq<Context>, self: nat, m: nat, k: nat, n: nat)
    requires self < |contexts| && k < |contexts| && k != self
    requires m < n <= |contexts[self].dependsOn|
    requires NamedEither(contexts[k], contexts[self].dependsOn[m])
    ensures Answered(contexts, DependsOn(contexts, self, n), contexts[self].dependsOn[m])
  {
    hide NamedById, NamedByLabel;
    var dependency := contexts[self].dependsOn[m];
    var before := DependsOn(contexts, self, n - 1);
    var all := DependsOn(contexts, self, n);
    if m < n - 1 {
      NamedStepsAreFound(contexts, self, m, k, n - 1);
      var i :| 0 <= i < |before| && before[i] < |contexts| && NamedEither(contexts[before[i]], dependency);
      assert all[i] == before[i];
    } else {
      var hit := Resolve(contexts, self, before, dependency);
      assert Names(contexts[k], dependency, true) || Names(contexts[k], dependency, false);
      if hit.Some? {
        assert all[|before|] == hit.value;
      } else {
        assert k in before;
        var i :| 0 <= i < |before| && before[i] == k;
      }
    }
  }

  // -- ownership -----------------------------------------------------------------------------

  predicate PathsOverlap(p: Plan.OwnedPath, q: Plan.OwnedPath) {
    Plan.Prefix(p) <= Plan.Prefix(q) || Plan.Prefix(q) <= Plan.Prefix(p)
  }

  /** Two owned paths overlap exactly when some file may be covered by both. */
  lemma OverlapIsCommonFile(p: Plan.OwnedPath, q: Plan.OwnedPath)
    ensures PathsOverlap(p, q) <==> exists f :: Plan.MayCover(p, f) && Plan.MayCover(q, f)
  {
    var a, b := Plan.Prefix(p), Plan.Prefix(q);
    if PathsOverlap(p, q) {
      var f := if a <= b then b else a;
      assert Plan.MayCover(p, f) && Plan.MayCover(q, f);
    }
    forall f | Plan.MayCover(p, f) && Plan.MayCover(q, f) ensures PathsOverlap(p, q) {
      Plan.CommonPrefix(a, b, f);
    }
  }

  predicate ContextsConflict(first: Context, second: Context, anyDeclared: bool) {
    anyDeclared &&
    (|| !OwnsAnything(first) || !OwnsAnything(second)
     || (exists i, j :: 0 <= i < |first.files| && 0 <= j < |second.files| && PathsOverlap(first.files[i], second.files[j]))
     || (exists i :: 0 <= i < |first.resources| && first.resources[i] in second.resources))
  }

  predicate AnyDeclared(contexts: seq<Context>) {
    exists i :: 0 <= i < |contexts| && OwnsAnything(contexts[i])
  }

  // -- splitting one suggested group -------------------------------------------------------------

  /** The first step of that label not used yet. */
  function IndexOfLabel(contexts: seq<Context>, name: string, used: set<nat>, i: nat): (k: Option<nat>)
    requires i <= |contexts|
    ensures k.Some? ==> i <= k.value < |contexts| && contexts[k.value].name == name && k.value !in used
    ensures k.Some? ==> forall j :: i <= j < k.value ==> contexts[j].name != name || j in used
    ensures k.None? ==> forall j :: i <= j < |contexts| ==> contexts[j].name != name || j in used
    decreases |contexts| - i
  {
    if i == |contexts| then None
    else if contexts[i].name == name && i !in used then Some(i)
    else IndexOfLabel(contexts, name, used, i + 1)
  }

  /** The steps the first n labels of a group stand for, on top of the ones already used. */
  function Taken(contexts: seq<Context>, group: seq<string>, n: nat, used: set<nat>): (r: set<nat>)
    requires n <= |group|
    ensures used <= r && forall k :: k in r ==> k in used || k < |contexts|
  {
    if n == 0 then used
    else
      var before := Taken(contexts, group, n - 1, used);
      var k := IndexOfLabel(contexts, group[n - 1], before, 0);
      if k.Some? then before + {k.value} else before
  }

  /** The members of s below n, in ascending order. */
  function Ascending(s: set<nat>, n: nat): (r: seq<nat>)
    ensures forall k: nat :: k in r <==> k in s && k < n
    ensures forall i :: 0 <= i < |r| ==> r[i] < n
    ensures forall i, j :: 0 <= i < j < |r| ==> r[i] < r[j]
  {
    if n == 0 then []
    else Ascending(s, n - 1) + if n - 1 in s then [n - 1] else []
  }

  /** Step k still waits for a step that is not in an earlier group. */
  predicate Blocked(contexts: seq<Context>, k: nat, placed: set<nat>)
    requires k < |contexts|
  {
    exists i :: 0 <= i < |Deps(contexts, k)| && Deps(contexts, k)[i] !in placed
  }

  predicate Clashes(contexts: seq<Context>, k: nat, current: seq<nat>)
    requires k < |contexts| && forall i :: 0 <= i < |current| ==> current[i] < |contexts|
  {
    exists i :: 0 <= i < |current| && ContextsConflict(contexts[k], contexts[current[i]], AnyDeclared(contexts))
  }

  ghost predicate Within(contexts: seq<Context>, s: seq<nat>) {
    forall i :: 0 <= i < |s| ==> s[i] < |contexts|
  }

  /** The steps of the first n that may run together now. */
  function Current(contexts: seq<Context>, indices: seq<nat>, n: nat, placed: set<nat>): (r: seq<nat>)
    requires n <= |indices| && Within(contexts, indices)
    ensures Within(contexts, r)
  {
    if n == 0 then []
    else
      var before := Current(contexts, indices, n - 1, placed);
      var k := indices[n - 1];
      if Blocked(contexts, k, placed) || Clashes(contexts, k, before) then before else before + [k]
  }

  /** The ones that must run on their own, later. */
  function Held(contexts: seq<Context>, indices: seq<nat>, n: nat, placed: set<nat>): (r: seq<nat>)
    requires n <= |indices| && Within(contexts, indices)
    ensures Within(contexts, r)
  {
    if n == 0 then []
    else
      var before := Held(contexts, indices, n - 1, placed);
      var k := indices[n - 1];
      if Blocked(contexts, k, placed) || Clashes(contexts, k, Current(contexts, indices, n - 1, placed))
      then before + [k] else before
  }

  /** Steps that may run together: nothing they wait for is among them or still to come, and none conflict. */
  ghost predicate Compatible(contexts: seq<Context>, group: seq<nat>, placed: set<nat>) {
    && Within(contexts, group)
    && (forall i :: 0 <= i < |group| ==> !Blocked(contexts, group[i], placed))
    && (forall i, j :: 0 <= i < j < |group| ==>
      !ContextsConflict(contexts[group[j]], contexts[group[i]], AnyDeclared(contexts)))
  }

  lemma {:induction false} CurrentIsCompatible(contexts: seq<Context>, indices: seq<nat>, n: nat, placed: set<nat>)
    requires n <= |indices| && Within(contexts, indices)
    ensures Compatible(contexts, Current(contexts, indices, n, placed), placed)
  {
    hide Blocked, ContextsConflict, AnyDeclared;
    if n > 0 {
      CurrentIsCompatible(contexts, indices, n - 1, placed);
    }
  }

  /** Splitting loses nothing and repeats nothing. */
  lemma {:induction false} SplitKeepsAll(contexts: seq<Context>, indices: seq<nat>, n: nat, placed: set<nat>)
    requires n <= |indices| && Within(contexts, indices) && Distinct(indices)
    ensures var current, held := Current(contexts, indices, n, placed), Held(contexts, indices, n, placed);
      && Distinct(current + held)
      && forall k :: k in indices[..n] <==> k in current + held
  {
    hide Blocked, Clashes;
    if n > 0 {
      SplitKeepsAll(contexts, indices, n - 1, placed);
      var current, held := Current(contexts, indices, n - 1, placed), Held(contexts, indices, n - 1, placed);
      var k := indices[n - 1];
      assert indices[..n] == indices[..n - 1] + [k];
      assert k !in indices[..n - 1];
      OneMore(current, held, k);
    }
  }

  lemma OneMore(a: seq<nat>, b: seq<nat>, k: nat)
    requires Distinct(a + b) && k !in a + b
    ensures Distinct(a + [k] + b) && Distinct(a + (b + [k]))
  {
    assert forall i :: 0 <= i < |a| ==> (a + b)[i] == a[i];
    assert forall i :: 0 <= i < |b| ==> (a + b)[|a| + i] == b[i];
    assert a + (b + [k]) == a + b + [k];
    var r := a + [k] + b;
    forall i, j | 0 <= i < j < |r| ensures r[i] != r[j] {
      assert i < |a| ==> r[i] == (a + b)[i];
      assert i > |a| ==> r[i] == (a + b)[i - 1];
      assert j < |a| ==> r[j] == (a + b)[j];
      assert j > |a| ==> r[j] == (a + b)[j - 1];
    }
  }

  // -- all the groups ---------------------------------------------------------------------------------

  function Flatten(groups: seq<seq<nat>>): seq<nat> {
    if groups == [] then [] else Flatten(groups[..|groups| - 1]) + groups[|groups| - 1]
  }

  function Alone(steps: seq<nat>): (r: seq<seq<nat>>)
    ensures |r| == |steps| && forall i :: 0 <= i < |r| ==> r[i] == [steps[i]]
  {
    seq(|steps|, i requires 0 <= i < |steps| => [steps[i]])
  }

  function AsSet(s: seq<nat>): set<nat> {
    set k | k in s
  }

  /** What the steps of one suggested group add to the groups so far. */
  function Placed(contexts: seq<Context>, indices: seq<nat>, result: seq<seq<nat>>): seq<seq<nat>>
    requires Within(contexts, indices)
  {
    var placed := AsSet(Flatten(result));
    var current := Current(contexts, indices, |indices|, placed);
    result + (if current != [] then [current] else []) + Alone(Held(contexts, indices, |indices|, placed))
  }

  /** Every step at most once; groups of two or more are compatible and built on earlier groups only. */
  ghost predicate SoundGroups(contexts: seq<Context>, result: seq<seq<nat>>) {
    && Distinct(Flatten(result)) && Within(contexts, Flatten(result))
    && forall a :: 0 <= a < |result| ==>
      result[a] != [] && (|result[a]| >= 2 ==> Compatible(contexts, result[a], AsSet(Flatten(result[..a]))))
  }

  lemma {:induction false} FlattenMore(groups: seq<seq<nat>>, g: seq<nat>)
    ensures Flatten(groups + [g]) == Flatten(groups) + g
  {
  }

  lemma {:induction false} GroupJoins(contexts: seq<Context>, result: seq<seq<nat>>, g: seq<nat>)
    requires SoundGroups(contexts, result) && g != [] && Within(contexts, g)
    requires Distinct(Flatten(result) + g)
    requires |g| >= 2 ==> Compatible(contexts, g, AsSet(Flatten(result)))
    ensures SoundGroups(contexts, result + [g]) && Flatten(result + [g]) == Flatten(result) + g
  {
    hide Compatible, Flatten;
    FlattenMore(result, g);
    var more := result + [g];
    forall a | 0 <= a < |more|
      ensures more[a] != [] && (|more[a]| >= 2 ==> Compatible(contexts, more[a], AsSet(Flatten(more[..a]))))
    {
      assert more[..a] == result[..a];
      if a == |result| {
        assert result[..a] == result;
      }
    }
  }

  lemma {:induction false} AloneJoins(contexts: seq<Context>, result: seq<seq<nat>>, steps: seq<nat>)
    requires SoundGroups(contexts, result) && Within(contexts, steps)
    requires Distinct(Flatten(result) + steps)
    ensures SoundGroups(contexts, result + Alone(steps)) && Flatten(result + Alone(steps)) == Flatten(result) + steps
    decreases |steps|
  {
    hide SoundGroups, Flatten;
    if steps == [] {
      assert result + Alone(steps) == result && Flatten(result) + steps == Flatten(result);
    } else {
      var n := |steps| - 1;
      assert steps == steps[..n] + [steps[n]];
      assert Flatten(result) + steps == Flatten(result) + steps[..n] + [steps[n]];
      DistinctFront(Flatten(result) + steps[..n], steps[n]);
      AloneJoins(contexts, result, steps[..n]);
      GroupJoins(contexts, result + Alone(steps[..n]), [steps[n]]);
      assert result + Alone(steps[..n]) + [[steps[n]]] == result + Alone(steps);
    }
  }

  lemma DistinctFront(s: seq<nat>, k: nat)
    requires Distinct(s + [k])
    ensures Distinct(s)
  {
    assert forall i :: 0 <= i < |s| ==> (s + [k])[i] == s[i];
  }

  lemma DistinctParts(a: seq<nat>, b: seq<nat>, c: seq<nat>)
    requires Distinct(a) && Distinct(b + c) && forall k :: k in b + c ==> k !in a
    ensures Distinct(a + b) && Distinct(a + b + c)
  {
    assert a + b + c == a + (b + c);
    assert forall i :: 0 <= i < |b + c| ==> (b + c)[i] in b + c;
    assert forall i :: 0 <= i < |b| ==> (b + c)[i] == b[i];
  }

  /** Placing one suggested group keeps everything sound and places exactly its steps. */
  lemma {:induction false} PlacedIsSound(contexts: seq<Context>, indices: seq<nat>, result: seq<seq<nat>>)
    requires SoundGroups(contexts, result) && Within(contexts, indices) && Distinct(indices)
    requires forall k :: k in indices ==> k !in Flatten(result)
    ensures SoundGroups(contexts, Placed(contexts, indices, result))
    ensures forall k :: k in Flatten(Placed(contexts, indices, result)) <==> k in Flatten(result) || k in indices
  {
    hide Flatten, Compatible, Current, Held;
    var placed := AsSet(Flatten(result));
    var current := Current(contexts, indices, |indices|, placed);
    var held := Held(contexts, indices, |indices|, placed);
    SplitKeepsAll(contexts, indices, |indices|, placed);
    assert indices[..|indices|] == indices;
    DistinctParts(Flatten(result), current, held);
    CurrentIsCompatible(contexts, indices, |indices|, placed);
    var first := result + if current != [] then [current] else [];
    if current != [] {
      GroupJoins(contexts, result, current);
    } else {
      assert first == result && Flatten(result) + current == Flatten(result);
    }
    AloneJoins(contexts, first, held);
  }

  // -- constrain_groups ----------------------------------------------------------------------------------

  /** The steps a suggested group stands for, in plan order; duplicates and unknown labels drop out. */
  function Indices(contexts: seq<Context>, group: seq<string>, used: set<nat>): (r: seq<nat>)
    ensures Within(contexts, r) && Distinct(r) && forall k :: k in r ==> k !in used
    ensures forall i, j :: 0 <= i < j < |r| ==> r[i] < r[j]
  {
    Ascending(Taken(contexts, group, |group|, used) - used, |contexts|)
  }

  function Grouped(contexts: seq<Context>, groups: seq<seq<string>>, n: nat): seq<seq<nat>>
    requires n <= |groups|
  {
    if n == 0 then []
    else
      var before := Grouped(contexts, groups, n - 1);
      Placed(contexts, Indices(contexts, groups[n - 1], AsSet(Flatten(before))), before)
  }

  function Missing(placed: set<nat>, n: nat): (r: seq<nat>)
    ensures forall k: nat :: k in r <==> k !in placed && k < n
    ensures forall i :: 0 <= i < |r| ==> r[i] < n
    ensures forall i, j :: 0 <= i < j < |r| ==> r[i] < r[j]
  {
    if n == 0 then []
    else Missing(placed, n - 1) + if n - 1 in placed then [] else [n - 1]
  }

  function Constrained(contexts: seq<Context>, groups: seq<seq<string>>): seq<seq<nat>> {
    var result := Grouped(contexts, groups, |groups|);
    result + Alone(Missing(AsSet(Flatten(result)), |contexts|))
  }

  lemma {:induction false} GroupedIsSound(contexts: seq<Context>, groups: seq<seq<string>>, n: nat)
    requires n <= |groups|
    ensures SoundGroups(contexts, Grouped(contexts, groups, n))
  {
    if n == 0 {
      assert Flatten([]) == [];
    } else {
      GroupedIsSound(contexts, groups, n - 1);
      hide SoundGroups, Placed, Flatten, Taken, Ascending;
      var before := Grouped(contexts, groups, n - 1);
      PlacedIsSound(contexts, Indices(contexts, groups[n - 1], AsSet(Flatten(before))), before);
    }
  }

  /**
   * Whatever the suggestion - duplicates, unknown labels, missing steps - every open step comes out
   * exactly once, and a group of two or more has no conflict and only prerequisites from earlier groups.
   */
  lemma ConstrainedIsSound(contexts: seq<Context>, groups: seq<seq<string>>)
    ensures SoundGroups(contexts, Constrained(contexts, groups))
    ensures forall k: nat :: k in Flatten(Constrained(contexts, groups)) <==> k < |contexts|
  {
    hide Flatten, Grouped;
    var result := Grouped(contexts, groups, |groups|);
    GroupedIsSound(contexts, groups, |groups|);
    var missing := Missing(AsSet(Flatten(result)), |contexts|);
    AscendingIsDistinct(missing);
    DistinctParts(Flatten(result), missing, []);
    assert missing + [] == missing;
    AloneJoins(contexts, result, missing);
    forall k: nat | k in Flatten(result) ensures k < |contexts| {
      var i :| 0 <= i < |Flatten(result)| && Flatten(result)[i] == k;
    }
  }

  lemma AscendingIsDistinct(s: seq<nat>)
    requires forall i, j :: 0 <= i < j < |s| ==> s[i] < s[j]
    ensures Distinct(s)
  {
  }

  /** Both declare what they own, and no file or resource is both's. */
  ghost predicate Exclusive(x: Context, y: Context) {
    && OwnsAnything(x) && OwnsAnything(y)
    && (forall p, q, f :: p in x.files && q in y.files ==> !(Plan.MayCover(p, f) && Plan.MayCover(q, f)))
    && (forall r :: r in x.resources ==> r !in y.resources)
  }

  /** What a sound group promises: its members declare disjoint ownership and wait for nobody still open. */
  lemma GroupMeans(contexts: seq<Context>, result: seq<seq<nat>>, a: nat, i: nat, j: nat)
    requires SoundGroups(contexts, result) && a < |result| && i < j < |result[a]|
    ensures Within(contexts, result[a])
    ensures forall d :: d in Deps(contexts, result[a][i]) || d in Deps(contexts, result[a][j]) ==> d in Flatten(result[..a])
    ensures AnyDeclared(contexts) ==> Exclusive(contexts[result[a][i]], contexts[result[a][j]])
  {
  }

  method SplitGroup(contexts: seq<Context>, indices: seq<nat>, placed: set<nat>) returns (current: seq<nat>, held: seq<nat>)
    requires Within(contexts, indices)
    ensures current == Current(contexts, indices, |indices|, placed) && held == Held(contexts, indices, |indices|, placed)
  {
    hide Blocked, Clashes;
    current, held := [], [];
    for n := 0 to |indices|
      invariant current == Current(contexts, indices, n, placed) && held == Held(contexts, indices, n, placed)
    {
      if Blocked(contexts, indices[n], placed) || Clashes(contexts, indices[n], current) {
        held := held + [indices[n]];
      } else {
        current := current + [indices[n]];
      }
    }
  }

  /** The steps of that label not used yet. */
  function FreeSteps(contexts: seq<Context>, used: set<nat>, name: string): set<nat> {
    set k: nat | k < |contexts| && contexts[k].name == name && k !in used
  }

  /** The steps of that label in s that were not used before. */
  function Newly(contexts: seq<Context>, s: set<nat>, used: set<nat>, name: string): set<nat> {
    set k | k in s && k !in used && k < |contexts| && contexts[k].name == name
  }

  /** How often the first n labels mention that one. */
  function Mentions(group: seq<string>, n: nat, name: string): nat
    requires n <= |group|
  {
    if n == 0 then 0 else Mentions(group, n - 1, name) + if group[n - 1] == name then 1 else 0
  }

  /** Of the free steps of one label an earlier one is in s whenever a later one is. */
  ghost predicate EarlierFirst(contexts: seq<Context>, s: set<nat>, used: set<nat>) {
    forall j, k :: 0 <= j < k < |contexts| && contexts[j].name == contexts[k].name && k in s && k !in used ==> j in s
  }

  lemma {:induction false} TakeOne(contexts: seq<Context>, before: set<nat>, used: set<nat>, mention: string, name: string)
    requires used <= before && EarlierFirst(contexts, before, used)
    ensures
      var hit := IndexOfLabel(contexts, mention, before, 0);
      var after := if hit.Some? then before + {hit.value} else before;
      var (had, has) := (Newly(contexts, before, used, name), Newly(contexts, after, used, name));
      && EarlierFirst(contexts, after, used) && has <= FreeSteps(contexts, used, name)
      && (name != mention ==> has == had)
      && (name == mention && hit.Some? ==> hit.value !in had && has == had + {hit.value})
      && (name == mention && hit.None? ==> has == had == FreeSteps(contexts, used, name))
  {
    var hit := IndexOfLabel(contexts, mention, before, 0);
    if hit.None? && name == mention {
      assert Newly(contexts, before, used, name) == FreeSteps(contexts, used, name);
    }
  }

  /**
   * Every mention of a label takes another step, earlier ones first, for as long as there are any:
   * duplicates in a suggestion reach the next step of that name, and then nothing.
   */
  lemma {:induction false} MentionsTake(contexts: seq<Context>, group: seq<string>, n: nat, used: set<nat>, name: string)
    requires n <= |group|
    ensures |Newly(contexts, Taken(contexts, group, n, used), used, name)|
         == Min(Mentions(group, n, name), |FreeSteps(contexts, used, name)|)
    ensures EarlierFirst(contexts, Taken(contexts, group, n, used), used)
  {
    if n == 0 {
      assert Newly(contexts, used, used, name) == {};
    } else {
      MentionsTake(contexts, group, n - 1, used, name);
      var before := Taken(contexts, group, n - 1, used);
      TakeOne(contexts, before, used, group[n - 1], name);
      hide Newly, FreeSteps, EarlierFirst, IndexOfLabel;
      Fewer(Newly(contexts, Taken(contexts, group, n, used), used, name), FreeSteps(contexts, used, name));
    }
  }

  lemma Fewer(a: set<nat>, b: set<nat>)
    requires a <= b
    ensures |a| <= |b|
  {
    assert b == a + (b - a);
  }

  method TakeLabels(contexts: seq<Context>, group: seq<string>, used: set<nat>) returns (taken: set<nat>)
    ensures taken == Taken(contexts, group, |group|, used)
  {
    taken := used;
    for n := 0 to |group|
      invariant taken == Taken(contexts, group, n, used)
    {
      var hit := IndexOfLabel(contexts, group[n], taken, 0);
      if hit.Some? {
        taken := taken + {hit.value};
      }
    }
  }

  method ConstrainIndices(groups: seq<seq<string>>, contexts: seq<Context>) returns (result: seq<seq<nat>>)
    ensures result == Constrained(contexts, groups)
  {
    hide Current, Held, Taken, Ascending, Flatten, SoundGroups;
    var placed: set<nat>, used: set<nat> := {}, {};
    result := [];
    assert Flatten(result) == [] by {
      FlattenNothing();
    }
    for n := 0 to |groups|
      invariant result == Grouped(contexts, groups, n)
      invariant placed == used == AsSet(Flatten(result))
    {
      GroupedIsSound(contexts, groups, n);
      FlattenedInRange(contexts, result);
      var taken := TakeLabels(contexts, groups[n], used);
      var indices := Ascending(taken - used, |contexts|);
      assert indices == Indices(contexts, groups[n], used);
      PlacedIsSound(contexts, indices, result);
      var current, held := SplitGroup(contexts, indices, placed);
      TakenIsPlaced(contexts, groups[n], used, indices);
      result := result + (if current != [] then [current] else []) + Alone(held);
      used := taken;
      placed := placed + AsSet(indices);
    }
    result := result + Alone(Missing(placed, |contexts|));
  }

  lemma FlattenNothing()
    ensures Flatten([]) == []
  {
  }

  lemma {:induction false} TakenIsPlaced(contexts: seq<Context>, group: seq<string>, used: set<nat>, indices: seq<nat>)
    requires forall k :: k in used ==> k < |contexts|
    requires indices == Indices(contexts, group, used)
    ensures Taken(contexts, group, |group|, used) == used + AsSet(indices)
  {
  }

  lemma {:induction false} FlattenedInRange(contexts: seq<Context>, result: seq<seq<nat>>)
    requires SoundGroups(contexts, result)
    ensures forall k :: k in AsSet(Flatten(result)) ==> k < |contexts|
  {
  }

  /** The groups by their labels. */
  method ConstrainGroups(groups: seq<seq<string>>, contexts: seq<Context>) returns (names: seq<seq<string>>, result: seq<seq<nat>>)
    ensures SoundGroups(contexts, result) && forall k: nat :: k in Flatten(result) <==> k < |contexts|
    ensures result == Constrained(contexts, groups) && names == Labels(contexts, result)
  {
    ConstrainedIsSound(contexts, groups);
    result := ConstrainIndices(groups, contexts);
    names := Labels(contexts, result);
  }

  function LabelsOf(contexts: seq<Context>, group: seq<nat>): (r: seq<string>)
    ensures |r| == |group|
    ensures forall i :: 0 <= i < |group| && group[i] < |contexts| ==> r[i] == contexts[group[i]].name
  {
    seq(|group|, i requires 0 <= i < |group| => if group[i] < |contexts| then contexts[group[i]].name else "")
  }

  function Labels(contexts: seq<Context>, result: seq<seq<nat>>): (r: seq<seq<string>>)
    ensures |r| == |result| && forall a :: 0 <= a < |result| ==> r[a] == LabelsOf(contexts, result[a])
  {
    seq(|result|, a requires 0 <= a < |result| => LabelsOf(contexts, result[a]))
  }

  // -- the group the loop dispatches --------------------------------------------------------------------

  function Allowed(group: seq<string>, solo: set<string>): (r: seq<string>)
    ensures forall x :: x in r <==> x in group && x !in solo
  {
    if group == [] then []
    else
      assert group == [group[0]] + group[1..];
      (if group[0] in solo then [] else [group[0]]) + Allowed(group[1..], solo)
  }

  ghost predicate Climbs(s: seq<nat>) {
    forall i, j :: 0 <= i < j < |s| ==> s[i] < s[j]
  }

  lemma {:induction false} CurrentAscends(contexts: seq<Context>, indices: seq<nat>, n: nat, placed: set<nat>)
    requires n <= |indices| && Within(contexts, indices) && Climbs(indices)
    ensures Climbs(Current(contexts, indices, n, placed))
    ensures forall k :: k in Current(contexts, indices, n, placed) ==> n > 0 && k <= indices[n - 1]
  {
    hide Blocked, Clashes;
    if n > 0 {
      CurrentAscends(contexts, indices, n - 1, placed);
      var before := Current(contexts, indices, n - 1, placed);
      assert n > 1 ==> indices[n - 2] < indices[n - 1];
      forall i | 0 <= i < |before| ensures before[i] < indices[n - 1] {
        assert before[i] in before;
      }
    }
  }

  lemma {:induction false} CurrentIsDrawn(contexts: seq<Context>, indices: seq<nat>, n: nat, placed: set<nat>, k: nat)
    requires n <= |indices| && Within(contexts, indices) && k in Current(contexts, indices, n, placed)
    ensures k in indices
  {
    hide Blocked, Clashes;
    if n > 0 && k in Current(contexts, indices, n - 1, placed) {
      CurrentIsDrawn(contexts, indices, n - 1, placed, k);
    }
  }

  lemma {:induction false} FirstGoesFirst(contexts: seq<Context>, indices: seq<nat>, n: nat, placed: set<nat>)
    requires 0 < n <= |indices| && Within(contexts, indices) && !Blocked(contexts, indices[0], placed)
    ensures Current(contexts, indices, n, placed) != [] && Current(contexts, indices, n, placed)[0] == indices[0]
  {
    hide Blocked;
    if n > 1 {
      FirstGoesFirst(contexts, indices, n - 1, placed);
    } else {
      assert !Clashes(contexts, indices[0], Current(contexts, indices, 0, placed));
    }
  }

  /** The label of the first open step, when suggested, is taken to mean the first open step. */
  lemma {:induction false} FirstLabelIsFirst(contexts: seq<Context>, group: seq<string>, n: nat, m: nat)
    requires contexts != [] && m < n <= |group| && group[m] == contexts[0].name
    ensures 0 in Taken(contexts, group, n, {})
  {
    if n - 1 > m {
      FirstLabelIsFirst(contexts, group, n - 1, m);
    }
  }

  /** One suggested group: its first group, when it has two or more, is the one split off from it. */
  lemma {:induction false} OneSuggestion(contexts: seq<Context>, suggested: seq<string>)
    ensures
      var result, indices := Constrained(contexts, [suggested]), Indices(contexts, suggested, {});
      var current := Current(contexts, indices, |indices|, {});
      && (result != [] && |result[0]| >= 2 ==> result[0] == current)
      && (current != [] ==> result != [] && result[0] == current)
  {
    hide Taken, Ascending, Current, Held;
    var groups := [suggested];
    assert Grouped(contexts, groups, 0) == [];
    FlattenNothing();
    assert AsSet([]) == {};
    var indices := Indices(contexts, suggested, {});
    assert Grouped(contexts, groups, 1) == Placed(contexts, indices, []);
  }

  /** What may be said of the steps dispatched together. */
  ghost predicate MayRunTogether(contexts: seq<Context>, r: seq<nat>) {
    && Within(contexts, r)
    && (forall i, j :: 0 <= i < j < |r| ==> r[i] < r[j])
    && (forall i :: 0 <= i < |r| ==> Deps(contexts, r[i]) == [])
    && (forall i, j :: 0 <= i < j < |r| && AnyDeclared(contexts) ==> Exclusive(contexts[r[i]], contexts[r[j]]))
  }

  /** No other open step has the first one's label. */
  ghost predicate FirstIsUnique(contexts: seq<Context>) {
    forall k :: 0 < k < |contexts| ==> contexts[k].name != contexts[0].name
  }

  lemma SomeMember(s: seq<nat>)
    ensures s != [] ==> exists k :: k in s
  {
    assert s != [] ==> s[0] in s;
  }

  lemma UnblockedIsFree(contexts: seq<Context>, k: nat)
    requires k < |contexts| && !Blocked(contexts, k, {})
    ensures Deps(contexts, k) == []
  {
    SomeMember(Deps(contexts, k));
  }

  lemma CompatibleIsExclusive(contexts: seq<Context>, group: seq<nat>, placed: set<nat>, i: nat, j: nat)
    requires Compatible(contexts, group, placed) && i < j < |group| && AnyDeclared(contexts)
    ensures Exclusive(contexts[group[i]], contexts[group[j]])
  {
  }

  lemma CompatibleMayRun(contexts: seq<Context>, g: seq<nat>)
    requires Compatible(contexts, g, {}) && forall i, j :: 0 <= i < j < |g| ==> g[i] < g[j]
    ensures MayRunTogether(contexts, g)
  {
    hide Deps, Blocked, AnyDeclared, ContextsConflict, Exclusive;
    forall i | 0 <= i < |g| ensures Deps(contexts, g[i]) == [] {
      UnblockedIsFree(contexts, g[i]);
    }
    forall i, j | 0 <= i < j < |g| && AnyDeclared(contexts) ensures Exclusive(contexts[g[i]], contexts[g[j]]) {
      CompatibleIsExclusive(contexts, g, {}, i, j);
    }
  }

  /** The first group split off one suggestion may run. */
  lemma {:induction false} FirstGroupMayRun(contexts: seq<Context>, suggested: seq<string>)
    ensures var indices := Indices(contexts, suggested, {});
      MayRunTogether(contexts, Current(contexts, indices, |indices|, {}))
  {
    var indices := Indices(contexts, suggested, {});
    CurrentIsCompatible(contexts, indices, |indices|, {});
    CurrentAscends(contexts, indices, |indices|, {});
    hide *;
    CompatibleMayRun(contexts, Current(contexts, indices, |indices|, {}));
  }

  lemma FirstTaken(contexts: seq<Context>, suggested: seq<string>, k: nat)
    requires contexts != [] && k in Indices(contexts, suggested, {}) && contexts[k].name == contexts[0].name
    ensures Indices(contexts, suggested, {}) != [] && Indices(contexts, suggested, {})[0] == 0
  {
    var indices := Indices(contexts, suggested, {});
    LabelWasSuggested(contexts, suggested, |suggested|, k);
    assert suggested[..|suggested|] == suggested;
    var m :| 0 <= m < |suggested| && suggested[m] == contexts[k].name;
    FirstLabelIsFirst(contexts, suggested, |suggested|, m);
    assert 0 in indices;
  }

  /** Of a group the first open step's label is in, that step is the first member unless it still waits. */
  lemma {:induction false} FirstStepLeads(contexts: seq<Context>, suggested: seq<string>, g: seq<nat>, k: nat)
    requires var indices := Indices(contexts, suggested, {}); g == Current(contexts, indices, |indices|, {})
    requires contexts != [] && k in g && k < |contexts| && contexts[k].name == contexts[0].name
    ensures g[0] == 0 <==> Deps(contexts, 0) == []
    ensures FirstIsUnique(contexts) ==> g[0] == 0
  {
    var indices := Indices(contexts, suggested, {});
    CurrentIsDrawn(contexts, indices, |indices|, {}, k);
    FirstTaken(contexts, suggested, k);
    FirstGroupMayRun(contexts, suggested);
    hide Indices, Current, Deps;
    assert FirstIsUnique(contexts) ==> k == 0;
    if Deps(contexts, 0) == [] {
      assert !Blocked(contexts, 0, {});
      FirstGoesFirst(contexts, indices, |indices|, {});
    }
  }

  lemma {:induction false} LabelWasSuggested(contexts: seq<Context>, group: seq<string>, n: nat, k: nat)
    requires n <= |group| && k in Taken(contexts, group, n, {})
    ensures k < |contexts| && contexts[k].name in group[..n]
  {
    if n > 0 {
      var before := Taken(contexts, group, n - 1, {});
      assert group[..n] == group[..n - 1] + [group[n - 1]];
      if k in before {
        LabelWasSuggested(contexts, group, n - 1, k);
      }
    }
  }

  /** The first of the repaired groups, cut to the limit, when it names the first open step; else nothing. */
  function DispatchedGroup(contexts: seq<Context>, group: seq<string>, solo: set<string>, notes: bool, maxParallel: int): seq<nat> {
    if notes || |contexts| < 2 || contexts[0].name in solo then []
    else
      var allowed := Constrained(contexts, [Allowed(group, solo)]);
      if allowed == [] || contexts[0].name !in LabelsOf(contexts, allowed[0]) then []
      else allowed[0][..Min(|allowed[0]|, Max(1, maxParallel))]
  }

  /**
   * The open steps to run together next, or none to run the next one alone. Two or more are
   * dispatched only if none waits for an open step and none conflict; the first open step leads
   * them when it waits for nobody, and always does when its label is its own.
   */
  method ParallelGroup(contexts: seq<Context>, group: seq<string>, solo: set<string>, notes: bool, maxParallel: int)
      returns (r: seq<nat>)
    ensures r == DispatchedGroup(contexts, group, solo, notes, maxParallel) && |r| <= Max(1, maxParallel)
    ensures |r| >= 2 ==> !notes && contexts != [] && MayRunTogether(contexts, r) && contexts[0].name !in solo
    ensures |r| >= 2 ==> (r[0] == 0 <==> Deps(contexts, 0) == [])
    ensures |r| >= 2 && FirstIsUnique(contexts) ==> r[0] == 0
  {
    hide Constrained, Flatten, SoundGroups, MayRunTogether, Deps, FirstIsUnique, Allowed;
    if notes || |contexts| < 2 || contexts[0].name in solo {
      return [];
    }
    var suggested := Allowed(group, solo);
    var names, allowed := ConstrainGroups([suggested], contexts);
    if allowed == [] || contexts[0].name !in names[0] {
      return [];
    }
    r := allowed[0][..Min(|allowed[0]|, Max(1, maxParallel))];
    if |r| >= 2 {
      Dispatched(contexts, suggested, |r|);
    }
  }

  lemma PrefixMayRun(contexts: seq<Context>, g: seq<nat>, n: nat)
    requires MayRunTogether(contexts, g) && n <= |g|
    ensures MayRunTogether(contexts, g[..n])
  {
  }

  lemma Dispatched(contexts: seq<Context>, suggested: seq<string>, n: nat)
    requires contexts != [] && Constrained(contexts, [suggested]) != []
    requires 2 <= n <= |Constrained(contexts, [suggested])[0]|
    requires contexts[0].name in LabelsOf(contexts, Constrained(contexts, [suggested])[0])
    ensures var r := Constrained(contexts, [suggested])[0][..n];
      && MayRunTogether(contexts, r)
      && (r[0] == 0 <==> Deps(contexts, 0) == [])
      && (FirstIsUnique(contexts) ==> r[0] == 0)
  {
    hide Constrained, Current, Deps, FirstIsUnique, AnyDeclared, Exclusive;
    var g := Constrained(contexts, [suggested])[0];
    OneSuggestion(contexts, suggested);
    FirstGroupMayRun(contexts, suggested);
    var i :| 0 <= i < |g| && LabelsOf(contexts, g)[i] == contexts[0].name;
    FirstStepLeads(contexts, suggested, g, g[i]);
    PrefixMayRun(contexts, g, n);
  }

  /** With nothing declared a suggested group stays whole, in plan order. */
  lemma {:induction false} AdviceStands(contexts: seq<Context>, indices: seq<nat>, n: nat, placed: set<nat>)
    requires n <= |indices| && Within(contexts, indices) && !AnyDeclared(contexts)
    requires forall k :: 0 <= k < |contexts| ==> contexts[k].dependsOn == []
    ensures Current(contexts, indices, n, placed) == indices[..n] && Held(contexts, indices, n, placed) == []
  {
    if n > 0 {
      AdviceStands(contexts, indices, n - 1, placed);
      assert contexts[indices[n - 1]].dependsOn == [];
      assert indices[..n] == indices[..n - 1] + [indices[n - 1]];
    }
  }

  function Bare(name: string): Context {
    Context(name, None, [], [], [])
  }

  /** Two steps called X; the first of them waits for Y. */
  function Namesakes(): (r: seq<Context>)
    ensures |r| == 4
  {
    [Context("X", None, ["Y"], [], []), Bare("X"), Bare("Y"), Bare("Z")]
  }

  lemma NamesakeDeps()
    ensures Deps(Namesakes(), 0) == [2]
    ensures Deps(Namesakes(), 1) == [] && Deps(Namesakes(), 3) == []
  {
    var contexts := Namesakes();
    assert "X"[0] == 'X' && "Y"[0] == 'Y' && "Y"[1..] == "";
    assert !Contains("", "X");
    assert !Contains("Y", "X");
    assert FirstNamed(contexts, 0, [], "Y", true, 3).None?;
    assert FirstNamed(contexts, 0, [], "Y", true, 0).None?;
    assert FirstNamed(contexts, 0, [], "Y", false, 2) == Some(2);
    assert FirstNamed(contexts, 0, [], "Y", false, 0) == Some(2);
    assert DependsOn(contexts, 0, 0) == [];
  }

  lemma NamesakesTaken()
    ensures Taken(Namesakes(), ["X", "X", "Z"], 3, {}) == {0, 1, 3}
  {
  }

  lemma NamesakeIndices()
    ensures Indices(Namesakes(), ["X", "X", "Z"], {}) == [0, 1, 3]
  {
    NamesakesTaken();
    hide Taken, Namesakes;
    assert Ascending({0, 1, 3}, 2) == [0, 1];
    assert {0, 1, 3} - {} == {0, 1, 3};
  }

  lemma NamesakesBlocked()
    ensures Blocked(Namesakes(), 0, {}) && !Blocked(Namesakes(), 1, {}) && !Blocked(Namesakes(), 3, {})
    ensures !Clashes(Namesakes(), 1, []) && !Clashes(Namesakes(), 3, [1])
  {
    NamesakeDeps();
    hide Deps;
    var none: set<nat> := {};
    assert Deps(Namesakes(), 0)[0] !in none;
    assert !AnyDeclared(Namesakes());
  }

  lemma NamesakesCurrent()
    ensures var indices := Indices(Namesakes(), ["X", "X", "Z"], {});
      Current(Namesakes(), indices, |indices|, {}) == [1, 3]
  {
    var contexts, indices: seq<nat>, none: set<nat> := Namesakes(), [0, 1, 3], {};
    NamesakeIndices();
    NamesakesBlocked();
    hide Indices, Namesakes, Blocked, Clashes;
    assert Current(contexts, indices, 1, none) == [];
    assert Current(contexts, indices, 2, none) == [1];
  }

  lemma AllAllowed(a: string, b: string, c: string)
    ensures Allowed([a, b, c], {}) == [a, b, c]
  {
    assert [a, b, c][1..] == [b, c] && [b, c][1..] == [c] && [c][1..] == [];
    assert Allowed([c], {}) == [c];
  }

  /**
   * The first open step waits for Y, yet the group dispatched under its label holds only its
   * namesake: labels alone do not tell the two apart.
   */
  lemma NamesakeGoesFirst(maxParallel: int)
    requires maxParallel >= 2
    ensures DispatchedGroup(Namesakes(), ["X", "X", "Z"], {}, false, maxParallel) == [1, 3]
    ensures Deps(Namesakes(), 0) == [2]
  {
    var contexts, group := Namesakes(), ["X", "X", "Z"];
    NamesakeDeps();
    AllAllowed("X", "X", "Z");
    NamesakesCurrent();
    hide Deps, Indices, Current, Constrained, Allowed;
    OneSuggestion(contexts, group);
    var r: seq<nat> := [1, 3];
    assert Constrained(contexts, [group])[0] == r && r[..2] == r;
    assert LabelsOf(contexts, r)[0] == contexts[0].name;
  }
}
