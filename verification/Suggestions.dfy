/** When a suggested grouping of steps comes back as it was given. */
module Suggestions {
  import opened Common
  import opened Grouping

  /** No step declares what it depends on or owns. */
  ghost predicate NothingDeclared(contexts: seq<Context>) {
    !AnyDeclared(contexts) && forall k :: 0 <= k < |contexts| ==> contexts[k].dependsOn == []
  }

  ghost predicate DistinctNames(contexts: seq<Context>) {
    forall j, k :: 0 <= j < k < |contexts| ==> contexts[j].name != contexts[k].name
  }

  ghost predicate Opens(contexts: seq<Context>, name: string) {
    exists k :: 0 <= k < |contexts| && contexts[k].name == name
  }

  ghost predicate Listed(groups: seq<seq<string>>, name: string) {
    exists a, i :: 0 <= a < |groups| && 0 <= i < |groups[a]| && groups[a][i] == name
  }

  ghost predicate ListedOnce(groups: seq<seq<string>>) {
    forall a, i, b, j ::
      0 <= a < |groups| && 0 <= i < |groups[a]| && 0 <= b < |groups| && 0 <= j < |groups[b]| ==>
      groups[a][i] == groups[b][j] ==> a == b && i == j
  }

  ghost predicate InPlanOrder(contexts: seq<Context>, group: seq<string>) {
    forall i, j, k, l ::
      0 <= i < j < |group| && 0 <= k < |contexts| && 0 <= l < |contexts| ==>
      contexts[k].name == group[i] && contexts[l].name == group[j] ==> k < l
  }

  /** Every open step once, nothing else, no empty group, and each group in plan order. */
  ghost predicate WellGrouped(contexts: seq<Context>, groups: seq<seq<string>>) {
    && (forall a :: 0 <= a < |groups| ==> groups[a] != [] && InPlanOrder(contexts, groups[a]))
    && (forall a, i :: 0 <= a < |groups| && 0 <= i < |groups[a]| ==> Opens(contexts, groups[a][i]))
    && (forall k :: 0 <= k < |contexts| ==> Listed(groups, contexts[k].name)) && ListedOnce(groups)
  }

  // -- positions of labels ---------------------------------------------------------------------

  function Position(contexts: seq<Context>, name: string): (k: nat)
    ensures Opens(contexts, name) ==> k < |contexts| && contexts[k].name == name
  {
    var k := IndexOfLabel(contexts, name, {}, 0);
    if k.Some? then k.value else 0
  }

  lemma PositionIs(contexts: seq<Context>, k: nat)
    requires DistinctNames(contexts) && k < |contexts|
    ensures Position(contexts, contexts[k].name) == k
  {
  }

  function Positions(contexts: seq<Context>, group: seq<string>): (r: seq<nat>)
    ensures |r| == |group| && forall i :: 0 <= i < |r| ==> r[i] == Position(contexts, group[i])
  {
    seq(|group|, i requires 0 <= i < |group| => Position(contexts, group[i]))
  }

  /** An unused open label takes its step. */
  lemma {:induction false} TakesPosition(contexts: seq<Context>, name: string, used: set<nat>)
    requires DistinctNames(contexts) && Opens(contexts, name) && Position(contexts, name) !in used
    ensures IndexOfLabel(contexts, name, used, 0) == Some(Position(contexts, name))
  {
    var k := IndexOfLabel(contexts, name, used, 0);
    if k.Some? {
      PositionIs(contexts, k.value);
    }
  }

  /** A group of unused open labels, each once. */
  ghost predicate Unused(contexts: seq<Context>, group: seq<string>, used: set<nat>) {
    && Distinct(group)
    && forall i :: 0 <= i < |group| ==> Opens(contexts, group[i]) && Position(contexts, group[i]) !in used
  }

  lemma NothingIn()
    ensures AsSet([]) == {}
  {
  }

  lemma OneMore(s: seq<nat>, n: nat)
    requires 0 < n <= |s|
    ensures AsSet(s[..n]) == AsSet(s[..n - 1]) + {s[n - 1]}
  {
    assert s[..n] == s[..n - 1] + [s[n - 1]];
  }

  lemma {:induction false} TakesPositions(contexts: seq<Context>, group: seq<string>, n: nat, used: set<nat>)
    requires DistinctNames(contexts) && n <= |group| && Unused(contexts, group, used)
    ensures Taken(contexts, group, n, used) == used + AsSet(Positions(contexts, group)[..n])
  {
    hide IndexOfLabel, Opens, DistinctNames, Position, AsSet;
    var p := Positions(contexts, group);
    if n > 0 {
      TakesPositions(contexts, group, n - 1, used);
      NotYetTaken(contexts, group, n - 1, used);
      TakesPosition(contexts, group[n - 1], used + AsSet(p[..n - 1]));
      OneMore(p, n);
    } else {
      NothingIn();
      assert p[..0] == [];
    }
  }

  lemma NotYetTaken(contexts: seq<Context>, group: seq<string>, n: nat, used: set<nat>)
    requires n < |group| && Unused(contexts, group, used)
    ensures Position(contexts, group[n]) !in used + AsSet(Positions(contexts, group)[..n])
  {
    hide IndexOfLabel, Opens;
    var p := Positions(contexts, group);
    forall i | 0 <= i < n ensures p[i] != p[n] {
      DifferentPositions(contexts, group[i], group[n]);
    }
  }

  lemma DifferentPositions(contexts: seq<Context>, a: string, b: string)
    requires Opens(contexts, a) && Opens(contexts, b) && a != b
    ensures Position(contexts, a) != Position(contexts, b)
  {
  }

  lemma {:induction false} SortedOnce(a: seq<nat>, b: seq<nat>)
    requires Climbs(a) && Climbs(b) && forall x: nat :: x in a <==> x in b
    ensures a == b
    decreases |a|
  {
    assert |a| > 0 ==> a[0] in b;
    assert |b| > 0 ==> b[0] in a;
    if a != [] {
      var m, n := |a| - 1, |b| - 1;
      assert a[m] in b && b[n] in a;
      assert a[m] == b[n];
      forall x: nat ensures x in a[..m] <==> x in b[..n] {
        assert x in a <==> x in a[..m] || x == a[m];
        assert x in b <==> x in b[..n] || x == b[n];
        assert a[m] !in a[..m] && b[n] !in b[..n];
      }
      SortedOnce(a[..m], b[..n]);
    }
  }

  lemma GroupClimbs(contexts: seq<Context>, group: seq<string>)
    requires InPlanOrder(contexts, group) && forall i :: 0 <= i < |group| ==> Opens(contexts, group[i])
    ensures Climbs(Positions(contexts, group))
  {
    hide IndexOfLabel;
  }

  /** A well-formed group comes back as its steps, whole. */
  lemma GroupIsTaken(contexts: seq<Context>, group: seq<string>, used: set<nat>)
    requires DistinctNames(contexts) && Unused(contexts, group, used) && InPlanOrder(contexts, group)
    ensures Indices(contexts, group, used) == Positions(contexts, group)
  {
    hide DistinctNames, InPlanOrder, Taken, Ascending, Opens, Position;
    var p := Positions(contexts, group);
    TakesPositions(contexts, group, |group|, used);
    GroupClimbs(contexts, group);
    assert p[..|group|] == p;
    WithinPositions(contexts, group);
    SortedOnce(Indices(contexts, group, used), p);
  }

  lemma WithinPositions(contexts: seq<Context>, group: seq<string>)
    requires forall i :: 0 <= i < |group| ==> Opens(contexts, group[i])
    ensures Within(contexts, Positions(contexts, group))
  {
  }

  // -- as given ------------------------------------------------------------------------------------

  function AllPositions(contexts: seq<Context>, groups: seq<seq<string>>, n: nat): (r: seq<seq<nat>>)
    requires n <= |groups|
    ensures |r| == n && forall a :: 0 <= a < n ==> r[a] == Positions(contexts, groups[a])
  {
    seq(n, a requires 0 <= a < n => Positions(contexts, groups[a]))
  }

  lemma {:induction false} FlattenHas(groups: seq<seq<nat>>, x: nat)
    ensures x in Flatten(groups) <==> exists a, i :: 0 <= a < |groups| && 0 <= i < |groups[a]| && groups[a][i] == x
  {
    if groups != [] {
      var n := |groups| - 1;
      FlattenHas(groups[..n], x);
      if a, i :| 0 <= a < n && 0 <= i < |groups[a]| && groups[a][i] == x {
        assert groups[..n][a][i] == x;
      }
      if a, i :| 0 <= a < n && 0 <= i < |groups[..n][a]| && groups[..n][a][i] == x {
        assert groups[a][i] == x;
      }
    }
  }

  lemma {:induction false} FlattenLacks(groups: seq<seq<nat>>, x: nat)
    requires forall a, i :: 0 <= a < |groups| && 0 <= i < |groups[a]| ==> groups[a][i] != x
    ensures x !in Flatten(groups)
  {
    hide Flatten;
    FlattenHas(groups, x);
  }

  /** What the groups before are made of leaves the labels of the next one unused. */
  lemma NextIsUnused(contexts: seq<Context>, groups: seq<seq<string>>, n: nat)
    requires WellGrouped(contexts, groups) && n < |groups|
    ensures Unused(contexts, groups[n], AsSet(Flatten(AllPositions(contexts, groups, n))))
  {
    hide Position, InPlanOrder, Opens, Flatten;
    var before := AllPositions(contexts, groups, n);
    forall i | 0 <= i < |groups[n]| ensures Position(contexts, groups[n][i]) !in Flatten(before) {
      forall a, j | 0 <= a < n && 0 <= j < |groups[a]| ensures before[a][j] != Position(contexts, groups[n][i]) {
        DifferentPositions(contexts, groups[a][j], groups[n][i]);
      }
      FlattenLacks(before, Position(contexts, groups[n][i]));
    }
  }

  lemma {:induction false} GroupsAreTaken(contexts: seq<Context>, groups: seq<seq<string>>, n: nat)
    requires NothingDeclared(contexts) && DistinctNames(contexts) && WellGrouped(contexts, groups) && n <= |groups|
    ensures Grouped(contexts, groups, n) == AllPositions(contexts, groups, n)
  {
    hide NothingDeclared, DistinctNames, WellGrouped, Unused, Indices, Positions, Flatten, Within, Placed;
    if n > 0 {
      GroupsAreTaken(contexts, groups, n - 1);
      var before := AllPositions(contexts, groups, n - 1);
      NextIsUnused(contexts, groups, n - 1);
      GroupFacts(contexts, groups, n - 1);
      GroupIsTaken(contexts, groups[n - 1], AsSet(Flatten(before)));
      PlacedWhole(contexts, Positions(contexts, groups[n - 1]), before);
      assert AllPositions(contexts, groups, n) == before + [Positions(contexts, groups[n - 1])];
    }
  }

  lemma GroupFacts(contexts: seq<Context>, groups: seq<seq<string>>, n: nat)
    requires WellGrouped(contexts, groups) && n < |groups|
    ensures InPlanOrder(contexts, groups[n]) && groups[n] != [] && Positions(contexts, groups[n]) != []
    ensures Within(contexts, Positions(contexts, groups[n]))
  {
    hide InPlanOrder, Listed, ListedOnce;
    WithinPositions(contexts, groups[n]);
  }

  lemma PlacedWhole(contexts: seq<Context>, indices: seq<nat>, result: seq<seq<nat>>)
    requires NothingDeclared(contexts) && Within(contexts, indices) && indices != []
    ensures Placed(contexts, indices, result) == result + [indices]
  {
    hide Flatten, Current, Held;
    AdviceStands(contexts, indices, |indices|, AsSet(Flatten(result)));
    assert indices[..|indices|] == indices;
    assert Alone([]) == [];
  }

  lemma WellGroupedComesBack(contexts: seq<Context>, groups: seq<seq<string>>)
    requires NothingDeclared(contexts) && DistinctNames(contexts) && WellGrouped(contexts, groups)
    ensures Labels(contexts, Constrained(contexts, groups)) == groups
  {
    hide NothingDeclared, Grouped, Flatten, Position, InPlanOrder, ListedOnce;
    var result := AllPositions(contexts, groups, |groups|);
    GroupsAreTaken(contexts, groups, |groups|);
    forall k: nat | k < |contexts| ensures k in Flatten(result) {
      assert Listed(groups, contexts[k].name);
      var a, i :| 0 <= a < |groups| && 0 <= i < |groups[a]| && groups[a][i] == contexts[k].name;
      PositionIs(contexts, k);
      assert result[a][i] == k;
      FlattenHas(result, k);
    }
    NoneMissing(AsSet(Flatten(result)), |contexts|);
    assert Alone([]) == [] && Constrained(contexts, groups) == result;
    forall a | 0 <= a < |groups| ensures LabelsOf(contexts, result[a]) == groups[a] {
      forall i | 0 <= i < |groups[a]| ensures LabelsOf(contexts, result[a])[i] == groups[a][i] {
        assert Opens(contexts, groups[a][i]);
      }
    }
  }

  lemma {:induction false} NoneMissing(placed: set<nat>, n: nat)
    requires forall k: nat :: k < n ==> k in placed
    ensures Missing(placed, n) == []
  {
    if n > 0 {
      NoneMissing(placed, n - 1);
    }
  }

  // -- and only then -------------------------------------------------------------------------------------

  ghost predicate AllClimb(groups: seq<seq<nat>>) {
    forall a :: 0 <= a < |groups| ==> Climbs(groups[a])
  }

  lemma PlacedClimbs(contexts: seq<Context>, indices: seq<nat>, result: seq<seq<nat>>)
    requires Within(contexts, indices) && Climbs(indices) && AllClimb(result)
    ensures AllClimb(Placed(contexts, indices, result))
  {
    hide Flatten, Current, Held;
    CurrentAscends(contexts, indices, |indices|, AsSet(Flatten(result)));
  }

  lemma {:induction false} GroupedClimbs(contexts: seq<Context>, groups: seq<seq<string>>, n: nat)
    requires n <= |groups|
    ensures AllClimb(Grouped(contexts, groups, n))
  {
    hide AllClimb, Placed, Flatten, Taken, Ascending;
    if n > 0 {
      GroupedClimbs(contexts, groups, n - 1);
      var before := Grouped(contexts, groups, n - 1);
      PlacedClimbs(contexts, Indices(contexts, groups[n - 1], AsSet(Flatten(before))), before);
    } else {
      NothingClimbs();
    }
  }

  lemma NothingClimbs()
    ensures AllClimb([])
  {
  }

  lemma ConstrainedClimbs(contexts: seq<Context>, groups: seq<seq<string>>)
    ensures AllClimb(Constrained(contexts, groups))
  {
    hide Grouped, Flatten;
    GroupedClimbs(contexts, groups, |groups|);
  }

  lemma {:induction false} FlattenOnce(groups: seq<seq<nat>>, a: nat, i: nat, b: nat, j: nat)
    requires Distinct(Flatten(groups)) && a < |groups| && i < |groups[a]| && b < |groups| && j < |groups[b]|
    requires groups[a][i] == groups[b][j]
    ensures a == b && i == j
  {
    var n := |groups| - 1;
    var front, last := Flatten(groups[..n]), groups[n];
    var whole := front + last;
    assert Flatten(groups) == whole;
    assert Distinct(front) by {
      forall x, y | 0 <= x < y < |front| ensures front[x] != front[y] {
        assert whole[x] == front[x] && whole[y] == front[y];
      }
    }
    assert whole[|front|..] == last;
    FlattenHas(groups[..n], groups[a][i]);
    if a < n {
      assert groups[..n][a][i] == groups[a][i];
      LaterElsewhere(front, last, groups[a][i]);
    }
    if b < n {
      assert groups[..n][b][j] == groups[b][j];
      LaterElsewhere(front, last, groups[b][j]);
    }
    if a < n && b < n {
      FlattenOnce(groups[..n], a, i, b, j);
    } else {
      assert whole[|front| + i] == last[i] && whole[|front| + j] == last[j];
    }
  }

  lemma LaterElsewhere(front: seq<nat>, last: seq<nat>, x: nat)
    requires Distinct(front + last) && x in front
    ensures x !in last
  {
    var whole := front + last;
    var k :| 0 <= k < |front| && front[k] == x;
    forall l | 0 <= l < |last| ensures last[l] != x {
      assert whole[k] == x && whole[|front| + l] == last[l];
    }
  }

  /** A list of groups that names steps of the plan, by what the steps are. */
  lemma {:induction false} NamedGroups(contexts: seq<Context>, result: seq<seq<nat>>)
    requires DistinctNames(contexts) && SoundGroups(contexts, result) && AllClimb(result)
    requires forall k: nat :: k in Flatten(result) <==> k < |contexts|
    ensures WellGrouped(contexts, Labels(contexts, result))
  {
    hide Flatten, Compatible;
    var groups := Labels(contexts, result);
    forall a, i | 0 <= a < |result| && 0 <= i < |result[a]| ensures result[a][i] < |contexts| {
      FlattenHas(result, result[a][i]);
    }
    forall a | 0 <= a < |groups| ensures groups[a] != [] && InPlanOrder(contexts, groups[a]) {
      LabelsClimb(contexts, result[a]);
    }
    forall a, i | 0 <= a < |groups| && 0 <= i < |groups[a]| ensures Opens(contexts, groups[a][i]) {
      assert contexts[result[a][i]].name == groups[a][i];
    }
    forall k | 0 <= k < |contexts| ensures Listed(groups, contexts[k].name) {
      FlattenHas(result, k);
      var a, i :| 0 <= a < |result| && 0 <= i < |result[a]| && result[a][i] == k;
      assert groups[a][i] == contexts[k].name;
    }
    forall a, i, b, j | 0 <= a < |groups| && 0 <= i < |groups[a]| && 0 <= b < |groups| && 0 <= j < |groups[b]|
      && groups[a][i] == groups[b][j] ensures a == b && i == j
    {
      assert contexts[result[a][i]].name == contexts[result[b][j]].name;
      FlattenOnce(result, a, i, b, j);
    }
  }

  lemma LabelsClimb(contexts: seq<Context>, group: seq<nat>)
    requires DistinctNames(contexts) && Climbs(group) && forall i :: 0 <= i < |group| ==> group[i] < |contexts|
    ensures InPlanOrder(contexts, LabelsOf(contexts, group))
  {
  }

  /**
   * With nothing declared and labels of their own, a suggestion comes back as it was given exactly when it
   * names every open step once and nothing else, in groups that are not empty and read in plan order.
   */
  lemma ReturnedAsGiven(contexts: seq<Context>, groups: seq<seq<string>>)
    requires NothingDeclared(contexts) && DistinctNames(contexts)
    ensures Labels(contexts, Constrained(contexts, groups)) == groups <==> WellGrouped(contexts, groups)
  {
    hide NothingDeclared, DistinctNames, WellGrouped, Constrained, Flatten, SoundGroups, AllClimb;
    if WellGrouped(contexts, groups) {
      WellGroupedComesBack(contexts, groups);
    }
    ConstrainedIsSound(contexts, groups);
    ConstrainedClimbs(contexts, groups);
    NamedGroups(contexts, Constrained(contexts, groups));
  }

  lemma BothAreTaken()
    ensures Indices([Bare("A"), Bare("B")], ["B", "A"], {}) == [0, 1]
  {
    hide IndexOfLabel, Taken, Ascending;
    var contexts, group := [Bare("A"), Bare("B")], ["B", "A"];
    assert "A"[0] != "B"[0];
    PositionIs(contexts, 0);
    PositionIs(contexts, 1);
    assert contexts[0].name == "A" && contexts[1].name == "B";
    TakesPositions(contexts, group, 2, {});
    assert Positions(contexts, group)[..2] == [1, 0];
    SortedOnce(Indices(contexts, group, {}), [0, 1]);
  }

  lemma OneGroupFlattened(group: seq<nat>)
    ensures Flatten([group]) == group && Flatten([]) == []
  {
    assert [group][..0] == [];
  }

  /** Two open steps with nothing declared, suggested the other way round, come back in plan order. */
  lemma AdviceIsReordered()
    ensures Labels([Bare("A"), Bare("B")], Constrained([Bare("A"), Bare("B")], [["B", "A"]])) == [["A", "B"]]
  {
    hide Flatten, Placed, Indices, Missing;
    var contexts, group := [Bare("A"), Bare("B")], ["B", "A"];
    BothAreTaken();
    OneGroupFlattened([0, 1]);
    NothingIn();
    PlacedWhole(contexts, [0, 1], []);
    assert Grouped(contexts, [group], 0) == [] && Grouped(contexts, [group], 1) == [[0, 1]];
    NoneMissing(AsSet([0, 1]), 2);
    assert Alone([]) == [] && Constrained(contexts, [group]) == [[0, 1]];
    assert LabelsOf(contexts, [0, 1]) == ["A", "B"];
  }
}
