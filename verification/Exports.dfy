/**
 * Putting a task graph into one line: the greedy dependency order, and the check
 * that a checkbox list builds the same tasks in an order their dependencies allow.
 */
module Exports {
  import opened Common
  import opened Graph
  import opened Plan

  function TaskIds(tasks: seq<Task>): (ids: seq<Id>)
    ensures |ids| == |tasks| && forall k :: 0 <= k < |tasks| ==> ids[k] == tasks[k].id
  {
    seq(|tasks|, k requires 0 <= k < |tasks| => tasks[k].id)
  }

  lemma {:induction false} TaskIdsAreDistinct(tasks: seq<Task>)
    requires DistinctTasks(tasks)
    ensures Distinct(TaskIds(tasks))
    ensures forall v :: v in TaskIds(tasks) <==> v in DepGraph(tasks)
  {
    if tasks != [] {
      var n := |tasks| - 1;
      TaskIdsAreDistinct(tasks[..n]);
      assert TaskIds(tasks) == TaskIds(tasks[..n]) + [tasks[n].id];
    }
  }

  // -- what a build order is -------------------------------------------------------

  /** Every task once, each after all of its dependencies. */
  ghost predicate BuildOrder(g: Graph, order: seq<Id>) {
    FinishOrder(g, order) && forall v :: v in g ==> v in order
  }

  /** order has its first difference from other at a task the plan lists earlier. */
  ghost predicate ReadsEarlier(ids: seq<Id>, order: seq<Id>, other: seq<Id>) {
    exists k :: FirstDifference(ids, order, other, k)
  }

  ghost predicate FirstDifference(ids: seq<Id>, order: seq<Id>, other: seq<Id>, k: int) {
    && 0 <= k < |order| && k < |other|
    && order[..k] == other[..k]
    && order[k] in ids && other[k] in ids
    && IndexOf(ids, order[k]) < IndexOf(ids, other[k])
  }

  /** All that v depends on is done. */
  predicate Unheld(g: Graph, done: seq<Id>, v: Id)
    requires v in g
  {
    forall w :: w in g[v] ==> w in done
  }

  /** v is the first task in plan order that could come after done. */
  ghost predicate NextInLine(g: Graph, ids: seq<Id>, done: seq<Id>, v: Id)
    requires forall u :: u in ids ==> u in g
  {
    && v in ids && v !in done && Unheld(g, done, v)
    && forall j :: 0 <= j < IndexOf(ids, v) ==> ids[j] in done || !Unheld(g, done, ids[j])
  }

  ghost predicate Greedy(g: Graph, ids: seq<Id>, done: seq<Id>)
    requires forall u :: u in ids ==> u in g
  {
    forall i :: 0 <= i < |done| ==> NextInLine(g, ids, done[..i], done[i])
  }

  lemma GreedyGrows(g: Graph, ids: seq<Id>, done: seq<Id>, v: Id)
    requires forall u :: u in ids ==> u in g
    requires Greedy(g, ids, done) && FinishOrder(g, done) && NextInLine(g, ids, done, v)
    ensures Greedy(g, ids, done + [v]) && FinishOrder(g, done + [v])
  {
    var longer := done + [v];
    forall i | 0 <= i < |longer|
      ensures NextInLine(g, ids, longer[..i], longer[i])
      ensures longer[i] in g && forall w :: w in g[longer[i]] ==> w in longer[..i]
    {
      assert longer[..i] == done[..i];
      if i == |done| {
        assert done[..i] == done;
      }
    }
  }

  lemma Placed(g: Graph, s: seq<Id>, k: nat)
    requires FinishOrder(g, s) && k < |s|
    ensures s[k] in g && s[k] !in s[..k] && Unheld(g, s[..k], s[k])
  {
  }

  lemma GreedyWins(g: Graph, ids: seq<Id>, s: seq<Id>, other: seq<Id>, k: nat)
    requires forall u :: u in ids <==> u in g
    requires k < |s| && k < |other| && s[..k] == other[..k] && s[k] != other[k]
    requires NextInLine(g, ids, s[..k], s[k])
    requires other[k] in g && other[k] !in s[..k] && Unheld(g, s[..k], other[k])
    ensures FirstDifference(ids, s, other, k)
  {
  }

  /** Always taking the first task in line gives the order that reads most like the plan. */
  lemma {:induction false} GreedyIsLeast(g: Graph, ids: seq<Id>, s: seq<Id>, other: seq<Id>, k: nat)
    requires forall u :: u in ids <==> u in g
    requires Greedy(g, ids, s) && BuildOrder(g, s) && BuildOrder(g, other)
    requires k <= |s| && k <= |other| && s[..k] == other[..k]
    ensures s == other || ReadsEarlier(ids, s, other)
    decreases |s| - k
  {
    hide FinishOrder, NextInLine, Unheld, IndexOf;
    if k < |s| {
      Placed(g, s, k);
    }
    if k < |other| {
      Placed(g, other, k);
    }
    if k == |s| || k == |other| {
      assert s[..k] == other[..k];
    } else if s[k] == other[k] {
      assert s[..k + 1] == s[..k] + [s[k]] == other[..k] + [other[k]] == other[..k + 1];
      GreedyIsLeast(g, ids, s, other, k + 1);
    } else {
      assert NextInLine(g, ids, s[..k], s[k]);
      GreedyWins(g, ids, s, other, k);
    }
  }

  /** However tasks are put one after the other, each after its dependencies, v is never among them. */
  ghost predicate NeverComes(g: Graph, v: Id) {
    forall s :: FinishOrder(g, s) ==> v !in s
  }

  /** Once nothing that remains can go next, no order gets beyond what is done. */
  lemma StuckMeansNoOrder(g: Graph, done: seq<Id>, order: seq<Id>, i: nat)
    requires forall v :: v in g && v !in done ==> !Unheld(g, done, v)
    requires FinishOrder(g, order)
    requires i <= |order|
    ensures forall k :: 0 <= k < i ==> order[k] in done
  {
    if i > 0 {
      StuckMeansNoOrder(g, done, order, i - 1);
      Placed(g, order, i - 1);
      assert Unheld(g, done, order[i - 1]);
    }
  }

  /** A closed acyclic graph always has a task that can go next. */
  lemma SomethingIsUnheld(g: Graph, done: seq<Id>, left: set<Id>) returns (v: Id)
    requires Acyclic(g) && Closed(g) && left != {}
    requires forall u :: u in left <==> u in g && u !in done
    ensures v in left && Unheld(g, done, v)
  {
    v := AcyclicHasSink(g, left);
    forall w | w in g[v] ensures w in done {
      assert !(w in left) || !Edge(g, v, w);
    }
  }

  // -- dependency_order ---------------------------------------------------------------

  /** The tasks not yet placed, still in plan order. */
  ghost predicate StillWaiting(ids: seq<Id>, done: seq<Id>, remaining: seq<Id>) {
    && (forall v :: v in remaining <==> v in ids && v !in done)
    && forall a, b :: 0 <= a < b < |remaining| ==> IndexOf(ids, remaining[a]) < IndexOf(ids, remaining[b])
  }

  lemma RemainingAfter(ids: seq<Id>, done: seq<Id>, remaining: seq<Id>, k: nat, rest: seq<Id>)
    requires StillWaiting(ids, done, remaining) && k < |remaining|
    requires rest == remaining[..k] + remaining[k + 1..]
    ensures StillWaiting(ids, done + [remaining[k]], rest)
    ensures multiset(done + [remaining[k]]) + multiset(rest) == multiset(done) + multiset(remaining)
  {
    var v := remaining[k];
    assert remaining == remaining[..k] + [v] + remaining[k + 1..];
    forall a | 0 <= a < |rest|
      ensures rest[a] == remaining[if a < k then a else a + 1]
    {
    }
    forall u | u in remaining && u != v ensures u in rest {
      var a :| 0 <= a < |remaining| && remaining[a] == u;
      assert rest[if a < k then a else a - 1] == u;
    }
  }

  lemma FirstUnheldIsNext(g: Graph, ids: seq<Id>, done: seq<Id>, remaining: seq<Id>, k: nat)
    requires forall u :: u in ids ==> u in g
    requires Distinct(ids) && StillWaiting(ids, done, remaining) && k < |remaining|
    requires Unheld(g, done, remaining[k])
    requires forall j :: 0 <= j < k ==> !Unheld(g, done, remaining[j])
    ensures NextInLine(g, ids, done, remaining[k])
  {
  }

  /**
   * The task ids in an order a runner may follow one at a time. It exists exactly when the
   * tasks can be ordered at all, always does for a validated tree, and is then the
   * least of all such orders by plan position; otherwise exactly the tasks that no order
   * ever gets to come back, in plan order.
   */
  method DependencyOrder(tasks: seq<Task>) returns (r: Result<seq<Id>, seq<Id>>)
    requires DistinctTasks(tasks)
    ensures r.Ok? ==> BuildOrder(DepGraph(tasks), r.value) && Greedy(DepGraph(tasks), TaskIds(tasks), r.value)
    ensures r.Ok? ==> multiset(r.value) == multiset(TaskIds(tasks))
    ensures r.Ok? ==> forall o :: BuildOrder(DepGraph(tasks), o) ==>
      o == r.value || ReadsEarlier(TaskIds(tasks), r.value, o)
    ensures r.Err? ==> r.error != [] && forall o :: !BuildOrder(DepGraph(tasks), o)
    ensures r.Err? ==> AreStuck(DepGraph(tasks), TaskIds(tasks), r.error)
    ensures Acyclic(DepGraph(tasks)) && Closed(DepGraph(tasks)) ==> r.Ok?
  {
    var g, ids := DepGraph(tasks), TaskIds(tasks);
    TaskIdsAreDistinct(tasks);
    hide DepGraph, TaskIds, Unheld, IndexOf, NextInLine, Acyclic, Closed;
    var done: seq<Id>, remaining := [], ids;
    NothingPlaced(ids);
    while remaining != []
      invariant StillWaiting(ids, done, remaining)
      invariant Greedy(g, ids, done) && FinishOrder(g, done)
      invariant multiset(done) + multiset(remaining) == multiset(ids)
      decreases |remaining|
    {
      hide FinishOrder, Greedy, ReadsEarlier;
      var k := FirstUnheld(g, done, remaining);
      if k == |remaining| {
        Stuck(g, ids, done, remaining);
        StuckExactly(g, ids, done, remaining);
        return Err(remaining);
      }
      FirstUnheldIsNext(g, ids, done, remaining, k);
      GreedyGrows(g, ids, done, remaining[k]);
      RemainingAfter(ids, done, remaining, k, remaining[..k] + remaining[k + 1..]);
      done, remaining := done + [remaining[k]], remaining[..k] + remaining[k + 1..];
    }
    hide Greedy, ReadsEarlier;
    assert BuildOrder(g, done);
    forall o | BuildOrder(g, o) ensures o == done || ReadsEarlier(ids, done, o) {
      GreedyIsLeast(g, ids, done, o, 0);
    }
    r := Ok(done);
  }

  lemma NothingPlaced(ids: seq<Id>)
    requires Distinct(ids)
    ensures StillWaiting(ids, [], ids)
  {
  }

  method FirstUnheld(g: Graph, done: seq<Id>, remaining: seq<Id>) returns (k: nat)
    requires forall v :: v in remaining ==> v in g
    ensures k <= |remaining|
    ensures k < |remaining| ==> Unheld(g, done, remaining[k])
    ensures forall j :: 0 <= j < k ==> !Unheld(g, done, remaining[j])
  {
    k := 0;
    while k < |remaining| && !Unheld(g, done, remaining[k])
      invariant k <= |remaining|
      invariant forall j :: 0 <= j < k ==> !Unheld(g, done, remaining[j])
    {
      k := k + 1;
    }
  }

  /** The tasks that no order gets to, in plan order. */
  ghost predicate AreStuck(g: Graph, ids: seq<Id>, stuck: seq<Id>) {
    && (forall v :: v in stuck <==> v in ids && NeverComes(g, v))
    && forall a, b :: 0 <= a < b < |stuck| ==> stuck[a] in ids && stuck[b] in ids && IndexOf(ids, stuck[a]) < IndexOf(ids, stuck[b])
  }

  lemma StuckExactly(g: Graph, ids: seq<Id>, done: seq<Id>, remaining: seq<Id>)
    requires forall u :: u in ids <==> u in g
    requires StillWaiting(ids, done, remaining) && remaining != [] && FinishOrder(g, done)
    requires forall v :: v in remaining ==> NeverComes(g, v)
    ensures AreStuck(g, ids, remaining) && forall o :: !BuildOrder(g, o)
  {
    hide FinishOrder, IndexOf;
    forall v | v in ids && v !in remaining ensures !NeverComes(g, v) {
      assert v in done;
    }
    assert remaining[0] in remaining && remaining[0] in g;
  }

  lemma Stuck(g: Graph, ids: seq<Id>, done: seq<Id>, remaining: seq<Id>)
    requires forall u :: u in ids <==> u in g
    requires StillWaiting(ids, done, remaining) && remaining != []
    requires forall j :: 0 <= j < |remaining| ==> !Unheld(g, done, remaining[j])
    ensures forall v :: v in remaining ==> NeverComes(g, v)
    ensures !(Acyclic(g) && Closed(g))
  {
    hide FinishOrder, Unheld, IndexOf, Acyclic, Closed;
    var left := set v | v in remaining;
    var first := remaining[0];
    assert first in left && first in g && first !in done;
    forall s | FinishOrder(g, s) ensures forall v :: v in remaining ==> v !in s {
      StuckMeansNoOrder(g, done, s, |s|);
    }
    if Acyclic(g) && Closed(g) {
      var v := SomethingIsUnheld(g, done, left);
    }
  }

  // -- the checkbox list beside a manifest ----------------------------------------------

  datatype OrderProblem = NotOneToOne | TooEarly(line: string, dep: Id)

  /** Of several tasks with one outcome the last one stands for it. */
  function StandsFor(tasks: seq<Task>, line: string): (t: Option<Task>)
    ensures t.Some? ==> t.value in tasks && t.value.outcome == line
    ensures t.None? ==> forall u :: u in tasks ==> u.outcome != line
  {
    if tasks == [] then None
    else if tasks[|tasks| - 1].outcome == line then Some(tasks[|tasks| - 1])
    else
      assert tasks == tasks[..|tasks| - 1] + [tasks[|tasks| - 1]];
      StandsFor(tasks[..|tasks| - 1], line)
  }

  /** Every outcome of the plan is one line, and there are no other lines. */
  ghost predicate OneToOne(tasks: seq<Task>, lines: seq<string>) {
    && Distinct(lines)
    && (forall i :: 0 <= i < |lines| ==> StandsFor(tasks, lines[i]).Some?)
    && (forall k :: 0 <= k < |tasks| ==> tasks[k].outcome in lines)
  }

  /** The task with that id has a line above line i. */
  ghost predicate Above(tasks: seq<Task>, lines: seq<string>, i: nat, d: Id)
    requires i < |lines| && OneToOne(tasks, lines)
  {
    exists j :: 0 <= j < i && StandsFor(tasks, lines[j]).value.id == d
  }

  /** Line i builds only on lines above it. */
  ghost predicate InTime(tasks: seq<Task>, lines: seq<string>, i: nat)
    requires i < |lines| && OneToOne(tasks, lines)
  {
    forall d :: d in StandsFor(tasks, lines[i]).value.deps ==> Above(tasks, lines, i, d)
  }

  /** The first line that comes too early, and the first of its dependencies that is not above it. */
  ghost predicate ComesTooEarly(tasks: seq<Task>, lines: seq<string>, i: nat, n: nat, problem: OrderProblem)
    requires OneToOne(tasks, lines)
  {
    && i < |lines| && (forall j :: 0 <= j < i ==> InTime(tasks, lines, j))
    && var deps := StandsFor(tasks, lines[i]).value.deps;
       && n < |deps| && problem == TooEarly(lines[i], deps[n]) && !Above(tasks, lines, i, deps[n])
       && forall m :: 0 <= m < n ==> Above(tasks, lines, i, deps[m])
  }

  ghost predicate BuildsThePlan(tasks: seq<Task>, lines: seq<string>) {
    OneToOne(tasks, lines) && forall i :: 0 <= i < |lines| ==> InTime(tasks, lines, i)
  }

  // -- sequences that are permutations of one another --------------------------------

  lemma {:induction false} CountsOnce<T>(s: seq<T>, x: T)
    ensures Distinct(s) ==> multiset(s)[x] <= 1
  {
    if s != [] {
      var n := |s| - 1;
      assert s == s[..n] + [s[n]];
      CountsOnce(s[..n], x);
      assert Distinct(s) && x == s[n] ==> x !in s[..n];
    }
  }

  lemma CountsTwice<T>(s: seq<T>, i: nat, j: nat)
    requires i < j < |s| && s[i] == s[j]
    ensures multiset(s)[s[i]] >= 2
  {
    assert s == s[..j] + [s[j]] + s[j + 1..];
    assert s[i] in s[..j];
  }

  /** Beside a repetition-free sequence: same multiset means same elements, each once. */
  lemma SameCounts<T>(a: seq<T>, b: seq<T>)
    requires Distinct(b)
    ensures multiset(a) == multiset(b) <==> Distinct(a) && (forall x :: x in a <==> x in b)
  {
    if multiset(a) == multiset(b) {
      forall x ensures x in a <==> x in b {
        assert x in a <==> x in multiset(a);
        assert x in b <==> x in multiset(b);
      }
      forall i, j | 0 <= i < j < |a| && a[i] == a[j] ensures false {
        CountsTwice(a, i, j);
        CountsOnce(b, a[i]);
      }
    }
    if Distinct(a) && forall x :: x in a <==> x in b {
      forall x ensures multiset(a)[x] == multiset(b)[x] {
        CountsOnce(a, x);
        CountsOnce(b, x);
        assert x in a <==> x in multiset(a);
        assert x in b <==> x in multiset(b);
      }
    }
  }

  // -- _checkbox_order_problem -----------------------------------------------------------

  /** The dictionary over the tasks seen so far, and its keys in the order they came. */
  ghost predicate SoFar(tasks: seq<Task>, byOutcome: map<string, Id>, outcomes: seq<string>) {
    && (forall l :: l in byOutcome <==> StandsFor(tasks, l).Some?)
    && (forall l :: l in byOutcome ==> byOutcome[l] == StandsFor(tasks, l).value.id)
    && Distinct(outcomes) && forall l :: l in outcomes <==> l in byOutcome
  }

  lemma NothingIndexed(tasks: seq<Task>)
    ensures SoFar(tasks[..0], map[], [])
  {
  }

  lemma IndexOne(tasks: seq<Task>, n: nat, byOutcome: map<string, Id>, outcomes: seq<string>)
    requires n < |tasks| && SoFar(tasks[..n], byOutcome, outcomes)
    ensures var t := tasks[n];
      SoFar(tasks[..n + 1], byOutcome[t.outcome := t.id],
            if t.outcome in byOutcome then outcomes else outcomes + [t.outcome])
  {
    assert tasks[..n + 1][..n] == tasks[..n];
    forall l ensures StandsFor(tasks[..n + 1], l) == if l == tasks[n].outcome then Some(tasks[n]) else StandsFor(tasks[..n], l) {
    }
    hide StandsFor;
  }

  lemma {:induction false} AllIndexed(tasks: seq<Task>, byOutcome: map<string, Id>, outcomes: seq<string>)
    requires SoFar(tasks, byOutcome, outcomes)
    ensures (forall l :: l in byOutcome <==> StandsFor(tasks, l).Some?)
    ensures (forall l :: l in byOutcome ==> byOutcome[l] == StandsFor(tasks, l).value.id)
    ensures Distinct(outcomes) && forall l :: l in outcomes <==> l in byOutcome
  {
  }

  /** The ids that stand for the plan's outcomes, in the order the outcomes first appear. */
  method ByOutcome(tasks: seq<Task>) returns (byOutcome: map<string, Id>, ids: seq<Id>)
    requires DistinctTasks(tasks)
    ensures Indexes(tasks, byOutcome, ids)
  {
    hide SoFar;
    byOutcome := map[];
    var outcomes: seq<string> := [];
    NothingIndexed(tasks);
    for n := 0 to |tasks|
      invariant SoFar(tasks[..n], byOutcome, outcomes)
    {
      var t := tasks[n];
      IndexOne(tasks, n, byOutcome, outcomes);
      if t.outcome !in byOutcome {
        outcomes := outcomes + [t.outcome];
      }
      byOutcome := byOutcome[t.outcome := t.id];
    }
    assert tasks[..|tasks|] == tasks;
    AllIndexed(tasks, byOutcome, outcomes);
    ids := seq(|outcomes|, i requires 0 <= i < |outcomes| => byOutcome[outcomes[i]]);
    ValuesOfIndex(tasks, byOutcome, outcomes, ids);
  }

  lemma {:induction false} ValuesOfIndex(tasks: seq<Task>, byOutcome: map<string, Id>, outcomes: seq<string>, ids: seq<Id>)
    requires DistinctTasks(tasks)
    requires forall l :: l in byOutcome <==> StandsFor(tasks, l).Some?
    requires forall l :: l in byOutcome ==> byOutcome[l] == StandsFor(tasks, l).value.id
    requires Distinct(outcomes) && forall l :: l in outcomes <==> l in byOutcome
    requires |ids| == |outcomes| && forall i :: 0 <= i < |outcomes| ==> ids[i] == byOutcome[outcomes[i]]
    ensures Indexes(tasks, byOutcome, ids)
  {
    hide StandsFor;
    forall i, j | 0 <= i < j < |ids| ensures ids[i] != ids[j] {
      StandInsDiffer(tasks, outcomes[i], outcomes[j]);
    }
    forall l | l in byOutcome ensures byOutcome[l] in ids {
      var i :| 0 <= i < |outcomes| && outcomes[i] == l;
      assert ids[i] == byOutcome[l];
    }
    forall v | v in ids ensures exists l :: l in byOutcome && byOutcome[l] == v {
      var i :| 0 <= i < |ids| && ids[i] == v;
      assert outcomes[i] in byOutcome;
    }
  }

  /** Different outcomes have different tasks standing for them. */
  lemma {:induction false} StandInsDiffer(tasks: seq<Task>, l: string, m: string)
    requires DistinctTasks(tasks) && l != m
    requires StandsFor(tasks, l).Some? && StandsFor(tasks, m).Some?
    ensures StandsFor(tasks, l).value.id != StandsFor(tasks, m).value.id
  {
  }

  /** The dictionary the outcomes make, and the ids it holds. */
  ghost predicate Indexes(tasks: seq<Task>, byOutcome: map<string, Id>, ids: seq<Id>) {
    && (forall l :: l in byOutcome <==> StandsFor(tasks, l).Some?)
    && (forall l :: l in byOutcome ==> byOutcome[l] == StandsFor(tasks, l).value.id)
    && Distinct(ids)
    && (forall v :: v in ids ==> exists l :: l in byOutcome && byOutcome[l] == v)
    && (forall l :: l in byOutcome ==> byOutcome[l] in ids)
  }

  ghost predicate LooksUp(byOutcome: map<string, Id>, lines: seq<string>, order: seq<Id>) {
    |order| == |lines| && forall i :: 0 <= i < |lines| ==> lines[i] in byOutcome && order[i] == byOutcome[lines[i]]
  }

  lemma RepeatsTogether(tasks: seq<Task>, lines: seq<string>, byOutcome: map<string, Id>, order: seq<Id>, ids: seq<Id>)
    requires DistinctTasks(tasks) && Indexes(tasks, byOutcome, ids) && LooksUp(byOutcome, lines, order)
    ensures Distinct(lines) <==> Distinct(order)
    ensures forall v :: v in order ==> v in ids
  {
  }

  /** A task's outcome is among the lines exactly when its stand-in is among the ids. */
  lemma LineOfId(tasks: seq<Task>, lines: seq<string>, byOutcome: map<string, Id>, order: seq<Id>, ids: seq<Id>, l: string)
    requires DistinctTasks(tasks) && Indexes(tasks, byOutcome, ids) && LooksUp(byOutcome, lines, order)
    requires l in byOutcome
    ensures l in lines <==> byOutcome[l] in order
  {
  }

  lemma OneToOneByIds(tasks: seq<Task>, lines: seq<string>, byOutcome: map<string, Id>, order: seq<Id>, ids: seq<Id>)
    requires DistinctTasks(tasks) && Indexes(tasks, byOutcome, ids) && LooksUp(byOutcome, lines, order)
    ensures OneToOne(tasks, lines) <==> multiset(order) == multiset(ids)
  {
    hide StandsFor;
    SameCounts(order, ids);
    RepeatsTogether(tasks, lines, byOutcome, order, ids);
    forall l | l in byOutcome ensures l in lines <==> byOutcome[l] in order {
      LineOfId(tasks, lines, byOutcome, order, ids, l);
    }
    forall k | 0 <= k < |tasks| ensures tasks[k].outcome in byOutcome {
      assert tasks[k] in tasks;
    }
    if OneToOne(tasks, lines) {
      forall v | v in ids ensures v in order {
        var l :| l in byOutcome && byOutcome[l] == v;
        var t := StandsFor(tasks, l).value;
        assert t.outcome in lines;
      }
    }
  }

  /** Why a runner that builds the checkbox lines would not build the tasks as planned. */
  method CheckboxOrderProblem(tasks: seq<Task>, lines: seq<string>) returns (problem: Option<OrderProblem>)
    requires DistinctTasks(tasks)
    ensures problem.None? <==> BuildsThePlan(tasks, lines)
    ensures problem == Some(NotOneToOne) <==> !OneToOne(tasks, lines)
    ensures problem.Some? && problem.value.TooEarly? ==>
      OneToOne(tasks, lines) && exists i: nat, n: nat :: ComesTooEarly(tasks, lines, i, n, problem.value)
  {
    hide StandsFor;
    var byOutcome, ids := ByOutcome(tasks);
    if l :| l in lines && l !in byOutcome {
      return Some(NotOneToOne);
    }
    var order := seq(|lines|, i requires 0 <= i < |lines| => byOutcome[lines[i]]);
    OneToOneByIds(tasks, lines, byOutcome, order, ids);
    if multiset(order) != multiset(ids) {
      return Some(NotOneToOne);
    }
    problem := EarlyDependency(tasks, lines, order);
  }

  lemma {:induction false} TooSoon(tasks: seq<Task>, lines: seq<string>, order: seq<Id>, i: nat, n: nat)
    requires OneToOne(tasks, lines) && i < |lines| && n < |StandsFor(tasks, lines[i]).value.deps|
    requires |order| == |lines| && forall j :: 0 <= j < i ==> order[j] == StandsFor(tasks, lines[j]).value.id
    requires StandsFor(tasks, lines[i]).value.deps[n] !in order[..i]
    requires forall m :: 0 <= m < n ==> StandsFor(tasks, lines[i]).value.deps[m] in order[..i]
    ensures !InTime(tasks, lines, i)
    ensures forall m :: 0 <= m < n ==> Above(tasks, lines, i, StandsFor(tasks, lines[i]).value.deps[m])
    ensures !Above(tasks, lines, i, StandsFor(tasks, lines[i]).value.deps[n])
  {
    hide StandsFor;
    forall m | 0 <= m < n ensures Above(tasks, lines, i, StandsFor(tasks, lines[i]).value.deps[m]) {
      var j :| 0 <= j < i && order[..i][j] == StandsFor(tasks, lines[i]).value.deps[m];
    }
    assert StandsFor(tasks, lines[i]).value.deps[n] in StandsFor(tasks, lines[i]).value.deps;
  }

  lemma {:induction false} InGoodTime(tasks: seq<Task>, lines: seq<string>, order: seq<Id>, i: nat)
    requires OneToOne(tasks, lines) && i < |lines|
    requires |order| == |lines| && forall j :: 0 <= j < i ==> order[j] == StandsFor(tasks, lines[j]).value.id
    requires forall d :: d in StandsFor(tasks, lines[i]).value.deps ==> d in order[..i]
    ensures InTime(tasks, lines, i)
  {
  }

  method EarlyDependency(tasks: seq<Task>, lines: seq<string>, order: seq<Id>) returns (problem: Option<OrderProblem>)
    requires DistinctTasks(tasks) && OneToOne(tasks, lines)
    requires |order| == |lines| && forall i :: 0 <= i < |lines| ==> order[i] == StandsFor(tasks, lines[i]).value.id
    ensures problem.None? <==> forall i :: 0 <= i < |lines| ==> InTime(tasks, lines, i)
    ensures problem.Some? ==> problem.value.TooEarly? && exists i: nat, n: nat :: ComesTooEarly(tasks, lines, i, n, problem.value)
  {
    hide StandsFor, InTime, Above;
    var seen: seq<Id> := [];
    for i := 0 to |lines|
      invariant seen == order[..i]
      invariant forall j :: 0 <= j < i ==> InTime(tasks, lines, j)
    {
      TaskFound(tasks, StandsFor(tasks, lines[i]).value);
      var t := TaskOf(tasks, order[i]).value;
      for n := 0 to |t.deps|
        invariant forall m :: 0 <= m < n ==> t.deps[m] in seen
      {
        if t.deps[n] !in seen {
          TooSoon(tasks, lines, order, i, n);
          problem := Some(TooEarly(lines[i], t.deps[n]));
          assert ComesTooEarly(tasks, lines, i, n, problem.value);
          return;
        }
      }
      InGoodTime(tasks, lines, order, i);
      seen := seen + [order[i]];
    }
    problem := None;
  }

  // -- the two together ---------------------------------------------------------------------

  function Outcomes(tasks: seq<Task>, order: seq<Id>): (lines: seq<string>)
    requires forall i :: 0 <= i < |order| ==> Known(tasks, order[i])
    ensures |lines| == |order|
  {
    seq(|order|, i requires 0 <= i < |order| && Known(tasks, order[i]) => TaskOf(tasks, order[i]).value.outcome)
  }

  ghost predicate DistinctOutcomes(tasks: seq<Task>) {
    forall i, j :: 0 <= i < j < |tasks| ==> tasks[i].outcome != tasks[j].outcome
  }

  lemma {:induction false} OrderIsKnown(tasks: seq<Task>, order: seq<Id>)
    requires DistinctTasks(tasks) && BuildOrder(DepGraph(tasks), order)
    ensures forall i :: 0 <= i < |order| ==> Known(tasks, order[i])
    ensures forall k :: 0 <= k < |tasks| ==> tasks[k].id in order
  {
    hide DepGraph;
    TaskIdsAreDistinct(tasks);
    forall i | 0 <= i < |order| ensures Known(tasks, order[i]) {
      assert order[i] in TaskIds(tasks);
    }
    forall k | 0 <= k < |tasks| ensures tasks[k].id in order {
      assert TaskIds(tasks)[k] == tasks[k].id;
    }
  }

  lemma {:induction false} StandsForItself(tasks: seq<Task>, t: Task)
    requires DistinctOutcomes(tasks) && t in tasks
    ensures StandsFor(tasks, t.outcome) == Some(t)
  {
  }

  lemma OrderedOutcome(tasks: seq<Task>, order: seq<Id>, i: nat) returns (t: Task)
    requires DistinctTasks(tasks) && DistinctOutcomes(tasks) && BuildOrder(DepGraph(tasks), order) && i < |order|
    ensures forall k :: 0 <= k < |order| ==> Known(tasks, order[k])
    ensures t in tasks && t.id == order[i] && Outcomes(tasks, order)[i] == t.outcome
    ensures StandsFor(tasks, t.outcome) == Some(t)
    ensures forall d :: d in t.deps ==> d in order[..i]
  {
    hide StandsFor;
    OrderIsKnown(tasks, order);
    Placed(DepGraph(tasks), order, i);
    t := TaskOf(tasks, order[i]).value;
    StandsForItself(tasks, t);
    var k :| 0 <= k < |tasks| && tasks[k] == t;
    assert DepGraph(tasks)[t.id] == t.deps;
  }

  /** Outcomes that differ put the lines one to one with the tasks. */
  lemma {:induction false} OwnOrderIsOneToOne(tasks: seq<Task>, order: seq<Id>)
    requires DistinctTasks(tasks) && BuildOrder(DepGraph(tasks), order) && DistinctOutcomes(tasks)
    ensures forall k :: 0 <= k < |order| ==> Known(tasks, order[k])
    ensures OneToOne(tasks, Outcomes(tasks, order))
  {
    hide DepGraph, FinishOrder, StandsFor, TaskOf;
    OrderIsKnown(tasks, order);
    var lines := Outcomes(tasks, order);
    forall i, j | 0 <= i < j < |order| ensures lines[i] != lines[j] {
      var t := OrderedOutcome(tasks, order, i);
      var u := OrderedOutcome(tasks, order, j);
      Placed(DepGraph(tasks), order, j);
      assert order[i] in order[..j];
    }
    forall i | 0 <= i < |lines| ensures StandsFor(tasks, lines[i]).Some? {
      var t := OrderedOutcome(tasks, order, i);
    }
    forall k | 0 <= k < |tasks| ensures tasks[k].outcome in lines {
      var i :| 0 <= i < |order| && order[i] == tasks[k].id;
      TaskFound(tasks, tasks[k]);
      assert lines[i] == tasks[k].outcome;
    }
  }

  lemma {:induction false} OwnOrderIsInTime(tasks: seq<Task>, order: seq<Id>, i: nat)
    requires DistinctTasks(tasks) && BuildOrder(DepGraph(tasks), order) && DistinctOutcomes(tasks)
    requires i < |order|
    requires forall k :: 0 <= k < |order| ==> Known(tasks, order[k])
    requires OneToOne(tasks, Outcomes(tasks, order))
    ensures InTime(tasks, Outcomes(tasks, order), i)
  {
    hide DepGraph, FinishOrder, StandsFor, TaskOf, OneToOne;
    var lines := Outcomes(tasks, order);
    var t := OrderedOutcome(tasks, order, i);
    forall d | d in t.deps ensures exists j :: 0 <= j < i && StandsFor(tasks, lines[j]).value.id == d {
      var j :| 0 <= j < i && order[j] == d;
      var u := OrderedOutcome(tasks, order, j);
      assert StandsFor(tasks, lines[j]).value.id == d;
    }
  }

  /** The exported list of a plan passes its own check exactly when no two tasks share an outcome. */
  lemma {:induction false} OwnOrderPasses(tasks: seq<Task>, order: seq<Id>)
    requires DistinctTasks(tasks) && BuildOrder(DepGraph(tasks), order)
    ensures forall k :: 0 <= k < |order| ==> Known(tasks, order[k])
    ensures BuildsThePlan(tasks, Outcomes(tasks, order)) <==> DistinctOutcomes(tasks)
  {
    hide DepGraph, FinishOrder, StandsFor, TaskOf, InTime;
    OrderIsKnown(tasks, order);
    var lines := Outcomes(tasks, order);
    if DistinctOutcomes(tasks) {
      OwnOrderIsOneToOne(tasks, order);
      forall i | 0 <= i < |lines| ensures InTime(tasks, lines, i) {
        OwnOrderIsInTime(tasks, order, i);
      }
    }
    if OneToOne(tasks, lines) {
      OneToOneMeansDistinct(tasks, order);
    }
  }

  lemma OneToOneMeansDistinct(tasks: seq<Task>, order: seq<Id>)
    requires DistinctTasks(tasks)
    requires forall i :: 0 <= i < |order| ==> Known(tasks, order[i])
    requires forall k :: 0 <= k < |tasks| ==> tasks[k].id in order
    requires Distinct(Outcomes(tasks, order))
    ensures DistinctOutcomes(tasks)
  {
    hide TaskOf;
    var lines := Outcomes(tasks, order);
    forall i, j | 0 <= i < j < |tasks| ensures tasks[i].outcome != tasks[j].outcome {
      var a :| 0 <= a < |order| && order[a] == tasks[i].id;
      var b :| 0 <= b < |order| && order[b] == tasks[j].id;
      TaskFound(tasks, tasks[i]);
      TaskFound(tasks, tasks[j]);
      assert lines[a] == tasks[i].outcome && lines[b] == tasks[j].outcome;
    }
  }

  function StandIns(tasks: seq<Task>, lines: seq<string>): (order: seq<Id>)
    requires forall i :: 0 <= i < |lines| ==> StandsFor(tasks, lines[i]).Some?
    ensures |order| == |lines|
  {
    seq(|lines|, i requires 0 <= i < |lines| && StandsFor(tasks, lines[i]).Some? => StandsFor(tasks, lines[i]).value.id)
  }

  lemma {:induction false} DistinctBuildsInOrder(tasks: seq<Task>, lines: seq<string>)
    requires DistinctTasks(tasks) && DistinctOutcomes(tasks) && BuildsThePlan(tasks, lines)
    ensures BuildOrder(DepGraph(tasks), StandIns(tasks, lines))
  {
    hide DepGraph, StandsFor;
    var g, order := DepGraph(tasks), StandIns(tasks, lines);
    forall i, j | 0 <= i < j < |order| ensures order[i] != order[j] {
      StandInsDiffer(tasks, lines[i], lines[j]);
    }
    forall i | 0 <= i < |order| ensures order[i] in g && forall w :: w in g[order[i]] ==> w in order[..i] {
      var t := StandsFor(tasks, lines[i]).value;
      var k :| 0 <= k < |tasks| && tasks[k] == t;
      assert InTime(tasks, lines, i);
      forall w | w in g[order[i]] ensures w in order[..i] {
        var j :| 0 <= j < i && StandsFor(tasks, lines[j]).value.id == w;
        assert order[j] == w;
      }
    }
    forall v | v in g ensures v in order {
      var k := VertexHasTask(tasks, v);
      StandsForItself(tasks, tasks[k]);
      var i :| 0 <= i < |lines| && lines[i] == tasks[k].outcome;
      assert order[i] == v;
    }
  }

  /** A task that a list builds is the one its line stands for. */
  lemma BuiltAtItsLine(tasks: seq<Task>, lines: seq<string>, t: Task) returns (k: nat)
    requires DistinctTasks(tasks) && OneToOne(tasks, lines) && t in tasks && t.id in StandIns(tasks, lines)
    ensures k < |lines| && lines[k] == t.outcome && StandIns(tasks, lines)[k] == t.id
  {
    hide StandsFor;
    k :| 0 <= k < |lines| && StandIns(tasks, lines)[k] == t.id;
    assert StandsFor(tasks, lines[k]).value == t;
  }

  /**
   * A list that passes builds every task once and never too early exactly when no two tasks share an
   * outcome.
   */
  lemma {:induction false} PassingBuildsInOrder(tasks: seq<Task>, lines: seq<string>)
    requires DistinctTasks(tasks) && BuildsThePlan(tasks, lines)
    ensures BuildOrder(DepGraph(tasks), StandIns(tasks, lines)) <==> DistinctOutcomes(tasks)
  {
    hide StandsFor, FinishOrder, StandIns, InTime;
    if DistinctOutcomes(tasks) {
      DistinctBuildsInOrder(tasks, lines);
    }
    if BuildOrder(DepGraph(tasks), StandIns(tasks, lines)) {
      forall i, j | 0 <= i < j < |tasks| ensures tasks[i].outcome != tasks[j].outcome {
        assert tasks[i].id in DepGraph(tasks) && tasks[j].id in DepGraph(tasks);
        var k := BuiltAtItsLine(tasks, lines, tasks[i]);
        var l := BuiltAtItsLine(tasks, lines, tasks[j]);
      }
    }
  }

  /** With a shared outcome the check accepts a list that leaves one of the tasks out. */
  lemma SharedOutcomeHidesATask(a: Task, b: Task)
    requires a.id != b.id && a.outcome == b.outcome && b.deps == []
    ensures BuildsThePlan([a, b], [b.outcome])
    ensures StandIns([a, b], [b.outcome]) == [b.id]
  {
  }
}
