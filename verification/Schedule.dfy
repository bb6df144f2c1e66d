/** Which tasks may start right now, and why a stalled build is always explained by a blocked task. */
module Schedule {
  import opened Common
  import opened Graph
  import opened Plan
  import opened Ledger
  import opened PlanEdits
  import opened BuildStates

  /** A prerequisite lets its dependents go once it is accepted at the version current now. */
  predicate Releases(d: Doc, dep: Id)
    requires Coherent(d)
  {
    dep in d.tasks && d.tasks[dep].accepted && d.tasks[dep].planVersion == d.versions[d.tasks[dep].planId]
  }

  predicate Released(d: Doc, deps: seq<Id>)
    requires Coherent(d)
  {
    forall k :: 0 <= k < |deps| ==> Releases(d, deps[k])
  }

  /** The task can join what is running and what was chosen before it. */
  ghost predicate Startable(d: Doc, tree: Tree, running: set<Id>, chosen: seq<Id>, task: Task)
    requires Coherent(d)
  {
    && task.id in d.tasks && d.tasks[task.id].status.Pending? && task.id !in running
    && Released(d, task.deps)
    && (forall o :: o in running && Known(tree.tasks, o) ==> CanRunTogether(tree, task.id, o))
    && (forall c :: 0 <= c < |chosen| ==> CanRunTogether(tree, task.id, chosen[c]))
  }

  predicate Full(limit: Option<int>, chosen: seq<Id>) {
    limit.Some? && |chosen| >= limit.value
  }

  /** The greedy choice in plan order, from position i on. */
  ghost function Pick(d: Doc, tree: Tree, running: set<Id>, limit: Option<int>, i: nat, chosen: seq<Id>): seq<Id>
    requires Coherent(d) && i <= |tree.tasks|
    decreases |tree.tasks| - i
  {
    if i == |tree.tasks| || Full(limit, chosen) then chosen
    else
      var more := if Startable(d, tree, running, chosen, tree.tasks[i]) then [tree.tasks[i].id] else [];
      Pick(d, tree, running, limit, i + 1, chosen + more)
  }

  ghost function Ready(d: Doc, tree: Tree, running: set<Id>, limit: Option<int>): seq<Id>
    requires Coherent(d)
  {
    Pick(d, tree, running, limit, 0, [])
  }

  /** Each chosen task was startable given everything chosen before it. */
  ghost predicate SoundChoice(d: Doc, tree: Tree, running: set<Id>, chosen: seq<Id>)
    requires Coherent(d)
  {
    forall c :: 0 <= c < |chosen| ==>
      Known(tree.tasks, chosen[c]) && Startable(d, tree, running, chosen[..c], TaskOf(tree.tasks, chosen[c]).value)
  }

  lemma StartableWithFewer(d: Doc, tree: Tree, running: set<Id>, fewer: seq<Id>, more: seq<Id>, task: Task)
    requires Coherent(d) && fewer <= more && Startable(d, tree, running, more, task)
    ensures Startable(d, tree, running, fewer, task)
  {
  }

  /**
   * The answer is sound, within the limit, and leaves out no task that could still join it;
   * greedy in plan order, so it is the only such answer the loop gives.
   */
  lemma {:induction false} PickSound(d: Doc, tree: Tree, running: set<Id>, limit: Option<int>, i: nat, chosen: seq<Id>)
    requires Coherent(d) && DistinctTasks(tree.tasks) && i <= |tree.tasks|
    requires SoundChoice(d, tree, running, chosen) && (limit.Some? ==> |chosen| <= Max(0, limit.value))
    ensures
      var r := Pick(d, tree, running, limit, i, chosen);
      && chosen <= r && SoundChoice(d, tree, running, r) && (limit.Some? ==> |r| <= Max(0, limit.value))
      && (!Full(limit, r) ==> forall k :: i <= k < |tree.tasks| ==> !Startable(d, tree, running, r, tree.tasks[k]))
    decreases |tree.tasks| - i
  {
    hide CanRunTogether, Released;
    if i < |tree.tasks| && !Full(limit, chosen) {
      var task := tree.tasks[i];
      var r := Pick(d, tree, running, limit, i, chosen);
      if Startable(d, tree, running, chosen, task) {
        TaskFound(tree.tasks, task);
        var longer := chosen + [task.id];
        assert forall c :: 0 <= c < |chosen| ==> longer[..c] == chosen[..c];
        assert longer[..|chosen|] == chosen;
        PickSound(d, tree, running, limit, i + 1, longer);
        assert r[|chosen|] == task.id;
        NotTwice(d, tree, running, r, |chosen|, task);
      } else {
        assert chosen + [] == chosen;
        PickSound(d, tree, running, limit, i + 1, chosen);
        if Startable(d, tree, running, r, task) {
          StartableWithFewer(d, tree, running, chosen, r, task);
        }
      }
    }
  }

  ghost predicate NothingToAdd(d: Doc, tree: Tree, running: set<Id>, chosen: seq<Id>)
    requires Coherent(d)
  {
    forall k :: 0 <= k < |tree.tasks| ==> !Startable(d, tree, running, chosen, tree.tasks[k])
  }

  /**
   * Beside whatever is running, and for every limit: all chosen may start together, and while there is room
   * no task of the tree could start beside the running ones and those chosen.
   */
  lemma ReadyFillsUp(d: Doc, tree: Tree, running: set<Id>, limit: Option<int>)
    requires Coherent(d) && DistinctTasks(tree.tasks)
    ensures
      var chosen := Ready(d, tree, running, limit);
      && SoundChoice(d, tree, running, chosen) && (limit.Some? ==> |chosen| <= Max(0, limit.value))
      && (limit.None? || |chosen| < limit.value ==> NothingToAdd(d, tree, running, chosen))
  {
    hide Startable;
    PickSound(d, tree, running, limit, 0, []);
  }

  /** A task never runs beside itself, so a chosen task cannot be chosen again. */
  lemma NotTwice(d: Doc, tree: Tree, running: set<Id>, chosen: seq<Id>, c: nat, task: Task)
    requires Coherent(d) && c < |chosen| && chosen[c] == task.id
    ensures !Startable(d, tree, running, chosen, task)
  {
  }

  // -- the choice, task by task ---------------------------------------------------------------------

  /** Those chosen from the first k tasks of the plan. */
  ghost function AmongFirst(tree: Tree, chosen: seq<Id>, k: nat): set<Id>
    requires k <= |tree.tasks|
  {
    set j | 0 <= j < k && tree.tasks[j].id in chosen :: tree.tasks[j].id
  }

  /** The task with that id stands in the plan, before position k. */
  ghost predicate Among(tree: Tree, k: nat, t: Id)
    requires k <= |tree.tasks|
  {
    exists j :: 0 <= j < k && tree.tasks[j].id == t
  }

  /** Or from position k on. */
  ghost predicate FromOn(tree: Tree, k: nat, t: Id) {
    exists j :: k <= j < |tree.tasks| && tree.tasks[j].id == t
  }

  /** The list names some of the first k tasks of the plan, each once and in plan order. */
  ghost predicate InPlanOrder(tree: Tree, chosen: seq<Id>, k: nat)
    requires k <= |tree.tasks|
  {
    && (forall c :: 0 <= c < |chosen| ==> Among(tree, k, chosen[c]))
    && forall a, b, j, l :: 0 <= a < b < |chosen| && 0 <= j < |tree.tasks| && 0 <= l < |tree.tasks| ==>
         tree.tasks[j].id == chosen[a] && tree.tasks[l].id == chosen[b] ==> j < l
  }

  lemma OneFurther(tree: Tree, chosen: seq<Id>, i: nat)
    requires DistinctTasks(tree.tasks) && i < |tree.tasks| && InPlanOrder(tree, chosen, i)
    ensures InPlanOrder(tree, chosen, i + 1) && InPlanOrder(tree, chosen + [tree.tasks[i].id], i + 1)
  {
    var longer := chosen + [tree.tasks[i].id];
    assert Among(tree, i + 1, tree.tasks[i].id);
    forall c | 0 <= c < |chosen| ensures Among(tree, i + 1, chosen[c]) {
      AmongMore(tree, i, i + 1, chosen[c]);
    }
    forall c | 0 <= c < |longer| ensures Among(tree, i + 1, longer[c]) {
      assert c < |chosen| ==> longer[c] == chosen[c];
    }
    forall a, b, j, l | 0 <= a < b < |longer| && 0 <= j < |tree.tasks| && 0 <= l < |tree.tasks|
      && tree.tasks[j].id == longer[a] && tree.tasks[l].id == longer[b] ensures j < l
    {
      assert longer[a] == chosen[a] && Among(tree, i, chosen[a]);
      assert b < |chosen| ==> longer[b] == chosen[b];
    }
  }

  lemma AmongMore(tree: Tree, i: nat, k: nat, t: Id)
    requires i <= k <= |tree.tasks| && Among(tree, i, t)
    ensures Among(tree, k, t)
  {
  }

  lemma InOrderCounts(tree: Tree, chosen: seq<Id>, k: nat)
    requires k <= |tree.tasks| && InPlanOrder(tree, chosen, k)
    ensures AmongFirst(tree, chosen, k) == Elements(chosen) && Distinct(chosen) && |AmongFirst(tree, chosen, k)| == |chosen|
  {
    forall t | t in chosen ensures t in AmongFirst(tree, chosen, k) {
      var c :| 0 <= c < |chosen| && chosen[c] == t;
      assert Among(tree, k, chosen[c]);
    }
    forall a, b | 0 <= a < b < |chosen| ensures chosen[a] != chosen[b] {
      assert Among(tree, k, chosen[a]);
    }
    assert AmongFirst(tree, chosen, k) == Elements(chosen);
    DistinctSize(chosen);
  }

  lemma SameBeside(d: Doc, tree: Tree, running: set<Id>, chosen: seq<Id>, task: Task)
    requires Coherent(d) && (forall c :: 0 <= c < |chosen| ==> Known(tree.tasks, chosen[c]) && chosen[c] != task.id)
    ensures Startable(d, tree, running, chosen, task) <==> Startable(d, tree, running + Elements(chosen), [], task)
  {
    hide CanRunTogether, Released;
    var all := running + Elements(chosen);
    if Startable(d, tree, all, [], task) {
      forall c | 0 <= c < |chosen| ensures CanRunTogether(tree, task.id, chosen[c]) {
        assert chosen[c] in all;
      }
    }
  }

  /** Later choices come from later tasks. */
  lemma {:induction false} PickGoesOn(d: Doc, tree: Tree, running: set<Id>, limit: Option<int>, i: nat, chosen: seq<Id>)
    requires Coherent(d) && DistinctTasks(tree.tasks) && i <= |tree.tasks| && InPlanOrder(tree, chosen, i)
    ensures var r := Pick(d, tree, running, limit, i, chosen);
      && chosen <= r && InPlanOrder(tree, r, |tree.tasks|)
      && forall t :: t in r && t !in chosen ==> FromOn(tree, i, t)
    decreases |tree.tasks| - i
  {
    hide Startable, InPlanOrder, FromOn, DistinctTasks;
    if i < |tree.tasks| && !Full(limit, chosen) {
      OneFurther(tree, chosen, i);
      assert chosen + [] == chosen;
      PickGoesOn(d, tree, running, limit, i + 1, if Startable(d, tree, running, chosen, tree.tasks[i]) then chosen + [tree.tasks[i].id] else chosen);
      FromHereOn(tree, i);
    } else {
      PlanOrderWidens(tree, chosen, i);
    }
  }

  lemma FromHereOn(tree: Tree, i: nat)
    requires i < |tree.tasks|
    ensures FromOn(tree, i, tree.tasks[i].id)
    ensures forall t :: FromOn(tree, i + 1, t) ==> FromOn(tree, i, t)
  {
  }

  lemma PlanOrderWidens(tree: Tree, chosen: seq<Id>, i: nat)
    requires i <= |tree.tasks| && InPlanOrder(tree, chosen, i)
    ensures InPlanOrder(tree, chosen, |tree.tasks|)
  {
    forall c | 0 <= c < |chosen| ensures Among(tree, |tree.tasks|, chosen[c]) {
      AmongMore(tree, i, |tree.tasks|, chosen[c]);
    }
  }

  lemma KnownAndOther(tree: Tree, chosen: seq<Id>, k: nat, task: Task)
    requires DistinctTasks(tree.tasks) && k < |tree.tasks| && tree.tasks[k] == task && InPlanOrder(tree, chosen, k)
    ensures forall c :: 0 <= c < |chosen| ==> Known(tree.tasks, chosen[c]) && chosen[c] != task.id
  {
    forall c | 0 <= c < |chosen| ensures Known(tree.tasks, chosen[c]) && chosen[c] != task.id {
      assert Among(tree, k, chosen[c]);
      var j :| 0 <= j < k && tree.tasks[j].id == chosen[c];
      TaskFound(tree.tasks, tree.tasks[j]);
    }
  }

  lemma EarlierStand(tree: Tree, chosen: seq<Id>, r: seq<Id>, i: nat, k: nat)
    requires DistinctTasks(tree.tasks) && i <= k < |tree.tasks| && chosen <= r && InPlanOrder(tree, chosen, i)
    requires forall t :: t in r && t !in chosen ==> FromOn(tree, k, t)
    ensures AmongFirst(tree, r, k) == Elements(chosen)
  {
    forall t | t in chosen ensures t in AmongFirst(tree, r, k) {
      var c :| 0 <= c < |chosen| && chosen[c] == t;
      assert Among(tree, i, chosen[c]) && r[c] == t;
    }
  }

  /**
   * Whether a task is chosen, from the plan alone: exactly when, of the tasks before it, fewer were chosen than
   * the limit and it may start beside them and whatever is running.
   */
  lemma {:induction false} PickExactly(d: Doc, tree: Tree, running: set<Id>, limit: Option<int>, i: nat, chosen: seq<Id>, k: nat)
    requires Coherent(d) && DistinctTasks(tree.tasks) && i <= k < |tree.tasks| && InPlanOrder(tree, chosen, i)
    ensures
      var r := Pick(d, tree, running, limit, i, chosen);
      tree.tasks[k].id in r <==>
        && (limit.None? || |AmongFirst(tree, r, k)| < limit.value)
        && Startable(d, tree, running + AmongFirst(tree, r, k), [], tree.tasks[k])
    decreases |tree.tasks| - i
  {
    hide Startable, AmongFirst, InPlanOrder;
    var r, task := Pick(d, tree, running, limit, i, chosen), tree.tasks[i];
    PickGoesOn(d, tree, running, limit, i, chosen);
    if Full(limit, chosen) {
      NoneFurther(tree, chosen, i, k);
    } else if i < k {
      OneFurther(tree, chosen, i);
      assert chosen + [] == chosen;
      PickExactly(d, tree, running, limit, i + 1, if Startable(d, tree, running, chosen, task) then chosen + [task.id] else chosen, k);
    } else {
      OneFurther(tree, chosen, i);
      assert chosen + [] == chosen;
      PickGoesOn(d, tree, running, limit, i + 1, if Startable(d, tree, running, chosen, task) then chosen + [task.id] else chosen);
      InOrderCounts(tree, chosen, i);
      KnownAndOther(tree, chosen, k, task);
      if Startable(d, tree, running, chosen, task) {
        assert (chosen + [task.id])[|chosen|] == task.id;
      } else {
        NotLater(tree, chosen, r, k);
      }
      EarlierStand(tree, chosen, r, i, k);
      SameBeside(d, tree, running, chosen, task);
    }
  }

  lemma NoneFurther(tree: Tree, chosen: seq<Id>, i: nat, k: nat)
    requires DistinctTasks(tree.tasks) && i <= k < |tree.tasks| && InPlanOrder(tree, chosen, i)
    ensures tree.tasks[k].id !in chosen && |AmongFirst(tree, chosen, k)| == |chosen|
  {
    forall c | 0 <= c < |chosen| ensures Among(tree, k, chosen[c]) && chosen[c] != tree.tasks[k].id {
      AmongMore(tree, i, k, chosen[c]);
    }
    InOrderCounts(tree, chosen, k);
  }

  /** A task that was passed over does not come up again. */
  lemma NotLater(tree: Tree, chosen: seq<Id>, r: seq<Id>, k: nat)
    requires DistinctTasks(tree.tasks) && k < |tree.tasks| && tree.tasks[k].id !in chosen
    requires forall t :: t in r && t !in chosen ==> FromOn(tree, k + 1, t)
    ensures tree.tasks[k].id !in r
  {
  }

  /** The choice, task by task, in plan order. */
  lemma ChosenExactly(d: Doc, tree: Tree, running: set<Id>, limit: Option<int>)
    requires Coherent(d) && DistinctTasks(tree.tasks)
    ensures
      var r := Ready(d, tree, running, limit);
      && InPlanOrder(tree, r, |tree.tasks|)
      && forall k :: 0 <= k < |tree.tasks| ==>
        (tree.tasks[k].id in r <==>
          && (limit.None? || |AmongFirst(tree, r, k)| < limit.value)
          && Startable(d, tree, running + AmongFirst(tree, r, k), [], tree.tasks[k]))
  {
    hide Startable, AmongFirst;
    PickGoesOn(d, tree, running, limit, 0, []);
    forall k | 0 <= k < |tree.tasks|
      ensures tree.tasks[k].id in Ready(d, tree, running, limit) <==>
        && (limit.None? || |AmongFirst(tree, Ready(d, tree, running, limit), k)| < limit.value)
        && Startable(d, tree, running + AmongFirst(tree, Ready(d, tree, running, limit), k), [], tree.tasks[k])
    {
      PickExactly(d, tree, running, limit, 0, [], k);
    }
  }

  /** Whether a task may run beside every task of a list. */
  method TogetherWithAll(tree: Tree, t: Id, others: seq<Id>) returns (together: bool)
    requires Known(tree.tasks, t) && forall k :: 0 <= k < |others| ==> Known(tree.tasks, others[k])
    ensures together <==> forall k :: 0 <= k < |others| ==> CanRunTogether(tree, t, others[k])
  {
    hide CanRunTogether, Known;
    for k := 0 to |others|
      invariant forall l :: 0 <= l < k ==> CanRunTogether(tree, t, others[l])
    {
      var ok := RunTogether(tree, t, others[k]);
      if !ok {
        return false;
      }
    }
    together := true;
  }

  /** The running tasks the plan still knows, in plan order. */
  function BusyTasks(tasks: seq<Task>, running: set<Id>): (busy: seq<Id>)
    ensures forall k :: 0 <= k < |busy| ==> busy[k] in running && TaskOf(tasks, busy[k]).Some?
  {
    if tasks == [] then []
    else
      var rest := BusyTasks(tasks[1..], running);
      (if tasks[0].id in running then [tasks[0].id] else []) + rest
  }

  lemma {:induction false} BusyIsComplete(tasks: seq<Task>, running: set<Id>, o: Id)
    requires o in running && Known(tasks, o)
    ensures o in BusyTasks(tasks, running)
  {
    if tasks[0].id != o {
      BusyIsComplete(tasks[1..], running, o);
    }
  }

  /** Tasks that may start now, in plan order, never more than the limit. */
  method ReadyTasks(state: BuildState, running: set<Id>, limit: Option<int>) returns (chosen: seq<Id>)
    requires state.Valid() && DistinctTasks(state.tree.tasks)
    requires forall k :: 0 <= k < |state.tree.tasks| ==> state.tree.tasks[k].id in state.tasks
    ensures chosen == Ready(state.Document(), state.tree, running, limit)
    ensures SoundChoice(state.Document(), state.tree, running, chosen) && (limit.Some? ==> |chosen| <= Max(0, limit.value))
    ensures limit.None? || |chosen| < limit.value ==> NothingToAdd(state.Document(), state.tree, running, chosen)
  {
    ReadyFillsUp(state.Document(), state.tree, running, limit);
    var tree := state.tree;
    ghost var d := state.Document();
    var busy := BusyTasks(tree.tasks, running);
    hide CanRunTogether, Startable, Coherent, SoundChoice, NothingToAdd;
    chosen := [];
    var i := 0;
    while i < |tree.tasks| && !Full(limit, chosen)
      invariant i <= |tree.tasks|
      invariant forall c :: 0 <= c < |chosen| ==> Known(tree.tasks, chosen[c])
      invariant Pick(d, tree, running, limit, i, chosen) == Ready(d, tree, running, limit)
    {
      var task := tree.tasks[i];
      var ok := CheckStartable(state, tree, running, busy, chosen, task);
      if ok {
        TaskFound(tree.tasks, task);
        chosen := chosen + [task.id];
      } else {
        assert chosen + [] == chosen;
      }
      i := i + 1;
    }
  }

  method CheckStartable(state: BuildState, tree: Tree, running: set<Id>, busy: seq<Id>, chosen: seq<Id>, task: Task)
    returns (ok: bool)
    requires state.Valid() && task.id in state.tasks && Known(tree.tasks, task.id)
    requires busy == BusyTasks(tree.tasks, running)
    requires forall c :: 0 <= c < |chosen| ==> Known(tree.tasks, chosen[c])
    ensures ok <==> Startable(state.Document(), tree, running, chosen, task)
  {
    hide CanRunTogether, BusyTasks;
    if !state.tasks[task.id].status.Pending? || task.id in running {
      return false;
    }
    for k := 0 to |task.deps|
      invariant forall l :: 0 <= l < k ==> Releases(state.Document(), task.deps[l])
    {
      var dep := task.deps[k];
      if !(dep in state.tasks && state.tasks[dep].accepted
           && state.tasks[dep].planVersion == state.versions[state.tasks[dep].planId]) {
        assert !Releases(state.Document(), task.deps[k]);
        return false;
      }
    }
    var clear := TogetherWithAll(tree, task.id, busy);
    forall o | clear && o in running && Known(tree.tasks, o) ensures CanRunTogether(tree, task.id, o) {
      BusyIsComplete(tree.tasks, running, o);
    }
    if !clear {
      return false;
    }
    ok := TogetherWithAll(tree, task.id, chosen);
  }

  // -- no deadlock --------------------------------------------------------------------------

  /** A chain of dependencies from t down to a blocked task. */
  ghost predicate BlockedChain(d: Doc, tree: Tree, p: seq<Id>) {
    && |p| >= 1 && IsWalk(DepGraph(tree.tasks), p)
    && Known(tree.tasks, p[|p| - 1]) && p[|p| - 1] in d.tasks && d.tasks[p[|p| - 1]].status.Blocked?
  }

  ghost predicate HeldByBlocked(d: Doc, tree: Tree, t: Id) {
    exists p :: BlockedChain(d, tree, p) && p[0] == t
  }

  lemma HeldThrough(d: Doc, tree: Tree, t: Id, dep: Id)
    requires HeldByBlocked(d, tree, dep) && Edge(DepGraph(tree.tasks), t, dep)
    ensures HeldByBlocked(d, tree, t)
  {
    hide DepGraph, TaskOf;
    var p :| BlockedChain(d, tree, p) && p[0] == dep;
    var q := [t] + p;
    assert IsWalk(DepGraph(tree.tasks), q) by {
      forall i | 0 <= i < |q| - 1 ensures Edge(DepGraph(tree.tasks), q[i], q[i + 1]) {
        if i > 0 {
          assert Edge(DepGraph(tree.tasks), p[i - 1], p[i]);
        }
      }
    }
    assert BlockedChain(d, tree, q) && q[0] == t;
  }

  lemma BlockedIsHeld(d: Doc, tree: Tree, t: Id)
    requires Known(tree.tasks, t) && t in d.tasks && d.tasks[t].status.Blocked?
    ensures HeldByBlocked(d, tree, t)
  {
    assert BlockedChain(d, tree, [t]);
  }

  /** Nothing is in flight and nothing is half-recorded. */
  ghost predicate AtRest(d: Doc, tree: Tree) {
    forall t :: Known(tree.tasks, t) && t in d.tasks ==>
      && !d.tasks[t].status.Running? && !d.tasks[t].status.Finished?
      && (d.tasks[t].accepted <==> d.tasks[t].status.Accepted?)
  }

  /** At rest with nothing startable, every unaccepted task is blocked or held by a blocked one. */
  lemma StallIsExplained(d: Doc, tree: Tree)
    requires Coherent(d) && ValidTree(tree) && Honest(d, tree) && AtRest(d, tree)
    requires forall k :: 0 <= k < |tree.tasks| ==> !Startable(d, tree, {}, [], tree.tasks[k])
    ensures forall t :: Known(tree.tasks, t) && !d.tasks[t].accepted ==> HeldByBlocked(d, tree, t)
  {
    hide HeldByBlocked, CanRunTogether, DepGraph, RootedTree, Covers, CrossInputsNamed, AssignedTask, SoundDeps,
      Startable, Coherent, HonestRecord, TreeVersionsKnown;
    var g := DepGraph(tree.tasks);
    var stuck := set k | 0 <= k < |tree.tasks| && d.tasks[tree.tasks[k].id].status.Pending?
      && !HeldByBlocked(d, tree, tree.tasks[k].id) :: tree.tasks[k].id;
    if stuck != {} {
      var v := AcyclicHasSink(g, stuck);
      var k :| 0 <= k < |tree.tasks| && tree.tasks[k].id == v && v in stuck;
      SinkIsStartable(d, tree, stuck, k);
      assert false;
    }
    forall t | Known(tree.tasks, t) && !d.tasks[t].accepted ensures HeldByBlocked(d, tree, t) {
      var task := TaskOf(tree.tasks, t).value;
      var k :| 0 <= k < |tree.tasks| && tree.tasks[k] == task;
      if d.tasks[t].status.Blocked? {
        BlockedIsHeld(d, tree, t);
      } else {
        assert t !in stuck;
      }
    }
  }

  lemma SinkIsStartable(d: Doc, tree: Tree, stuck: set<Id>, k: nat)
    requires Coherent(d) && ValidTree(tree) && Honest(d, tree) && AtRest(d, tree) && k < |tree.tasks|
    requires forall l :: 0 <= l < |tree.tasks| ==>
      tree.tasks[l].id in d.tasks &&
      (tree.tasks[l].id in stuck <==>
         d.tasks[tree.tasks[l].id].status.Pending? && !HeldByBlocked(d, tree, tree.tasks[l].id))
    requires tree.tasks[k].id in stuck
    requires forall w :: w in stuck ==> !Edge(DepGraph(tree.tasks), tree.tasks[k].id, w)
    ensures Startable(d, tree, {}, [], tree.tasks[k])
  {
    hide HeldByBlocked, CanRunTogether, RootedTree, Covers, CrossInputsNamed, AssignedTask;
    var task := tree.tasks[k];
    forall c | 0 <= c < |task.deps| ensures Releases(d, task.deps[c]) {
      var dep := task.deps[c];
      assert SoundDeps(tree.tasks, task) && dep in task.deps;
      assert Edge(DepGraph(tree.tasks), task.id, dep);
      var other := TaskOf(tree.tasks, dep).value;
      var l :| 0 <= l < |tree.tasks| && tree.tasks[l] == other;
      if d.tasks[dep].status.Blocked? {
        BlockedIsHeld(d, tree, dep);
      }
      if HeldByBlocked(d, tree, dep) {
        HeldThrough(d, tree, task.id, dep);
      }
      assert HonestRecord(d.versions, d.tasks[dep], other);
    }
  }
}
