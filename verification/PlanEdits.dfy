/** Plan edits keep versions honest, lose nothing, and settle after one pass. */
module PlanEdits {
  import opened Common
  import opened Plan
  import opened Text
  import opened Ledger
  import opened History

  /** Work waiting or accepted must belong to the plan version that is current. */
  predicate NeedsCurrent(s: Status) {
    s.Pending? || s.Accepted?
  }

  ghost predicate HonestRecord(versions: map<Id, int>, r: Attempt, task: Task) {
    && r.planId == task.planId && task.planId in versions
    && (NeedsCurrent(r.status) ==> r.planVersion == versions[task.planId])
  }

  ghost predicate TreeVersionsKnown(versions: map<Id, int>, tree: Tree) {
    forall k :: 0 <= k < |tree.plans| ==>
      tree.plans[k].id in versions && versions[tree.plans[k].id] == tree.plans[k].version
  }

  /** The ledger fits the tree: every task has a record, and none waits or is accepted at an old version. */
  ghost predicate Honest(d: Doc, tree: Tree) {
    && TreeVersionsKnown(d.versions, tree)
    && forall t :: Known(tree.tasks, t) ==>
         t in d.tasks && HonestRecord(d.versions, d.tasks[t], TaskOf(tree.tasks, t).value)
  }

  lemma PutKeepsHonest(d: Doc, tree: Tree, s: Attempt, c: Change)
    requires Coherent(d) && Honest(d, tree)
    requires s.taskId in d.tasks && Legal(d, d.tasks[s.taskId], s, c) && !c.VersionMoved?
    ensures Honest(Put(d, s, c), tree)
  {
  }

  // -- what one edit does to one record -----------------------------------------------

  /** A record after an edit, given the versions and the plans the edit changed. */
  function Edited(build: string, versions: map<Id, int>, r: Attempt, plan: seq<Task>, changed: set<Id>): Attempt
    requires r.planId in versions
  {
    var task := TaskOf(plan, r.taskId);
    if task.None? then r
    else var s := Synced(build, versions, r, task.value, changed); if s.Some? then s.value.0 else r
  }

  lemma {:induction false} SyncTasksAt(d: Doc, plan: seq<Task>, changed: set<Id>, t: Id)
    requires Coherent(d) && DistinctTasks(plan) && t in d.tasks
    requires forall k :: 0 <= k < |plan| ==> plan[k].id in d.tasks
    ensures SyncTasks(d, plan, changed).tasks[t] == Edited(d.build, d.versions, d.tasks[t], plan, changed)
    decreases plan
  {
    hide Synced, Legal;
    if plan != [] {
      FirstIsOnly(plan);
      SyncedIsLegal(d, plan[0], changed);
      SyncTasksAt(SyncTask(d, plan[0], changed), plan[1..], changed, t);
    }
  }

  /** The record of task t once an edit is on board, from the ledger and the edit alone. */
  ghost function AfterEdit(d: Doc, tree: Tree, t: Id): Attempt
    requires t in d.tasks || Known(tree.tasks, t)
    requires t in d.tasks ==> d.tasks[t].planId in WithVersions(d.versions, tree.plans)
  {
    if t in d.tasks then
      Edited(d.build, WithVersions(d.versions, tree.plans), d.tasks[t], tree.tasks, ChangedPlans(d.versions, tree.plans))
    else Fresh(d.build, TaskOf(tree.tasks, t).value)
  }

  /** A task the edit just added is already at the version the edit brought. */
  lemma {:induction false} FreshStaysPut(build: string, versions: map<Id, int>, plan: seq<Task>, changed: set<Id>, task: Task)
    requires task.planId in versions && TaskOf(plan, task.id) == Some(task)
    ensures Edited(build, versions, Fresh(build, task), plan, changed) == Fresh(build, task)
  {
  }

  lemma SyncAt(d: Doc, tree: Tree, t: Id)
    requires Coherent(d) && ValidTree(tree) && Fits(d, tree)
    ensures t in Sync(d, tree).tasks <==> t in d.tasks || Known(tree.tasks, t)
    ensures t in d.tasks ==> d.tasks[t].planId in WithVersions(d.versions, tree.plans)
    ensures t in Sync(d, tree).tasks ==> Sync(d, tree).tasks[t] == AfterEdit(d, tree, t)
  {
    hide WithTasks, WithVersions, AddedTasks, ChangedPlans, Covers, CrossInputsNamed, SoundDeps, Fresh, Edited;
    WithTasksAt(d.build, d.tasks, tree.tasks, t);
    if t in d.tasks {
      WithVersionsAt(d.versions, tree.plans, d.tasks[t].planId);
    }
    var w := Widen(d, tree);
    if t in w.tasks {
      SyncTasksAt(w, tree.tasks, ChangedPlans(d.versions, tree.plans), t);
      if t !in d.tasks {
        assert w.tasks[t] == Fresh(d.build, TaskOf(tree.tasks, t).value);
        FreshPlanKnown(d, tree, t);
        FreshStaysPut(d.build, w.versions, tree.tasks, ChangedPlans(d.versions, tree.plans), TaskOf(tree.tasks, t).value);
      }
    }
  }

  lemma {:induction false} FreshPlanKnown(d: Doc, tree: Tree, t: Id)
    requires ValidTree(tree) && Known(tree.tasks, t)
    ensures TaskOf(tree.tasks, t).value.planId in WithVersions(d.versions, tree.plans)
  {
    hide Covers, CrossInputsNamed, SoundDeps;
    WithVersionsAt(d.versions, tree.plans, TaskOf(tree.tasks, t).value.planId);
  }

  // -- honest versions -----------------------------------------------------------------

  /**
   * What a caller can see before the edit: the task kept its plan, and unless the plan's version
   * moves, a record that is waiting or accepted is already at the version the task names.
   */
  ghost predicate EditFits(d: Doc, tree: Tree, task: Task) {
    task.id in d.tasks ==>
      var r := d.tasks[task.id];
      && r.planId == task.planId
      && (task.planId in ChangedPlans(d.versions, tree.plans) || !NeedsCurrent(r.status) || r.planVersion == task.planVersion)
  }

  lemma {:induction false} EditedHonest(d: Doc, tree: Tree, t: Id)
    requires Coherent(d) && ValidTree(tree) && Known(tree.tasks, t)
    requires t in d.tasks ==> d.tasks[t].planId in WithVersions(d.versions, tree.plans)
    ensures
      var task := TaskOf(tree.tasks, t).value;
      HonestRecord(WithVersions(d.versions, tree.plans), AfterEdit(d, tree, t), task) <==> EditFits(d, tree, task)
  {
    hide ValidTree, WithVersions, AttemptId;
    TaskAssigned(tree, t);
    var task := TaskOf(tree.tasks, t).value;
    WithVersionsAt(d.versions, tree.plans, task.planId);
    var p := PlanOf(tree.plans, task.planId).value;
    assert task.planId in ChangedPlans(d.versions, tree.plans) <==> PlanChanged(d.versions, p) by {
      ChangedAt(d.versions, tree.plans, p);
    }
    hide ChangedPlans, TaskOf, PlanOf;
  }

  lemma ChangedAt(versions: map<Id, int>, plans: seq<PlanIdentity>, p: PlanIdentity)
    requires DistinctPlans(plans) && p in plans
    ensures p.id in ChangedPlans(versions, plans) <==> PlanChanged(versions, p)
  {
  }

  lemma {:induction false} PlanFound(plans: seq<PlanIdentity>, k: nat)
    requires DistinctPlans(plans) && k < |plans|
    ensures PlanOf(plans, plans[k].id) == Some(plans[k])
  {
  }

  lemma SyncVersions(d: Doc, tree: Tree)
    requires ValidTree(tree) && Fits(d, tree)
    ensures TreeVersionsKnown(Sync(d, tree).versions, tree)
  {
    hide Covers, CrossInputsNamed, SoundDeps, WithVersions, AddedTasks, ChangedPlans, WithTasks;
    forall k | 0 <= k < |tree.plans|
      ensures tree.plans[k].id in Sync(d, tree).versions && Sync(d, tree).versions[tree.plans[k].id] == tree.plans[k].version
    {
      WithVersionsAt(d.versions, tree.plans, tree.plans[k].id);
      PlanFound(tree.plans, k);
    }
  }

  /** After an edit the ledger is honest exactly when every task of the new tree fitted the edit. */
  lemma SyncHonestIff(d: Doc, tree: Tree)
    requires Coherent(d) && ValidTree(tree) && Fits(d, tree)
    ensures Honest(Sync(d, tree), tree) <==>
      forall t :: Known(tree.tasks, t) ==> EditFits(d, tree, TaskOf(tree.tasks, t).value)
  {
    hide Sync, Fits, ValidTree, EditFits, HonestRecord, TreeVersionsKnown, AfterEdit;
    var e := Sync(d, tree);
    SyncVersions(d, tree);
    SyncKeepsVersions(d, tree);
    forall t | Known(tree.tasks, t)
      ensures t in e.tasks &&
        (HonestRecord(e.versions, e.tasks[t], TaskOf(tree.tasks, t).value) <==> EditFits(d, tree, TaskOf(tree.tasks, t).value))
    {
      SyncAt(d, tree, t);
      EditedHonest(d, tree, t);
    }
  }

  lemma SyncKeepsVersions(d: Doc, tree: Tree)
    requires Fits(d, tree)
    ensures Sync(d, tree).versions == WithVersions(d.versions, tree.plans) && Sync(d, tree).build == d.build
  {
  }

  /** A caller's rule for edits: tasks keep their plan, and a task taken back comes with a new plan version. */
  ghost predicate CarefulEdit(d: Doc, before: Tree, after: Tree) {
    forall t :: Known(after.tasks, t) && t in d.tasks ==>
      var task := TaskOf(after.tasks, t).value;
      && d.tasks[t].planId == task.planId
      && (Known(before.tasks, t) || task.planId in ChangedPlans(d.versions, after.plans))
  }

  lemma {:induction false} CarefulEditFits(d: Doc, before: Tree, after: Tree, t: Id)
    requires Coherent(d) && Honest(d, before) && ValidTree(after) && CarefulEdit(d, before, after) && Known(after.tasks, t)
    ensures EditFits(d, after, TaskOf(after.tasks, t).value)
  {
  }

  lemma SyncKeepsHonest(d: Doc, before: Tree, after: Tree)
    requires Coherent(d) && Honest(d, before) && ValidTree(after) && Fits(d, after) && CarefulEdit(d, before, after)
    ensures Honest(Sync(d, after), after)
  {
    hide Honest, Sync, Fits, ValidTree, EditFits, CarefulEdit;
    forall t | Known(after.tasks, t) ensures EditFits(d, after, TaskOf(after.tasks, t).value) {
      CarefulEditFits(d, before, after, t);
    }
    SyncHonestIff(d, after);
  }

  /** The tree the ledger follows after a history of operations. */
  function TreeAfter(tree: Tree, ops: seq<Op>): Tree
    decreases ops
  {
    if ops == [] then tree
    else TreeAfter(if ops[0].SyncPlan? then ops[0].tree else tree, ops[1..])
  }

  ghost predicate CarefulRun(d: Doc, tree: Tree, ops: seq<Op>)
    decreases ops
  {
    ops == [] ||
    (&& Coherent(d) && Feasible(ops[0])
     && (ops[0].SyncPlan? ==> CarefulEdit(d, tree, ops[0].tree))
     && CarefulRun(After(d, ops[0]), if ops[0].SyncPlan? then ops[0].tree else tree, ops[1..]))
  }

  /** Over every careful history no task of the current tree waits, or stays accepted, at an old plan version. */
  lemma {:induction false} HonestOverHistories(d: Doc, born: set<Id>, tree: Tree, ops: seq<Op>, e: Doc)
    requires Coherent(d) && LogTrue(d, born) && Honest(d, tree)
    requires Leads(d, ops, e) && CarefulRun(d, tree, ops)
    ensures Honest(e, TreeAfter(tree, ops))
    decreases ops
  {
    hide LogTrue, Honest, ValidTree, Sync, Fits, CarefulEdit, Legal, Apply;
    if ops != [] {
      AfterKeeps(d, born, ops[0]);
      if ops[0].SyncPlan? {
        AfterSyncIsSync(d, ops[0].tree);
        SyncKeepsHonest(d, tree, ops[0].tree);
      } else if After(d, ops[0]) != d {
        var s, c := ApplyIsLegal(d, ops[0]);
        PutKeepsHonest(d, tree, s, c);
      }
      HonestOverHistories(After(d, ops[0]), born, if ops[0].SyncPlan? then ops[0].tree else tree, ops[1..], e);
    }
  }

  lemma AfterSyncIsSync(d: Doc, tree: Tree)
    requires Coherent(d) && ValidTree(tree)
    ensures Fits(d, tree) && After(d, SyncPlan(tree)) == Sync(d, tree)
  {
    hide Sync, Fits, ValidTree, Ledger.Begin, SubmitResult, RecordReview, RecordRepair, Ledger.Accept, Ledger.Block,
      Ledger.Retry, Ledger.Repair, NoteThread, MarkArchived, Ledger.Rework;
    WidenFits(d, tree);
  }

  // -- nothing is lost ---------------------------------------------------------------------

  ghost predicate LosesNothing(r: Attempt, s: Attempt) {
    && s.lineageRepairs == r.lineageRepairs
    && (r.status.Running? || r.status.Blocked? ==> s == r)
    && (s.number == r.number ==> s == r.(planVersion := s.planVersion))
    && (s.number != r.number ==>
          && (r.status.Accepted? || r.status.Finished?) && s.number == r.number + 1 && s.status.Pending?
          && s.previousCommit == if r.commit.Some? then r.commit else r.previousCommit)
  }

  lemma EditedLosesNothing(build: string, versions: map<Id, int>, r: Attempt, plan: seq<Task>, changed: set<Id>)
    requires r.planId in versions
    ensures LosesNothing(r, Edited(build, versions, r, plan, changed))
  {
  }

  /** An edit starts at most one new attempt, never touches running or blocked work, and keeps results and budgets. */
  lemma SyncLosesNothing(d: Doc, tree: Tree, t: Id)
    requires Coherent(d) && ValidTree(tree) && Fits(d, tree) && t in d.tasks
    ensures t in Sync(d, tree).tasks
    ensures LosesNothing(d.tasks[t], Sync(d, tree).tasks[t])
  {
    hide LosesNothing, Sync, Fits, ValidTree, Edited, ChangedPlans, WithVersions;
    SyncAt(d, tree, t);
    EditedLosesNothing(d.build, WithVersions(d.versions, tree.plans), d.tasks[t], tree.tasks, ChangedPlans(d.versions, tree.plans));
  }

  // -- what an edit does, task by task -------------------------------------------------------

  /** A task's first attempt: waiting, at the version the task names, with nothing to show. */
  ghost predicate FirstAttempt(build: string, task: Task, r: Attempt) {
    && r.taskId == task.id && r.planId == task.planId && r.planVersion == task.planVersion
    && r.number == 1 && r.attemptId == AttemptId(build, task.id, 1) && r.status.Pending? && !r.accepted
    && r.commit.None? && r.checks == [] && r.review == [] && r.repairs == 0 && r.reason.None?
    && r.thread.None? && !r.archived && r.baseCommit.None? && r.lineageRepairs == 0 && r.previousFailure.None?
    && r.reworkReason.None? && r.previousCommit.None? && r.earlierThreads == []
  }

  /** The edit brought a new version of the task's plan. */
  ghost predicate Moved(d: Doc, tree: Tree, planId: Id) {
    exists k :: 0 <= k < |tree.plans| && tree.plans[k].id == planId && (planId !in d.versions || d.versions[planId] != tree.plans[k].version)
  }

  /** What an edit makes of record r of a listed task. */
  ghost predicate EditedTo(e: Doc, moved: bool, task: Task, r: Attempt, s: Attempt)
    requires r.planId in e.versions
  {
    if !moved || r.status.Running? || r.status.Blocked? then s == r
    else if r.status.Pending? then s == r.(planVersion := task.planVersion)
    else Legal(e, r, s, Reworked) && s.reworkReason == Some(PLAN_CHANGED)
  }

  lemma {:induction false} MovedIs(d: Doc, tree: Tree, planId: Id)
    ensures Moved(d, tree, planId) <==> planId in ChangedPlans(d.versions, tree.plans)
  {
  }

  lemma {:induction false} EditedIs(e: Doc, r: Attempt, plan: seq<Task>, changed: set<Id>)
    requires r.planId in e.versions
    ensures
      var (task, s) := (TaskOf(plan, r.taskId), Edited(e.build, e.versions, r, plan, changed));
      if task.None? then s == r else EditedTo(e, task.value.planId in changed, task.value, r, s)
  {
    hide AttemptId;
  }

  /**
   * An edit, task by task. A new task gets its first attempt; of the tasks whose plan has a new version the
   * waiting ones go to the version they name and the settled ones start over, with their commit kept as the
   * previous one; running and blocked ones, and all other tasks, stay as they are.
   */
  lemma {:induction false} SyncTaskByTask(d: Doc, tree: Tree, t: Id)
    requires Coherent(d) && ValidTree(tree) && Fits(d, tree) && (t in d.tasks || Known(tree.tasks, t))
    ensures t in Sync(d, tree).tasks && (t in d.tasks ==> d.tasks[t].planId in Sync(d, tree).versions)
    ensures
      var (task, s) := (TaskOf(tree.tasks, t), Sync(d, tree).tasks[t]);
      if t !in d.tasks then FirstAttempt(d.build, task.value, s)
      else if task.None? then s == d.tasks[t]
      else EditedTo(Sync(d, tree), Moved(d, tree, task.value.planId), task.value, d.tasks[t], s)
  {
    hide Sync, Fits, ValidTree, Edited, EditedTo, ChangedPlans, WithVersions, Moved, AttemptId;
    SyncAt(d, tree, t);
    SyncKeepsVersions(d, tree);
    if t in d.tasks {
      EditedIs(Sync(d, tree), d.tasks[t], tree.tasks, ChangedPlans(d.versions, tree.plans));
      if Known(tree.tasks, t) {
        MovedIs(d, tree, TaskOf(tree.tasks, t).value.planId);
      }
    }
  }

  /** Every plan of the tree is at its new version, and the version of any other plan stays. */
  lemma SyncTakesVersions(d: Doc, tree: Tree, v: Id)
    requires Coherent(d) && ValidTree(tree) && Fits(d, tree)
    ensures v in Sync(d, tree).versions <==> v in d.versions || exists k :: 0 <= k < |tree.plans| && tree.plans[k].id == v
    ensures forall k :: 0 <= k < |tree.plans| && tree.plans[k].id == v ==> Sync(d, tree).versions[v] == tree.plans[k].version
    ensures (forall k :: 0 <= k < |tree.plans| ==> tree.plans[k].id != v) && v in d.versions ==> Sync(d, tree).versions[v] == d.versions[v]
  {
    hide Sync, Fits, Covers, CrossInputsNamed, SoundDeps, WithVersions;
    SyncKeepsVersions(d, tree);
    WithVersionsAt(d.versions, tree.plans, v);
    forall k | 0 <= k < |tree.plans| && tree.plans[k].id == v ensures PlanOf(tree.plans, v) == Some(tree.plans[k]) {
      PlanFound(tree.plans, k);
    }
  }

  /** The log entry of an edit names the plans with a new version and the tasks it added; without any there is none. */
  lemma EditIsLogged(d: Doc, tree: Tree)
    requires Coherent(d) && ValidTree(tree) && Fits(d, tree)
    ensures
      var (moved, added) := ((set v | v in Sync(d, tree).versions && Moved(d, tree, v)), AddedTasks(d.tasks, tree.tasks));
      && (forall t :: t in added <==> t !in d.tasks && Known(tree.tasks, t))
      && d.events + (if moved == {} && added == [] then [] else [PlanEdited(moved, added)]) <= Sync(d, tree).events
  {
    hide Covers, CrossInputsNamed, SoundDeps, WithVersions, WithTasks, AddedTasks;
    forall t ensures t in AddedTasks(d.tasks, tree.tasks) <==> t !in d.tasks && Known(tree.tasks, t) {
      WithTasksAt(d.build, d.tasks, tree.tasks, t);
    }
    MovedPlans(d, tree);
    SyncAddsEvents(Widen(d, tree), tree.tasks, ChangedPlans(d.versions, tree.plans));
  }

  lemma MovedPlans(d: Doc, tree: Tree)
    requires Coherent(d) && ValidTree(tree) && Fits(d, tree)
    ensures (set v | v in Sync(d, tree).versions && Moved(d, tree, v)) == ChangedPlans(d.versions, tree.plans)
  {
    hide Sync, Fits, ValidTree, Moved, ChangedPlans;
    forall v ensures v in Sync(d, tree).versions && Moved(d, tree, v) <==> v in ChangedPlans(d.versions, tree.plans) {
      MovedIs(d, tree, v);
      SyncTakesVersions(d, tree, v);
      MovedIsListed(d, tree, v);
    }
  }

  lemma MovedIsListed(d: Doc, tree: Tree, v: Id)
    ensures Moved(d, tree, v) ==> exists k :: 0 <= k < |tree.plans| && tree.plans[k].id == v
  {
  }

  lemma {:induction false} SyncAddsEvents(d: Doc, plan: seq<Task>, changed: set<Id>)
    requires Coherent(d) && forall k :: 0 <= k < |plan| ==> plan[k].id in d.tasks
    ensures d.events <= SyncTasks(d, plan, changed).events
    decreases plan
  {
    hide Synced;
    if plan != [] {
      SyncAddsEvents(SyncTask(d, plan[0], changed), plan[1..], changed);
    }
  }

  /** Reading the same plan again changes nothing at all: not a record, not a version, not an event. */
  lemma SyncTwice(d: Doc, tree: Tree)
    requires Coherent(d) && ValidTree(tree) && TreeVersionsKnown(d.versions, tree)
    requires forall t :: Known(tree.tasks, t) ==> t in d.tasks
    ensures Fits(d, tree) && Sync(d, tree) == d
  {
    hide Covers, CrossInputsNamed, SoundDeps;
    WidenFits(d, tree);
    assert ChangedPlans(d.versions, tree.plans) == {};
    VersionsSettle(d.versions, tree.plans);
    TasksSettle(d.build, d.tasks, tree.tasks);
    assert Widen(d, tree) == d;
    NothingChanged(d, tree.tasks);
  }

  lemma {:induction false} VersionsSettle(versions: map<Id, int>, plans: seq<PlanIdentity>)
    requires forall k :: 0 <= k < |plans| ==> plans[k].id in versions && versions[plans[k].id] == plans[k].version
    ensures WithVersions(versions, plans) == versions
    decreases plans
  {
    if plans != [] {
      assert versions[plans[0].id := plans[0].version] == versions;
      assert forall k :: 0 <= k < |plans[1..]| ==> plans[1..][k] == plans[k + 1];
      VersionsSettle(versions, plans[1..]);
    }
  }

  lemma {:induction false} TasksSettle(build: string, tasks: map<Id, Attempt>, plan: seq<Task>)
    requires forall t :: Known(plan, t) ==> t in tasks
    ensures WithTasks(build, tasks, plan) == tasks && AddedTasks(tasks, plan) == []
    decreases plan
  {
    if plan != [] {
      assert Known(plan, plan[0].id);
      forall t | Known(plan[1..], t) ensures t in tasks {
        assert Known(plan, t);
      }
      TasksSettle(build, tasks, plan[1..]);
    }
  }

  lemma {:induction false} NothingChanged(d: Doc, plan: seq<Task>)
    requires Coherent(d) && forall k :: 0 <= k < |plan| ==> plan[k].id in d.tasks
    ensures SyncTasks(d, plan, {}) == d
    decreases plan
  {
    if plan != [] {
      assert SyncTask(d, plan[0], {}) == d;
      NothingChanged(d, plan[1..]);
    }
  }
}
