/** What one run of the build loop needs and gives back, and what follows over many of them. */
module RunResults {
  import opened Common
  import opened Plan
  import opened Text
  import opened Ledger
  import History
  import opened PlanEdits
  import opened ManifestSteps
  import opened ManifestLoop
  import opened Courses
  import opened LoopRuns

  // -- what a run needs, and gives back ---------------------------------------------------------------

  /** A ledger that followed one plan may be run with another: the edit between them is careful, and nothing is half recorded. */
  ghost predicate MayRun(d: Doc, before: Tree, plan: Tree, born: set<Id>) {
    Coherent(d) && History.LogTrue(d, born) && Honest(d, before) && CarefulEdit(d, before, plan) && NoneFinished(d)
  }

  /** Every new build may be run. */
  lemma NewBuildMayRun(tree: Tree, build: string)
    requires ValidTree(tree)
    ensures MayRun(History.NewDoc(tree, build), tree, tree, History.NewDoc(tree, build).tasks.Keys)
  {
    hide ValidTree, WithTasks, WithVersions, History.LogTrue;
    var d := History.NewDoc(tree, build);
    History.NewDocTrue(tree, build);
    TaskAssigned(tree, Id(""));
    forall k | 0 <= k < |tree.plans|
      ensures tree.plans[k].id in d.versions && d.versions[tree.plans[k].id] == tree.plans[k].version
    {
      WithVersionsAt(map[], tree.plans, tree.plans[k].id);
      PlanFound(tree.plans, k);
    }
    forall t ensures t in d.tasks <==> Known(tree.tasks, t)
      ensures t in d.tasks ==> d.tasks[t] == Fresh(build, TaskOf(tree.tasks, t).value)
    {
      WithTasksAt(build, map[], tree.tasks, t);
    }
    forall t | Known(tree.tasks, t) ensures HonestRecord(d.versions, d.tasks[t], TaskOf(tree.tasks, t).value) {
      TaskAssigned(tree, t);
      WithVersionsAt(map[], tree.plans, TaskOf(tree.tasks, t).value.planId);
    }
  }

  lemma SamePlanIsCareful(d: Doc, plan: Tree)
    requires Honest(d, plan)
    ensures CarefulEdit(d, plan, plan)
  {
  }

  /** Taking the plan on board is a run's first write. */
  lemma {:induction false} FirstPoint(d0: Doc, born: set<Id>, before: Tree, d: Doc, plan: Tree, start: nat, ops: seq<History.Op>, world: World)
    requires MayRun(d0, before, plan, born) && Tracked(d0, d, plan, start, ops, world)
    ensures ValidTree(plan) && Fits(d0, plan) && |ops| >= 1 && At(d0, ops, 1) == Sync(d0, plan)
    ensures Coherent(Sync(d0, plan)) && Honest(Sync(d0, plan), plan)
  {
    hide ValidTree, Sync, Fits, CarefulEdit, Honest, History.LogTrue, History.Leads, History.After, PointKept, WriteKept, CleansUp, At;
    AtStep(d0, ops, d, 0);
    NothingWritten(d0, ops);
    AfterSyncIsSync(d0, plan);
    History.AfterKeeps(d0, born, History.SyncPlan(plan));
    SyncKeepsHonest(d0, before, plan);
  }

  lemma {:induction false} NothingWritten(d: Doc, ops: seq<History.Op>)
    ensures At(d, ops, 0) == d
  {
  }

  lemma OrdinaryKeepsHonest(d: Doc, op: History.Op, tree: Tree)
    requires Coherent(d) && Honest(d, tree) && !op.SyncPlan?
    ensures Honest(History.After(d, op), tree)
  {
    hide History.Apply, Honest, History.Legal;
    if History.After(d, op) != d {
      var s, c := History.ApplyIsLegal(d, op);
      PutKeepsHonest(d, tree, s, c);
    }
  }

  /** From the first write on the ledger fits the plan, while a crash is cleared up as well as afterwards. */
  lemma {:induction false} PointsHonest(d0: Doc, born: set<Id>, before: Tree, d: Doc, plan: Tree, start: nat,
                                        ops: seq<History.Op>, world: World, i: nat)
    requires MayRun(d0, before, plan, born) && Tracked(d0, d, plan, start, ops, world) && 1 <= i <= |ops|
    ensures Honest(At(d0, ops, i), plan)
  {
    hide MayRun, Honest, History.Leads, History.After, WithinBudget, At, WriteKept, Flying;
    if i == 1 {
      FirstPoint(d0, born, before, d, plan, start, ops, world);
    } else if i >= start {
      assert PointKept(d0, plan, start, ops, i);
    } else {
      PointsHonest(d0, born, before, d, plan, start, ops, world, i - 1);
      AtStep(d0, ops, d, i - 1);
      OrdinaryKeepsHonest(At(d0, ops, i - 1), ops[i - 1], plan);
    }
  }

  /** The plan the ledger follows after the first i writes of a run. */
  function Followed(before: Tree, plan: Tree, i: nat): Tree {
    if i == 0 then before else plan
  }

  /**
   * Cut off after any write, or ended, a run leaves a ledger that may be run again, with the same plan or
   * any careful edit of it, unless a result was just submitted and has no verdict yet.
   */
  lemma {:induction false} MayRunAgain(d0: Doc, born: set<Id>, before: Tree, d: Doc, plan: Tree, start: nat, ops: seq<History.Op>, world: World,
                    i: nat, next: Tree)
    requires MayRun(d0, before, plan, born) && Tracked(d0, d, plan, start, ops, world) && i <= |ops|
    requires NoneFinished(At(d0, ops, i))
    requires next == plan || CarefulEdit(At(d0, ops, i), Followed(before, plan, i), next)
    ensures MayRun(At(d0, ops, i), Followed(before, plan, i), next, born)
  {
    hide Honest, CarefulEdit, NoneFinished, History.LogTrue, History.Leads, History.After, At, PointKept, WriteKept, BeginsIdle;
    if i == 0 {
      NothingWritten(d0, ops);
    } else {
      PointsHonest(d0, born, before, d, plan, start, ops, world, i);
      LeadsPrefix(d0, ops, d, i);
      History.HistoryKeeps(d0, born, ops[..i], At(d0, ops, i));
      if next == plan {
        SamePlanIsCareful(At(d0, ops, i), plan);
      }
    }
  }

  // -- workers ---------------------------------------------------------------------------------------

  /** Clearing up starts nobody; neither does taking the plan on board. */
  lemma {:induction false} NobodyStarted(d0: Doc, d: Doc, plan: Tree, start: nat, ops: seq<History.Op>, world: World, i: nat, t: Id)
    requires Tracked(d0, d, plan, start, ops, world) && i <= start
    ensures History.Starts(At(d0, ops, i).events, t) == History.Starts(d0.events, t)
  {
    hide History.Starts, History.Leads, History.After, PointKept, WriteKept, At;
    if i == 0 {
      NothingWritten(d0, ops);
    } else {
      NobodyStarted(d0, d, plan, start, ops, world, i - 1, t);
      AtStep(d0, ops, d, i - 1);
      NoBeginYet(d0, plan, start, ops, i - 1);
      History.OnlyBeginStarts(At(d0, ops, i - 1), ops[i - 1], t);
    }
  }

  lemma NoBeginYet(d0: Doc, plan: Tree, start: nat, ops: seq<History.Op>, i: nat)
    requires BeginsIdle(d0, plan, start, ops) && i < start
    ensures !ops[i].Begin?
  {
    hide At, InProgress, CleansUp;
    if i > 0 {
      FeasibleIfClearing(At(d0, ops, i), ops[i], plan);
    }
  }

  /** At every point of a run a task has got at most two workers of it. */
  lemma {:induction false} TwoWorkersARun(d0: Doc, d: Doc, plan: Tree, start: nat, ops: seq<History.Op>, world: World, i: nat, t: Id)
    requires Tracked(d0, d, plan, start, ops, world) && i <= |ops|
    ensures History.Starts(At(d0, ops, i).events, t) <= History.Starts(d0.events, t) + 2
  {
    hide History.Starts, History.Leads, At, WriteKept, SafePoint, CleansUp, InProgress;
    if i <= start {
      NobodyStarted(d0, d, plan, start, ops, world, i, t);
    } else {
      assert PointKept(d0, plan, start, ops, i);
      NobodyStarted(d0, d, plan, start, ops, world, start, t);
    }
  }

  // -- many runs ---------------------------------------------------------------------------------------

  /** One run of the loop: the plan it followed, what it wrote, what it was told, and after how many writes it was cut off. */
  datatype Run = Run(plan: Tree, start: nat, ops: seq<History.Op>, world: World, end: Doc, cut: nat)

  ghost predicate RunFrom(d: Doc, run: Run) {
    Tracked(d, run.end, run.plan, run.start, run.ops, run.world) && run.cut <= |run.ops|
  }

  ghost function LeftBy(d: Doc, run: Run): Doc {
    if run.cut <= |run.ops| then At(d, run.ops, run.cut) else d
  }

  /** Runs one after the other over one ledger, after endings, stops, crashes and careful edits. */
  ghost predicate InSuccession(d: Doc, before: Tree, runs: seq<Run>, born: set<Id>)
    decreases runs
  {
    runs == [] ||
    (&& MayRun(d, before, runs[0].plan, born) && RunFrom(d, runs[0])
     && InSuccession(LeftBy(d, runs[0]), Followed(before, runs[0].plan, runs[0].cut), runs[1..], born))
  }

  function AllOps(runs: seq<Run>): seq<History.Op>
    decreases runs
  {
    if runs == [] then [] else runs[0].ops[..Min(runs[0].cut, |runs[0].ops|)] + AllOps(runs[1..])
  }

  ghost function LastDoc(d: Doc, runs: seq<Run>): Doc
    decreases runs
  {
    if runs == [] then d else LastDoc(LeftBy(d, runs[0]), runs[1..])
  }

  /** Any number of runs is one history, and every run gives a task at most two workers. */
  lemma {:induction false} RunsJoin(d: Doc, before: Tree, runs: seq<Run>, born: set<Id>)
    requires InSuccession(d, before, runs, born)
    ensures History.Leads(d, AllOps(runs), LastDoc(d, runs))
    ensures forall t :: History.Starts(LastDoc(d, runs).events, t) <= History.Starts(d.events, t) + 2 * |runs|
    decreases runs
  {
    hide MayRun, Tracked, History.Leads, History.Starts, At;
    if runs == [] {
      NoSteps(d);
    } else {
      var run := runs[0];
      RunLeads(d, run);
      RunsJoin(LeftBy(d, run), Followed(before, run.plan, run.cut), runs[1..], born);
      LeadsJoin(d, run.ops[..run.cut], LeftBy(d, run), AllOps(runs[1..]), LastDoc(d, runs));
    }
  }

  lemma {:induction false} RunLeads(d: Doc, run: Run)
    requires RunFrom(d, run)
    ensures History.Leads(d, run.ops[..run.cut], LeftBy(d, run))
    ensures forall t :: History.Starts(LeftBy(d, run).events, t) <= History.Starts(d.events, t) + 2
  {
    hide History.Starts, History.Leads, PointKept, WriteKept, BeginsIdle, At;
    LeadsPrefix(d, run.ops, run.end, run.cut);
    forall t ensures History.Starts(LeftBy(d, run).events, t) <= History.Starts(d.events, t) + 2 {
      TwoWorkersARun(d, run.end, run.plan, run.start, run.ops, run.world, run.cut, t);
    }
  }

  // -- many runs of one plan ---------------------------------------------------------------------------

  /** Whatever is under way is at its plan's version. */
  ghost predicate UnderWayCurrent(d: Doc, plan: Tree) {
    forall t :: Known(plan.tasks, t) && t in d.tasks && (d.tasks[t].status.Running? || d.tasks[t].status.Finished?) ==> AtCurrent(d, t)
  }

  /** Workers a task of the plan has had, and those it can still get. */
  ghost predicate Spends(b: Doc, d: Doc, plan: Tree) {
    forall t :: Known(plan.tasks, t) ==>
      History.Starts(d.events, t) + Left(d, t) <= History.Starts(b.events, t) + Left(b, t)
  }

  lemma ClearingTouches(d: Doc, op: History.Op, plan: Tree)
    requires Coherent(d) && CleansUp(d, op, plan) && (Known(plan.tasks, op.task) ==> AtCurrent(d, op.task))
    ensures History.Feasible(op)
    ensures
      var e := History.After(d, op);
      && OnlyTouches(d, e, op.task)
      && (Known(plan.tasks, op.task) ==> AtCurrent(e, op.task) && Left(e, op.task) <= Left(d, op.task))
  {
    hide Clean, CleanAll, AttemptId, Known;
  }

  lemma ClearingSpends(d: Doc, op: History.Op, plan: Tree)
    requires Coherent(d) && CleansUp(d, op, plan) && UnderWayCurrent(d, plan)
    ensures History.Feasible(op) && UnderWayCurrent(History.After(d, op), plan) && Spends(d, History.After(d, op), plan)
  {
    ClearingTouches(d, op, plan);
    hide History.Starts, History.After, Known;
    forall t ensures History.Starts(History.After(d, op).events, t) == History.Starts(d.events, t) {
      History.OnlyBeginStarts(d, op, t);
    }
  }

  lemma SpendsOn(b: Doc, d: Doc, e: Doc, plan: Tree)
    requires Spends(b, d, plan) && Spends(d, e, plan)
    ensures Spends(b, e, plan)
  {
    hide History.Starts, Left, Known;
    forall t | Known(plan.tasks, t) ensures History.Starts(e.events, t) + Left(e, t) <= History.Starts(b.events, t) + Left(b, t) {
      assert History.Starts(d.events, t) + Left(d, t) <= History.Starts(b.events, t) + Left(b, t);
    }
  }

  /** A run of the plan the ledger already follows hands out no more workers than were left, at any point of it. */
  lemma {:induction false} SamePlanSpends(d0: Doc, born: set<Id>, d: Doc, plan: Tree, start: nat, ops: seq<History.Op>, world: World, i: nat)
    requires MayRun(d0, plan, plan, born) && Tracked(d0, d, plan, start, ops, world) && i <= |ops| && UnderWayCurrent(d0, plan)
    ensures Spends(d0, At(d0, ops, i), plan)
    ensures i <= start ==> UnderWayCurrent(At(d0, ops, i), plan)
  {
    hide MayRun, Spends, UnderWayCurrent, History.Leads, History.After, At, WriteKept, SafePoint, WithinBudget, CleansUp, InProgress;
    if i == 0 {
      NothingWritten(d0, ops);
      SpendsItself(d0, plan);
    } else if i == 1 {
      FirstPoint(d0, born, plan, d, plan, start, ops, world);
      SamePlanStays(d0, born, plan);
      SpendsItself(d0, plan);
    } else if i <= start {
      SamePlanSpends(d0, born, d, plan, start, ops, world, i - 1);
      AtStep(d0, ops, d, i - 1);
      ClearingSpends(At(d0, ops, i - 1), ops[i - 1], plan);
      SpendsOn(d0, At(d0, ops, i - 1), At(d0, ops, i), plan);
    } else {
      SamePlanSpends(d0, born, d, plan, start, ops, world, start);
      assert PointKept(d0, plan, start, ops, i);
      BudgetSpends(At(d0, ops, start), At(d0, ops, i), plan);
      SpendsOn(d0, At(d0, ops, start), At(d0, ops, i), plan);
    }
  }

  lemma SpendsItself(d: Doc, plan: Tree)
    ensures Spends(d, d, plan)
  {
  }

  lemma BudgetSpends(b: Doc, d: Doc, plan: Tree)
    requires WithinBudget(b, d)
    ensures Spends(b, d, plan)
  {
    hide Left, History.Starts, Known;
  }

  lemma SamePlanStays(d: Doc, born: set<Id>, plan: Tree)
    requires MayRun(d, plan, plan, born) && ValidTree(plan) && Fits(d, plan)
    ensures Sync(d, plan) == d
  {
    hide ValidTree, Fits, Sync, History.LogTrue, CarefulEdit;
    SyncTwice(d, plan);
  }

  /** Where such a run may be followed by another, whatever is under way is current again. */
  lemma {:induction false} StaysCurrent(d0: Doc, born: set<Id>, d: Doc, plan: Tree, start: nat, ops: seq<History.Op>, world: World, i: nat)
    requires MayRun(d0, plan, plan, born) && Tracked(d0, d, plan, start, ops, world) && i <= |ops| && UnderWayCurrent(d0, plan)
    requires NoneFinished(At(d0, ops, i))
    ensures UnderWayCurrent(At(d0, ops, i), plan)
  {
    hide MayRun, History.Leads, History.After, At, WriteKept, WithinBudget, CleansUp, BeginsIdle, Spends;
    if i <= start {
      SamePlanSpends(d0, born, d, plan, start, ops, world, i);
    } else {
      assert PointKept(d0, plan, start, ops, i);
      SafeIsCurrent(At(d0, ops, i), plan);
    }
  }

  lemma SafeIsCurrent(d: Doc, plan: Tree)
    requires SafePoint(d, plan) && NoneFinished(d)
    ensures UnderWayCurrent(d, plan)
  {
    hide Honest, CanRunTogether, Known;
    forall t | Known(plan.tasks, t) && t in d.tasks && d.tasks[t].status.Running? ensures AtCurrent(d, t) {
      assert t in InProgress(d, plan);
    }
  }

  /** Over any number of runs of one plan, crashes included, workers had and workers left never add up to more: two in all. */
  lemma {:induction false} TwoWorkersInAll(d: Doc, plan: Tree, runs: seq<Run>, born: set<Id>)
    requires InSuccession(d, plan, runs, born) && UnderWayCurrent(d, plan)
    requires forall k :: 0 <= k < |runs| ==> runs[k].plan == plan
    ensures Spends(d, LastDoc(d, runs), plan)
    ensures forall t :: Known(plan.tasks, t) ==>
      History.Starts(LastDoc(d, runs).events, t) <= History.Starts(d.events, t) + 2
    decreases runs
  {
    hide MayRun, Tracked, UnderWayCurrent, Spends, At, History.Starts, Known;
    if runs == [] {
      SpendsItself(d, plan);
    } else {
      var run, next := runs[0], LeftBy(d, runs[0]);
      SamePlanSpends(d, born, run.end, plan, run.start, run.ops, run.world, run.cut);
      if |runs| > 1 {
        NoneLeftFinished(next, plan, runs[1..], born);
        StaysCurrent(d, born, run.end, plan, run.start, run.ops, run.world, run.cut);
        TwoWorkersInAll(next, plan, runs[1..], born);
        SpendsOn(d, next, LastDoc(next, runs[1..]), plan);
      } else {
        assert LastDoc(next, runs[1..]) == next;
      }
    }
    TwoAtMost(d, LastDoc(d, runs), plan);
  }

  lemma {:induction false} NoneLeftFinished(d: Doc, plan: Tree, runs: seq<Run>, born: set<Id>)
    requires InSuccession(d, plan, runs, born) && runs != []
    ensures NoneFinished(d)
  {
    hide RunFrom, Honest, CarefulEdit, History.LogTrue;
  }

  lemma TwoAtMost(b: Doc, d: Doc, plan: Tree)
    requires Spends(b, d, plan)
    ensures forall t :: Known(plan.tasks, t) ==> History.Starts(d.events, t) <= History.Starts(b.events, t) + 2
  {
    hide History.Starts, Known;
  }

  lemma NewBuildIsCurrent(tree: Tree, build: string)
    requires ValidTree(tree)
    ensures UnderWayCurrent(History.NewDoc(tree, build), tree)
  {
    hide ValidTree, WithTasks, WithVersions;
    var d := History.NewDoc(tree, build);
    forall t | t in d.tasks ensures d.tasks[t].status.Pending? {
      TaskAssigned(tree, t);
      WithTasksAt(build, map[], tree.tasks, t);
    }
  }

  lemma NobodyYet(tree: Tree, build: string)
    ensures forall t :: History.Starts(History.NewDoc(tree, build).events, t) == 0
  {
  }

  /**
   * However often a new build is run again, edited and crashed in between, no attempt is ever begun twice;
   * and while its plan is not edited no task gets more than two workers in all.
   */
  lemma {:induction false} OverAllRuns(tree: Tree, build: string, runs: seq<Run>)
    requires ValidTree(tree) && InSuccession(History.NewDoc(tree, build), tree, runs, History.NewDoc(tree, build).tasks.Keys)
    ensures forall t, n: nat :: History.Begun(LastDoc(History.NewDoc(tree, build), runs).events, t, n) <= 1
    ensures forall t :: History.Repairs(LastDoc(History.NewDoc(tree, build), runs).events, t) <= 1
    ensures forall t :: History.Starts(LastDoc(History.NewDoc(tree, build), runs).events, t) <= 2 * |runs|
    ensures (forall k :: 0 <= k < |runs| ==> runs[k].plan == tree) ==>
      forall t :: Known(tree.tasks, t) ==> History.Starts(LastDoc(History.NewDoc(tree, build), runs).events, t) <= 2
  {
    hide ValidTree, InSuccession, UnderWayCurrent, Spends, Known, History.NewDoc, History.Leads, History.Begun, History.Repairs,
      History.Starts, LastDoc;
    var d := History.NewDoc(tree, build);
    NobodyYet(tree, build);
    NewBuildIsCurrent(tree, build);
    RunsJoin(d, tree, runs, d.tasks.Keys);
    History.ExactlyOnce(tree, build, AllOps(runs), LastDoc(d, runs));
    if forall k :: 0 <= k < |runs| ==> runs[k].plan == tree {
      TwoWorkersInAll(d, tree, runs, d.tasks.Keys);
    }
  }

  // -- when every worker delivers ------------------------------------------------------------------------

  /** Every worker of every attempt comes back with good work. */
  ghost predicate Delivering(world: World) {
    forall t, n :: Good(world.answers(t, n))
  }

  /** No task of the plan is blocked or was interrupted. */
  ghost predicate Unhindered(d: Doc, plan: Tree) {
    forall t :: Known(plan.tasks, t) && t in d.tasks ==> !d.tasks[t].status.Blocked? && !d.tasks[t].status.Running?
  }

  ghost predicate NothingBlocked(d: Doc, plan: Tree) {
    forall t :: Known(plan.tasks, t) && t in d.tasks ==> !d.tasks[t].status.Blocked?
  }

  lemma SyncHindersNobody(d: Doc, plan: Tree)
    requires Coherent(d) && ValidTree(plan) && Fits(d, plan) && NoneFinished(d) && Unhindered(d, plan)
    ensures Unhindered(Sync(d, plan), plan) && NoneFinished(Sync(d, plan))
  {
    hide ValidTree, Fits, Sync, Known, Edited, AttemptId;
    forall t | t in Sync(d, plan).tasks
      ensures !Sync(d, plan).tasks[t].status.Finished?
      ensures Known(plan.tasks, t) ==> !Sync(d, plan).tasks[t].status.Blocked? && !Sync(d, plan).tasks[t].status.Running?
    {
      SyncAt(d, plan, t);
      if t in d.tasks {
        SyncLosesNothing(d, plan, t);
      }
    }
  }

  /** Without interrupted attempts there is nothing to clear up. */
  lemma {:induction false} StartsAtOnce(d0: Doc, born: set<Id>, before: Tree, d: Doc, plan: Tree, start: nat, ops: seq<History.Op>, world: World)
    requires MayRun(d0, before, plan, born) && Tracked(d0, d, plan, start, ops, world)
    requires Unhindered(d0, plan) && plan.tasks != []
    ensures start == 1 && NothingBlocked(At(d0, ops, 1), plan)
  {
    hide ValidTree, Fits, Sync, History.LogTrue, Honest, CarefulEdit, PointKept, WriteKept, History.Leads, At, InProgress, Known;
    FirstPoint(d0, born, before, d, plan, start, ops, world);
    SyncHindersNobody(d0, plan);
    if |ops| > 1 {
      NothingToClear(At(d0, ops, 1), ops[1], plan);
    }
  }

  lemma NothingToClear(d: Doc, op: History.Op, plan: Tree)
    requires Unhindered(d, plan) && NoneFinished(d) && plan.tasks != []
    ensures !CleansUp(d, op, plan)
  {
  }

  lemma OnlyBlockBlocks(d: Doc, op: History.Op, plan: Tree)
    requires Coherent(d) && NothingBlocked(d, plan) && !op.SyncPlan? && !op.Block?
    ensures NothingBlocked(History.After(d, op), plan)
  {
    hide History.Apply, Known;
    if History.After(d, op) != d {
      var s, c := History.ApplyIsLegal(d, op);
    }
  }

  lemma GoodWorkIsNotBlocked(before: Doc, op: History.Op, after: Doc, tree: Tree, log: nat, world: World)
    requires Proper(before, op, after, tree, log, world) && Delivering(world)
    ensures !op.SyncPlan? && !op.Block?
  {
    hide Lowers, InProgress;
    if !op.Begin? {
      assert Good(world.answers(op.task, before.tasks[op.task].number));
    }
  }

  /** When every worker delivers, no task of an unhindered plan is ever blocked. */
  lemma {:induction false} DeliveredIsNotBlocked(d0: Doc, born: set<Id>, before: Tree, d: Doc, plan: Tree, start: nat,
                                                 ops: seq<History.Op>, world: World, i: nat)
    requires MayRun(d0, before, plan, born) && Tracked(d0, d, plan, start, ops, world) && 1 <= i <= |ops|
    requires Unhindered(d0, plan) && plan.tasks != [] && Delivering(world)
    ensures NothingBlocked(At(d0, ops, i), plan)
  {
    hide MayRun, Unhindered, Delivering, NothingBlocked, History.Leads, History.After, At, PointKept, Proper, BeginsIdle, PassLog;
    StartsAtOnce(d0, born, before, d, plan, start, ops, world);
    if i > 1 {
      DeliveredIsNotBlocked(d0, born, before, d, plan, start, ops, world, i - 1);
      AtStep(d0, ops, d, i - 1);
      assert WriteKept(d0, plan, ops, i - 1, world);
      GoodWorkIsNotBlocked(At(d0, ops, i - 1), ops[i - 1], At(d0, ops, i), plan, PassLog(d0, ops, i - 1), world);
      OnlyBlockBlocks(At(d0, ops, i - 1), ops[i - 1], plan);
    }
  }
}
