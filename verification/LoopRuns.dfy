/**
 * What a run of the build loop leaves behind: the list of its ledger writes, and what is true of the
 * ledger at every point in between.
 */
module LoopRuns {
  import opened Common
  import opened Plan
  import opened Ledger
  import History
  import opened PlanEdits
  import opened Schedule
  import opened ManifestSteps
  import opened ManifestLoop
  import opened Courses

  // -- every point of a run ---------------------------------------------------------------------

  /** The ledger after the first i operations. */
  ghost function At(d: Doc, ops: seq<History.Op>, i: nat): Doc
    requires i <= |ops|
  {
    if i == 0 then d
    else
      var before := At(d, ops, i - 1);
      if Coherent(before) && History.Feasible(ops[i - 1]) then History.After(before, ops[i - 1]) else before
  }

  lemma {:induction false} AtMore(d: Doc, ops: seq<History.Op>, op: History.Op, i: nat)
    requires i <= |ops|
    ensures At(d, ops + [op], i) == At(d, ops, i)
  {
    hide History.After, History.Feasible;
    if i > 0 {
      AtMore(d, ops, op, i - 1);
    }
  }

  lemma {:induction false} AtShift(d: Doc, ops: seq<History.Op>, i: nat)
    requires 0 < i <= |ops| && Coherent(d) && History.Feasible(ops[0])
    ensures At(d, ops, i) == At(History.After(d, ops[0]), ops[1..], i - 1)
  {
    hide History.After, History.Feasible;
    if i > 1 {
      AtShift(d, ops, i - 1);
    } else {
      assert At(d, ops, 0) == d;
    }
  }

  lemma {:induction false} LeadsAt(d: Doc, ops: seq<History.Op>, e: Doc)
    requires History.Leads(d, ops, e)
    ensures At(d, ops, |ops|) == e
    decreases ops
  {
    hide History.After, History.Feasible;
    if ops != [] {
      LeadsAt(History.After(d, ops[0]), ops[1..], e);
      AtShift(d, ops, |ops|);
    }
  }

  lemma {:induction false} AtPrefix(d: Doc, ops: seq<History.Op>, i: nat, j: nat)
    requires j <= i <= |ops|
    ensures At(d, ops[..i], j) == At(d, ops, j)
  {
    hide History.After, History.Feasible;
    if j > 0 {
      AtPrefix(d, ops, i, j - 1);
    }
  }

  lemma {:induction false} LeadsPrefix(d: Doc, ops: seq<History.Op>, e: Doc, i: nat)
    requires History.Leads(d, ops, e) && i <= |ops|
    ensures History.Leads(d, ops[..i], At(d, ops, i))
    decreases ops
  {
    hide History.After, History.Feasible;
    if i > 0 {
      LeadsPrefix(History.After(d, ops[0]), ops[1..], e, i - 1);
      AtShift(d, ops, i);
      assert ops[..i][1..] == ops[1..][..i - 1];
    }
  }

  /** One more operation is taken from where the ones before it led. */
  lemma {:induction false} AtStep(d: Doc, ops: seq<History.Op>, e: Doc, i: nat)
    requires History.Leads(d, ops, e) && i < |ops|
    ensures Coherent(At(d, ops, i)) && History.Feasible(ops[i]) && At(d, ops, i + 1) == History.After(At(d, ops, i), ops[i])
    decreases ops
  {
    hide History.After, History.Feasible;
    if i > 0 {
      AtStep(History.After(d, ops[0]), ops[1..], e, i - 1);
      AtShift(d, ops, i);
      AtShift(d, ops, i + 1);
    } else {
      assert At(d, ops, 0) == d;
    }
  }

  function InProgress(d: Doc, tree: Tree): set<Id> {
    set t | t in d.tasks && Known(tree.tasks, t) && d.tasks[t].status.Running?
  }

  /**
   * What holds between any two ledger writes: the ledger fits the plan, every running attempt is at its
   * plan's version with all prerequisites accepted at theirs, and no two running tasks own anything in common.
   */
  ghost predicate SafePoint(d: Doc, tree: Tree) {
    && Coherent(d) && Honest(d, tree)
    && (forall t :: t in InProgress(d, tree) ==> Flying(d, tree, t))
    && (forall a, b :: a in InProgress(d, tree) && b in InProgress(d, tree) && a != b ==> CanRunTogether(tree, a, b))
  }

  /** Workers task t can still be started with. */
  function Left(d: Doc, t: Id): nat {
    if t in d.tasks then StartsLeft(d.tasks[t]) else 0
  }

  /** Workers started and workers left, taken together, have not grown. */
  ghost predicate WithinBudget(b: Doc, d: Doc) {
    forall t :: History.Starts(d.events, t) + Left(d, t) <= History.Starts(b.events, t) + Left(b, t)
  }

  /** Where the starts begin that end with operation i: there the loop read its limit and looked for a stop. */
  function PassStart(ops: seq<History.Op>, i: nat): (k: nat)
    requires i <= |ops|
    ensures k <= i
  {
    if i > 0 && ops[i - 1].Begin? then PassStart(ops, i - 1) else i
  }

  lemma {:induction false} PassStartMore(ops: seq<History.Op>, op: History.Op, i: nat)
    requires i <= |ops|
    ensures PassStart(ops + [op], i) == PassStart(ops, i)
  {
    if i > 0 && ops[i - 1].Begin? {
      PassStartMore(ops, op, i - 1);
    }
  }

  lemma {:induction false} PassStartPrefix(ops: seq<History.Op>, i: nat, j: nat)
    requires j <= i <= |ops|
    ensures PassStart(ops[..i], j) == PassStart(ops, j)
  {
    if j > 0 && ops[j - 1].Begin? {
      PassStartPrefix(ops, i, j - 1);
    }
  }

  /** How long the log was when the pass of operation i began. */
  ghost function PassLog(d: Doc, ops: seq<History.Op>, i: nat): nat
    requires i <= |ops|
  {
    |At(d, ops, PassStart(ops, i)).events|
  }

  lemma PassLogMore(d: Doc, ops: seq<History.Op>, op: History.Op, i: nat)
    requires i <= |ops|
    ensures PassLog(d, ops + [op], i) == PassLog(d, ops, i)
  {
    PassStartMore(ops, op, i);
    AtMore(d, ops, op, PassStart(ops, i));
  }

  /** A write of the loop lowers the measure; noting a thread may leave it. */
  ghost predicate Lowers(before: Doc, op: History.Op, after: Doc, tree: Tree) {
    Total(after.tasks, tree.tasks, Weight) + (if op.Thread? then 0 else 1) <= Total(before.tasks, tree.tasks, Weight)
  }

  /** The write records what the worker of the task's current attempt answered. */
  ghost predicate Reports(before: Doc, op: History.Op, world: World) {
    !op.SyncPlan? && op.task in before.tasks && FromAnswer(op, AnswerOf(world, before, op.task), world.repairable)
  }

  /**
   * A write of the loop: it lowers the measure, and it starts a worker, within the limit and with no stop
   * requested when its pass began, or it records what a worker answered.
   */
  ghost predicate Proper(before: Doc, op: History.Op, after: Doc, tree: Tree, log: nat, world: World) {
    && Lowers(before, op, after, tree)
    && (if op.Begin? then |InProgress(after, tree)| <= Max(1, world.capacity(log)) && !world.stops(log)
        else Reports(before, op, world))
  }

  // -- the beginning of a run ------------------------------------------------------------------------

  /** The records the ledger lists for a tree; an empty tree lists everything. */
  function Listed(d: Doc, tree: Tree): set<Id> {
    set t | t in d.tasks && (tree.tasks == [] || Known(tree.tasks, t))
  }

  /** A write about an attempt that a crash left running; it is sent round again only when its plan moved on. */
  ghost predicate CleansUp(d: Doc, op: History.Op, tree: Tree) {
    && (op.Submit? || op.Accept? || op.Rework? || op.Block?)
    && op.task in Listed(d, tree) && !d.tasks[op.task].accepted
    && (d.tasks[op.task].status.Running? || d.tasks[op.task].status.Finished?)
    && (op.Rework? ==> !AtCurrent(d, op.task))
  }

  /** ops clear up d and end in e. */
  ghost predicate Clearing(d: Doc, ops: seq<History.Op>, e: Doc, tree: Tree)
    decreases ops
  {
    if ops == [] then e == d
    else Coherent(d) && CleansUp(d, ops[0], tree) && Clearing(History.After(d, ops[0]), ops[1..], e, tree)
  }

  lemma {:induction false} OneClears(d: Doc, op: History.Op, tree: Tree)
    requires Coherent(d) && CleansUp(d, op, tree)
    ensures Clearing(d, [op], History.After(d, op), tree)
  {
    hide History.After;
    assert Clearing(History.After(d, op), [op][1..], History.After(d, op), tree);
  }

  lemma {:induction false} ClearingJoins(d: Doc, a: seq<History.Op>, e: Doc, b: seq<History.Op>, f: Doc, tree: Tree)
    requires Clearing(d, a, e, tree) && Clearing(e, b, f, tree)
    ensures Clearing(d, a + b, f, tree)
    decreases a
  {
    hide History.After, CleansUp;
    if a == [] {
      assert a + b == b;
    } else {
      assert (a + b)[1..] == a[1..] + b && (a + b)[0] == a[0];
      FeasibleIfClearing(d, a[0], tree);
      ClearingJoins(History.After(d, a[0]), a[1..], e, b, f, tree);
    }
  }

  lemma FeasibleIfClearing(d: Doc, op: History.Op, tree: Tree)
    requires CleansUp(d, op, tree)
    ensures History.Feasible(op) && !op.Begin? && !op.SyncPlan?
  {
  }

  lemma {:induction false} ClearingLeads(d: Doc, ops: seq<History.Op>, e: Doc, tree: Tree)
    requires Clearing(d, ops, e, tree)
    ensures History.Leads(d, ops, e)
    decreases ops
  {
    hide History.After, CleansUp;
    if ops != [] {
      FeasibleIfClearing(d, ops[0], tree);
      ClearingLeads(History.After(d, ops[0]), ops[1..], e, tree);
    }
  }

  lemma {:induction false} ClearingAt(d: Doc, ops: seq<History.Op>, e: Doc, tree: Tree, i: nat)
    requires Clearing(d, ops, e, tree) && i < |ops|
    ensures CleansUp(At(d, ops, i), ops[i], tree)
    decreases ops
  {
    hide History.After, CleansUp;
    FeasibleIfClearing(d, ops[0], tree);
    if i > 0 {
      ClearingAt(History.After(d, ops[0]), ops[1..], e, tree, i - 1);
      AtShift(d, ops, i);
    } else {
      assert At(d, ops, 0) == d;
    }
  }

  /** A run takes the plan on board, clears up what a crash left running, and has nobody running then. */
  ghost predicate BeginsIdle(d0: Doc, tree: Tree, start: nat, ops: seq<History.Op>) {
    && 1 <= start <= |ops| && ops[0] == History.SyncPlan(tree)
    && (forall i :: 1 <= i < start ==> CleansUp(At(d0, ops, i), ops[i], tree))
    && InProgress(At(d0, ops, start), tree) == {}
  }

  // -- a whole run -----------------------------------------------------------------------------------

  ghost predicate PointKept(d0: Doc, tree: Tree, start: nat, ops: seq<History.Op>, i: nat)
    requires start <= i <= |ops|
  {
    SafePoint(At(d0, ops, i), tree) && WithinBudget(At(d0, ops, start), At(d0, ops, i))
  }

  ghost predicate WriteKept(d0: Doc, tree: Tree, ops: seq<History.Op>, i: nat, world: World)
    requires i < |ops|
  {
    Proper(At(d0, ops, i), ops[i], At(d0, ops, i + 1), tree, PassLog(d0, ops, i), world)
  }

  /**
   * A run that took the ledger from d0 to d by writing ops. Before operation `start` it takes the plan on
   * board and clears up after a crash, starting nobody. From there on every point is safe and within the
   * workers left at `start`, at most two a task, and every write is a proper one.
   */
  ghost predicate Tracked(d0: Doc, d: Doc, tree: Tree, start: nat, ops: seq<History.Op>, world: World) {
    && History.Leads(d0, ops, d) && At(d0, ops, |ops|) == d && BeginsIdle(d0, tree, start, ops)
    && (forall i :: start <= i <= |ops| ==> PointKept(d0, tree, start, ops, i))
    && (forall i :: start <= i < |ops| ==> WriteKept(d0, tree, ops, i, world))
  }

  lemma IdleMore(d0: Doc, tree: Tree, start: nat, ops: seq<History.Op>, op: History.Op)
    requires BeginsIdle(d0, tree, start, ops)
    ensures BeginsIdle(d0, tree, start, ops + [op])
  {
    hide CleansUp, At, InProgress;
    AtMore(d0, ops, op, start);
    forall i | 1 <= i < start ensures CleansUp(At(d0, ops + [op], i), (ops + [op])[i], tree) {
      AtMore(d0, ops, op, i);
    }
  }

  lemma PointMore(d0: Doc, tree: Tree, start: nat, ops: seq<History.Op>, op: History.Op, i: nat)
    requires start <= i <= |ops| && PointKept(d0, tree, start, ops, i)
    ensures PointKept(d0, tree, start, ops + [op], i)
  {
    hide At, SafePoint, WithinBudget;
    AtMore(d0, ops, op, i);
    AtMore(d0, ops, op, start);
  }

  lemma WriteMore(d0: Doc, tree: Tree, ops: seq<History.Op>, op: History.Op, i: nat, world: World)
    requires i < |ops| && WriteKept(d0, tree, ops, i, world)
    ensures WriteKept(d0, tree, ops + [op], i, world)
  {
    hide At, Proper, PassLog;
    AtMore(d0, ops, op, i);
    AtMore(d0, ops, op, i + 1);
    PassLogMore(d0, ops, op, i);
  }

  lemma BudgetGoesOn(b: Doc, d: Doc, e: Doc)
    requires WithinBudget(b, d) && WithinBudget(d, e)
    ensures WithinBudget(b, e)
  {
    hide Left, History.Starts;
    forall t ensures History.Starts(e.events, t) + Left(e, t) <= History.Starts(b.events, t) + Left(b, t) {
      assert History.Starts(e.events, t) + Left(e, t) <= History.Starts(d.events, t) + Left(d, t);
    }
  }

  /** One more write. */
  lemma TrackOp(d0: Doc, d: Doc, e: Doc, tree: Tree, start: nat, ops: seq<History.Op>, world: World, op: History.Op)
    requires Tracked(d0, d, tree, start, ops, world)
    requires Coherent(d) && History.Feasible(op) && e == History.After(d, op)
    requires SafePoint(e, tree) && WithinBudget(d, e) && Proper(d, op, e, tree, PassLog(d0, ops, |ops|), world)
    ensures Tracked(d0, e, tree, start, ops + [op], world)
  {
    hide SafePoint, Proper, History.Leads, History.After, History.Feasible, WithinBudget, PassLog, BeginsIdle;
    var more := ops + [op];
    StartIsEarly(d0, tree, start, ops);
    LeadsMore(d0, ops, d, op);
    IdleMore(d0, tree, start, ops, op);
    AtMore(d0, ops, op, |ops|);
    AtMore(d0, ops, op, start);
    PassLogMore(d0, ops, op, |ops|);
    assert At(d0, more, |more|) == e;
    assert PointKept(d0, tree, start, ops, |ops|);
    BudgetGoesOn(At(d0, ops, start), d, e);
    assert PointKept(d0, tree, start, more, |more|) && WriteKept(d0, tree, more, |ops|, world);
    hide At, PointKept, WriteKept;
    forall i | start <= i <= |ops| ensures PointKept(d0, tree, start, more, i) {
      PointMore(d0, tree, start, ops, op, i);
    }
    forall i | start <= i < |ops| ensures WriteKept(d0, tree, more, i, world) {
      WriteMore(d0, tree, ops, op, i, world);
    }
  }

  lemma StartIsEarly(d0: Doc, tree: Tree, start: nat, ops: seq<History.Op>)
    requires BeginsIdle(d0, tree, start, ops)
    ensures 1 <= start <= |ops|
  {
  }

  // -- a run that is cut off --------------------------------------------------------------------

  lemma IdlePrefix(d0: Doc, tree: Tree, start: nat, ops: seq<History.Op>, i: nat)
    requires BeginsIdle(d0, tree, start, ops) && start <= i <= |ops|
    ensures BeginsIdle(d0, tree, start, ops[..i])
  {
    hide InProgress, At, CleansUp;
    AtPrefix(d0, ops, i, start);
    forall j | 1 <= j < start ensures CleansUp(At(d0, ops[..i], j), ops[..i][j], tree) {
      AtPrefix(d0, ops, i, j);
    }
  }

  lemma PointPrefix(d0: Doc, tree: Tree, start: nat, ops: seq<History.Op>, i: nat, j: nat)
    requires start <= j <= i <= |ops| && PointKept(d0, tree, start, ops, j)
    ensures PointKept(d0, tree, start, ops[..i], j)
  {
    hide SafePoint, WithinBudget, At;
    AtPrefix(d0, ops, i, j);
    AtPrefix(d0, ops, i, start);
  }

  lemma WritePrefix(d0: Doc, tree: Tree, ops: seq<History.Op>, i: nat, j: nat, world: World)
    requires j < i <= |ops| && WriteKept(d0, tree, ops, j, world)
    ensures WriteKept(d0, tree, ops[..i], j, world)
  {
    hide Proper, At;
    AtPrefix(d0, ops, i, j);
    AtPrefix(d0, ops, i, j + 1);
    PassStartPrefix(ops, i, j);
    AtPrefix(d0, ops, i, PassStart(ops, j));
  }

  /** Cut off between any two writes, a run is still a run: a crash promises no less than an ending. */
  lemma {:induction false} TrackedSoFar(d0: Doc, d: Doc, tree: Tree, start: nat, ops: seq<History.Op>, world: World, i: nat)
    requires Tracked(d0, d, tree, start, ops, world) && start <= i <= |ops|
    ensures Tracked(d0, At(d0, ops, i), tree, start, ops[..i], world)
  {
    hide BeginsIdle, PointKept, WriteKept, History.Leads, At;
    LeadsPrefix(d0, ops, d, i);
    AtPrefix(d0, ops, i, i);
    IdlePrefix(d0, tree, start, ops, i);
    forall j | start <= j <= i ensures PointKept(d0, tree, start, ops[..i], j) {
      PointPrefix(d0, tree, start, ops, i, j);
    }
    forall j | start <= j < i ensures WriteKept(d0, tree, ops[..i], j, world) {
      WritePrefix(d0, tree, ops, i, j, world);
    }
  }

  // -- how a run begins ---------------------------------------------------------------------------

  /** The loop's bookkeeping at a point between steps. */
  ghost predicate OnTrack(d0: Doc, d: Doc, tree: Tree, inFlight: set<Id>, start: nat, ops: seq<History.Op>, world: World) {
    Safe(d, tree, inFlight) && Tracked(d0, d, tree, start, ops, world)
  }

  lemma SafeIsSafePoint(d: Doc, tree: Tree, inFlight: set<Id>)
    requires Safe(d, tree, inFlight)
    ensures SafePoint(d, tree) && InProgress(d, tree) == inFlight
  {
    hide CanRunTogether, Honest, Released;
  }

  lemma {:induction false} SyncThenClear(d0: Doc, e: Doc, d: Doc, tree: Tree, more: seq<History.Op>)
    requires Coherent(d0) && ValidTree(tree) && e == History.After(d0, History.SyncPlan(tree))
    requires Clearing(e, more, d, tree)
    ensures
      var ops := [History.SyncPlan(tree)] + more;
      && History.Leads(d0, ops, d) && At(d0, ops, |ops|) == d
      && forall i :: 1 <= i < |ops| ==> CleansUp(At(d0, ops, i), ops[i], tree)
  {
    hide ValidTree, CleansUp, Clearing, History.After;
    var ops := [History.SyncPlan(tree)] + more;
    assert ops[1..] == more;
    ClearingLeads(e, more, d, tree);
    LeadsAt(d0, ops, d);
    forall i | 1 <= i < |ops| ensures CleansUp(At(d0, ops, i), ops[i], tree) {
      ClearingAt(e, more, d, tree, i - 1);
      AtShift(d0, ops, i);
    }
  }

  /** A run that has started nobody yet and left nobody running is on track. */
  lemma {:induction false} TrackBegins(d0: Doc, e: Doc, d: Doc, tree: Tree, more: seq<History.Op>, world: World)
    requires Coherent(d0) && ValidTree(tree) && e == History.After(d0, History.SyncPlan(tree))
    requires Clearing(e, more, d, tree) && Safe(d, tree, {})
    ensures OnTrack(d0, d, tree, {}, |more| + 1, [History.SyncPlan(tree)] + more, world)
  {
    hide Safe, History.Leads, SafePoint, At, InProgress, Clearing, CleansUp, ValidTree, History.After;
    SyncThenClear(d0, e, d, tree, more);
    SafeIsSafePoint(d, tree, {});
  }

  // -- the two kinds of steps ---------------------------------------------------------------------

  lemma StartsKept(d: Doc, op: History.Op, t: Id)
    requires Coherent(d) && Quiet(d, op, t)
    ensures forall u :: History.Starts(History.After(d, op).events, u) == History.Starts(d.events, u)
  {
    hide History.Starts;
    forall u ensures History.Starts(History.After(d, op).events, u) == History.Starts(d.events, u) {
      History.OnlyBeginStarts(d, op, u);
    }
  }

  lemma QuietKeepsSafe(d: Doc, op: History.Op, tree: Tree, t: Id)
    requires SafePoint(d, tree) && Quiet(d, op, t) && AtCurrent(d, t)
    ensures SafePoint(History.After(d, op), tree)
  {
    hide CanRunTogether, History.After, Weight, StartsLeft, Honest;
    var e := History.After(d, op);
    TouchKeepsHonest(d, e, tree, t);
    assert InProgress(e, tree) <= InProgress(d, tree);
    forall u | u in InProgress(e, tree) ensures Flying(e, tree, u) {
      assert Flying(d, tree, u);
      ReleasedUndisturbed(d, e, t, TaskOf(tree.tasks, u).value.deps);
    }
  }

  lemma ReleasedUndisturbed(d: Doc, e: Doc, touched: Id, deps: seq<Id>)
    requires Coherent(d) && Coherent(e) && OnlyTouches(d, e, touched) && !d.tasks[touched].accepted && Released(d, deps)
    ensures Released(e, deps)
  {
    forall k | 0 <= k < |deps| ensures Releases(e, deps[k]) {
      assert Releases(d, deps[k]);
    }
  }

  lemma QuietIsFeasible(d: Doc, op: History.Op, t: Id)
    requires Coherent(d) && Quiet(d, op, t)
    ensures History.Feasible(op)
  {
  }

  lemma QuietLowers(d: Doc, op: History.Op, tree: Tree, t: Id)
    requires Coherent(d) && Quiet(d, op, t) && AtCurrent(d, t) && Known(tree.tasks, t) && DistinctTasks(tree.tasks)
    ensures Lowers(d, op, History.After(d, op), tree) && AtCurrent(History.After(d, op), t)
    ensures WithinBudget(d, History.After(d, op))
  {
    hide History.After, Weight, StartsLeft, Known, DistinctTasks, History.Starts;
    TotalMoves(d.tasks, History.After(d, op).tasks, tree.tasks, Weight, t);
    StartsKept(d, op, t);
  }

  lemma TrackQuiet(d0: Doc, d: Doc, tree: Tree, start: nat, ops: seq<History.Op>, world: World, op: History.Op, t: Id)
    requires Tracked(d0, d, tree, start, ops, world) && DistinctTasks(tree.tasks)
    requires SafePoint(d, tree) && Quiet(d, op, t) && Reports(d, op, world) && AtCurrent(d, t) && Known(tree.tasks, t)
    ensures Tracked(d0, History.After(d, op), tree, start, ops + [op], world)
  {
    QuietKeepsSafe(d, op, tree, t);
    QuietLowers(d, op, tree, t);
    hide Tracked, Lowers, History.After, WithinBudget, InProgress, PassLog, OnlyTouches, AtCurrent, Reports;
    TrackOp(d0, d, History.After(d, op), tree, start, ops, world, op);
  }

  lemma QuietKeepsNumber(d: Doc, op: History.Op, t: Id)
    requires Coherent(d) && Quiet(d, op, t)
    ensures t in d.tasks && t in History.After(d, op).tasks
    ensures !op.Repair? && !op.Rework? ==> History.After(d, op).tasks[t].number == d.tasks[t].number
  {
  }

  /** A result recorded: still tracked, at every write of it. */
  lemma {:induction false} TrackCourse(d0: Doc, d: Doc, e: Doc, tree: Tree, start: nat, ops: seq<History.Op>,
                                       world: World, more: seq<History.Op>, res: WorkerResult)
    requires Tracked(d0, d, tree, start, ops, world) && DistinctTasks(tree.tasks) && SafePoint(d, tree)
    requires Course(d, more, e, res, world.repairable) && AtCurrent(d, res.task) && Known(tree.tasks, res.task)
    requires res.task in d.tasks && (more != [] ==> res == AnswerOf(world, d, res.task))
    ensures Tracked(d0, e, tree, start, ops + more, world)
    decreases more
  {
    hide Tracked, SafePoint, Quiet, History.After, AtCurrent, Known, DistinctTasks, FromAnswer;
    var t := res.task;
    if more == [] {
      assert ops + more == ops;
    } else {
      QuietIsFeasible(d, more[0], t);
      QuietKeepsNumber(d, more[0], t);
      var next := History.After(d, more[0]);
      QuietTask(d, more[0], t);
      TrackQuiet(d0, d, tree, start, ops, world, more[0], t);
      QuietKeepsSafe(d, more[0], tree, t);
      QuietLowers(d, more[0], tree, t);
      TrackCourse(d0, next, e, tree, start, ops + [more[0]], world, more[1..], res);
      assert ops + more == (ops + [more[0]]) + more[1..];
    }
  }

  lemma QuietTask(d: Doc, op: History.Op, t: Id)
    requires Coherent(d) && Quiet(d, op, t)
    ensures !op.SyncPlan? && op.task == t
  {
  }

  /** One worker started: still on track. */
  lemma {:induction false} StartOnTrack(d0: Doc, d: Doc, tree: Tree, inFlight: set<Id>, start: nat, ops: seq<History.Op>, world: World, t: Id)
    requires OnTrack(d0, d, tree, inFlight, start, ops, world) && DistinctTasks(tree.tasks)
    requires Known(tree.tasks, t) && t !in inFlight && t in d.tasks
    requires d.tasks[t].status.Pending? && Released(d, TaskOf(tree.tasks, t).value.deps)
    requires forall o :: o in inFlight ==> CanRunTogether(tree, t, o)
    requires |inFlight| < Max(1, world.capacity(PassLog(d0, ops, |ops|))) && !world.stops(PassLog(d0, ops, |ops|))
    ensures
      var result := Begin(d, t);
      && result.Ok? && OnlyTouches(d, result.value, t)
      && OnTrack(d0, result.value, tree, inFlight + {t}, start, ops + [History.Begin(t)], world)
      && Total(result.value.tasks, tree.tasks, Weight) < Total(d.tasks, tree.tasks, Weight)
      && Total(result.value.tasks, tree.tasks, StartsLeft) < Total(d.tasks, tree.tasks, StartsLeft)
  {
    hide Safe, Tracked, Total, CanRunTogether, Known, Released, Begin, Honest, Coherent, PassLog, DistinctTasks,
      History.After, WithinBudget, SafePoint, InProgress, OnlyTouches;
    SafeIsCoherent(d, tree, inFlight);
    BeginTouches(d, t);
    var e := Begin(d, t).value;
    BeginSteps(d, e, t);
    StartKeepsSafe(d, tree, inFlight, t);
    StartLowers(d, e, tree, t);
    SafeIsSafePoint(e, tree, inFlight + {t});
    TrackOp(d0, d, e, tree, start, ops, world, History.Begin(t));
  }

  lemma BeginSteps(d: Doc, e: Doc, t: Id)
    requires Coherent(d) && t in d.tasks && d.tasks[t].status.Pending? && Begin(d, t) == Ok(e)
    ensures e == History.After(d, History.Begin(t)) && WithinBudget(d, e)
  {
    hide History.Starts;
    forall u ensures History.Starts(e.events, u) + Left(e, u) <= History.Starts(d.events, u) + Left(d, u) {
      History.OnlyBeginStarts(d, History.Begin(t), u);
    }
  }

  lemma SafeIsCoherent(d: Doc, tree: Tree, inFlight: set<Id>)
    requires Safe(d, tree, inFlight)
    ensures Coherent(d) && Honest(d, tree) && NoneFinished(d)
    ensures forall t :: t in inFlight ==> Known(tree.tasks, t) && Runs(d, t) && AtCurrent(d, t)
  {
  }

  /** One result recorded: still on track. */
  lemma {:induction false} FinishOnTrack(d0: Doc, d: Doc, e: Doc, tree: Tree, inFlight: set<Id>, start: nat, ops: seq<History.Op>,
                      world: World, good: bool, more: seq<History.Op>, res: WorkerResult)
    requires OnTrack(d0, d, tree, inFlight, start, ops, world) && DistinctTasks(tree.tasks)
    requires res.task in inFlight && res.task in d.tasks && res == AnswerOf(world, d, res.task)
    requires Coherent(d) && Coherent(e) && OnlyTouches(d, e, res.task) && Settled(d, d.tasks[res.task], e.tasks[res.task], good)
    requires Course(d, more, e, res, world.repairable)
    ensures OnTrack(d0, e, tree, inFlight - {res.task}, start, ops + more, world)
    ensures Total(e.tasks, tree.tasks, Weight) < Total(d.tasks, tree.tasks, Weight)
    ensures Total(e.tasks, tree.tasks, StartsLeft) <= Total(d.tasks, tree.tasks, StartsLeft)
  {
    hide Safe, Tracked, Total, Known, Settled, DistinctTasks, SafePoint, InProgress, Course;
    SafeIsCoherent(d, tree, inFlight);
    SafeIsSafePoint(d, tree, inFlight);
    RecordKeepsSafe(d, e, tree, inFlight, res.task, good);
    ResultLowers(d, e, tree, res.task, good);
    TrackCourse(d0, d, e, tree, start, ops, world, more, res);
  }
}
