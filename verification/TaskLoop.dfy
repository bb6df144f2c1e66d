/**
 * The manifest build loop itself, over the mutable ledger. Every answer from outside (worker results,
 * which worker finishes first, stop requests, capacity readings, salvage after a crash) is arbitrary.
 */
module TaskLoop {
  import opened Common
  import opened Plan
  import opened Text
  import opened Ledger
  import History
  import opened PlanEdits
  import opened BuildStates
  import opened Schedule
  import opened ManifestSteps
  import opened ManifestLoop
  import opened Courses
  import opened Answers
  import opened LoopRuns
  import opened RunResults
  import opened LoopSteps
  import opened Restart

  // -- the outcome ---------------------------------------------------------------------------------

  function BlockedIn(d: Doc, listed: set<Id>): set<Id>
    requires listed <= d.tasks.Keys
  {
    set t | t in listed && d.tasks[t].status.Blocked?
  }

  /** What the loop answers once nothing is ready and nothing is running. */
  function OutcomeOf(d: Doc, tree: Tree): LoopOutcome {
    var listed := Listed(d, tree);
    var blocked := BlockedIn(d, listed);
    if forall t :: t in listed ==> d.tasks[t].accepted then Complete
    else if blocked != {} then if tree.tasks == [] then UnlistedBlocked else BlockedOn(blocked)
    else NothingReady(set t | t in listed && !d.tasks[t].accepted)
  }

  /** Every task of the tree is accepted at the version of its plan. */
  ghost predicate AllAccepted(d: Doc, tree: Tree) {
    forall t :: Known(tree.tasks, t) ==>
      t in d.tasks && d.tasks[t].accepted && d.tasks[t].planVersion == TaskOf(tree.tasks, t).value.planVersion
  }

  /** Every agreed outcome has an accepted task. */
  ghost predicate OutcomesDelivered(d: Doc, tree: Tree) {
    forall r :: r in tree.requirements ==> Delivered(d, tree, r)
  }

  ghost predicate Delivered(d: Doc, tree: Tree, r: Id) {
    exists k :: 0 <= k < |tree.tasks| && tree.tasks[k].requirement == r && Taken(d, tree.tasks[k].id)
  }

  predicate Taken(d: Doc, t: Id) {
    t in d.tasks && d.tasks[t].accepted
  }

  /** What the answer means, for a plan with tasks. */
  ghost predicate AnswerExplained(d: Doc, tree: Tree, outcome: LoopOutcome) {
    && (outcome.Complete? <==> forall t :: Known(tree.tasks, t) ==> Taken(d, t))
    && (outcome.Complete? ==> AllAccepted(d, tree) && (tree.legacy || OutcomesDelivered(d, tree)))
    && (!outcome.Complete? ==> outcome.BlockedOn? && outcome.tasks != {})
    && (outcome.BlockedOn? ==>
          && (forall b :: b in outcome.tasks <==> Known(tree.tasks, b) && b in d.tasks && d.tasks[b].status.Blocked?)
          && (forall t :: Known(tree.tasks, t) && !Taken(d, t) ==> HeldByBlocked(d, tree, t)))
  }

  /**
   * No deadlock: with nothing in flight and nothing startable, the answer is COMPLETE exactly when
   * every task is accepted; otherwise some task is blocked and every unaccepted task hangs on a
   * blocked one. The "nothing is ready" answer never comes.
   */
  lemma StalledAnswer(d: Doc, tree: Tree)
    requires Safe(d, tree, {}) && ValidTree(tree) && tree.tasks != []
    requires forall k :: 0 <= k < |tree.tasks| ==> !Startable(d, tree, {}, [], tree.tasks[k])
    ensures AnswerExplained(d, tree, OutcomeOf(d, tree))
  {
    hide Safe, ValidTree, Startable, AllAccepted, OutcomesDelivered, HeldByBlocked, AtRest, Honest, Coherent, OutcomeOf;
    SafeIsAtRest(d, tree);
    StallIsExplained(d, tree);
    KnowsAll(d, tree);
    AnswerReads(d, tree);
    if OutcomeOf(d, tree).Complete? {
      CompleteDelivers(d, tree);
    }
  }

  /** The answer read off a ledger in which every unaccepted task hangs on a blocked one. */
  lemma AnswerReads(d: Doc, tree: Tree)
    requires tree.tasks != [] && forall t :: Known(tree.tasks, t) ==> t in d.tasks
    requires forall t :: Known(tree.tasks, t) && !Taken(d, t) ==> HeldByBlocked(d, tree, t)
    ensures
      var outcome := OutcomeOf(d, tree);
      && (outcome.Complete? <==> forall t :: Known(tree.tasks, t) ==> Taken(d, t))
      && (!outcome.Complete? ==> outcome.BlockedOn? && outcome.tasks != {} && outcome.tasks == BlockedIn(d, Listed(d, tree)))
  {
    hide HeldByBlocked, Known;
    if forall t :: t in Listed(d, tree) ==> d.tasks[t].accepted {
      forall t | Known(tree.tasks, t) ensures Taken(d, t) {
        assert t in Listed(d, tree);
      }
    } else {
      var t :| t in Listed(d, tree) && !d.tasks[t].accepted;
      assert Known(tree.tasks, t) && !Taken(d, t);
      var p := ChainOf(d, tree, t);
      assert p[|p| - 1] in BlockedIn(d, Listed(d, tree));
    }
  }

  lemma SafeIsAtRest(d: Doc, tree: Tree)
    requires Safe(d, tree, {})
    ensures Coherent(d) && Honest(d, tree) && AtRest(d, tree)
  {
    hide CanRunTogether, Flying, Honest;
    forall t | Known(tree.tasks, t) && t in d.tasks ensures Settledly(d.tasks[t]) {
    }
  }

  lemma KnowsAll(d: Doc, tree: Tree)
    requires Honest(d, tree)
    ensures forall t :: Known(tree.tasks, t) ==> t in d.tasks
    ensures forall k :: 0 <= k < |tree.tasks| ==> tree.tasks[k].id in d.tasks
  {
    forall k | 0 <= k < |tree.tasks| ensures tree.tasks[k].id in d.tasks {
      HonestHas(d, tree, tree.tasks[k].id);
    }
  }

  lemma ChainOf(d: Doc, tree: Tree, t: Id) returns (p: seq<Id>)
    requires HeldByBlocked(d, tree, t)
    ensures |p| >= 1 && Known(tree.tasks, p[|p| - 1]) && p[|p| - 1] in d.tasks && d.tasks[p[|p| - 1]].status.Blocked?
  {
    p :| BlockedChain(d, tree, p) && p[0] == t;
  }

  lemma CompleteDelivers(d: Doc, tree: Tree)
    requires Safe(d, tree, {}) && ValidTree(tree) && forall t :: Known(tree.tasks, t) ==> Taken(d, t)
    ensures AllAccepted(d, tree) && (tree.legacy || OutcomesDelivered(d, tree))
  {
    hide RootedTree, ValidTasks, OwnsSafely, Covers, AllAccepted, OutcomesDelivered, Safe;
    AllAtVersion(d, tree);
    if !tree.legacy {
      CoveredDelivers(d, tree);
    }
  }

  lemma AllAtVersion(d: Doc, tree: Tree)
    requires Safe(d, tree, {}) && ValidTree(tree) && forall t :: Known(tree.tasks, t) ==> Taken(d, t)
    ensures AllAccepted(d, tree)
  {
    hide ValidTree, CanRunTogether, Flying, AssignedTask, NoneFinished, TreeVersionsKnown;
    forall t | Known(tree.tasks, t) ensures d.tasks[t].planVersion == TaskOf(tree.tasks, t).value.planVersion {
      HonestHas(d, tree, t);
      assert Settledly(d.tasks[t]);
      TaskAssigned(tree, t);
      VersionOfPlan(d, tree, TaskOf(tree.tasks, t).value);
    }
  }

  lemma CoveredDelivers(d: Doc, tree: Tree)
    requires Covers(tree) && forall t :: Known(tree.tasks, t) ==> Taken(d, t)
    ensures OutcomesDelivered(d, tree)
  {
    hide Taken, Distinct;
    forall r | r in tree.requirements ensures Delivered(d, tree, r) {
      var k :| 0 <= k < |tree.tasks| && tree.tasks[k].requirement == r;
      assert Known(tree.tasks, tree.tasks[k].id);
      assert Taken(d, tree.tasks[k].id);
    }
  }

  lemma VersionOfPlan(d: Doc, tree: Tree, task: Task)
    requires TreeVersionsKnown(d.versions, tree) && AssignedTask(tree.plans, task) && task.planId in d.versions
    ensures d.versions[task.planId] == task.planVersion
  {
    var p := PlanOf(tree.plans, task.planId).value;
    var k :| 0 <= k < |tree.plans| && tree.plans[k] == p;
  }

  /**
   * The one exception: an edit that emptied the plan leaves the old records listed. Then the answer is
   * "nothing is ready" exactly when one of them is unaccepted and none is blocked; with one unaccepted and
   * one blocked the loop looks up a task that the plan no longer has.
   */
  lemma EmptiedPlanAnswer(d: Doc, tree: Tree)
    requires tree.tasks == []
    ensures OutcomeOf(d, tree).NothingReady? <==>
      (exists t :: t in d.tasks && !d.tasks[t].accepted) && (forall t :: t in d.tasks ==> !d.tasks[t].status.Blocked?)
    ensures OutcomeOf(d, tree).UnlistedBlocked? <==>
      (exists t :: t in d.tasks && !d.tasks[t].accepted) && (exists t :: t in d.tasks && d.tasks[t].status.Blocked?)
  {
    var blocked := BlockedIn(d, Listed(d, tree));
    if t :| t in d.tasks && d.tasks[t].status.Blocked? {
      assert t in blocked;
    }
  }

  /**
   * A new build of any plan with tasks, edited down to no tasks before its first look, gets there: the
   * ledger may be run, nothing is left to start, and the answer is that every task of the old plan waits.
   */
  lemma EmptiedPlanIsReached(full: Tree, empty: Tree, build: string)
    requires ValidTree(full) && full.tasks != [] && ValidTree(empty) && empty.tasks == []
    ensures
      var d := History.NewDoc(full, build);
      && MayRun(d, full, empty, d.tasks.Keys) && Fits(d, empty) && d.tasks != map[]
      && Safe(Sync(d, empty), empty, {}) && OutcomeOf(Sync(d, empty), empty) == NothingReady(d.tasks.Keys)
  {
    hide ValidTree, Sync, Fits, CarefulEdit, Honest, History.LogTrue, History.NewDoc;
    var d := History.NewDoc(full, build);
    NewBuildMayRun(full, build);
    NoTasksIsCareful(d, full, empty);
    WidenFits(d, empty);
    SyncKeepsHonest(d, full, empty);
    NewBuildWaits(full, build);
    EmptySync(d, empty);
    AllWait(Sync(d, empty), empty, full.tasks[0].id);
  }

  /** A worker starts on the first task and its failure blocks it. */
  function FirstBlocked(tree: Tree, reason: string): seq<History.Op>
    requires tree.tasks != []
  {
    [History.Begin(tree.tasks[0].id), History.Block(tree.tasks[0].id, reason)]
  }

  /** So is the other answer: a worker fails, and the plan is edited down to no tasks before the next look. */
  lemma BlockedThenEmptied(full: Tree, empty: Tree, build: string, reason: string)
    requires ValidTree(full) && full.tasks != [] && ValidTree(empty) && empty.tasks == [] && Clean(reason).Some?
    ensures
      var (d0, t) := (History.NewDoc(full, build), full.tasks[0].id);
      var d := At(d0, FirstBlocked(full, reason), 2);
      && History.Leads(d0, FirstBlocked(full, reason), d) && MayRun(d, full, empty, d0.tasks.Keys) && Fits(d, empty)
      && Safe(Sync(d, empty), empty, {}) && OutcomeOf(Sync(d, empty), empty).UnlistedBlocked?
      && t in d.tasks && d.tasks[t].status.Blocked? && !Known(empty.tasks, t)
  {
    hide ValidTree, Sync, Fits, CarefulEdit, Honest, History.LogTrue, History.NewDoc, Clean;
    var d0, t := History.NewDoc(full, build), full.tasks[0].id;
    NewBuildMayRun(full, build);
    NewBuildWaits(full, build);
    var d := BeginThenBlock(d0, full, d0.tasks.Keys, t, reason);
    NoTasksIsCareful(d, full, empty);
    WidenFits(d, empty);
    SyncKeepsHonest(d, full, empty);
    EmptySync(d, empty);
    OneBlocked(Sync(d, empty), empty, t);
  }

  lemma BeginThenBlock(d0: Doc, tree: Tree, born: set<Id>, t: Id, reason: string) returns (d: Doc)
    requires MayRun(d0, tree, tree, born) && t in d0.tasks && d0.tasks[t].status.Pending? && Clean(reason).Some?
    requires forall u :: u in d0.tasks ==> d0.tasks[u].status.Pending? && !d0.tasks[u].accepted
    ensures
      var ops := [History.Begin(t), History.Block(t, reason)];
      d == At(d0, ops, 2) && History.Leads(d0, ops, d)
    ensures Coherent(d) && History.LogTrue(d, born) && Honest(d, tree) && t in d.tasks && d.tasks[t].status.Blocked?
    ensures forall u :: u in d.tasks ==> !d.tasks[u].accepted && (u != t ==> d.tasks[u].status.Pending?)
  {
    BlockedAfterBegin(d0, t, reason);
    hide Clean, Honest, CarefulEdit, History.LogTrue, History.Leads, History.After, At;
    var begin, block := History.Begin(t), History.Block(t, reason);
    History.AfterKeeps(d0, born, begin);
    OrdinaryKeepsHonest(d0, begin, tree);
    var e := History.After(d0, begin);
    History.AfterKeeps(e, born, block);
    OrdinaryKeepsHonest(e, block, tree);
    d := History.After(e, block);
    TwoLead(d0, begin, block);
  }

  lemma BlockedAfterBegin(d: Doc, t: Id, reason: string)
    requires Coherent(d) && t in d.tasks && d.tasks[t].status.Pending? && Clean(reason).Some?
    ensures Coherent(History.After(d, History.Begin(t)))
    ensures
      var f := History.After(History.After(d, History.Begin(t)), History.Block(t, reason));
      f.tasks.Keys == d.tasks.Keys && f.tasks[t].status.Blocked? && f.tasks[t].accepted == d.tasks[t].accepted
      && forall u :: u in d.tasks && u != t ==> f.tasks[u] == d.tasks[u]
  {
    hide Clean;
  }

  lemma {:induction false} TwoLead(d: Doc, a: History.Op, b: History.Op)
    requires Coherent(d) && History.Feasible(a) && History.Feasible(b) && Coherent(History.After(d, a))
    ensures History.Leads(d, [a, b], History.After(History.After(d, a), b))
    ensures At(d, [a, b], 2) == History.After(History.After(d, a), b)
  {
    hide History.After, History.Feasible;
    NoSteps(d);
    LeadsMore(d, [], d, a);
    assert [] + [a] == [a] && [a] + [b] == [a, b];
    LeadsMore(d, [a], History.After(d, a), b);
    LeadsAt(d, [a, b], History.After(History.After(d, a), b));
  }

  lemma OneBlocked(d: Doc, empty: Tree, t: Id)
    requires Coherent(d) && Honest(d, empty) && empty.tasks == [] && t in d.tasks && d.tasks[t].status.Blocked?
    requires forall u :: u in d.tasks ==> !d.tasks[u].accepted && !d.tasks[u].status.Finished?
    ensures Safe(d, empty, {}) && OutcomeOf(d, empty).UnlistedBlocked?
  {
    hide Honest;
    EmptiedPlanAnswer(d, empty);
  }

  lemma NoTasksIsCareful(d: Doc, before: Tree, empty: Tree)
    requires empty.tasks == []
    ensures CarefulEdit(d, before, empty)
  {
  }

  lemma EmptySync(d: Doc, empty: Tree)
    requires Fits(d, empty) && empty.tasks == []
    ensures Sync(d, empty).tasks == d.tasks && Coherent(Sync(d, empty))
  {
  }

  lemma AllWait(d: Doc, empty: Tree, t: Id)
    requires Coherent(d) && Honest(d, empty) && empty.tasks == [] && t in d.tasks
    requires forall u :: u in d.tasks ==> d.tasks[u].status.Pending? && !d.tasks[u].accepted
    ensures Safe(d, empty, {}) && OutcomeOf(d, empty) == NothingReady(d.tasks.Keys)
  {
    hide Honest;
    assert t in Listed(d, empty);
    assert BlockedIn(d, Listed(d, empty)) == {};
    assert (set u | u in Listed(d, empty) && !d.tasks[u].accepted) == d.tasks.Keys;
  }

  lemma NewBuildWaits(tree: Tree, build: string)
    requires ValidTree(tree) && tree.tasks != []
    ensures
      var tasks := History.NewDoc(tree, build).tasks;
      tree.tasks[0].id in tasks && forall t :: t in tasks ==> tasks[t].status.Pending? && !tasks[t].accepted
  {
    hide ValidTree, WithTasks, WithVersions;
    TaskAssigned(tree, tree.tasks[0].id);
    forall t ensures t in History.NewDoc(tree, build).tasks <==> Known(tree.tasks, t)
      ensures Known(tree.tasks, t) ==> History.NewDoc(tree, build).tasks[t] == Fresh(build, TaskOf(tree.tasks, t).value)
    {
      WithTasksAt(build, map[], tree.tasks, t);
    }
  }

  // -- the loop itself -----------------------------------------------------------------------------

  /** A stop was requested at some point of the run. */
  ghost predicate StopSeen(d0: Doc, start: nat, ops: seq<History.Op>, world: World) {
    exists i :: start <= i <= |ops| && world.stops(|At(d0, ops, i).events|)
  }

  lemma StopStillSeen(d0: Doc, start: nat, ops: seq<History.Op>, more: seq<History.Op>, world: World)
    requires StopSeen(d0, start, ops, world) && ops <= more
    ensures StopSeen(d0, start, more, world)
  {
    hide At;
    var i :| start <= i <= |ops| && world.stops(|At(d0, ops, i).events|);
    assert ops == more[..|ops|];
    AtPrefix(d0, more, |ops|, i);
    assert world.stops(|At(d0, more, i).events|);
  }

  lemma StopSeenNow(d0: Doc, d: Doc, plan: Tree, inFlight: set<Id>, start: nat, ops: seq<History.Op>, world: World)
    requires OnTrack(d0, d, plan, inFlight, start, ops, world) && world.stops(|d.events|)
    ensures StopSeen(d0, start, ops, world)
  {
    hide Safe, At, PointKept, WriteKept, History.Leads, InProgress, CleansUp;
    assert world.stops(|At(d0, ops, |ops|).events|);
  }

  lemma FirstLook(d: Doc, born: set<Id>, before: Tree, plan: Tree)
    requires MayRun(d, before, plan, born) && ValidTree(plan)
    ensures Fits(d, plan) && Coherent(Sync(d, plan)) && Interrupted(Sync(d, plan), plan)
    ensures Sync(d, plan) == History.After(d, History.SyncPlan(plan))
  {
    hide ValidTree, Sync, Fits, CarefulEdit, Honest, History.LogTrue, History.Apply, History.After;
    AfterSyncIsSync(d, plan);
    History.AfterKeeps(d, born, History.SyncPlan(plan));
    SyncKeepsHonest(d, before, plan);
    var e := Sync(d, plan);
    forall t | t in e.tasks ensures Settledly(e.tasks[t]) || (e.tasks[t].status.Running? && !e.tasks[t].accepted) {
      RecordFlags(e, born, t);
      SyncAt(d, plan, t);
      if t in d.tasks {
        SyncLosesNothing(d, plan, t);
      }
    }
  }

  lemma RecordFlags(d: Doc, born: set<Id>, t: Id)
    requires History.LogTrue(d, born) && t in d.tasks
    ensures d.tasks[t].accepted <==> d.tasks[t].status.Accepted?
  {
    assert History.RecordTrue(d, born, t);
  }

  /** Looking at the same plan again is free. */
  lemma LookAgain(d: Doc, plan: Tree, inFlight: set<Id>)
    requires Safe(d, plan, inFlight) && ValidTree(plan)
    ensures Fits(d, plan) && Sync(d, plan) == d
  {
    hide ValidTree, Flying, CanRunTogether;
    SyncTwice(d, plan);
  }

  lemma ReadyFits(d: Doc, tree: Tree, inFlight: set<Id>, room: int)
    requires Safe(d, tree, inFlight) && DistinctTasks(tree.tasks) && room > 0
    ensures |Ready(d, tree, inFlight, Some(room))| <= room
    ensures CanFollow(d, tree, inFlight, Ready(d, tree, inFlight, Some(room)))
  {
    hide Startable, CanFollow, CanRunTogether, Honest;
    PickSound(d, tree, inFlight, Some(room), 0, []);
    assert forall o :: o in inFlight ==> Flying(d, tree, o);
    ReadyCanFollow(d, tree, inFlight, Ready(d, tree, inFlight, Some(room)));
  }

  /**
   * The answer of a run that was not stopped, not out of rounds and not cut short: nothing is in flight,
   * nothing could start, and the answer is what the ledger says, explained whenever the plan has tasks.
   */
  ghost predicate AnswerFits(d: Doc, plan: Tree, outcome: LoopOutcome) {
    && Safe(d, plan, {}) && (forall k :: 0 <= k < |plan.tasks| ==> !Startable(d, plan, {}, [], plan.tasks[k]))
    && outcome == OutcomeOf(d, plan) && (plan.tasks != [] ==> AnswerExplained(d, plan, outcome))
  }

  /** Nothing outside keeps a run from its answer: no stop, no blank report, and rounds enough for two workers a task. */
  ghost predicate LeftAlone(plan: Tree, maxRounds: int, world: World) {
    Tidy(world) && (forall n :: !world.stops(n)) && maxRounds > 2 * |plan.tasks|
  }

  /** A run left alone in which every worker delivers is complete. */
  lemma DeliveredIsComplete(d0: Doc, born: set<Id>, before: Tree, d: Doc, plan: Tree, start: nat, ops: seq<History.Op>,
                            world: World, outcome: LoopOutcome)
    requires MayRun(d0, before, plan, born) && Tracked(d0, d, plan, start, ops, world) && AnswerFits(d, plan, outcome)
    requires Unhindered(d0, plan) && plan.tasks != [] && Delivering(world)
    ensures outcome.Complete?
  {
    hide MayRun, Unhindered, Delivering, Safe, Startable, AllAccepted, OutcomesDelivered, HeldByBlocked, PointKept, WriteKept, At,
      History.Leads, CleansUp, InProgress, OutcomeOf, Known;
    DeliveredIsNotBlocked(d0, born, before, d, plan, start, ops, world, |ops|);
  }

  /**
   * Build a manifest plan. Whatever the workers do, in whatever order they finish, and wherever the
   * last run crashed: the loop ends; between any two ledger writes the running tasks own nothing in
   * common and have every prerequisite accepted at its current version; every write starts a worker within
   * the limit and with no stop requested when its pass began, or records what a worker answered; no task
   * gets more than two workers; rounds are the passes that started somebody. It stops, runs out of rounds or
   * fails only with reason, and left alone it answers what the ledger says: complete exactly when every task
   * is accepted, which is so when every worker delivers, else blocked on what explains the rest. Unless a
   * report was refused, the ledger is left as a later run needs it.
   */
  method RunManifest(state: BuildState, plan: Tree, maxRounds: int, world: World, ghost born: set<Id>)
    returns (outcome: LoopOutcome, rounds: nat, ghost start: nat, ghost ops: seq<History.Op>)
    requires state.Valid() && ValidTree(plan) && MayRun(state.Document(), state.tree, plan, born)
    modifies state
    ensures state.Valid() && state.tree == plan
    ensures Tracked(old(state.Document()), state.Document(), plan, start, ops, world)
    ensures
      && Fits(old(state.Document()), plan) && Coherent(Sync(old(state.Document()), plan))
      && Coherent(At(old(state.Document()), ops, start))
      && Cleared(Sync(old(state.Document()), plan), At(old(state.Document()), ops, start), plan, world)
    ensures !outcome.Raised? ==>
      && Explained(At(old(state.Document()), ops, start), state.Document(), plan, world)
    ensures rounds == Passes(ops, |ops|) <= 2 * |plan.tasks|
    ensures outcome.RoundLimit? ==> rounds >= maxRounds
    ensures outcome.Stopped? ==> StopSeen(old(state.Document()), start, ops, world)
    ensures outcome.Raised? ==> !Tidy(world)
    ensures !outcome.RoundLimit? && !outcome.Stopped? && !outcome.Raised? ==> AnswerFits(state.Document(), plan, outcome)
    ensures LeftAlone(plan, maxRounds, world) ==> AnswerFits(state.Document(), plan, outcome)
    ensures LeftAlone(plan, maxRounds, world) && Delivering(world) && plan.tasks != [] && Unhindered(old(state.Document()), plan) ==>
      outcome.Complete?
    ensures !outcome.Raised? ==> Safe(state.Document(), plan, {}) && MayRun(state.Document(), plan, plan, born)
  {
    hide ValidTree, Safe, OnTrack, Tracked, Total, MayRun, Coherent, AnswerFits, Weight, StartsLeft, History.Leads, At, Passes,
      StopSeen, Delivering, Unhindered, Tidy, PassOver, Explained, Resting, Fits, Sync, Cleared;
    ghost var d0 := state.Document();
    rounds, start, ops := 0, 0, [];
    var inFlight: set<Id> := {};
    var reconciled, stop := false, false;
    ghost var b := d0;
    while true
      invariant state.Valid()
      invariant !reconciled ==> state.Document() == d0 && state.tree == old(state.tree) && inFlight == {} && rounds == 0 && !stop
      invariant reconciled ==>
        state.tree == plan && OnTrack(d0, state.Document(), plan, inFlight, start, ops, world) && PassOver(ops)
      invariant reconciled ==> rounds == Passes(ops, |ops|)
      invariant reconciled ==> start <= |ops| && At(d0, ops, start) == b && Coherent(b) && Resting(b, plan)
      invariant reconciled ==> Explained(b, state.Document(), plan, world)
      invariant reconciled ==> Fits(d0, plan) && Coherent(Sync(d0, plan)) && Cleared(Sync(d0, plan), b, plan, world)
      invariant reconciled ==> rounds + Total(state.tasks, plan.tasks, StartsLeft) <= 2 * |plan.tasks|
      invariant stop ==> StopSeen(d0, start, ops, world)
      decreases !reconciled, Total(state.tasks, plan.tasks, Weight)
    {
      start, ops := Look(state, plan, inFlight, !reconciled, world, d0, start, ops, born);
      if !reconciled {
        b := state.Document();
        OnTrackFacts(d0, b, plan, {}, start, ops, world);
        SafeRests(b, plan);
        AtTheBeginning(b, plan, world);
      }
      reconciled := true;
      if world.stops(|state.events|) {
        stop := true;
        StopSeenNow(d0, state.Document(), plan, inFlight, start, ops, world);
      }
      if inFlight == {} && (stop || rounds >= maxRounds) {
        outcome := if stop then Stopped else RoundLimit;
        OnTrackFacts(d0, state.Document(), plan, inFlight, start, ops, world);
        break;
      }
      ghost var before := ops;
      var started, answer;
      started, answer, inFlight, ops := Round(state, inFlight, stop, world, b, d0, start, ops);
      assert before == ops[..|before|];
      AtPrefix(d0, ops, |before|, start);
      if stop {
        StopStillSeen(d0, start, before, ops, world);
      }
      if started {
        rounds := rounds + 1;
      }
      if answer.Some? {
        outcome := answer.value;
        break;
      }
    }
    if !outcome.Raised? {
      GivesBack(d0, state.Document(), born, old(state.tree), plan, start, ops, world);
    }
    if outcome.Stopped? {
      SomebodyStopped(d0, start, ops, world);
    }
    if !outcome.RoundLimit? && !outcome.Stopped? && !outcome.Raised? && Delivering(world) && plan.tasks != [] && Unhindered(d0, plan) {
      DeliveredIsComplete(d0, born, old(state.tree), state.Document(), plan, start, ops, world, outcome);
    }
  }

  lemma SafeRests(d: Doc, plan: Tree)
    requires Safe(d, plan, {})
    ensures Coherent(d) && Resting(d, plan)
  {
    hide Honest, Flying, CanRunTogether, Known, NoneFinished;
    forall t | Known(plan.tasks, t) && t in d.tasks ensures !d.tasks[t].status.Running? {
      assert Settledly(d.tasks[t]);
    }
  }

  lemma SomebodyStopped(d0: Doc, start: nat, ops: seq<History.Op>, world: World)
    requires StopSeen(d0, start, ops, world)
    ensures exists n :: world.stops(n)
  {
    hide At;
  }

  lemma GivesBack(d0: Doc, d: Doc, born: set<Id>, before: Tree, plan: Tree, start: nat, ops: seq<History.Op>, world: World)
    requires MayRun(d0, before, plan, born) && OnTrack(d0, d, plan, {}, start, ops, world)
    ensures Safe(d, plan, {}) && MayRun(d, plan, plan, born)
  {
    hide Honest, CarefulEdit, Safe, History.LogTrue, PointKept, WriteKept, At, CleansUp, InProgress, History.Leads;
    SafeIsCoherent(d, plan, {});
    MayRunAgain(d0, born, before, d, plan, start, ops, world, |ops|, plan);
  }

  /** One pass: start what is ready within the room there is, or answer; then record whoever finishes first. */
  method Round(state: BuildState, inFlight0: set<Id>, stop: bool, world: World,
               ghost b: Doc, ghost d0: Doc, ghost start: nat, ghost ops0: seq<History.Op>)
    returns (started: bool, answer: Option<LoopOutcome>, inFlight: set<Id>, ghost ops: seq<History.Op>)
    requires state.Valid() && ValidTree(state.tree) && PassOver(ops0)
    requires OnTrack(d0, state.Document(), state.tree, inFlight0, start, ops0, world)
    requires (inFlight0 == {} ==> !stop) && (!stop ==> !world.stops(|state.events|))
    requires Coherent(b) && Resting(b, state.tree) && Explained(b, state.Document(), state.tree, world)
    modifies state`tasks, state`events
    ensures state.Valid() && Tracked(d0, state.Document(), state.tree, start, ops, world)
    ensures ops0 <= ops && Passes(ops, |ops|) == Passes(ops0, |ops0|) + if started then 1 else 0
    ensures started ==> Total(old(state.tasks), state.tree.tasks, StartsLeft) >= 1
    ensures answer.None? ==>
      && OnTrack(d0, state.Document(), state.tree, inFlight, start, ops, world) && PassOver(ops)
      && Total(state.tasks, state.tree.tasks, Weight) < Total(old(state.tasks), state.tree.tasks, Weight)
      && Total(state.tasks, state.tree.tasks, StartsLeft) + (if started then 1 else 0)
      <= Total(old(state.tasks), state.tree.tasks, StartsLeft)
    ensures answer.None? || !answer.value.Raised? ==> Explained(b, state.Document(), state.tree, world)
    ensures answer.Some? ==> !answer.value.RoundLimit? && !answer.value.Stopped?
    ensures answer.Some? && answer.value.Raised? ==> !Tidy(world)
    ensures answer.Some? && !answer.value.Raised? ==>
      && AnswerFits(state.Document(), state.tree, answer.value)
      && OnTrack(d0, state.Document(), state.tree, {}, start, ops, world)
  {
    hide ValidTree, Safe, OnTrack, Tracked, Total, Coherent, AnswerExplained, Ready, DistinctTasks, PassOver, Passes, Tidy,
      AnswerFits, Members, Begins, Explained, TookOff, Recorded, Begun, NothingToAdd, Resting;
    TaskAssigned(state.tree, Id(""));
    var room;
    ghost var d := state.Document();
    started, room, inFlight, ops := StartPhase(state, inFlight0, stop, world, d0, start, ops0);
    TookOffIsExplained(b, d, state.Document(), Begun(d, state.tree, inFlight0, room, stop), state.tree, world);
    OnTrackFacts(d0, state.Document(), state.tree, inFlight, start, ops, world);
    if inFlight == {} {
      var outcome := Answer(state, state.tree);
      return started, Some(outcome), inFlight, ops;
    }
    var done := FirstCompleted(inFlight);
    var refusal;
    d := state.Document();
    InFlightRuns(d0, d, state.tree, inFlight, start, ops, world);
    inFlight, refusal, ops := CollectDone(state, done, inFlight, world, d0, start, ops);
    if refusal.None? {
      RecordedIsExplained(b, d, state.Document(), done, state.tree, world);
    }
    answer := if refusal.Some? then Some(Raised(refusal.value)) else None;
  }

  /** What a pass starts: the scheduler's choice for the room there is, and nobody once a stop was seen. */
  ghost function Begun(d: Doc, tree: Tree, inFlight: set<Id>, room: int, stop: bool): seq<Id>
    requires Coherent(d)
  {
    if room > 0 && !stop then Ready(d, tree, inFlight, Some(room)) else []
  }

  /** After everything chosen has taken off, what could not join the choice cannot join what is in flight. */
  lemma NothingMoreToAdd(d: Doc, e: Doc, tree: Tree, inFlight: set<Id>, ready: seq<Id>)
    requires Coherent(d) && Coherent(e) && TookOff(d, e, ready) && NothingToAdd(d, tree, inFlight, ready)
    requires forall c :: 0 <= c < |ready| ==> Known(tree.tasks, ready[c]) && ready[c] in d.tasks && !d.tasks[ready[c]].accepted
    ensures NothingToAdd(e, tree, inFlight + Members(ready), [])
  {
    hide CanRunTogether, Known;
    forall k | 0 <= k < |tree.tasks| ensures !Startable(e, tree, inFlight + Members(ready), [], tree.tasks[k]) {
      if Startable(e, tree, inFlight + Members(ready), [], tree.tasks[k]) {
        StartableBefore(d, e, tree, inFlight, ready, tree.tasks[k]);
      }
    }
  }

  lemma StartableBefore(d: Doc, e: Doc, tree: Tree, inFlight: set<Id>, ready: seq<Id>, task: Task)
    requires Coherent(d) && Coherent(e) && TookOff(d, e, ready)
    requires forall c :: 0 <= c < |ready| ==> Known(tree.tasks, ready[c]) && ready[c] in d.tasks && !d.tasks[ready[c]].accepted
    requires Startable(e, tree, inFlight + Members(ready), [], task)
    ensures Startable(d, tree, inFlight, ready, task)
  {
    hide CanRunTogether, Known;
    var all := inFlight + Members(ready);
    forall k | 0 <= k < |task.deps| ensures Releases(d, task.deps[k]) {
      assert Releases(e, task.deps[k]);
    }
    forall c | 0 <= c < |ready| ensures CanRunTogether(tree, task.id, ready[c]) {
      assert ready[c] in all;
    }
  }

  lemma AllCount(d: Doc, tree: Tree, inFlight: set<Id>, ready: seq<Id>)
    requires Coherent(d) && SoundChoice(d, tree, inFlight, ready) && DistinctTasks(tree.tasks)
    ensures |inFlight + Members(ready)| == |inFlight| + |ready|
  {
    hide Released;
    forall a, b | 0 <= a < b < |ready| ensures ready[a] != ready[b] {
      assert ready[..b][a] == ready[a];
      assert Startable(d, tree, inFlight, ready[..b], TaskOf(tree.tasks, ready[b]).value);
      assert CanRunTogether(tree, ready[b], ready[a]);
    }
    DistinctSize(ready);
    assert Members(ready) == Elements(ready);
    forall t | t in Members(ready) ensures t !in inFlight {
      var c :| 0 <= c < |ready| && ready[c] == t;
      assert Startable(d, tree, inFlight, ready[..c], TaskOf(tree.tasks, ready[c]).value);
    }
    assert inFlight !! Members(ready);
  }

  /** Read the limit, pick what is ready within it, and start it. */
  method StartPhase(state: BuildState, inFlight0: set<Id>, stop: bool, world: World,
                    ghost d0: Doc, ghost start: nat, ghost ops0: seq<History.Op>)
    returns (started: bool, room: int, inFlight: set<Id>, ghost ops: seq<History.Op>)
    requires state.Valid() && DistinctTasks(state.tree.tasks) && PassOver(ops0)
    requires OnTrack(d0, state.Document(), state.tree, inFlight0, start, ops0, world)
    requires (inFlight0 == {} ==> !stop) && (!stop ==> !world.stops(|state.events|))
    modifies state`tasks, state`events
    ensures state.Valid() && OnTrack(d0, state.Document(), state.tree, inFlight, start, ops, world)
    ensures Total(state.tasks, state.tree.tasks, Weight) <= Total(old(state.tasks), state.tree.tasks, Weight)
    ensures Total(state.tasks, state.tree.tasks, StartsLeft) + (if started then 1 else 0)
         <= Total(old(state.tasks), state.tree.tasks, StartsLeft)
    ensures room == Max(1, world.capacity(|old(state.events)|)) - |inFlight0|
    ensures
      var ready := Begun(old(state.Document()), state.tree, inFlight0, room, stop);
      && (started <==> ready != []) && inFlight == inFlight0 + Members(ready) && ops == ops0 + Begins(ready)
    ensures Passes(ops, |ops|) == Passes(ops0, |ops0|) + if started then 1 else 0
    ensures TookOff(old(state.Document()), state.Document(), Begun(old(state.Document()), state.tree, inFlight0, room, stop))
    ensures stop || |inFlight| >= room + |inFlight0| || NothingToAdd(state.Document(), state.tree, inFlight, [])
    ensures inFlight == {} ==> room >= 1 && NothingToAdd(state.Document(), state.tree, {}, [])
  {
    hide Safe, OnTrack, Tracked, Total, Honest, Coherent, CanFollow, DistinctTasks, Known, Members, Begins, PassOver, Passes, TookOff,
      NothingToAdd, SoundChoice, Ready, Begun, At, History.Leads;
    ghost var d := state.Document();
    OnTrackFacts(d0, d, state.tree, inFlight0, start, ops0, world);
    room := Max(1, world.capacity(|state.events|)) - |inFlight0|;
    var ready := ChooseReady(state, inFlight0, room, stop);
    started := ready != [];
    inFlight, ops := inFlight0, ops0;
    if started {
      inFlight, ops := StartReady(state, ready, inFlight0, world, d0, start, ops0);
    } else {
      NoneYet();
      NobodyTookOff(d);
    }
    FilledUp(d, state.Document(), state.tree, inFlight0, room, stop);
  }

  /** What may start in the room there is, if nobody asked to stop. */
  method ChooseReady(state: BuildState, inFlight: set<Id>, room: int, stop: bool) returns (ready: seq<Id>)
    requires state.Valid() && DistinctTasks(state.tree.tasks) && Safe(state.Document(), state.tree, inFlight)
    ensures ready == Begun(state.Document(), state.tree, inFlight, room, stop)
    ensures CanFollow(state.Document(), state.tree, inFlight, ready) && |ready| <= Max(0, room) && (stop ==> ready == [])
  {
    hide Safe, Coherent, Ready, CanFollow, DistinctTasks, Known, SoundChoice, NothingToAdd;
    SafeIsCoherent(state.Document(), state.tree, inFlight);
    NobodyCanFollow(state.Document(), state.tree, inFlight);
    ready := [];
    if room > 0 && !stop {
      KnowsAll(state.Document(), state.tree);
      ready := ReadyTasks(state, inFlight, Some(room));
      ReadyFits(state.Document(), state.tree, inFlight, room);
    }
  }

  lemma NobodyCanFollow(d: Doc, tree: Tree, inFlight: set<Id>)
    requires Coherent(d)
    ensures CanFollow(d, tree, inFlight, [])
  {
  }

  /**
   * When a pass has started what it chose, a stop was requested, or the limit is reached, or no task of the plan
   * could start beside those in flight.
   */
  lemma FilledUp(d: Doc, e: Doc, tree: Tree, inFlight: set<Id>, room: int, stop: bool)
    requires Coherent(d) && Coherent(e) && DistinctTasks(tree.tasks) && Safe(d, tree, inFlight)
    requires TookOff(d, e, Begun(d, tree, inFlight, room, stop))
    ensures
      var ready := Begun(d, tree, inFlight, room, stop);
      && (stop || |inFlight + Members(ready)| >= room + |inFlight| || NothingToAdd(e, tree, inFlight + Members(ready), []))
      && (ready == [] <==> Members(ready) == {}) && (inFlight == {} ==> |inFlight| == 0)
  {
    hide Safe, Ready, TookOff, NothingToAdd, SoundChoice, DistinctTasks, Coherent;
    var ready := Begun(d, tree, inFlight, room, stop);
    NoneYet();
    if ready != [] {
      SomeMembers(ready);
    }
    if room > 0 && !stop {
      ReadyFillsUp(d, tree, inFlight, Some(room));
      AllCount(d, tree, inFlight, ready);
      ChosenWait(d, tree, inFlight, ready);
      if |ready| < room {
        NothingMoreToAdd(d, e, tree, inFlight, ready);
      }
    }
  }

  lemma ChosenWait(d: Doc, tree: Tree, inFlight: set<Id>, ready: seq<Id>)
    requires Safe(d, tree, inFlight) && SoundChoice(d, tree, inFlight, ready)
    ensures forall c :: 0 <= c < |ready| ==> Known(tree.tasks, ready[c]) && ready[c] in d.tasks && !d.tasks[ready[c]].accepted
  {
    hide Honest, CanRunTogether, Released, Flying;
    forall c | 0 <= c < |ready| ensures Known(tree.tasks, ready[c]) && ready[c] in d.tasks && !d.tasks[ready[c]].accepted {
      assert Startable(d, tree, inFlight, ready[..c], TaskOf(tree.tasks, ready[c]).value);
      assert ready[c] !in inFlight;
      assert Settledly(d.tasks[ready[c]]);
    }
  }

  lemma SomeMembers(tasks: seq<Id>)
    requires tasks != []
    ensures Members(tasks) != {}
  {
    assert tasks[0] in Members(tasks);
  }

  /** Look at plan and ledger: the first time also settle what a crash left running, later nothing is new. */
  method Look(state: BuildState, plan: Tree, inFlight: set<Id>, first: bool, world: World,
              ghost d0: Doc, ghost start0: nat, ghost ops0: seq<History.Op>, ghost born: set<Id>)
    returns (ghost start: nat, ghost ops: seq<History.Op>)
    requires state.Valid() && ValidTree(plan)
    requires first ==> inFlight == {} && state.Document() == d0 && MayRun(d0, state.tree, plan, born)
    requires !first ==> OnTrack(d0, state.Document(), plan, inFlight, start0, ops0, world) && PassOver(ops0)
    modifies state
    ensures state.Valid() && state.tree == plan
    ensures OnTrack(d0, state.Document(), plan, inFlight, start, ops, world) && PassOver(ops)
    ensures first ==> Total(state.tasks, plan.tasks, StartsLeft) <= 2 * |plan.tasks| && Passes(ops, |ops|) == 0 && start == |ops|
    ensures first ==> Fits(d0, plan) && Coherent(Sync(d0, plan)) && Cleared(Sync(d0, plan), state.Document(), plan, world)
    ensures !first ==> state.Document() == old(state.Document()) && start == start0 && ops == ops0
  {
    hide ValidTree, Safe, OnTrack, Total, MayRun, Coherent, PassOver, Passes, Fits, Sync, Cleared;
    start, ops := start0, ops0;
    if first {
      ops := FirstLoad(state, plan, world, born);
      start := |ops|;
    } else {
      Reload(state, plan, inFlight, world, d0, start, ops);
    }
  }

  /** The first look at plan and ledger: take the plan on board, then settle what a crash left running. */
  method FirstLoad(state: BuildState, plan: Tree, world: World, ghost born: set<Id>) returns (ghost ops: seq<History.Op>)
    requires state.Valid() && ValidTree(plan) && MayRun(state.Document(), state.tree, plan, born)
    modifies state
    ensures state.Valid() && state.tree == plan
    ensures OnTrack(old(state.Document()), state.Document(), plan, {}, |ops|, ops, world)
    ensures PassOver(ops) && Passes(ops, |ops|) == 0
    ensures Fits(old(state.Document()), plan) && Coherent(Sync(old(state.Document()), plan))
    ensures Cleared(Sync(old(state.Document()), plan), state.Document(), plan, world)
    ensures Total(state.tasks, plan.tasks, StartsLeft) <= 2 * |plan.tasks|
  {
    hide ValidTree, Sync, Fits, Safe, OnTrack, Total, MayRun, Interrupted, Clearing, Cleared, Passes, PassOver, History.After;
    ghost var d0 := state.Document();
    FirstLook(d0, born, state.tree, plan);
    state.SyncTree(plan);
    ghost var e := state.Document();
    ghost var more := Reconcile(state, world);
    ops := [History.SyncPlan(plan)] + more;
    TrackBegins(d0, e, state.Document(), plan, more, world);
    NoPassYet(e, more, state.Document(), plan);
    TotalBounded(state.tasks, plan.tasks);
  }

  lemma {:induction false} ClearingStartsNobody(d: Doc, ops: seq<History.Op>, e: Doc, tree: Tree)
    requires Clearing(d, ops, e, tree)
    ensures StartsNobody(ops)
    decreases ops
  {
    hide History.After, CleansUp;
    if ops != [] {
      FeasibleIfClearing(d, ops[0], tree);
      ClearingStartsNobody(History.After(d, ops[0]), ops[1..], e, tree);
      assert ops == [ops[0]] + ops[1..];
    }
  }

  lemma {:induction false} NoPassYet(e: Doc, more: seq<History.Op>, d: Doc, plan: Tree)
    requires Clearing(e, more, d, plan)
    ensures var ops := [History.SyncPlan(plan)] + more; PassOver(ops) && Passes(ops, |ops|) == 0
  {
    hide Clearing;
    ClearingStartsNobody(e, more, d, plan);
    PassesQuiet([History.SyncPlan(plan)], more);
  }

  /** Every later look at the unchanged plan leaves the ledger alone. */
  method Reload(state: BuildState, plan: Tree, inFlight: set<Id>, ghost world: World,
                ghost d0: Doc, ghost start: nat, ghost ops: seq<History.Op>)
    requires state.Valid() && ValidTree(plan) && OnTrack(d0, state.Document(), plan, inFlight, start, ops, world)
    modifies state
    ensures state.Valid() && state.tree == plan && state.Document() == old(state.Document())
  {
    hide ValidTree, Sync, Fits, Safe, OnTrack, Tracked, Coherent;
    OnTrackFacts(d0, state.Document(), plan, inFlight, start, ops, world);
    LookAgain(state.Document(), plan, inFlight);
    state.SyncTree(plan);
  }

  /** Nothing is in flight and nothing can start. */
  method Answer(state: BuildState, plan: Tree) returns (outcome: LoopOutcome)
    requires Safe(state.Document(), plan, {}) && ValidTree(plan) && DistinctTasks(plan.tasks) && Coherent(state.Document())
    requires NothingToAdd(state.Document(), plan, {}, [])
    ensures outcome == OutcomeOf(state.Document(), plan) && AnswerFits(state.Document(), plan, outcome)
    ensures !outcome.RoundLimit? && !outcome.Stopped? && !outcome.Raised?
  {
    hide Safe, ValidTree, DistinctTasks, Ready, Coherent, Startable, AnswerExplained;
    outcome := OutcomeOf(state.Document(), plan);
    if plan.tasks != [] {
      StalledAnswer(state.Document(), plan);
    }
  }
}
