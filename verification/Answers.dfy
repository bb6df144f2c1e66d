/** How the record of each task came about: attempt by attempt, from what its workers answered. */
module Answers {
  import opened Common
  import opened Plan
  import opened Text
  import opened Ledger
  import History
  import opened ManifestSteps
  import opened Courses

  // -- what a pass does to the records -------------------------------------------------------------

  function JustBegun(r: Attempt): Attempt {
    r.(status := Running, reason := None)
  }

  /** Exactly these waiting tasks have been started, and nothing else changed. */
  ghost predicate TookOff(d: Doc, e: Doc, tasks: seq<Id>) {
    && e.build == d.build && e.versions == d.versions && e.tasks.Keys == d.tasks.Keys
    && (forall t :: t in tasks ==> t in d.tasks && d.tasks[t].status.Pending?)
    && forall t :: t in d.tasks ==> e.tasks[t] == if t in tasks then JustBegun(d.tasks[t]) else d.tasks[t]
  }

  /** Exactly these tasks have had their worker's answer recorded, and nothing else changed. */
  ghost predicate Recorded(d: Doc, e: Doc, done: set<Id>, world: World)
    requires Coherent(d)
  {
    && e.build == d.build && e.versions == d.versions && e.tasks.Keys == d.tasks.Keys
    && forall t :: t in d.tasks ==>
         if t in done then AsReported(d, d.tasks[t], e.tasks[t], AnswerOf(world, d, t), world.repairable)
         else e.tasks[t] == d.tasks[t]
  }

  lemma NobodyTookOff(d: Doc)
    ensures TookOff(d, d, [])
  {
  }

  lemma OneMoreTookOff(d: Doc, e: Doc, f: Doc, tasks: seq<Id>, t: Id)
    requires TookOff(d, e, tasks) && OnlyTouches(e, f, t) && t in e.tasks && e.tasks[t].status.Pending?
    requires f.tasks[t] == JustBegun(e.tasks[t])
    ensures TookOff(d, f, tasks + [t])
  {
  }

  lemma NothingRecorded(d: Doc, world: World)
    requires Coherent(d)
    ensures Recorded(d, d, {}, world)
  {
  }

  lemma ReportedElsewhere(d: Doc, e: Doc, r: Attempt, s: Attempt, res: WorkerResult, repairable: string -> bool)
    requires d.versions == e.versions && d.build == e.build && r.planId in d.versions
    ensures AsReported(d, r, s, res, repairable) == AsReported(e, r, s, res, repairable)
  {
    hide FailureEnds, History.Legal, WithWork, ReasonOf;
    SameElsewhere(d, e, WithWork(Threaded(r, res), res), s, ReasonOf(res), repairable);
  }

  lemma OneMoreRecorded(d: Doc, e: Doc, f: Doc, done: set<Id>, world: World, t: Id)
    requires Coherent(d) && Coherent(e) && Recorded(d, e, done, world) && OnlyTouches(e, f, t) && t !in done
    requires AsReported(e, e.tasks[t], f.tasks[t], AnswerOf(world, e, t), world.repairable)
    ensures Recorded(d, f, done + {t}, world)
  {
    hide AsReported;
    ReportedElsewhere(d, e, d.tasks[t], f.tasks[t], AnswerOf(world, d, t), world.repairable);
  }

  // -- how a record came about -----------------------------------------------------------------------

  /**
   * From the record at the beginning, n times over: the waiting attempt was begun, and its worker's answer was
   * recorded.
   */
  ghost predicate Reached(b: Doc, s: Attempt, t: Id, world: World, n: nat)
    requires Coherent(b) && t in b.tasks
    decreases n
  {
    if n == 0 then s == b.tasks[t]
    else exists r :: Reached(b, r, t, world, n - 1) && Answered(b, r, s, t, world)
  }

  ghost predicate Answered(b: Doc, r: Attempt, s: Attempt, t: Id, world: World) {
    && r.status.Pending? && r.planId in b.versions
    && AsReported(b, JustBegun(r), s, world.answers(t, r.number).(task := t), world.repairable)
  }

  /** The attempt is the last one reached, or that one begun. */
  ghost predicate CameAbout(b: Doc, s: Attempt, t: Id, world: World)
    requires Coherent(b) && t in b.tasks
  {
    exists n: nat, r :: Reached(b, r, t, world, n) && (s == r || (r.status.Pending? && s == JustBegun(r)))
  }

  /** Every record of the plan came about like this. */
  ghost predicate Explained(b: Doc, d: Doc, tree: Tree, world: World)
    requires Coherent(b)
  {
    && d.build == b.build && d.versions == b.versions && d.tasks.Keys == b.tasks.Keys
    && forall t :: Known(tree.tasks, t) && t in d.tasks ==> CameAbout(b, d.tasks[t], t, world)
  }

  lemma AtTheBeginning(b: Doc, tree: Tree, world: World)
    requires Coherent(b)
    ensures Explained(b, b, tree, world)
  {
    forall t | Known(tree.tasks, t) && t in b.tasks ensures CameAbout(b, b.tasks[t], t, world) {
      assert Reached(b, b.tasks[t], t, world, 0);
    }
  }

  lemma {:induction false} ReachedOnly(b: Doc, s: Attempt, t: Id, world: World)
    requires Coherent(b) && t in b.tasks && CameAbout(b, s, t, world) && !s.status.Running?
    ensures exists n: nat :: Reached(b, s, t, world, n)
  {
    hide Reached;
    var n: nat, r :| Reached(b, r, t, world, n) && (s == r || (r.status.Pending? && s == JustBegun(r)));
  }

  lemma TookOffIsExplained(b: Doc, d: Doc, e: Doc, tasks: seq<Id>, tree: Tree, world: World)
    requires Coherent(b) && Explained(b, d, tree, world) && TookOff(d, e, tasks)
    ensures Explained(b, e, tree, world)
  {
    hide Reached, Known, CameAbout;
    forall t | Known(tree.tasks, t) && t in e.tasks ensures CameAbout(b, e.tasks[t], t, world) {
      if t in tasks {
        ReachedOnly(b, d.tasks[t], t, world);
        BegunCameAbout(b, d.tasks[t], t, world);
      }
    }
  }

  lemma {:induction false} BegunCameAbout(b: Doc, r: Attempt, t: Id, world: World)
    requires Coherent(b) && t in b.tasks && r.status.Pending? && exists n: nat :: Reached(b, r, t, world, n)
    ensures CameAbout(b, JustBegun(r), t, world)
  {
    hide Reached;
  }

  /** No attempt of the plan is running. */
  ghost predicate Resting(d: Doc, plan: Tree) {
    forall t :: Known(plan.tasks, t) && t in d.tasks ==> !d.tasks[t].status.Running?
  }

  lemma RecordedIsExplained(b: Doc, d: Doc, e: Doc, done: set<Id>, tree: Tree, world: World)
    requires Coherent(b) && Coherent(d) && Explained(b, d, tree, world) && Recorded(d, e, done, world)
    requires forall t :: t in done ==> t in d.tasks && d.tasks[t].status.Running?
    requires Resting(b, tree)
    ensures Explained(b, e, tree, world)
  {
    hide Reached, Known, CameAbout, AsReported;
    forall t | Known(tree.tasks, t) && t in e.tasks ensures CameAbout(b, e.tasks[t], t, world) {
      if t in done {
        AnswerCameAbout(b, d, d.tasks[t], e.tasks[t], t, world);
      }
    }
  }

  lemma AnswerCameAbout(b: Doc, d: Doc, r: Attempt, s: Attempt, t: Id, world: World)
    requires Coherent(b) && Coherent(d) && t in b.tasks && t in d.tasks && d.tasks[t] == r && r.status.Running?
    requires CameAbout(b, r, t, world) && d.versions == b.versions && d.build == b.build && !b.tasks[t].status.Running?
    requires AsReported(d, r, s, AnswerOf(world, d, t), world.repairable)
    ensures CameAbout(b, s, t, world)
  {
    hide AsReported;
    var n: nat, x :| Reached(b, x, t, world, n) && (r == x || (x.status.Pending? && r == JustBegun(x)));
    ReachedRests(b, x, t, world, n);
    ReportedElsewhere(b, d, r, s, AnswerOf(world, d, t), world.repairable);
    assert Answered(b, x, s, t, world);
    assert Reached(b, s, t, world, n + 1);
  }

  lemma {:induction false} ReachedRests(b: Doc, s: Attempt, t: Id, world: World, n: nat)
    requires Coherent(b) && t in b.tasks && Reached(b, s, t, world, n) && !b.tasks[t].status.Running?
    ensures !s.status.Running?
  {
    hide AttemptId, Clean, CleanAll, History.KeepsThreads;
  }

  // -- what a record then says -----------------------------------------------------------------------

  lemma FailureSaysWhy(b: Doc, r: Attempt, s: Attempt, reason: string, repairable: string -> bool)
    requires r.planId in b.versions && FailureEnds(b, r, s, reason, repairable)
    ensures s.status.Blocked? || s.status.Pending?
    ensures s.status.Blocked? ==> s.number == r.number && s.reason == Clean(reason) && !(repairable(reason) && s.lineageRepairs < 1)
    ensures s.status.Pending? ==>
      s.number == r.number + 1 && repairable(reason) && s.previousFailure == Clean(reason) && s.lineageRepairs == 1
  {
    hide AttemptId, Clean, History.KeepsThreads;
  }

  lemma GoodWorkSaysWhy(b: Doc, r: Attempt, s: Attempt)
    requires r.planId in b.versions && History.Legal(b, r, s, Reworked)
    ensures s.status.Pending? && s.number == r.number + 1
    ensures s.previousCommit == if r.commit.Some? then r.commit else r.previousCommit
  {
    hide AttemptId, History.KeepsThreads;
  }

  lemma AnswerSaysWhy(b: Doc, r: Attempt, s: Attempt, t: Id, world: World)
    requires Answered(b, r, s, t, world)
    ensures s.status.Blocked? ==>
      var res := world.answers(t, s.number).(task := t);
      && !Good(res) && s.reason == Clean(ReasonOf(res)) && !(world.repairable(ReasonOf(res)) && s.lineageRepairs < 1)
    ensures s.status.Accepted? ==>
      var res := world.answers(t, s.number).(task := t);
      Good(res) && s.commit == Clean(res.commit.value) && s.checks == Kept(ChecksOf(res))
    ensures s.status.Pending? ==>
      var res := world.answers(t, s.number - 1).(task := t);
      if Good(res) then s.previousCommit == Clean(res.commit.value)
      else world.repairable(ReasonOf(res)) && s.previousFailure == Clean(ReasonOf(res)) && s.lineageRepairs == 1
  {
    hide FailureEnds, History.Legal, Clean, CleanAll, Kept, ReasonOf, ChecksOf, Blank;
    var res := world.answers(t, r.number).(task := t);
    var handedIn := WithWork(Threaded(JustBegun(r), res), res);
    if HasCommit(res) {
      CleanRefusesBlank(res.commit.value);
    }
    if !Good(res) {
      FailureSaysWhy(b, handedIn, s, ReasonOf(res), world.repairable);
    } else if r.planVersion != b.versions[r.planId] {
      GoodWorkSaysWhy(b, handedIn, s);
    }
  }

  /**
   * What a record that a run changed says for itself: it is blocked because its worker failed with that reason,
   * for good or a second time; it is accepted with the commit and checks its worker reported; it waits again
   * because a first failure could be repaired, which it knows the reason of, or because its plan moved on.
   */
  lemma RecordsSayWhy(b: Doc, s: Attempt, t: Id, world: World)
    requires Coherent(b) && t in b.tasks && CameAbout(b, s, t, world) && !s.status.Running? && s != b.tasks[t]
    ensures s.status.Blocked? ==>
      var res := world.answers(t, s.number).(task := t);
      && !Good(res) && s.reason == Clean(ReasonOf(res)) && !(world.repairable(ReasonOf(res)) && s.lineageRepairs < 1)
    ensures s.status.Accepted? ==>
      var res := world.answers(t, s.number).(task := t);
      Good(res) && s.commit == Clean(res.commit.value) && s.checks == Kept(ChecksOf(res))
    ensures s.status.Pending? ==>
      var res := world.answers(t, s.number - 1).(task := t);
      if Good(res) then s.previousCommit == Clean(res.commit.value)
      else world.repairable(ReasonOf(res)) && s.previousFailure == Clean(ReasonOf(res)) && s.lineageRepairs == 1
  {
    ReachedOnly(b, s, t, world);
    var n: nat :| Reached(b, s, t, world, n);
    var r :| Reached(b, r, t, world, n - 1) && Answered(b, r, s, t, world);
    hide Reached, Answered, Clean, CleanAll, ReasonOf, ChecksOf;
    AnswerSaysWhy(b, r, s, t, world);
  }
}
