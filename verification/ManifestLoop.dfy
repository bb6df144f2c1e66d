/** What holds whenever the build loop looks at its ledger, the two steps that keep it, and a measure both lower. */
module ManifestLoop {
  import opened Common
  import opened Plan
  import opened Ledger
  import opened PlanEdits
  import opened Schedule
  import opened ManifestSteps

  datatype LoopOutcome =
    | Complete
    | BlockedOn(tasks: set<Id>)
    | NothingReady(waiting: set<Id>)
    | UnlistedBlocked
    | Stopped
    | RoundLimit
    | Raised(refusal: Refusal)

  // -- what holds whenever the loop looks ------------------------------------------------

  /** In flight: running at the current version with every prerequisite accepted. */
  ghost predicate Flying(d: Doc, tree: Tree, t: Id)
    requires Coherent(d)
  {
    && Known(tree.tasks, t) && t in d.tasks
    && d.tasks[t].status.Running? && !d.tasks[t].accepted
    && d.tasks[t].planVersion == d.versions[d.tasks[t].planId]
    && Released(d, TaskOf(tree.tasks, t).value.deps)
  }

  /** The record is at the version its plan has now. */
  ghost predicate AtCurrent(d: Doc, t: Id) {
    t in d.tasks && d.tasks[t].planId in d.versions && d.tasks[t].planVersion == d.versions[d.tasks[t].planId]
  }

  ghost predicate Settledly(r: Attempt) {
    !r.status.Running? && !r.status.Finished? && (r.accepted <==> r.status.Accepted?)
  }

  ghost predicate NoneFinished(d: Doc) {
    forall t :: t in d.tasks ==> !d.tasks[t].status.Finished?
  }

  /** The in-flight set is the running records, no two of them own anything in common. */
  ghost predicate Safe(d: Doc, tree: Tree, inFlight: set<Id>) {
    && Coherent(d) && Honest(d, tree)
    && (forall t :: t in inFlight ==> Flying(d, tree, t))
    && (forall t :: Known(tree.tasks, t) && t !in inFlight ==> Settledly(d.tasks[t]))
    && NoneFinished(d)
    && (forall a, b :: a in inFlight && b in inFlight && a != b ==> CanRunTogether(tree, a, b))
  }

  lemma FlyingUndisturbed(d: Doc, e: Doc, tree: Tree, touched: Id, t: Id)
    requires Coherent(d) && Coherent(e) && OnlyTouches(d, e, touched)
    requires !d.tasks[touched].accepted && t != touched && Flying(d, tree, t)
    ensures Flying(e, tree, t)
  {
  }

  lemma TouchKeepsHonest(d: Doc, e: Doc, tree: Tree, t: Id)
    requires Honest(d, tree) && OnlyTouches(d, e, t) && d.tasks[t].planId in d.versions
    requires NeedsCurrent(e.tasks[t].status) ==> e.tasks[t].planVersion == d.versions[d.tasks[t].planId]
    ensures Honest(e, tree)
  {
  }

  lemma BeginTouches(d: Doc, t: Id)
    requires Coherent(d) && t in d.tasks && d.tasks[t].status.Pending?
    ensures
      var result := Begin(d, t);
      && result.Ok? && Coherent(result.value) && OnlyTouches(d, result.value, t)
      && result.value.tasks[t] == d.tasks[t].(status := Running, reason := None)
  {
  }

  /** Starting a task that may join what is in flight keeps the loop safe. */
  lemma {:induction false} StartKeepsSafe(d: Doc, tree: Tree, inFlight: set<Id>, t: Id)
    requires Safe(d, tree, inFlight) && Known(tree.tasks, t) && t !in inFlight
    requires d.tasks[t].status.Pending? && Released(d, TaskOf(tree.tasks, t).value.deps)
    requires forall o :: o in inFlight ==> CanRunTogether(tree, t, o)
    ensures
      var result := Begin(d, t);
      result.Ok? && OnlyTouches(d, result.value, t) && Safe(result.value, tree, inFlight + {t})
  {
    hide CanRunTogether, Honest, Known, Released, Begin, HonestRecord, Flying;
    HonestHas(d, tree, t);
    BeginTouches(d, t);
    var e := Begin(d, t).value;
    TouchKeepsHonest(d, e, tree, t);
    JustBegunFlies(d, e, tree, t);
    forall u | u in inFlight ensures Flying(e, tree, u) {
      FlyingUndisturbed(d, e, tree, t, u);
    }
    forall o | o in inFlight ensures CanRunTogether(tree, o, t) {
      TogetherSymmetric(tree, t, o);
    }
    forall u | Known(tree.tasks, u) && u !in inFlight + {t} ensures Settledly(e.tasks[u]) {
      HonestHas(d, tree, u);
    }
  }

  /**
   * A waiting task of the plan may start beside what is in flight exactly when starting it keeps the loop safe:
   * the scheduler holds back nothing that could go.
   */
  lemma {:induction false} StartableExactlySafe(d: Doc, tree: Tree, inFlight: set<Id>, t: Id)
    requires Safe(d, tree, inFlight) && Known(tree.tasks, t) && t !in inFlight && t in d.tasks && d.tasks[t].status.Pending?
    ensures Begin(d, t).Ok? && TaskOf(tree.tasks, t).Some?
    ensures Startable(d, tree, inFlight, [], TaskOf(tree.tasks, t).value) <==> Safe(Begin(d, t).value, tree, inFlight + {t})
  {
    hide CanRunTogether, Honest, HonestRecord;
    BeginTouches(d, t);
    var e, task := Begin(d, t).value, TaskOf(tree.tasks, t).value;
    if Startable(d, tree, inFlight, [], task) {
      ReleasedStays(d, e, t, task.deps);
      StartKeepsSafe(d, tree, inFlight, t);
    }
    if Safe(e, tree, inFlight + {t}) {
      assert Flying(e, tree, t);
      ReleasedStays(d, e, t, task.deps);
      forall o | o in inFlight ensures CanRunTogether(tree, t, o) {
      }
    }
  }

  lemma ReleasedStays(d: Doc, e: Doc, t: Id, deps: seq<Id>)
    requires Coherent(d) && Coherent(e) && OnlyTouches(d, e, t) && !d.tasks[t].accepted && !e.tasks[t].accepted
    ensures Released(d, deps) <==> Released(e, deps)
  {
    forall k | 0 <= k < |deps| ensures Releases(d, deps[k]) <==> Releases(e, deps[k]) {
    }
  }

  lemma {:induction false} HonestHas(d: Doc, tree: Tree, t: Id)
    requires Honest(d, tree) && Known(tree.tasks, t)
    ensures t in d.tasks && HonestRecord(d.versions, d.tasks[t], TaskOf(tree.tasks, t).value)
  {
  }

  lemma {:induction false} JustBegunFlies(d: Doc, e: Doc, tree: Tree, t: Id)
    requires Coherent(d) && Coherent(e) && Known(tree.tasks, t) && t in d.tasks && OnlyTouches(d, e, t)
    requires HonestRecord(d.versions, d.tasks[t], TaskOf(tree.tasks, t).value)
    requires d.tasks[t].status.Pending? && !d.tasks[t].accepted && Released(d, TaskOf(tree.tasks, t).value.deps)
    requires e.tasks[t] == d.tasks[t].(status := Running, reason := None)
    ensures Flying(e, tree, t)
  {
  }

  /** Recording a worker's result keeps the loop safe. */
  lemma RecordKeepsSafe(d: Doc, e: Doc, tree: Tree, inFlight: set<Id>, t: Id, good: bool)
    requires Safe(d, tree, inFlight) && t in inFlight
    requires Coherent(e) && OnlyTouches(d, e, t) && Settled(d, d.tasks[t], e.tasks[t], good)
    ensures Safe(e, tree, inFlight - {t})
  {
    hide CanRunTogether, Honest, Known;
    TouchKeepsHonest(d, e, tree, t);
    forall u | u in inFlight - {t} ensures Flying(e, tree, u) {
      FlyingUndisturbed(d, e, tree, t, u);
    }
    forall u | Known(tree.tasks, u) && u !in inFlight - {t} ensures Settledly(e.tasks[u]) {
      HonestHas(d, tree, u);
    }
  }

  // -- a measure that every step lowers ------------------------------------------------------

  function RepairLeft(r: Attempt): nat {
    if r.lineageRepairs < MAX_AUTO_REPAIRS then 1 else 0
  }

  /** Ledger writes a task can still get before it settles for good. */
  function Weight(r: Attempt): nat {
    4 * RepairLeft(r) + match r.status
      case Pending => 3
      case Running => 2
      case Finished => 1
      case Accepted | Blocked => 0
  }

  /** Workers that can still be started for a task. */
  function StartsLeft(r: Attempt): nat {
    RepairLeft(r) + if r.status.Pending? then 1 else 0
  }

  ghost function Total(records: map<Id, Attempt>, tasks: seq<Task>, f: Attempt -> nat): nat {
    if tasks == [] then 0
    else (if tasks[0].id in records then f(records[tasks[0].id]) else 0) + Total(records, tasks[1..], f)
  }

  lemma {:induction false} TotalUnchanged(a: map<Id, Attempt>, b: map<Id, Attempt>, tasks: seq<Task>, f: Attempt -> nat, t: Id)
    requires a.Keys == b.Keys && TaskOf(tasks, t).None?
    requires forall u :: u in a && u != t ==> a[u] == b[u]
    ensures Total(a, tasks, f) == Total(b, tasks, f)
  {
    if tasks != [] {
      TotalUnchanged(a, b, tasks[1..], f, t);
    }
  }

  lemma {:induction false} TotalMoves(a: map<Id, Attempt>, b: map<Id, Attempt>, tasks: seq<Task>, f: Attempt -> nat, t: Id)
    requires DistinctTasks(tasks) && Known(tasks, t) && t in a && a.Keys == b.Keys
    requires forall u :: u in a && u != t ==> a[u] == b[u]
    ensures Total(b, tasks, f) - f(b[t]) == Total(a, tasks, f) - f(a[t])
  {
    FirstIsOnly(tasks);
    if tasks[0].id == t {
      TotalUnchanged(a, b, tasks[1..], f, t);
    } else {
      TotalMoves(a, b, tasks[1..], f, t);
    }
  }

  lemma {:induction false} TotalBounded(records: map<Id, Attempt>, tasks: seq<Task>)
    ensures Total(records, tasks, StartsLeft) <= 2 * |tasks|
  {
    if tasks != [] {
      TotalBounded(records, tasks[1..]);
    }
  }

  /** A start uses up one of the task's workers and some of the total; a result uses up some of the total. */
  lemma StartLowers(d: Doc, e: Doc, tree: Tree, t: Id)
    requires DistinctTasks(tree.tasks) && Known(tree.tasks, t) && OnlyTouches(d, e, t)
    requires d.tasks[t].status.Pending? && e.tasks[t] == d.tasks[t].(status := Running, reason := None)
    ensures Total(e.tasks, tree.tasks, Weight) < Total(d.tasks, tree.tasks, Weight)
    ensures Total(e.tasks, tree.tasks, StartsLeft) < Total(d.tasks, tree.tasks, StartsLeft)
    ensures StartsLeft(e.tasks[t]) + 1 == StartsLeft(d.tasks[t])
  {
    TotalMoves(d.tasks, e.tasks, tree.tasks, Weight, t);
    TotalMoves(d.tasks, e.tasks, tree.tasks, StartsLeft, t);
  }

  lemma ResultLowers(d: Doc, e: Doc, tree: Tree, t: Id, good: bool)
    requires DistinctTasks(tree.tasks) && Known(tree.tasks, t) && OnlyTouches(d, e, t) && Coherent(d)
    requires Runs(d, t) && AtCurrent(d, t) && Settled(d, d.tasks[t], e.tasks[t], good)
    ensures Total(e.tasks, tree.tasks, Weight) < Total(d.tasks, tree.tasks, Weight)
    ensures Total(e.tasks, tree.tasks, StartsLeft) <= Total(d.tasks, tree.tasks, StartsLeft)
    ensures StartsLeft(e.tasks[t]) <= StartsLeft(d.tasks[t])
  {
    TotalMoves(d.tasks, e.tasks, tree.tasks, Weight, t);
    TotalMoves(d.tasks, e.tasks, tree.tasks, StartsLeft, t);
  }
}
