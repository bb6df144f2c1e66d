/**
 * What every history of ledger operations keeps, however the operations interleave and
 * wherever a crash cuts them off: a crash only ever ends one history, and reopening the
 * ledger continues it.
 */
module History {
  import opened Common
  import opened Plan
  import opened Text
  import opened Ledger

  datatype Op =
    | Begin(task: Id)
    | Submit(task: Id, attempt: string, commit: string, checks: seq<string>)
    | Review(task: Id, attempt: string, verdict: string, notes: string)
    | CountRepair(task: Id, attempt: string, reason: string)
    | Accept(task: Id, attempt: string)
    | Block(task: Id, reason: string)
    | Retry(task: Id)
    | Repair(task: Id)
    | Thread(task: Id, attempt: string, thread: int, base: Option<string>)
    | Archive(task: Id, thread_: Option<int>)
    | Rework(task: Id, reason: string)
    | SyncPlan(tree: Tree)

  /** Only validated plans ever reach the ledger. */
  ghost predicate Feasible(op: Op) {
    op.SyncPlan? ==> ValidTree(op.tree)
  }

  ghost function Apply(d: Doc, op: Op): Outcome
    requires Coherent(d) && Feasible(op)
  {
    match op
    case Begin(t) => Ledger.Begin(d, t)
    case Submit(t, a, commit, checks) => SubmitResult(d, t, a, commit, checks)
    case Review(t, a, verdict, notes) => RecordReview(d, t, a, verdict, notes)
    case CountRepair(t, a, reason) => RecordRepair(d, t, a, reason)
    case Accept(t, a) => Ledger.Accept(d, t, a)
    case Block(t, reason) => Ledger.Block(d, t, reason)
    case Retry(t) => Ledger.Retry(d, t)
    case Repair(t) => Ledger.Repair(d, t)
    case Thread(t, a, thread, base) => NoteThread(d, t, a, thread, base)
    case Archive(t, thread) => MarkArchived(d, t, thread)
    case Rework(t, reason) => Ledger.Rework(d, t, reason)
    case SyncPlan(tree) => WidenFits(d, tree); Ok(Sync(d, tree))
  }

  // -- the shape of a legal change -------------------------------------------------------

  ghost predicate SameWork(r: Attempt, s: Attempt) {
    s.commit == r.commit && s.checks == r.checks
  }

  /** Threads still to be archived go on to the next attempt: the earlier ones and the last attempt's own. */
  ghost predicate KeepsThreads(r: Attempt, s: Attempt) {
    && r.earlierThreads <= s.earlierThreads && |s.earlierThreads| <= |r.earlierThreads| + 1
    && forall x :: x in s.earlierThreads <==> x in r.earlierThreads || (r.thread == Some(x) && !r.archived)
  }

  /** A new attempt has nothing to show yet, and is at the version its plan has now. */
  ghost predicate NextAttempt(d: Doc, r: Attempt, s: Attempt)
    requires r.planId in d.versions
  {
    && s.number == r.number + 1 && s.attemptId == AttemptId(d.build, r.taskId, s.number)
    && s.status.Pending? && !s.accepted && s.planVersion == d.versions[r.planId]
    && s.commit.None? && s.checks == [] && s.review == [] && s.repairs == 0 && s.reason.None?
    && s.thread.None? && !s.archived && s.baseCommit.None? && KeepsThreads(r, s)
  }

  /** Record s may replace record r under change c: what each kind of change touches, and that it touches nothing else. */
  ghost predicate Legal(d: Doc, r: Attempt, s: Attempt, c: Change)
    requires r.planId in d.versions
  {
    && s.taskId == r.taskId && s.planId == r.planId
    && match c
       case Started => r.status.Pending? && s == r.(status := Running, reason := None)
       case FinishedWork => r.status.Running? && s.commit.Some?
         && s == r.(status := Finished, commit := s.commit, checks := s.checks, reason := None)
       case AcceptedWork => r.status.Finished? && r.planVersion == d.versions[r.planId]
         && s == r.(status := Accepted, accepted := true)
       case BlockedWork => !r.status.Accepted? && s.reason.Some? && s == r.(status := Blocked, reason := s.reason)
       case VersionMoved => r.status.Pending? && s == r.(planVersion := s.planVersion)
       case Retried => !r.status.Running? && NextAttempt(d, r, s) && s.lineageRepairs == r.lineageRepairs
         && s.previousFailure == r.reason && s.reworkReason.None? && s.previousCommit.None?
       case Reworked => !r.status.Running? && NextAttempt(d, r, s) && s.lineageRepairs == r.lineageRepairs
         && s.previousFailure.None? && s.reworkReason.Some?
         && s.previousCommit == if r.commit.Some? then r.commit else r.previousCommit
       case Repaired => r.status.Blocked? && r.lineageRepairs < MAX_AUTO_REPAIRS
         && NextAttempt(d, r, s) && s.lineageRepairs == r.lineageRepairs + 1
         && s.previousFailure == r.reason && s.reworkReason.None? && s.previousCommit.None?
       case Reviewed => (r.status.Finished? || r.status.Accepted?) && |s.review| == |r.review| + 1 && r.review <= s.review
         && s == r.(review := s.review)
       case RepairNoted => s.reason.Some? && s == r.(repairs := r.repairs + 1, reason := s.reason)
       case ThreadNoted => s.thread.Some? && s == r.(thread := s.thread, archived := false, baseCommit := s.baseCommit)
       case Archived => s == r.(archived := true) || s == r.(earlierThreads := s.earlierThreads)
  }

  /** The log names each change by the operation that made it. */
  function KindOf(op: Op): Change
    requires !op.SyncPlan?
  {
    match op
    case Begin(_) => Started
    case Submit(_, _, _, _) => FinishedWork
    case Review(_, _, _, _) => Reviewed
    case CountRepair(_, _, _) => RepairNoted
    case Accept(_, _) => AcceptedWork
    case Block(_, _) => BlockedWork
    case Retry(_) => Retried
    case Repair(_) => Repaired
    case Thread(_, _, _, _) => ThreadNoted
    case Archive(_, _) => Archived
    case Rework(_, _) => Reworked
  }

  predicate IsReport(op: Op) {
    op.Submit? || op.Review? || op.CountRepair? || op.Accept? || op.Thread?
  }

  lemma ReportIsLegal(d: Doc, op: Op)
    requires Coherent(d) && IsReport(op) && Apply(d, op).Ok? && Apply(d, op).value != d
    ensures
      var d' := Apply(d, op).value;
      && op.task in d.tasks && op.task in d'.tasks && |d'.events| == |d.events| + 1 && d'.events[|d.events|].TaskEvent?
      && Legal(d, d.tasks[op.task], d'.tasks[op.task], d'.events[|d.events|].change)
      && d' == Put(d, d'.tasks[op.task], d'.events[|d.events|].change)
    ensures Apply(d, op).value.events[|d.events|].change == KindOf(op)
  {
    hide Clean, CleanAll, ReviewLine, AttemptId, Without;
  }

  lemma DecisionIsLegal(d: Doc, op: Op)
    requires Coherent(d) && (op.Begin? || op.Block? || op.Archive?) && Apply(d, op).Ok? && Apply(d, op).value != d
    ensures
      var d' := Apply(d, op).value;
      && op.task in d.tasks && op.task in d'.tasks && |d'.events| == |d.events| + 1 && d'.events[|d.events|].TaskEvent?
      && Legal(d, d.tasks[op.task], d'.tasks[op.task], d'.events[|d.events|].change)
      && d' == Put(d, d'.tasks[op.task], d'.events[|d.events|].change)
    ensures Apply(d, op).value.events[|d.events|].change == KindOf(op)
  {
    hide Clean, CleanAll, ReviewLine, AttemptId, Without;
  }

  lemma NewAttemptIsLegal(d: Doc, op: Op)
    requires Coherent(d) && (op.Retry? || op.Repair? || op.Rework?) && Apply(d, op).Ok? && Apply(d, op).value != d
    ensures
      var d' := Apply(d, op).value;
      && op.task in d.tasks && op.task in d'.tasks && |d'.events| == |d.events| + 1 && d'.events[|d.events|].TaskEvent?
      && Legal(d, d.tasks[op.task], d'.tasks[op.task], d'.events[|d.events|].change)
      && d' == Put(d, d'.tasks[op.task], d'.events[|d.events|].change)
    ensures Apply(d, op).value.events[|d.events|].change == KindOf(op)
  {
    hide Clean, CleanAll, ReviewLine, AttemptId, Without;
  }

  /** Every accepted operation other than a plan edit leaves the ledger as it was or makes one legal change. */
  lemma ApplyIsLegal(d: Doc, op: Op) returns (s: Attempt, c: Change)
    requires Coherent(d) && !op.SyncPlan? && Apply(d, op).Ok? && Apply(d, op).value != d
    ensures s.taskId in d.tasks && Legal(d, d.tasks[s.taskId], s, c) && Apply(d, op).value == Put(d, s, c)
    ensures s.taskId == op.task && c == KindOf(op)
  {
    if IsReport(op) {
      ReportIsLegal(d, op);
    } else if op.Retry? || op.Repair? || op.Rework? {
      NewAttemptIsLegal(d, op);
    } else {
      DecisionIsLegal(d, op);
    }
    hide Apply;
    s, c := Apply(d, op).value.tasks[op.task], Apply(d, op).value.events[|d.events|].change;
  }

  lemma PutKeepsCoherent(d: Doc, s: Attempt, c: Change)
    requires Coherent(d) && s.taskId in d.tasks && Legal(d, d.tasks[s.taskId], s, c)
    ensures Coherent(Put(d, s, c))
  {
  }

  lemma SyncedIsLegal(d: Doc, task: Task, changed: set<Id>)
    requires Coherent(d) && task.id in d.tasks
    ensures var s := Synced(d.build, d.versions, d.tasks[task.id], task, changed);
      s.Some? ==> s.value.0.taskId == task.id && Legal(d, d.tasks[task.id], s.value.0, s.value.1)
  {
    hide AttemptId;
  }

  // -- progress ---------------------------------------------------------------------------

  /** How far an attempt has come; accepted and blocked are both ends of it. */
  function Phase(s: Status): nat {
    match s
    case Pending => 0
    case Running => 1
    case Finished => 2
    case Accepted => 3
    case Blocked => 3
  }

  /** (attempt number, phase) only rises, and what a settled attempt produced is final. */
  ghost predicate Advances(r: Attempt, s: Attempt) {
    && s.taskId == r.taskId && s.planId == r.planId && r.lineageRepairs <= s.lineageRepairs
    && r.number <= s.number
    && (r.number == s.number ==>
          && Phase(r.status) <= Phase(s.status)
          && (r.status.Accepted? ==> s.status.Accepted?)
          && (Phase(r.status) >= 2 ==> SameWork(r, s)))
  }

  ghost predicate Follows(d: Doc, e: Doc) {
    && d.build == e.build && d.events <= e.events
    && d.versions.Keys <= e.versions.Keys
    && forall t :: t in d.tasks ==> t in e.tasks && Advances(d.tasks[t], e.tasks[t])
  }

  lemma FollowsTransitive(d: Doc, e: Doc, f: Doc)
    requires Follows(d, e) && Follows(e, f)
    ensures Follows(d, f)
  {
    forall t | t in d.tasks ensures t in f.tasks && Advances(d.tasks[t], f.tasks[t]) {
      assert Advances(d.tasks[t], e.tasks[t]) && Advances(e.tasks[t], f.tasks[t]);
    }
  }

  lemma PutFollows(d: Doc, s: Attempt, c: Change)
    requires Coherent(d) && s.taskId in d.tasks && Legal(d, d.tasks[s.taskId], s, c)
    ensures Follows(d, Put(d, s, c))
  {
    assert Advances(d.tasks[s.taskId], s);
  }

  // -- what the event log says --------------------------------------------------------------

  /** How often an attempt was begun. */
  function Begun(events: seq<Event>, t: Id, n: nat): nat {
    if events == [] then 0
    else
      var last := |events| - 1;
      Begun(events[..last], t, n) + if events[last] == TaskEvent(t, n, Started) then 1 else 0
  }

  /** How many workers a task got, over all its attempts. */
  function Starts(events: seq<Event>, t: Id): nat {
    if events == [] then 0
    else
      var last := |events| - 1;
      Starts(events[..last], t) +
        if events[last].TaskEvent? && events[last].task == t && events[last].change.Started? then 1 else 0
  }

  /** How often a task was repaired automatically. */
  function Repairs(events: seq<Event>, t: Id): nat {
    if events == [] then 0
    else
      var last := |events| - 1;
      Repairs(events[..last], t) +
        if events[last].TaskEvent? && events[last].task == t && events[last].change.Repaired? then 1 else 0
  }

  function StatusAfter(c: Change, before: Status): Status {
    match c
    case Started => Running
    case FinishedWork => Finished
    case AcceptedWork => Accepted
    case BlockedWork => Blocked
    case Retried | Repaired | Reworked => Pending
    case Reviewed | RepairNoted | ThreadNoted | Archived | VersionMoved => before
  }

  /** One task's status and attempt number, from the log alone; `born` are the tasks the ledger was created with. */
  function Replay(born: set<Id>, events: seq<Event>, t: Id): Option<(Status, nat)> {
    if events == [] then if t in born then Some((Pending, 1)) else None
    else
      var last := |events| - 1;
      var before := Replay(born, events[..last], t);
      match events[last]
      case PlanEdited(_, added) => if t in added then Some((Pending, 1)) else before
      case TaskEvent(u, n, c) => if u == t && before.Some? then Some((StatusAfter(c, before.value.0), n)) else before
  }

  ghost predicate RecordTrue(d: Doc, born: set<Id>, t: Id)
    requires t in d.tasks
  {
    var r := d.tasks[t];
    && Replay(born, d.events, t) == Some((r.status, r.number))
    && Repairs(d.events, t) == r.lineageRepairs <= MAX_AUTO_REPAIRS
    && r.attemptId == AttemptId(d.build, t, r.number)
    && (r.accepted <==> r.status.Accepted?)
    && forall n: nat :: Begun(d.events, t, n) <= if n < r.number || (n == r.number && !r.status.Pending?) then 1 else 0
  }

  ghost predicate NothingLogged(d: Doc, born: set<Id>, t: Id) {
    && Replay(born, d.events, t).None? && Repairs(d.events, t) == 0
    && forall n: nat :: Begun(d.events, t, n) == 0
  }

  /** The log tells the whole truth about every task, known or not yet known. */
  ghost predicate LogTrue(d: Doc, born: set<Id>) {
    forall t {:trigger t in d.tasks} ::
      if t in d.tasks then RecordTrue(d, born, t) else NothingLogged(d, born, t)
  }

  /** One more event, read from the end of the log. */
  lemma {:induction false} LogAppend(born: set<Id>, events: seq<Event>, e: Event, t: Id)
    ensures forall n: nat ::
      Begun(events + [e], t, n) == Begun(events, t, n) + if e == TaskEvent(t, n, Started) then 1 else 0
    ensures Repairs(events + [e], t) ==
      Repairs(events, t) + if e.TaskEvent? && e.task == t && e.change.Repaired? then 1 else 0
    ensures Replay(born, events + [e], t) ==
      var before := Replay(born, events, t);
      match e
      case PlanEdited(_, added) => if t in added then Some((Pending, 1)) else before
      case TaskEvent(u, n, c) => if u == t && before.Some? then Some((StatusAfter(c, before.value.0), n)) else before
  {
    assert (events + [e])[..|events|] == events;
  }

  lemma PutKeepsOwnLog(d: Doc, born: set<Id>, s: Attempt, c: Change)
    requires Coherent(d) && s.taskId in d.tasks && Legal(d, d.tasks[s.taskId], s, c)
    requires RecordTrue(d, born, s.taskId)
    ensures RecordTrue(Put(d, s, c), born, s.taskId)
  {
    LogAppend(born, d.events, TaskEvent(s.taskId, s.number, c), s.taskId);
    hide AttemptId, Begun, Repairs, Replay;
  }

  lemma PutKeepsOtherLog(d: Doc, born: set<Id>, s: Attempt, c: Change, t: Id)
    requires Coherent(d) && s.taskId in d.tasks && t != s.taskId
    requires if t in d.tasks then RecordTrue(d, born, t) else NothingLogged(d, born, t)
    ensures var e := Put(d, s, c); if t in e.tasks then RecordTrue(e, born, t) else NothingLogged(e, born, t)
  {
    LogAppend(born, d.events, TaskEvent(s.taskId, s.number, c), t);
    hide AttemptId, Begun, Repairs, Replay;
  }

  lemma PutKeepsLog(d: Doc, born: set<Id>, s: Attempt, c: Change)
    requires Coherent(d) && LogTrue(d, born)
    requires s.taskId in d.tasks && Legal(d, d.tasks[s.taskId], s, c)
    ensures LogTrue(Put(d, s, c), born)
  {
    hide RecordTrue, NothingLogged, Legal;
    PutKeepsOwnLog(d, born, s, c);
    var e := Put(d, s, c);
    forall t ensures if t in e.tasks then RecordTrue(e, born, t) else NothingLogged(e, born, t) {
      if t != s.taskId {
        PutKeepsOtherLog(d, born, s, c, t);
      }
    }
  }

  // -- plan edits ---------------------------------------------------------------------------

  lemma {:induction false} SyncTasksKeeps(d: Doc, born: set<Id>, plan: seq<Task>, changed: set<Id>)
    requires Coherent(d) && LogTrue(d, born)
    requires forall k :: 0 <= k < |plan| ==> plan[k].id in d.tasks
    ensures LogTrue(SyncTasks(d, plan, changed), born) && Follows(d, SyncTasks(d, plan, changed))
    decreases plan
  {
    hide RecordTrue, NothingLogged, Legal, Advances, Synced, LogTrue;
    if plan != [] {
      var e := SyncTask(d, plan[0], changed);
      var s := Synced(d.build, d.versions, d.tasks[plan[0].id], plan[0], changed);
      SyncedIsLegal(d, plan[0], changed);
      if s.Some? {
        PutKeepsLog(d, born, s.value.0, s.value.1);
        PutFollows(d, s.value.0, s.value.1);
      } else {
        FollowsItself(d);
      }
      SyncTasksKeeps(e, born, plan[1..], changed);
      FollowsTransitive(d, e, SyncTasks(e, plan[1..], changed));
    } else {
      FollowsItself(d);
    }
  }

  lemma FollowsItself(d: Doc)
    ensures Follows(d, d)
  {
  }

  /** Tasks a plan edit adds start their story in the log; every other story goes on. */
  lemma EditTellsStory(d: Doc, born: set<Id>, w: Doc, changed: set<Id>, added: seq<Id>, t: Id)
    requires w.build == d.build
    requires w.events == d.events + if changed != {} || added != [] then [PlanEdited(changed, added)] else []
    requires t in added <==> t in w.tasks && t !in d.tasks
    requires t in d.tasks ==> t in w.tasks && w.tasks[t] == d.tasks[t]
    requires t in added ==> exists task :: w.tasks[t] == Fresh(d.build, task) && task.id == t
    requires if t in d.tasks then RecordTrue(d, born, t) else NothingLogged(d, born, t)
    ensures if t in w.tasks then RecordTrue(w, born, t) else NothingLogged(w, born, t)
  {
    hide AttemptId;
    if w.events != d.events {
      LogAppend(born, d.events, PlanEdited(changed, added), t);
    }
    hide Begun, Repairs, Replay;
  }

  lemma WidenKeepsRecord(d: Doc, born: set<Id>, tree: Tree, t: Id)
    requires Coherent(d) && DistinctTasks(tree.tasks)
    requires if t in d.tasks then RecordTrue(d, born, t) else NothingLogged(d, born, t)
    ensures var w := Widen(d, tree); if t in w.tasks then RecordTrue(w, born, t) else NothingLogged(w, born, t)
    ensures t in d.tasks ==> t in Widen(d, tree).tasks && Widen(d, tree).tasks[t] == d.tasks[t]
  {
    hide RecordTrue, NothingLogged, Fresh, WithTasks, WithVersions, AddedTasks, ChangedPlans;
    WithTasksAt(d.build, d.tasks, tree.tasks, t);
    EditTellsStory(d, born, Widen(d, tree), ChangedPlans(d.versions, tree.plans), AddedTasks(d.tasks, tree.tasks), t);
  }

  lemma WidenKeeps(d: Doc, born: set<Id>, tree: Tree)
    requires Coherent(d) && LogTrue(d, born) && ValidTree(tree)
    ensures LogTrue(Widen(d, tree), born) && Follows(d, Widen(d, tree))
  {
    hide RecordTrue, NothingLogged, WithVersions, WithTasks, Covers, CrossInputsNamed, SoundDeps;
    var w := Widen(d, tree);
    forall t ensures if t in w.tasks then RecordTrue(w, born, t) else NothingLogged(w, born, t) {
      WidenKeepsRecord(d, born, tree, t);
    }
    forall v | v in d.versions ensures v in w.versions {
      WithVersionsAt(d.versions, tree.plans, v);
    }
    forall t | t in d.tasks ensures t in w.tasks && Advances(d.tasks[t], w.tasks[t]) {
      WidenKeepsRecord(d, born, tree, t);
    }
  }

  // -- whole histories ------------------------------------------------------------------------

  /** The ledger after an operation: a refused operation changes nothing. */
  ghost function After(d: Doc, op: Op): Doc
    requires Coherent(d) && Feasible(op)
  {
    var result := Apply(d, op);
    if result.Ok? then result.value else d
  }

  lemma AfterKeeps(d: Doc, born: set<Id>, op: Op)
    requires Coherent(d) && LogTrue(d, born) && Feasible(op)
    ensures Coherent(After(d, op)) && LogTrue(After(d, op), born) && Follows(d, After(d, op))
  {
    hide LogTrue, Follows, Legal;
    FollowsItself(d);
    if op.SyncPlan? {
      WidenFits(d, op.tree);
      WidenKeeps(d, born, op.tree);
      var w := Widen(d, op.tree);
      SyncTasksKeeps(w, born, op.tree.tasks, ChangedPlans(d.versions, op.tree.plans));
      FollowsTransitive(d, w, Sync(d, op.tree));
    } else if After(d, op) != d {
      var s, c := ApplyIsLegal(d, op);
      PutKeepsCoherent(d, s, c);
      PutKeepsLog(d, born, s, c);
      PutFollows(d, s, c);
    }
  }

  lemma {:induction false} StartsAppend(events: seq<Event>, e: Event, t: Id)
    ensures Starts(events + [e], t) ==
      Starts(events, t) + if e.TaskEvent? && e.task == t && e.change.Started? then 1 else 0
  {
    assert (events + [e])[..|events|] == events;
  }

  lemma {:induction false} SyncStartsNothing(d: Doc, plan: seq<Task>, changed: set<Id>, t: Id)
    requires Coherent(d) && forall k :: 0 <= k < |plan| ==> plan[k].id in d.tasks
    ensures Starts(SyncTasks(d, plan, changed).events, t) == Starts(d.events, t)
    decreases plan
  {
    hide Starts, ReworkOf;
    if plan != [] {
      var s := Synced(d.build, d.versions, d.tasks[plan[0].id], plan[0], changed);
      if s.Some? {
        StartsAppend(d.events, TaskEvent(s.value.0.taskId, s.value.0.number, s.value.1), t);
      }
      SyncStartsNothing(SyncTask(d, plan[0], changed), plan[1..], changed, t);
    }
  }

  /** Workers are started by Begin and by nothing else. */
  lemma {:induction false} OnlyBeginStarts(d: Doc, op: Op, t: Id)
    requires Coherent(d) && Feasible(op)
    ensures Starts(After(d, op).events, t) ==
      Starts(d.events, t) + if op.Begin? && op.task == t && Apply(d, op).Ok? then 1 else 0
  {
    hide Starts, Legal, ValidTree;
    if op.SyncPlan? {
      WidenFits(d, op.tree);
      var w := Widen(d, op.tree);
      if w.events != d.events {
        StartsAppend(d.events, w.events[|d.events|], t);
      }
      SyncStartsNothing(w, op.tree.tasks, ChangedPlans(d.versions, op.tree.plans), t);
    } else if op.Begin? {
      BeginLogs(d, op.task, t);
    } else if After(d, op) != d {
      var s, c := ApplyIsLegal(d, op);
      StartsAppend(d.events, TaskEvent(s.taskId, s.number, c), t);
    }
  }

  lemma {:induction false} BeginLogs(d: Doc, task: Id, t: Id)
    requires Coherent(d)
    ensures Starts(After(d, Begin(task)).events, t) ==
      Starts(d.events, t) + if task == t && Apply(d, Begin(task)).Ok? then 1 else 0
  {
    hide Starts;
    if task in d.tasks {
      StartsAppend(d.events, TaskEvent(task, d.tasks[task].number, Started), t);
    }
  }

  /** e is what some history of operations turns d into. */
  ghost predicate Leads(d: Doc, ops: seq<Op>, e: Doc)
    decreases ops
  {
    if ops == [] then e == d
    else Coherent(d) && Feasible(ops[0]) && Leads(After(d, ops[0]), ops[1..], e)
  }

  /**
   * Over every history each task's (attempt number, phase) only rises, nothing is dropped,
   * what a settled attempt produced never changes, and the log keeps telling the truth.
   */
  lemma {:induction false} HistoryKeeps(d: Doc, born: set<Id>, ops: seq<Op>, e: Doc)
    requires Coherent(d) && LogTrue(d, born) && Leads(d, ops, e)
    ensures Coherent(e) && LogTrue(e, born) && Follows(d, e)
    decreases ops
  {
    hide LogTrue, Follows, After, Feasible;
    if ops == [] {
      FollowsItself(d);
    } else {
      AfterKeeps(d, born, ops[0]);
      HistoryKeeps(After(d, ops[0]), born, ops[1..], e);
      FollowsTransitive(d, After(d, ops[0]), e);
    }
  }

  /** A new ledger: every task pending at its first attempt, nothing logged. */
  function NewDoc(tree: Tree, build: string): Doc {
    Doc(build, WithVersions(map[], tree.plans), WithTasks(build, map[], tree.tasks), [])
  }

  lemma NewDocTrue(tree: Tree, build: string)
    requires ValidTree(tree)
    ensures Coherent(NewDoc(tree, build)) && LogTrue(NewDoc(tree, build), NewDoc(tree, build).tasks.Keys)
  {
    hide AttemptId, Covers, CrossInputsNamed, SoundDeps, WithVersions, WithTasks;
    var d := NewDoc(tree, build);
    forall t ensures t in d.tasks ==> Known(tree.tasks, t) && d.tasks[t] == Fresh(build, TaskOf(tree.tasks, t).value) {
      WithTasksAt(build, map[], tree.tasks, t);
    }
    forall t | t in d.tasks ensures d.tasks[t].taskId == t && d.tasks[t].planId in d.versions {
      assert AssignedTask(tree.plans, TaskOf(tree.tasks, t).value);
      WithVersionsAt(map[], tree.plans, d.tasks[t].planId);
    }
  }

  /**
   * Exactly-once dispatch: however a build's history went, no attempt was begun twice, no task
   * was repaired automatically more than once, and replaying the log gives every status and number.
   */
  lemma {:induction false} ExactlyOnce(tree: Tree, build: string, ops: seq<Op>, e: Doc)
    requires ValidTree(tree) && Leads(NewDoc(tree, build), ops, e)
    ensures forall t, n: nat :: Begun(e.events, t, n) <= 1
    ensures forall t :: Repairs(e.events, t) <= 1
    ensures forall t ::
      Replay(NewDoc(tree, build).tasks.Keys, e.events, t) ==
      if t in e.tasks then Some((e.tasks[t].status, e.tasks[t].number)) else None
  {
    hide Begun, Repairs, Replay, NewDoc, Leads, AttemptId, ValidTree;
    var d := NewDoc(tree, build);
    NewDocTrue(tree, build);
    HistoryKeeps(d, d.tasks.Keys, ops, e);
    forall t, n: nat ensures Begun(e.events, t, n) <= 1 {
      assert if t in e.tasks then RecordTrue(e, d.tasks.Keys, t) else NothingLogged(e, d.tasks.Keys, t);
    }
    forall t ensures Repairs(e.events, t) <= 1 {
      assert if t in e.tasks then RecordTrue(e, d.tasks.Keys, t) else NothingLogged(e, d.tasks.Keys, t);
    }
    forall t ensures Replay(d.tasks.Keys, e.events, t) ==
      if t in e.tasks then Some((e.tasks[t].status, e.tasks[t].number)) else None
    {
      assert if t in e.tasks then RecordTrue(e, d.tasks.Keys, t) else NothingLogged(e, d.tasks.Keys, t);
    }
  }

  /** Once an attempt is superseded, whatever it reports is refused, in every later state of the build. */
  lemma {:induction false} SupersededForever(d: Doc, born: set<Id>, ops: seq<Op>, e: Doc, late: Op, n: nat)
    requires Coherent(d) && LogTrue(d, born) && Leads(d, ops, e)
    requires IsReport(late) && late.task in d.tasks && ':' !in late.task.name
    requires late.attempt == AttemptId(d.build, late.task, n) && n < d.tasks[late.task].number
    ensures Coherent(e) && Apply(e, late) == Err(StaleAttempt)
  {
    HistoryKeeps(d, born, ops, e);
    assert RecordTrue(e, born, late.task);
    if e.tasks[late.task].attemptId == late.attempt {
      AttemptIdInjective(d.build, late.task, n, late.task, e.tasks[late.task].number);
    }
    hide AttemptId, Clean, CleanAll, LogTrue, Leads;
  }
}
