/**
 * The durable record of what happened to every task of one build: the transitions as
 * functions on the whole document, and what every history of them keeps.
 */
module Ledger {
  import opened Common
  import opened Plan
  import opened Text

  /** Automatic repairs a task gets over its whole life in a build. */
  const MAX_AUTO_REPAIRS := 1

  datatype Status = Pending | Running | Finished | Accepted | Blocked

  datatype Attempt = Attempt(
    taskId: Id, planId: Id, planVersion: int, number: nat, attemptId: string, status: Status,
    commit: Option<string>, checks: seq<string>, review: seq<string>, repairs: nat, accepted: bool,
    reason: Option<string>, thread: Option<int>, archived: bool, baseCommit: Option<string>,
    lineageRepairs: nat, previousFailure: Option<string>, reworkReason: Option<string>,
    previousCommit: Option<string>, earlierThreads: seq<int>)

  datatype Change =
    | Started | FinishedWork | Reviewed | RepairNoted | AcceptedWork | BlockedWork
    | Retried | Repaired | ThreadNoted | Archived | Reworked | VersionMoved

  datatype Event =
    | TaskEvent(task: Id, number: nat, change: Change)
    | PlanEdited(changed: set<Id>, added: seq<Id>)

  /** The ledger file: replaced whole on every change, so each transition is one step. */
  datatype Doc = Doc(build: string, versions: map<Id, int>, tasks: map<Id, Attempt>, events: seq<Event>)

  datatype Refusal =
    | NoSuchTask | StaleAttempt | WrongStatus | AlreadyFinished | OldPlanVersion
    | EmptyText | BudgetSpent

  type Outcome = Result<Doc, Refusal>

  /** Every record sits under its own task and belongs to a plan with a known version. */
  predicate Coherent(d: Doc) {
    forall t :: t in d.tasks ==> d.tasks[t].taskId == t && d.tasks[t].planId in d.versions
  }

  // -- transitions -------------------------------------------------------------------

  /** Replace one record and log the change. */
  function Put(d: Doc, r: Attempt, c: Change): Doc {
    d.(tasks := d.tasks[r.taskId := r], events := d.events + [TaskEvent(r.taskId, r.number, c)])
  }

  function Fresh(build: string, task: Task): Attempt {
    Attempt(task.id, task.planId, task.planVersion, 1, AttemptId(build, task.id, 1), Pending,
            None, [], [], 0, false, None, None, false, None, 0, None, None, None, [])
  }

  /** The attempt after this one: a new identity at the current plan version. */
  function Next(build: string, versions: map<Id, int>, r: Attempt, lineage: nat): Attempt
    requires r.planId in versions
  {
    Attempt(r.taskId, r.planId, versions[r.planId], r.number + 1, AttemptId(build, r.taskId, r.number + 1), Pending,
            None, [], [], 0, false, None, None, false, None, lineage, r.reason, None, None,
            r.earlierThreads + if r.thread.Some? && !r.archived then [r.thread.value] else [])
  }

  function ReworkOf(build: string, versions: map<Id, int>, r: Attempt, reason: string): Attempt
    requires r.planId in versions
  {
    Next(build, versions, r, r.lineageRepairs).(
      previousFailure := None,
      reworkReason := Some(reason),
      previousCommit := if r.commit.Some? then r.commit else r.previousCommit)
  }

  /** The record an attempt id speaks for, refusing ids that are not current. */
  function Current(d: Doc, t: Id, attempt: string): Result<Attempt, Refusal> {
    if t !in d.tasks then Err(NoSuchTask)
    else if attempt != d.tasks[t].attemptId then Err(StaleAttempt)
    else Ok(d.tasks[t])
  }

  function Begin(d: Doc, t: Id): Outcome {
    if t !in d.tasks then Err(NoSuchTask)
    else if !d.tasks[t].status.Pending? then Err(WrongStatus)
    else Ok(Put(d, d.tasks[t].(status := Running, reason := None), Started))
  }

  function CleanAll(lines: seq<string>): Option<seq<string>> {
    if lines == [] then Some([])
    else
      var first, rest := Clean(lines[0]), CleanAll(lines[1..]);
      if first.None? || rest.None? then None else Some([first.value] + rest.value)
  }

  function SubmitResult(d: Doc, t: Id, attempt: string, commit: string, checks: seq<string>): Outcome {
    var current := Current(d, t, attempt);
    if current.Err? then Err(current.error) else
    var r, sha, ran := current.value, Clean(commit), CleanAll(checks);
    if sha.None? || ran.None? then Err(EmptyText)
    else if r.status.Finished? || r.status.Accepted? then
      if r.commit == sha && r.checks == ran.value then Ok(d) else Err(AlreadyFinished)
    else if !r.status.Running? then Err(WrongStatus)
    else Ok(Put(d, r.(status := Finished, commit := sha, checks := ran.value, reason := None), FinishedWork))
  }

  function RecordReview(d: Doc, t: Id, attempt: string, verdict: string, notes: string): Outcome {
    var current := Current(d, t, attempt);
    if current.Err? then Err(current.error) else
    var r, line := current.value, ReviewLine(verdict, notes);
    if !r.status.Finished? && !r.status.Accepted? then Err(WrongStatus)
    else if line.None? then Err(EmptyText)
    else Ok(Put(d, r.(review := r.review + [line.value]), Reviewed))
  }

  function RecordRepair(d: Doc, t: Id, attempt: string, reason: string): Outcome {
    var current := Current(d, t, attempt);
    if current.Err? then Err(current.error) else
    var r, text := current.value, Clean(reason);
    if text.None? then Err(EmptyText)
    else Ok(Put(d, r.(repairs := r.repairs + 1, reason := text), RepairNoted))
  }

  function Accept(d: Doc, t: Id, attempt: string): Outcome
    requires Coherent(d)
  {
    var current := Current(d, t, attempt);
    if current.Err? then Err(current.error) else
    var r := current.value;
    if r.status.Accepted? then Ok(d)
    else if !r.status.Finished? then Err(WrongStatus)
    else if r.planVersion != d.versions[r.planId] then Err(OldPlanVersion)
    else Ok(Put(d, r.(status := Accepted, accepted := true), AcceptedWork))
  }

  function Block(d: Doc, t: Id, reason: string): Outcome {
    if t !in d.tasks then Err(NoSuchTask) else
    var r, text := d.tasks[t], Clean(reason);
    if r.status.Accepted? then Err(WrongStatus)
    else if text.None? then Err(EmptyText)
    else Ok(Put(d, r.(status := Blocked, reason := text), BlockedWork))
  }

  function Retry(d: Doc, t: Id): Outcome
    requires Coherent(d)
  {
    if t !in d.tasks then Err(NoSuchTask) else
    var r := d.tasks[t];
    if r.status.Running? then Err(WrongStatus)
    else Ok(Put(d, Next(d.build, d.versions, r, r.lineageRepairs), Retried))
  }

  function Repair(d: Doc, t: Id): Outcome
    requires Coherent(d)
  {
    if t !in d.tasks then Err(NoSuchTask) else
    var r := d.tasks[t];
    if !r.status.Blocked? then Err(WrongStatus)
    else if r.lineageRepairs >= MAX_AUTO_REPAIRS then Err(BudgetSpent)
    else Ok(Put(d, Next(d.build, d.versions, r, r.lineageRepairs + 1), Repaired))
  }

  function NoteThread(d: Doc, t: Id, attempt: string, thread: int, base: Option<string>): Outcome {
    var current := Current(d, t, attempt);
    if current.Err? then Err(current.error) else
    var r := current.value;
    Ok(Put(d, r.(thread := Some(thread), archived := false,
                 baseCommit := if base.Some? && base.value != "" then base else r.baseCommit), ThreadNoted))
  }

  function Without(threads: seq<int>, thread: int): seq<int> {
    if threads == [] then []
    else (if threads[0] == thread then [] else [threads[0]]) + Without(threads[1..], thread)
  }

  function MarkArchived(d: Doc, t: Id, thread: Option<int>): Outcome {
    if t !in d.tasks then Err(NoSuchTask) else
    var r := d.tasks[t];
    if thread.Some? && thread.value in r.earlierThreads then
      Ok(Put(d, r.(earlierThreads := Without(r.earlierThreads, thread.value)), Archived))
    else if (thread.Some? && thread != r.thread) || r.archived then Ok(d)
    else Ok(Put(d, r.(archived := true), Archived))
  }

  function Rework(d: Doc, t: Id, reason: string): Outcome
    requires Coherent(d)
  {
    if t !in d.tasks then Err(NoSuchTask) else
    var r, text := d.tasks[t], Clean(reason);
    if r.status.Running? then Err(WrongStatus)
    else if text.None? then Err(EmptyText)
    else Ok(Put(d, ReworkOf(d.build, d.versions, r, text.value), Reworked))
  }

  // -- taking an edited plan on board -------------------------------------------------

  const PLAN_CHANGED := "the plan changed after this was built"

  predicate PlanChanged(versions: map<Id, int>, p: PlanIdentity) {
    p.id !in versions || versions[p.id] != p.version
  }

  function ChangedPlans(versions: map<Id, int>, plans: seq<PlanIdentity>): set<Id> {
    set k | 0 <= k < |plans| && PlanChanged(versions, plans[k]) :: plans[k].id
  }

  function WithVersions(versions: map<Id, int>, plans: seq<PlanIdentity>): map<Id, int>
    decreases plans
  {
    if plans == [] then versions
    else WithVersions(versions[plans[0].id := plans[0].version], plans[1..])
  }

  function AddedTasks(tasks: map<Id, Attempt>, plan: seq<Task>): seq<Id> {
    if plan == [] then []
    else (if plan[0].id in tasks then [] else [plan[0].id]) + AddedTasks(tasks, plan[1..])
  }

  function WithTasks(build: string, tasks: map<Id, Attempt>, plan: seq<Task>): map<Id, Attempt>
    decreases plan
  {
    if plan == [] then tasks
    else WithTasks(build, if plan[0].id in tasks then tasks else tasks[plan[0].id := Fresh(build, plan[0])], plan[1..])
  }

  /** What the edit does to the record of one task, if anything. */
  function Synced(build: string, versions: map<Id, int>, r: Attempt, task: Task, changed: set<Id>): Option<(Attempt, Change)>
    requires r.planId in versions
  {
    if task.planId !in changed then None
    else if r.status.Pending? && r.planVersion != task.planVersion then
      Some((r.(planVersion := task.planVersion), VersionMoved))
    else if r.status.Accepted? || r.status.Finished? then
      Some((ReworkOf(build, versions, r, PLAN_CHANGED), Reworked))
    else None
  }

  function SyncTask(d: Doc, task: Task, changed: set<Id>): (d': Doc)
    requires Coherent(d) && task.id in d.tasks
    ensures Coherent(d') && d'.versions == d.versions && d'.build == d.build && d'.tasks.Keys == d.tasks.Keys
  {
    var s := Synced(d.build, d.versions, d.tasks[task.id], task, changed);
    if s.None? then d else Put(d, s.value.0, s.value.1)
  }

  function SyncTasks(d: Doc, plan: seq<Task>, changed: set<Id>): (d': Doc)
    requires Coherent(d) && forall k :: 0 <= k < |plan| ==> plan[k].id in d.tasks
    ensures Coherent(d') && d'.versions == d.versions && d'.build == d.build && d'.tasks.Keys == d.tasks.Keys
    decreases plan
  {
    if plan == [] then d else SyncTasks(SyncTask(d, plan[0], changed), plan[1..], changed)
  }

  /** Versions and new tasks are on disk before any record is reworked. */
  function Widen(d: Doc, tree: Tree): Doc {
    var changed, added := ChangedPlans(d.versions, tree.plans), AddedTasks(d.tasks, tree.tasks);
    Doc(d.build, WithVersions(d.versions, tree.plans), WithTasks(d.build, d.tasks, tree.tasks),
        d.events + if changed != {} || added != [] then [PlanEdited(changed, added)] else [])
  }

  lemma {:induction false} WithVersionsAt(versions: map<Id, int>, plans: seq<PlanIdentity>, v: Id)
    requires DistinctPlans(plans)
    ensures v in WithVersions(versions, plans) <==> v in versions || PlanOf(plans, v).Some?
    ensures v in WithVersions(versions, plans) ==>
      WithVersions(versions, plans)[v] == if PlanOf(plans, v).Some? then PlanOf(plans, v).value.version else versions[v]
    decreases plans
  {
    if plans != [] {
      WithVersionsAt(versions[plans[0].id := plans[0].version], plans[1..], v);
      FirstPlanIsOnly(plans);
    }
  }

  lemma {:induction false} WithTasksAt(build: string, tasks: map<Id, Attempt>, plan: seq<Task>, t: Id)
    requires DistinctTasks(plan)
    ensures t in WithTasks(build, tasks, plan) <==> t in tasks || Known(plan, t)
    ensures t in tasks ==> WithTasks(build, tasks, plan)[t] == tasks[t]
    ensures t !in tasks && Known(plan, t) ==>
      WithTasks(build, tasks, plan)[t] == Fresh(build, TaskOf(plan, t).value)
    ensures t in AddedTasks(tasks, plan) <==> t !in tasks && Known(plan, t)
    decreases plan
  {
    if plan != [] {
      var first := if plan[0].id in tasks then tasks else tasks[plan[0].id := Fresh(build, plan[0])];
      WithTasksAt(build, first, plan[1..], t);
      WithTasksAt(build, tasks, plan[1..], t);
    }
  }

  /** The widened ledger has a plan version for every record and a record for every task. */
  predicate Fits(d: Doc, tree: Tree) {
    && Coherent(Widen(d, tree))
    && forall k :: 0 <= k < |tree.tasks| ==> tree.tasks[k].id in Widen(d, tree).tasks
  }

  /** Taking an edited plan on board, as one step. */
  function Sync(d: Doc, tree: Tree): Doc
    requires Fits(d, tree)
  {
    SyncTasks(Widen(d, tree), tree.tasks, ChangedPlans(d.versions, tree.plans))
  }

  lemma WidenFits(d: Doc, tree: Tree)
    requires Coherent(d) && ValidTree(tree)
    ensures Fits(d, tree)
  {
    hide Covers, CrossInputsNamed, SoundDeps, WithVersions, WithTasks;
    var w := Widen(d, tree);
    forall t | t in w.tasks ensures w.tasks[t].taskId == t && w.tasks[t].planId in w.versions {
      WithTasksAt(d.build, d.tasks, tree.tasks, t);
      if t !in d.tasks {
        var task := TaskOf(tree.tasks, t).value;
        assert AssignedTask(tree.plans, task);
      }
      WithVersionsAt(d.versions, tree.plans, w.tasks[t].planId);
    }
    forall k | 0 <= k < |tree.tasks| ensures tree.tasks[k].id in w.tasks {
      WithTasksAt(d.build, d.tasks, tree.tasks, tree.tasks[k].id);
    }
  }
}
