/** One build's task ledger: the object every handle updates in place, proved against the ledger's transitions. */
module BuildStates {
  import opened Common
  import opened Plan
  import opened Text
  import opened Ledger
  import History

  /** What one method call does to the document: exactly the ledger's transition, or nothing when it is refused. */
  ghost predicate Performed(before: Doc, after: Doc, outcome: Outcome, t: Id, r: Result<Attempt, Refusal>) {
    match outcome
    case Ok(d) => after == d && t in d.tasks && r == Ok(d.tasks[t])
    case Err(e) => after == before && r == Err(e)
  }

  class BuildState {
    const build: string
    var tree: Tree
    var versions: map<Id, int>
    var tasks: map<Id, Attempt>
    var events: seq<Event>

    function Document(): Doc
      reads this
    {
      Doc(build, versions, tasks, events)
    }

    ghost predicate Valid()
      reads this
    {
      Coherent(Document())
    }

    constructor (tree: Tree, build: string)
      requires ValidTree(tree)
      ensures Valid() && this.tree == tree && Document() == History.NewDoc(tree, build)
    {
      History.NewDocTrue(tree, build);
      this.build := build;
      this.tree := tree;
      versions := WithVersions(map[], tree.plans);
      tasks := WithTasks(build, map[], tree.tasks);
      events := [];
    }

    /** Merge one record onto the document and log it. */
    method ApplyRecord(r: Attempt, c: Change)
      requires Valid() && r.planId in versions
      modifies this`tasks, this`events
      ensures Valid() && Document() == Put(old(Document()), r, c)
    {
      tasks := tasks[r.taskId := r];
      events := events + [TaskEvent(r.taskId, r.number, c)];
    }

    method CurrentRecord(t: Id, attempt: string) returns (r: Result<Attempt, Refusal>)
      requires Valid()
      ensures r == Current(Document(), t, attempt)
    {
      if t !in tasks {
        return Err(NoSuchTask);
      }
      if attempt != tasks[t].attemptId {
        return Err(StaleAttempt);
      }
      r := Ok(tasks[t]);
    }

    method Begin(t: Id) returns (r: Result<Attempt, Refusal>)
      requires Valid()
      modifies this`tasks, this`events
      ensures Valid() && Performed(old(Document()), Document(), Ledger.Begin(old(Document()), t), t, r)
    {
      if t !in tasks {
        return Err(NoSuchTask);
      }
      if !tasks[t].status.Pending? {
        return Err(WrongStatus);
      }
      ApplyRecord(tasks[t].(status := Running, reason := None), Started);
      r := Ok(tasks[t]);
    }

    method SubmitResult(t: Id, attempt: string, commit: string, checks: seq<string>) returns (r: Result<Attempt, Refusal>)
      requires Valid()
      modifies this`tasks, this`events
      ensures Valid() && Performed(old(Document()), Document(), Ledger.SubmitResult(old(Document()), t, attempt, commit, checks), t, r)
    {
      hide Clean, CleanAll;
      var record := CurrentRecord(t, attempt);
      if record.Err? {
        return record;
      }
      var sha, ran := Clean(commit), CleanAll(checks);
      if sha.None? || ran.None? {
        return Err(EmptyText);
      }
      if record.value.status.Finished? || record.value.status.Accepted? {
        return if record.value.commit == sha && record.value.checks == ran.value then record else Err(AlreadyFinished);
      }
      if !record.value.status.Running? {
        return Err(WrongStatus);
      }
      ApplyRecord(record.value.(status := Finished, commit := sha, checks := ran.value, reason := None), FinishedWork);
      r := Ok(tasks[t]);
    }

    method RecordReview(t: Id, attempt: string, verdict: string, notes: string) returns (r: Result<Attempt, Refusal>)
      requires Valid()
      modifies this`tasks, this`events
      ensures Valid() && Performed(old(Document()), Document(), Ledger.RecordReview(old(Document()), t, attempt, verdict, notes), t, r)
    {
      hide ReviewLine;
      var record := CurrentRecord(t, attempt);
      if record.Err? {
        return record;
      }
      if !record.value.status.Finished? && !record.value.status.Accepted? {
        return Err(WrongStatus);
      }
      var line := ReviewLine(verdict, notes);
      if line.None? {
        return Err(EmptyText);
      }
      ApplyRecord(record.value.(review := record.value.review + [line.value]), Reviewed);
      r := Ok(tasks[t]);
    }

    method RecordRepair(t: Id, attempt: string, reason: string) returns (r: Result<Attempt, Refusal>)
      requires Valid()
      modifies this`tasks, this`events
      ensures Valid() && Performed(old(Document()), Document(), Ledger.RecordRepair(old(Document()), t, attempt, reason), t, r)
    {
      hide Clean;
      var record := CurrentRecord(t, attempt);
      if record.Err? {
        return record;
      }
      var text := Clean(reason);
      if text.None? {
        return Err(EmptyText);
      }
      ApplyRecord(record.value.(repairs := record.value.repairs + 1, reason := text), RepairNoted);
      r := Ok(tasks[t]);
    }

    method Accept(t: Id, attempt: string) returns (r: Result<Attempt, Refusal>)
      requires Valid()
      modifies this`tasks, this`events
      ensures Valid() && Performed(old(Document()), Document(), Ledger.Accept(old(Document()), t, attempt), t, r)
    {
      var record := CurrentRecord(t, attempt);
      if record.Err? || record.value.status.Accepted? {
        return record;
      }
      if !record.value.status.Finished? {
        return Err(WrongStatus);
      }
      if record.value.planVersion != versions[record.value.planId] {
        return Err(OldPlanVersion);
      }
      ApplyRecord(record.value.(status := Accepted, accepted := true), AcceptedWork);
      r := Ok(tasks[t]);
    }

    method Block(t: Id, reason: string) returns (r: Result<Attempt, Refusal>)
      requires Valid()
      modifies this`tasks, this`events
      ensures Valid() && Performed(old(Document()), Document(), Ledger.Block(old(Document()), t, reason), t, r)
    {
      hide Clean;
      if t !in tasks {
        return Err(NoSuchTask);
      }
      if tasks[t].status.Accepted? {
        return Err(WrongStatus);
      }
      var text := Clean(reason);
      if text.None? {
        return Err(EmptyText);
      }
      ApplyRecord(tasks[t].(status := Blocked, reason := text), BlockedWork);
      r := Ok(tasks[t]);
    }

    method Retry(t: Id) returns (r: Result<Attempt, Refusal>)
      requires Valid()
      modifies this`tasks, this`events
      ensures Valid() && Performed(old(Document()), Document(), Ledger.Retry(old(Document()), t), t, r)
    {
      hide AttemptId;
      if t !in tasks {
        return Err(NoSuchTask);
      }
      if tasks[t].status.Running? {
        return Err(WrongStatus);
      }
      ApplyRecord(Next(build, versions, tasks[t], tasks[t].lineageRepairs), Retried);
      r := Ok(tasks[t]);
    }

    method Repair(t: Id) returns (r: Result<Attempt, Refusal>)
      requires Valid()
      modifies this`tasks, this`events
      ensures Valid() && Performed(old(Document()), Document(), Ledger.Repair(old(Document()), t), t, r)
    {
      hide AttemptId;
      if t !in tasks {
        return Err(NoSuchTask);
      }
      if !tasks[t].status.Blocked? {
        return Err(WrongStatus);
      }
      if tasks[t].lineageRepairs >= MAX_AUTO_REPAIRS {
        return Err(BudgetSpent);
      }
      ApplyRecord(Next(build, versions, tasks[t], tasks[t].lineageRepairs + 1), Repaired);
      r := Ok(tasks[t]);
    }

    method NoteThread(t: Id, attempt: string, thread: int, base: Option<string>) returns (r: Result<Attempt, Refusal>)
      requires Valid()
      modifies this`tasks, this`events
      ensures Valid() && Performed(old(Document()), Document(), Ledger.NoteThread(old(Document()), t, attempt, thread, base), t, r)
    {
      var record := CurrentRecord(t, attempt);
      if record.Err? {
        return record;
      }
      var commit := if base.Some? && base.value != "" then base else record.value.baseCommit;
      ApplyRecord(record.value.(thread := Some(thread), archived := false, baseCommit := commit), ThreadNoted);
      r := Ok(tasks[t]);
    }

    method MarkArchived(t: Id, thread: Option<int>) returns (r: Result<Attempt, Refusal>)
      requires Valid()
      modifies this`tasks, this`events
      ensures Valid() && Performed(old(Document()), Document(), Ledger.MarkArchived(old(Document()), t, thread), t, r)
    {
      hide Without;
      if t !in tasks {
        return Err(NoSuchTask);
      }
      var record := tasks[t];
      if thread.Some? && thread.value in record.earlierThreads {
        ApplyRecord(record.(earlierThreads := Without(record.earlierThreads, thread.value)), Archived);
      } else if (thread.Some? && thread != record.thread) || record.archived {
      } else {
        ApplyRecord(record.(archived := true), Archived);
      }
      r := Ok(tasks[t]);
    }

    method Rework(t: Id, reason: string) returns (r: Result<Attempt, Refusal>)
      requires Valid()
      modifies this`tasks, this`events
      ensures Valid() && Performed(old(Document()), Document(), Ledger.Rework(old(Document()), t, reason), t, r)
    {
      hide AttemptId, Clean;
      if t !in tasks {
        return Err(NoSuchTask);
      }
      if tasks[t].status.Running? {
        return Err(WrongStatus);
      }
      var text := Clean(reason);
      if text.None? {
        return Err(EmptyText);
      }
      ApplyRecord(ReworkOf(build, versions, tasks[t], text.value), Reworked);
      r := Ok(tasks[t]);
    }

    /** Save new plan versions first, noting which plans changed. */
    method TakeVersions(plans: seq<PlanIdentity>) returns (changed: set<Id>)
      requires DistinctPlans(plans)
      modifies this`versions
      ensures versions == WithVersions(old(versions), plans) && changed == ChangedPlans(old(versions), plans)
    {
      changed := {};
      for i := 0 to |plans|
        invariant WithVersions(versions, plans[i..]) == WithVersions(old(versions), plans)
        invariant forall k :: i <= k < |plans| ==> (PlanChanged(versions, plans[k]) <==> PlanChanged(old(versions), plans[k]))
        invariant changed == set k | 0 <= k < i && PlanChanged(old(versions), plans[k]) :: plans[k].id
      {
        var p := plans[i];
        assert plans[i..][0] == p && plans[i..][1..] == plans[i + 1..];
        if PlanChanged(versions, p) {
          changed := changed + {p.id};
        } else {
          assert versions[p.id := p.version] == versions;
        }
        versions := versions[p.id := p.version];
      }
    }

    /** Give every task the edit added a pending first attempt. */
    method AddTasks(plan: seq<Task>) returns (added: seq<Id>)
      requires DistinctTasks(plan)
      modifies this`tasks
      ensures tasks == WithTasks(build, old(tasks), plan) && added == AddedTasks(old(tasks), plan)
    {
      hide Fresh;
      added := [];
      for i := 0 to |plan|
        invariant WithTasks(build, tasks, plan[i..]) == WithTasks(build, old(tasks), plan)
        invariant added + AddedTasks(old(tasks), plan[i..]) == AddedTasks(old(tasks), plan)
        invariant forall k :: i <= k < |plan| ==> (plan[k].id in tasks <==> plan[k].id in old(tasks))
      {
        var t := plan[i];
        assert plan[i..][0] == t && plan[i..][1..] == plan[i + 1..];
        if t.id !in tasks {
          tasks := tasks[t.id := Fresh(build, t)];
          added := added + [t.id];
        }
      }
    }

    method SyncOne(t: Task, changed: set<Id>)
      requires Valid() && t.id in tasks
      modifies this`tasks, this`events
      ensures Valid() && Document() == SyncTask(old(Document()), t, changed)
    {
      hide AttemptId;
      var s := Synced(build, versions, tasks[t.id], t, changed);
      if s.Some? {
        ApplyRecord(s.value.0, s.value.1);
      }
    }

    method SyncEach(plan: seq<Task>, changed: set<Id>)
      requires Valid() && forall k :: 0 <= k < |plan| ==> plan[k].id in tasks
      modifies this`tasks, this`events
      ensures Valid() && Document() == SyncTasks(old(Document()), plan, changed)
    {
      hide SyncTask, Coherent;
      for i := 0 to |plan|
        invariant Valid() && tasks.Keys == old(tasks.Keys)
        invariant SyncTasks(Document(), plan[i..], changed) == SyncTasks(old(Document()), plan, changed)
      {
        assert plan[i..][0] == plan[i] && plan[i..][1..] == plan[i + 1..];
        SyncOne(plan[i], changed);
      }
    }

    /** Versions, new tasks and their log entry are saved before any record is reworked. */
    method WidenTo(plan: Tree) returns (changed: set<Id>)
      requires DistinctPlans(plan.plans) && DistinctTasks(plan.tasks)
      modifies this`versions, this`tasks, this`events
      ensures Document() == Widen(old(Document()), plan) && changed == ChangedPlans(old(versions), plan.plans)
    {
      hide WithVersions, WithTasks, AddedTasks, ChangedPlans, DistinctPlans, DistinctTasks;
      changed := TakeVersions(plan.plans);
      var added := AddTasks(plan.tasks);
      if changed != {} || added != [] {
        events := events + [PlanEdited(changed, added)];
      }
    }

    /** Take an edited plan on board. */
    method SyncTree(plan: Tree)
      requires Valid() && ValidTree(plan)
      modifies this
      ensures Valid() && tree == plan && Fits(old(Document()), plan) && Document() == Sync(old(Document()), plan)
    {
      WidenFits(Document(), plan);
      TaskAssigned(plan, Id(""));
      hide ValidTree, Widen, ChangedPlans, Coherent, SyncTasks;
      tree := plan;
      var changed := WidenTo(plan);
      SyncEach(plan.tasks, changed);
    }
  }
}
