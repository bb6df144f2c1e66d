/** What the build loop is told from outside, and recording one worker's answer write by write. */
module Courses {
  import opened Common
  import opened Text
  import opened Ledger
  import History
  import opened ManifestSteps
  import opened ManifestLoop

  // -- the outside world ----------------------------------------------------------------------

  /** Work found after a restart: what was committed, and whether the combined checks passed. */
  datatype Saved = Saved(commit: string, checks: seq<string>, passed: bool)

  /**
   * Everything a run is told from outside: the limit and whether a stop was requested, each asked once at
   * most while the log has a given length; what the worker of an attempt answers, does or dies of; what an
   * interrupted attempt had saved; and which failure reasons are worth a repair.
   */
  datatype World = World(
    capacity: nat -> int, stops: nat -> bool, answers: (Id, nat) -> WorkerResult,
    saved: (Id, nat) -> Option<Saved>, repairable: string -> bool)

  /** What the current attempt's worker comes back with, about its own task. */
  function AnswerOf(world: World, d: Doc, t: Id): WorkerResult
    requires t in d.tasks
  {
    world.answers(t, d.tasks[t].number).(task := t)
  }

  /** No worker ever reports text that is only white space. */
  ghost predicate Tidy(world: World) {
    forall t, n :: !BlankText(world.answers(t, n))
  }

  // -- recording one result, write by write ---------------------------------------------------

  /** A write about task t that starts nobody: one task moves, and while its plan stands still its weight falls. */
  ghost predicate Quiet(d: Doc, op: History.Op, t: Id)
    requires Coherent(d)
  {
    && !op.SyncPlan? && !op.Begin? && op.task == t
    && var e := History.After(d, op);
       && Coherent(e) && OnlyTouches(d, e, t) && !d.tasks[t].accepted
       && (op.Repair? || op.Rework? || e.tasks[t].number == d.tasks[t].number)
       && (e.tasks[t].status.Running? ==> d.tasks[t].status.Running? && SameStanding(d.tasks[t], e.tasks[t]))
       && (AtCurrent(d, t) ==>
             && AtCurrent(e, t) && StartsLeft(e.tasks[t]) <= StartsLeft(d.tasks[t])
             && Weight(e.tasks[t]) + (if op.Thread? then 0 else 1) <= Weight(d.tasks[t]))
  }

  /** The write says no more and nothing else than the worker's answer gives rise to. */
  predicate FromAnswer(op: History.Op, res: WorkerResult, repairable: string -> bool) {
    match op
    case Thread(_, _, thread, base) => res.thread == Some(thread) && base.None?
    case Submit(_, _, commit, checks) => HasCommit(res) && commit == res.commit.value && checks == ChecksOf(res)
    case Accept(_, _) => Good(res)
    case Rework(_, _) => Good(res)
    case Block(_, reason) => !Good(res) && reason == ReasonOf(res)
    case Repair(_) => !Good(res) && repairable(ReasonOf(res))
    case _ => false
  }

  /** ops turn d into e by quiet writes about the task of the answer they record; a new attempt ends them. */
  ghost predicate Course(d: Doc, ops: seq<History.Op>, e: Doc, res: WorkerResult, repairable: string -> bool)
    decreases ops
  {
    if ops == [] then e == d
    else
      && Coherent(d) && Quiet(d, ops[0], res.task) && FromAnswer(ops[0], res, repairable)
      && (ops[0].Repair? || ops[0].Rework? ==> |ops| == 1)
      && Course(History.After(d, ops[0]), ops[1..], e, res, repairable)
  }

  ghost function StickOps(d: Doc, t: Id, reason: string, repairable: string -> bool): seq<History.Op> {
    var blocked := Block(d, t, reason);
    if blocked.Err? then []
    else
      [History.Block(t, reason)] +
      (if repairable(reason) && blocked.value.tasks[t].lineageRepairs < MAX_AUTO_REPAIRS then [History.Repair(t)] else [])
  }

  ghost function WorkOps(d: Doc, res: WorkerResult, repairable: string -> bool): seq<History.Op>
    requires Coherent(d) && res.task in d.tasks
  {
    var t, attempt := res.task, d.tasks[res.task].attemptId;
    if !HasCommit(res) then StickOps(d, t, ReasonOf(res), repairable) else
    var submitted := SubmitResult(d, t, attempt, res.commit.value, ChecksOf(res));
    if submitted.Err? then []
    else
      [History.Submit(t, attempt, res.commit.value, ChecksOf(res))] +
      if !res.ok then StickOps(submitted.value, t, ReasonOf(res), repairable)
      else if Accept(submitted.value, t, attempt).Ok? then [History.Accept(t, attempt)]
      else [History.Rework(t, PLAN_CHANGED)]
  }

  /** The ledger operations that recording a result comes down to. */
  ghost function RecordOps(d: Doc, res: WorkerResult, repairable: string -> bool): seq<History.Op>
    requires Coherent(d) && res.task in d.tasks
  {
    if res.thread.None? then WorkOps(d, res, repairable)
    else
      var attempt := d.tasks[res.task].attemptId;
      [History.Thread(res.task, attempt, res.thread.value, None)] +
      WorkOps(Done(d, NoteThread(d, res.task, attempt, res.thread.value, None)), res, repairable)
  }

  lemma BlockQuiet(d: Doc, t: Id, reason: string)
    requires Coherent(d) && t in d.tasks && Block(d, t, reason).Ok? && !d.tasks[t].accepted
    requires d.tasks[t].status.Running? || d.tasks[t].status.Finished?
    ensures Quiet(d, History.Block(t, reason), t) && History.After(d, History.Block(t, reason)) == Block(d, t, reason).value
  {
    hide Clean;
  }

  lemma RepairQuiet(d: Doc, t: Id)
    requires Coherent(d) && t in d.tasks && Repair(d, t).Ok? && !d.tasks[t].accepted
    ensures Quiet(d, History.Repair(t), t) && History.After(d, History.Repair(t)) == Repair(d, t).value
  {
    hide AttemptId;
  }

  lemma ThreadQuiet(d: Doc, t: Id, thread: int)
    requires Coherent(d) && Runs(d, t)
    ensures
      var op := History.Thread(t, d.tasks[t].attemptId, thread, None);
      && Quiet(d, op, t) && History.After(d, op) == Done(d, NoteThread(d, t, d.tasks[t].attemptId, thread, None))
  {
  }

  lemma SubmitQuiet(d: Doc, t: Id, commit: string, checks: seq<string>)
    requires Coherent(d) && Runs(d, t) && SubmitResult(d, t, d.tasks[t].attemptId, commit, checks).Ok?
    ensures
      var op := History.Submit(t, d.tasks[t].attemptId, commit, checks);
      && Quiet(d, op, t) && History.After(d, op) == SubmitResult(d, t, d.tasks[t].attemptId, commit, checks).value
  {
    hide Clean, CleanAll;
  }

  lemma VerdictQuiet(d: Doc, t: Id)
    requires Coherent(d) && t in d.tasks && d.tasks[t].status.Finished? && !d.tasks[t].accepted
    ensures
      var attempt := d.tasks[t].attemptId;
      var accepted := Accept(d, t, attempt);
      if accepted.Ok? then
        Quiet(d, History.Accept(t, attempt), t) && History.After(d, History.Accept(t, attempt)) == accepted.value
      else
        && Rework(d, t, PLAN_CHANGED).Ok? && Quiet(d, History.Rework(t, PLAN_CHANGED), t)
        && History.After(d, History.Rework(t, PLAN_CHANGED)) == Rework(d, t, PLAN_CHANGED).value
  {
    hide Clean, AttemptId;
    PlanChangedIsText();
  }

  lemma {:induction false} RepairCourse(d: Doc, res: WorkerResult, repairable: string -> bool)
    requires Coherent(d) && res.task in d.tasks && !d.tasks[res.task].accepted && Repair(d, res.task).Ok?
    requires !Good(res) && repairable(ReasonOf(res))
    ensures Course(d, [History.Repair(res.task)], Repair(d, res.task).value, res, repairable)
  {
    hide AttemptId, Quiet, History.After, Good, ReasonOf, Repair;
    RepairQuiet(d, res.task);
    assert [History.Repair(res.task)][1..] == [];
  }

  lemma {:induction false} StickCourse(d: Doc, res: WorkerResult, repairable: string -> bool)
    requires Coherent(d) && res.task in d.tasks && !d.tasks[res.task].accepted && !Good(res)
    requires d.tasks[res.task].status.Running? || d.tasks[res.task].status.Finished?
    ensures Course(d, StickOps(d, res.task, ReasonOf(res), repairable), Stick(d, res.task, ReasonOf(res), repairable).0, res, repairable)
  {
    hide Clean, AttemptId, Quiet, History.After, Good;
    var t, reason := res.task, ReasonOf(res);
    var blocked := Block(d, t, reason);
    if blocked.Ok? {
      BlockQuiet(d, t, reason);
      var b := blocked.value;
      if repairable(reason) && b.tasks[t].lineageRepairs < MAX_AUTO_REPAIRS {
        RepairCourse(b, res, repairable);
      }
    }
  }

  lemma {:induction false} WorkCourse(d: Doc, res: WorkerResult, repairable: string -> bool)
    requires Coherent(d) && Runs(d, res.task)
    ensures Course(d, WorkOps(d, res, repairable), RecordWork(d, res, repairable).0, res, repairable)
  {
    hide Clean, CleanAll, AttemptId, Quiet, History.After, ReasonOf, ChecksOf, SubmitResult, Accept, Rework, Stick, StickOps;
    var t, attempt := res.task, d.tasks[res.task].attemptId;
    if !HasCommit(res) {
      StickCourse(d, res, repairable);
    } else {
      SubmitKeeps(d, t, res.commit.value, ChecksOf(res));
      var submitted := SubmitResult(d, t, attempt, res.commit.value, ChecksOf(res));
      if submitted.Ok? {
        SubmitQuiet(d, t, res.commit.value, ChecksOf(res));
        var e := submitted.value;
        if !res.ok {
          StickCourse(e, res, repairable);
        } else {
          VerdictQuiet(e, t);
          if Accept(e, t, attempt).Ok? {
            assert Course(e, [History.Accept(t, attempt)], Accept(e, t, attempt).value, res, repairable);
          } else {
            assert Course(e, [History.Rework(t, PLAN_CHANGED)], Rework(e, t, PLAN_CHANGED).value, res, repairable);
          }
        }
      }
    }
  }

  /** Recording a result is nothing but ordinary ledger operations about its task that say what the worker said. */
  lemma {:induction false} RecordCourse(d: Doc, res: WorkerResult, repairable: string -> bool)
    requires Coherent(d) && Runs(d, res.task)
    ensures Course(d, RecordOps(d, res, repairable), Record(d, res, repairable).0, res, repairable)
  {
    hide WorkOps, RecordWork, NoteThread, Quiet, History.After;
    if res.thread.Some? {
      NoteKeeps(d, res.task, res);
      ThreadQuiet(d, res.task, res.thread.value);
    }
    var noted := if res.thread.Some? then Done(d, NoteThread(d, res.task, d.tasks[res.task].attemptId, res.thread.value, None)) else d;
    WorkCourse(noted, res, repairable);
  }

  lemma {:induction false} CourseLeads(d: Doc, ops: seq<History.Op>, e: Doc, res: WorkerResult, repairable: string -> bool)
    requires Course(d, ops, e, res, repairable)
    ensures History.Leads(d, ops, e)
    decreases ops
  {
    hide History.After;
    if ops != [] {
      CourseLeads(History.After(d, ops[0]), ops[1..], e, res, repairable);
    }
  }

  lemma {:induction false} LeadsMore(d: Doc, ops: seq<History.Op>, e: Doc, op: History.Op)
    requires History.Leads(d, ops, e) && Coherent(e) && History.Feasible(op)
    ensures History.Leads(d, ops + [op], History.After(e, op))
    decreases ops
  {
    hide History.After, History.Feasible;
    if ops == [] {
      assert ([op] + [])[1..] == [];
      assert [] + [op] == [op];
    } else {
      assert (ops + [op])[1..] == ops[1..] + [op];
      LeadsMore(History.After(d, ops[0]), ops[1..], e, op);
    }
  }

  lemma {:induction false} LeadsJoin(d: Doc, a: seq<History.Op>, e: Doc, b: seq<History.Op>, f: Doc)
    requires History.Leads(d, a, e) && History.Leads(e, b, f)
    ensures History.Leads(d, a + b, f)
    decreases a
  {
    hide History.After, History.Feasible;
    if a == [] {
      assert a + b == b;
    } else {
      assert (a + b)[1..] == a[1..] + b;
      LeadsJoin(History.After(d, a[0]), a[1..], e, b, f);
    }
  }

  lemma {:induction false} NoSteps(d: Doc)
    ensures History.Leads(d, [], d)
  {
  }
}
