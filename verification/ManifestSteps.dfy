/** The steps of the build loop on the ledger, and what each of them keeps. */
module ManifestSteps {
  import opened Common
  import opened Text
  import opened Ledger
  import History

  /** What one worker came back with. */
  datatype WorkerResult = WorkerResult(
    task: Id, ok: bool, detail: string, commit: Option<string>, checks: seq<string>, thread: Option<int>)

  const REPORTED_DONE := "the worker reported DONE"
  const NOT_FINISHED := "the worker did not finish"

  predicate HasCommit(res: WorkerResult) {
    res.commit.Some? && res.commit.value != ""
  }

  predicate Good(res: WorkerResult) {
    res.ok && HasCommit(res)
  }

  function ChecksOf(res: WorkerResult): seq<string> {
    if res.checks == [] then [REPORTED_DONE] else res.checks
  }

  function ReasonOf(res: WorkerResult): string {
    if res.detail == "" then NOT_FINISHED else res.detail
  }

  /** The only results the ledger cannot take: text that is nothing but white space. */
  predicate BlankText(res: WorkerResult) {
    || (HasCommit(res) && Blank(res.commit.value))
    || (HasCommit(res) && exists k :: 0 <= k < |res.checks| && Blank(res.checks[k]))
    || (!Good(res) && Blank(ReasonOf(res)))
  }

  function Done(d: Doc, outcome: Outcome): Doc {
    if outcome.Ok? then outcome.value else d
  }

  /** Block the task, then spend its one automatic repair if the failure is of a repairable kind. */
  function Stick(d: Doc, t: Id, reason: string, repairable: string -> bool): (Doc, Option<Refusal>)
    requires Coherent(d)
  {
    var blocked := Block(d, t, reason);
    if blocked.Err? then (d, Some(blocked.error))
    else if repairable(reason) && blocked.value.tasks[t].lineageRepairs < MAX_AUTO_REPAIRS then
      (Done(blocked.value, Repair(blocked.value, t)), None)
    else (blocked.value, None)
  }

  /** Commit and checks first, then the verdict on them. */
  function RecordWork(d: Doc, res: WorkerResult, repairable: string -> bool): (Doc, Option<Refusal>)
    requires Coherent(d) && res.task in d.tasks
  {
    var t, attempt := res.task, d.tasks[res.task].attemptId;
    if !HasCommit(res) then Stick(d, t, ReasonOf(res), repairable) else
    var submitted := SubmitResult(d, t, attempt, res.commit.value, ChecksOf(res));
    if submitted.Err? then (d, Some(submitted.error))
    else if !res.ok then Stick(submitted.value, t, ReasonOf(res), repairable) else
    var accepted := Accept(submitted.value, t, attempt);
    if accepted.Ok? then (accepted.value, None) else
    var reworked := Rework(submitted.value, t, PLAN_CHANGED);
    (Done(submitted.value, reworked), if reworked.Ok? then None else Some(reworked.error))
  }

  /** Persist one worker's outcome: the ledger after it, and the refusal that cut it short, if any. */
  function Record(d: Doc, res: WorkerResult, repairable: string -> bool): (Doc, Option<Refusal>)
    requires Coherent(d)
  {
    if res.task !in d.tasks then (d, None) else
    var noted := if res.thread.Some? then Done(d, NoteThread(d, res.task, d.tasks[res.task].attemptId, res.thread.value, None)) else d;
    RecordWork(noted, res, repairable)
  }

  // -- what recording a result does -----------------------------------------------------

  /** Only task t's record differs, and it still belongs to the same task and plan. */
  ghost predicate OnlyTouches(d: Doc, e: Doc, t: Id) {
    && e.build == d.build && e.versions == d.versions && e.tasks.Keys == d.tasks.Keys
    && t in d.tasks && e.tasks[t].taskId == d.tasks[t].taskId && e.tasks[t].planId == d.tasks[t].planId
    && forall u :: u in d.tasks && u != t ==> e.tasks[u] == d.tasks[u]
  }

  /**
   * How a running attempt ends. Good work at the current plan version is accepted, and at an old one it is
   * kept as the previous commit of a new attempt; anything else is blocked or started over with the one repair.
   */
  ghost predicate Settled(d: Doc, r: Attempt, s: Attempt, good: bool)
    requires r.planId in d.versions
  {
    var current := d.versions[r.planId];
    if good && r.planVersion == current then
      s.status.Accepted? && s.accepted && s.planVersion == r.planVersion && s.lineageRepairs == r.lineageRepairs
    else if good then
      && s.status.Pending? && !s.accepted && s.planVersion == current && s.lineageRepairs == r.lineageRepairs
      && s.number == r.number + 1 && s.previousCommit.Some?
    else
      && !s.accepted
      && (|| (s.status.Blocked? && s.planVersion == r.planVersion && s.lineageRepairs == r.lineageRepairs)
          || (s.status.Pending? && s.planVersion == current
              && r.lineageRepairs < MAX_AUTO_REPAIRS && s.lineageRepairs == r.lineageRepairs + 1))
  }

  /** What reporting leaves of a record's standing: its plan version, budget, identity and acceptance. */
  ghost predicate SameStanding(r: Attempt, s: Attempt) {
    && s.planVersion == r.planVersion && s.lineageRepairs == r.lineageRepairs
    && s.attemptId == r.attemptId && s.accepted == r.accepted && s.number == r.number
  }

  lemma NoteKeeps(d: Doc, t: Id, res: WorkerResult)
    requires Coherent(d) && t in d.tasks && res.thread.Some?
    ensures
      var e := Done(d, NoteThread(d, t, d.tasks[t].attemptId, res.thread.value, None));
      Coherent(e) && OnlyTouches(d, e, t) && SameStanding(d.tasks[t], e.tasks[t]) && e.tasks[t].status == d.tasks[t].status
  {
  }

  lemma {:induction false} SubmitKeeps(d: Doc, t: Id, commit: string, checks: seq<string>)
    requires Coherent(d) && t in d.tasks && d.tasks[t].status.Running?
    ensures
      var result := SubmitResult(d, t, d.tasks[t].attemptId, commit, checks);
      && (result.Err? ==> Blank(commit) || CleanAll(checks).None?)
      && (result.Ok? ==>
            var e := result.value;
            Coherent(e) && OnlyTouches(d, e, t) && SameStanding(d.tasks[t], e.tasks[t]) && e.tasks[t].status.Finished?
            && e.tasks[t].commit.Some?)
  {
    hide Clean, CleanAll;
    CleanRefusesBlank(commit);
  }

  /** The verdict on finished work: accepted at the current plan version, refused and reworked at an old one. */
  lemma VerdictSettles(d: Doc, t: Id)
    requires Coherent(d) && t in d.tasks && d.tasks[t].status.Finished? && d.tasks[t].commit.Some?
    ensures
      var (accepted, reworked) := (Accept(d, t, d.tasks[t].attemptId), Rework(d, t, PLAN_CHANGED));
      && (accepted.Ok? <==> d.tasks[t].planVersion == d.versions[d.tasks[t].planId]) && reworked.Ok?
      && var e := if accepted.Ok? then accepted.value else reworked.value;
         Coherent(e) && OnlyTouches(d, e, t) && Settled(d, d.tasks[t], e.tasks[t], true)
  {
    hide AttemptId, Clean;
    PlanChangedIsText();
  }

  lemma StickSettles(d: Doc, t: Id, reason: string, repairable: string -> bool)
    requires Coherent(d) && t in d.tasks && !d.tasks[t].accepted && !d.tasks[t].status.Accepted?
    ensures
      var (e, err) := Stick(d, t, reason, repairable);
      && Coherent(e) && OnlyTouches(d, e, t)
      && (err.None? ==> Settled(d, d.tasks[t], e.tasks[t], false))
      && (err.Some? ==> Blank(reason) && e == d)
  {
    hide AttemptId, Clean;
    CleanRefusesBlank(reason);
  }

  lemma {:induction false} CleanAllRefusesBlank(lines: seq<string>)
    ensures CleanAll(lines).None? <==> exists k :: 0 <= k < |lines| && Blank(lines[k])
  {
    hide Clean, Blank;
    if lines != [] {
      CleanRefusesBlank(lines[0]);
      CleanAllRefusesBlank(lines[1..]);
      if k :| 1 <= k < |lines| && Blank(lines[k]) {
        assert lines[1..][k - 1] == lines[k];
      }
    }
  }

  lemma PlanChangedIsText()
    ensures Clean(PLAN_CHANGED).Some? && Clean(REPORTED_DONE).Some?
  {
    CleanRefusesBlank(PLAN_CHANGED);
    assert !IsSpace(PLAN_CHANGED[0]);
    CleanRefusesBlank(REPORTED_DONE);
    assert !IsSpace(REPORTED_DONE[0]);
  }

  lemma ChecksRefused(res: WorkerResult)
    ensures CleanAll(ChecksOf(res)).None? <==> exists k :: 0 <= k < |res.checks| && Blank(res.checks[k])
  {
    hide Clean, Blank;
    CleanAllRefusesBlank(res.checks);
    PlanChangedIsText();
    if res.checks == [] {
      assert CleanAll([REPORTED_DONE][1..]) == Some([]);
    }
  }

  ghost predicate Runs(d: Doc, t: Id) {
    t in d.tasks && d.tasks[t].status.Running? && !d.tasks[t].accepted
  }

  // -- what the record says afterwards -----------------------------------------------------

  /** The attempt with the thread it ran in. */
  function Threaded(r: Attempt, res: WorkerResult): Attempt {
    if res.thread.Some? then r.(thread := res.thread, archived := false) else r
  }

  function Kept(lines: seq<string>): seq<string> {
    if CleanAll(lines).Some? then CleanAll(lines).value else []
  }

  /** The attempt with what the worker handed in. */
  function WithWork(r: Attempt, res: WorkerResult): (s: Attempt)
    ensures s.planId == r.planId && s.taskId == r.taskId
  {
    if HasCommit(res) then
      r.(status := Finished, commit := Clean(res.commit.value), checks := Kept(ChecksOf(res)), reason := None)
    else r
  }

  /**
   * How a failure ends. If it is of a repairable kind and the task has not been repaired yet, the task waits
   * for one more attempt that knows the reason; otherwise this attempt is blocked with it.
   */
  ghost predicate FailureEnds(d: Doc, r: Attempt, s: Attempt, reason: string, repairable: string -> bool)
    requires r.planId in d.versions
  {
    if repairable(reason) && r.lineageRepairs < 1 then
      && s.taskId == r.taskId && s.planId == r.planId && History.NextAttempt(d, r, s) && s.lineageRepairs == r.lineageRepairs + 1
      && s.previousFailure == Clean(reason) && s.reworkReason.None? && s.previousCommit.None?
    else s == r.(status := Blocked, reason := Clean(reason))
  }

  /** The record after a worker's outcome was persisted: exactly what the worker said, and what follows from it. */
  ghost predicate AsReported(d: Doc, r: Attempt, s: Attempt, res: WorkerResult, repairable: string -> bool)
    requires r.planId in d.versions
  {
    var handedIn := WithWork(Threaded(r, res), res);
    && !BlankText(res)
    && (if !Good(res) then FailureEnds(d, handedIn, s, ReasonOf(res), repairable)
        else if r.planVersion == d.versions[r.planId] then s == handedIn.(status := Accepted, accepted := true)
        else History.Legal(d, handedIn, s, Reworked) && s.reworkReason == Some(PLAN_CHANGED))
  }

  lemma StickReports(d: Doc, t: Id, reason: string, repairable: string -> bool)
    requires Coherent(d) && t in d.tasks && !d.tasks[t].accepted && !d.tasks[t].status.Accepted?
    ensures
      var (e, err) := Stick(d, t, reason, repairable);
      && t in e.tasks && (err.Some? <==> Blank(reason))
      && (if err.None? then FailureEnds(d, d.tasks[t], e.tasks[t], reason, repairable) else e == d)
  {
    hide AttemptId, Clean;
    CleanRefusesBlank(reason);
  }

  lemma SubmissionReports(d: Doc, t: Id, res: WorkerResult)
    requires Coherent(d) && Runs(d, t) && HasCommit(res)
    ensures
      var result := SubmitResult(d, t, d.tasks[t].attemptId, res.commit.value, ChecksOf(res));
      && (result.Err? <==> Blank(res.commit.value) || exists k :: 0 <= k < |res.checks| && Blank(res.checks[k]))
      && (result.Ok? ==>
            && Coherent(result.value) && result.value.versions == d.versions && result.value.build == d.build
            && t in result.value.tasks && result.value.tasks[t] == WithWork(d.tasks[t], res)
            && result.value.tasks[t].status.Finished? && result.value.tasks[t].commit.Some?)
  {
    hide Clean, CleanAll, Blank;
    CleanRefusesBlank(res.commit.value);
    ChecksRefused(res);
  }

  lemma GoodWorkReports(d: Doc, t: Id)
    requires Coherent(d) && t in d.tasks && d.tasks[t].status.Finished? && d.tasks[t].commit.Some?
    ensures
      var (accepted, reworked, current) := (Accept(d, t, d.tasks[t].attemptId), Rework(d, t, PLAN_CHANGED), d.versions[d.tasks[t].planId]);
      if d.tasks[t].planVersion == current then
        accepted.Ok? && t in accepted.value.tasks && accepted.value.tasks[t] == d.tasks[t].(status := Accepted, accepted := true)
      else
        && accepted.Err? && reworked.Ok? && t in reworked.value.tasks
        && History.Legal(d, d.tasks[t], reworked.value.tasks[t], Reworked) && reworked.value.tasks[t].reworkReason == Some(PLAN_CHANGED)
  {
    hide AttemptId, Clean;
    PlanChangedIsKept();
  }

  lemma PlanChangedIsKept()
    ensures Clean(PLAN_CHANGED) == Some(PLAN_CHANGED)
  {
    PlainIsKept(PLAN_CHANGED);
  }

  lemma SameElsewhere(d: Doc, e: Doc, r: Attempt, s: Attempt, reason: string, repairable: string -> bool)
    requires d.versions == e.versions && d.build == e.build && r.planId in d.versions
    ensures FailureEnds(d, r, s, reason, repairable) == FailureEnds(e, r, s, reason, repairable)
    ensures History.Legal(d, r, s, Reworked) == History.Legal(e, r, s, Reworked)
  {
    hide AttemptId, Clean, History.KeepsThreads;
  }

  lemma RecordWorkReports(d: Doc, res: WorkerResult, repairable: string -> bool)
    requires Coherent(d) && Runs(d, res.task) && Threaded(d.tasks[res.task], res) == d.tasks[res.task]
    ensures
      var (e, err) := RecordWork(d, res, repairable);
      && res.task in e.tasks && (err.Some? <==> BlankText(res))
      && (err.None? ==> AsReported(d, d.tasks[res.task], e.tasks[res.task], res, repairable))
      && (err.Some? ==> e.tasks[res.task] == d.tasks[res.task] || e.tasks[res.task] == WithWork(d.tasks[res.task], res))
  {
    hide AttemptId, Clean, CleanAll, Stick, SubmitResult, Accept, Rework, Block, Blank, FailureEnds, History.Legal, ReasonOf, ChecksOf;
    var t := res.task;
    if !HasCommit(res) {
      StickReports(d, t, ReasonOf(res), repairable);
    } else {
      SubmissionReports(d, t, res);
      var submitted := SubmitResult(d, t, d.tasks[t].attemptId, res.commit.value, ChecksOf(res));
      if submitted.Ok? {
        var e := submitted.value;
        if res.ok {
          GoodWorkReports(e, t);
          SameElsewhere(d, e, e.tasks[t], RecordWork(d, res, repairable).0.tasks[t], ReasonOf(res), repairable);
        } else {
          StickReports(e, t, ReasonOf(res), repairable);
          SameElsewhere(d, e, e.tasks[t], Stick(e, t, ReasonOf(res), repairable).0.tasks[t], ReasonOf(res), repairable);
        }
      }
    }
  }

  lemma RecordWorkSettles(d: Doc, res: WorkerResult, repairable: string -> bool)
    requires Coherent(d) && Runs(d, res.task)
    ensures
      var (e, err) := RecordWork(d, res, repairable);
      && Coherent(e) && OnlyTouches(d, e, res.task)
      && (err.None? ==> Settled(d, d.tasks[res.task], e.tasks[res.task], res.ok && HasCommit(res)))
      && (err.Some? ==> BlankText(res) && !e.tasks[res.task].accepted)
  {
    hide AttemptId, Clean, CleanAll, Stick, ChecksOf, ReasonOf, SubmitResult, Accept, Rework, Block, Blank;
    var t := res.task;
    if !HasCommit(res) {
      StickSettles(d, t, ReasonOf(res), repairable);
    } else {
      ChecksRefused(res);
      SubmitKeeps(d, t, res.commit.value, ChecksOf(res));
      var submitted := SubmitResult(d, t, d.tasks[t].attemptId, res.commit.value, ChecksOf(res));
      if submitted.Ok? {
        if res.ok {
          VerdictSettles(submitted.value, t);
        } else {
          StickSettles(submitted.value, t, ReasonOf(res), repairable);
        }
      }
    }
  }

  /**
   * A running attempt settles exactly one way, whether or not its plan moved on meanwhile; a result is
   * refused only for blank text, and then the attempt is at most finished, never accepted.
   */
  lemma RecordSettles(d: Doc, res: WorkerResult, repairable: string -> bool)
    requires Coherent(d) && Runs(d, res.task)
    ensures
      var (e, err) := Record(d, res, repairable);
      && Coherent(e) && OnlyTouches(d, e, res.task)
      && (err.None? ==> Settled(d, d.tasks[res.task], e.tasks[res.task], res.ok && HasCommit(res)))
      && (err.Some? ==> BlankText(res) && !e.tasks[res.task].accepted)
  {
    hide RecordWork, NoteThread, BlankText, HasCommit;
    var t := res.task;
    if res.thread.Some? {
      NoteKeeps(d, t, res);
    }
    var noted := if res.thread.Some? then Done(d, NoteThread(d, t, d.tasks[t].attemptId, res.thread.value, None)) else d;
    RecordWorkSettles(noted, res, repairable);
  }

  /**
   * A worker's outcome is persisted as the worker reported it, unless a text is blank: then the attempt is
   * left running, or finished with the work handed in.
   */
  lemma RecordReports(d: Doc, res: WorkerResult, repairable: string -> bool)
    requires Coherent(d) && Runs(d, res.task)
    ensures
      var (e, err) := Record(d, res, repairable);
      && res.task in e.tasks && (err.Some? <==> BlankText(res))
      && (err.None? ==> AsReported(d, d.tasks[res.task], e.tasks[res.task], res, repairable))
      && (err.Some? ==>
            var running := Threaded(d.tasks[res.task], res);
            e.tasks[res.task] == running || e.tasks[res.task] == WithWork(running, res))
  {
    hide RecordWork, BlankText, HasCommit, AttemptId, WithWork, FailureEnds, History.Legal;
    var t := res.task;
    var noted := if res.thread.Some? then Done(d, NoteThread(d, t, d.tasks[t].attemptId, res.thread.value, None)) else d;
    RecordWorkReports(noted, res, repairable);
    SameElsewhere(d, noted, WithWork(Threaded(d.tasks[t], res), res), Record(d, res, repairable).0.tasks[t], ReasonOf(res), repairable);
  }
}
