/** When each ledger operation is carried out, what it writes down, and that what a worker reported stays. */
module Transitions {
  import opened Common
  import opened Text
  import opened Ledger
  import opened History

  // -- when an operation is carried out ---------------------------------------------------------

  ghost predicate SomeBlank(lines: seq<string>) {
    exists k :: 0 <= k < |lines| && Blank(lines[k])
  }

  /** Every line cleaned, in order. */
  ghost predicate CleanedTo(lines: seq<string>, kept: seq<string>) {
    |kept| == |lines| && forall k :: 0 <= k < |lines| ==> Clean(lines[k]) == Some(kept[k])
  }

  lemma {:induction false} CleanAllReads(lines: seq<string>)
    ensures CleanAll(lines).None? <==> SomeBlank(lines)
    ensures CleanAll(lines).Some? ==> CleanedTo(lines, CleanAll(lines).value)
  {
    hide Clean, Blank;
    if lines != [] {
      CleanRefusesBlank(lines[0]);
      CleanAllReads(lines[1..]);
      if k :| 1 <= k < |lines| && Blank(lines[k]) {
        assert lines[1..][k - 1] == lines[k];
      }
      forall k | CleanAll(lines).Some? && 1 <= k < |lines| ensures Clean(lines[k]) == Some(CleanAll(lines).value[k]) {
        assert lines[1..][k - 1] == lines[k];
      }
    }
  }

  ghost predicate TextMissing(op: Op) {
    match op
    case Submit(_, _, commit, checks) => Blank(commit) || SomeBlank(checks)
    case Review(_, _, verdict, _) => Blank(verdict)
    case CountRepair(_, _, reason) => Blank(reason)
    case Block(_, reason) => Blank(reason)
    case Rework(_, reason) => Blank(reason)
    case _ => false
  }

  predicate Settled(r: Attempt) {
    r.status.Finished? || r.status.Accepted?
  }

  /** The record is in a state the operation can start from. */
  predicate StatusFits(r: Attempt, op: Op) {
    match op
    case Begin(_) => r.status.Pending?
    case Submit(_, _, _, _) => r.status.Running? || Settled(r)
    case Review(_, _, _, _) => Settled(r)
    case Accept(_, _) => Settled(r)
    case Block(_, _) => !r.status.Accepted?
    case Retry(_) => !r.status.Running?
    case Repair(_) => r.status.Blocked?
    case Rework(_, _) => !r.status.Running?
    case _ => true
  }

  ghost predicate SameReport(r: Attempt, op: Op)
    requires op.Submit?
  {
    r.commit == Clean(op.commit) && CleanedTo(op.checks, r.checks)
  }

  /** What keeps an operation from being carried out; one that is not listed is. */
  ghost predicate Hinders(d: Doc, op: Op, why: Refusal)
    requires Coherent(d) && !op.SyncPlan?
  {
    match why
    case NoSuchTask => op.task !in d.tasks
    case StaleAttempt => op.task in d.tasks && IsReport(op) && op.attempt != d.tasks[op.task].attemptId
    case EmptyText => TextMissing(op)
    case WrongStatus => op.task in d.tasks && !StatusFits(d.tasks[op.task], op)
    case AlreadyFinished => op.task in d.tasks && op.Submit? && Settled(d.tasks[op.task]) && !SameReport(d.tasks[op.task], op)
    case OldPlanVersion => op.task in d.tasks && op.Accept? && d.tasks[op.task].status.Finished?
      && d.tasks[op.task].planVersion != d.versions[d.tasks[op.task].planId]
    case BudgetSpent => op.task in d.tasks && op.Repair? && d.tasks[op.task].lineageRepairs >= 1
  }

  /** An operation asks for nothing new: the same report again, work accepted already, a thread archived or not known. */
  ghost predicate Repeats(r: Attempt, op: Op) {
    match op
    case Submit(_, _, _, _) => Settled(r)
    case Accept(_, _) => r.status.Accepted?
    case Archive(_, thread) => (thread.None? || thread.value !in r.earlierThreads) && (r.archived || (thread.Some? && thread != r.thread))
    case _ => false
  }

  lemma SameReportIs(r: Attempt, op: Op)
    requires op.Submit? && !TextMissing(op)
    ensures Clean(op.commit).Some? && CleanAll(op.checks).Some? && CleanedTo(op.checks, CleanAll(op.checks).value)
    ensures SameReport(r, op) <==> r.commit == Clean(op.commit) && r.checks == CleanAll(op.checks).value
  {
    hide Clean, CleanAll, Blank;
    CleanRefusesBlank(op.commit);
    CleanAllReads(op.checks);
    var kept := CleanAll(op.checks).value;
    if SameReport(r, op) {
      assert forall k :: 0 <= k < |kept| ==> kept[k] == r.checks[k];
      assert kept == r.checks;
    }
  }

  lemma TextsRead(op: Op)
    ensures op.Submit? ==> (TextMissing(op) <==> Clean(op.commit).None? || CleanAll(op.checks).None?)
    ensures op.Review? ==> (TextMissing(op) <==> ReviewLine(op.verdict, op.notes).None?)
    ensures op.CountRepair? || op.Block? || op.Rework? ==> (TextMissing(op) <==> Clean(op.reason).None?)
  {
    hide Clean, CleanAll, Blank, ReviewLine;
    match op {
      case Submit(_, _, commit, checks) =>
        CleanRefusesBlank(commit);
        CleanAllReads(checks);
      case Review(_, _, verdict, notes) => ReviewLineReads(verdict, notes);
      case CountRepair(_, _, reason) => CleanRefusesBlank(reason);
      case Block(_, reason) => CleanRefusesBlank(reason);
      case Rework(_, reason) => CleanRefusesBlank(reason);
      case _ =>
    }
  }

  lemma HindranceStops(d: Doc, op: Op, why: Refusal)
    requires Coherent(d) && !op.SyncPlan? && Hinders(d, op, why)
    ensures Apply(d, op).Err?
  {
    hide Clean, CleanAll, Blank, ReviewLine, AttemptId, Ledger.Without, SameReport;
    TextsRead(op);
    if op.Submit? && op.task in d.tasks && !TextMissing(op) {
      SameReportIs(d.tasks[op.task], op);
    }
  }

  lemma RefusalIsHindrance(d: Doc, op: Op)
    requires Coherent(d) && !op.SyncPlan? && Apply(d, op).Err?
    ensures Hinders(d, op, Apply(d, op).error)
  {
    hide Clean, CleanAll, Blank, ReviewLine, AttemptId, Ledger.Without, SameReport;
    TextsRead(op);
    if op.Submit? && op.task in d.tasks && !TextMissing(op) {
      SameReportIs(d.tasks[op.task], op);
    }
  }

  /**
   * An operation is carried out if and only if nothing hinders it, and a refusal names a hindrance. It then
   * leaves the ledger as it was if and only if it asked for nothing new.
   */
  lemma CarriedOutExactly(d: Doc, op: Op)
    requires Coherent(d) && !op.SyncPlan?
    ensures Apply(d, op).Ok? <==> forall why :: !Hinders(d, op, why)
    ensures Apply(d, op).Err? ==> Hinders(d, op, Apply(d, op).error)
    ensures Apply(d, op).Ok? ==> op.task in d.tasks && (Apply(d, op).value == d <==> Repeats(d.tasks[op.task], op))
  {
    forall why | Hinders(d, op, why) ensures Apply(d, op).Err? {
      HindranceStops(d, op, why);
    }
    if Apply(d, op).Err? {
      RefusalIsHindrance(d, op);
    }
    hide Clean, CleanAll, Blank, ReviewLine, AttemptId, Ledger.Without, SameReport, Hinders;
  }

  /** Of several hindrances an unknown task comes first, then a superseded attempt, then what the operation looks at first. */
  lemma FirstHindrance(d: Doc, op: Op)
    requires Coherent(d) && !op.SyncPlan?
    ensures Hinders(d, op, NoSuchTask) ==> Apply(d, op) == Err(NoSuchTask)
    ensures Hinders(d, op, StaleAttempt) ==> Apply(d, op) == Err(StaleAttempt)
    ensures !Hinders(d, op, NoSuchTask) && !Hinders(d, op, StaleAttempt) && Hinders(d, op, WrongStatus) ==>
      Apply(d, op) == Err(if op.Submit? && TextMissing(op) then EmptyText else WrongStatus)
  {
    hide Clean, CleanAll, Blank, ReviewLine, AttemptId, Ledger.Without, SameReport;
    TextsRead(op);
  }

  // -- what it writes down -------------------------------------------------------------------------

  /** What the record says afterwards is what the operation said. */
  ghost predicate SaysSo(r: Attempt, s: Attempt, op: Op) {
    match op
    case Submit(_, _, commit, checks) => s.commit == Clean(commit) && CleanedTo(checks, s.checks)
    case Review(_, _, verdict, notes) => ReviewLine(verdict, notes).Some? && s.review == r.review + [ReviewLine(verdict, notes).value]
    case CountRepair(_, _, reason) => s.reason == Clean(reason)
    case Block(_, reason) => s.reason == Clean(reason)
    case Rework(_, reason) => s.reworkReason == Clean(reason)
    case Thread(_, _, thread, base) =>
      s.thread == Some(thread) && s.baseCommit == if base.Some? && base.value != "" then base else r.baseCommit
    case Archive(_, thread) =>
      if thread.Some? && thread.value in r.earlierThreads then
        s.archived == r.archived && forall x :: x in s.earlierThreads <==> x in r.earlierThreads && x != thread.value
      else s.archived && s.earlierThreads == r.earlierThreads
    case _ => true
  }

  lemma {:induction false} WithoutLeavesOthers(threads: seq<int>, thread: int)
    ensures forall x :: x in Ledger.Without(threads, thread) <==> x in threads && x != thread
  {
    if threads != [] {
      WithoutLeavesOthers(threads[1..], thread);
    }
  }

  lemma SubmissionSaysSo(d: Doc, op: Op)
    requires Coherent(d) && op.Submit? && Apply(d, op).Ok? && Apply(d, op).value != d
    ensures op.task in d.tasks && op.task in Apply(d, op).value.tasks
    ensures SaysSo(d.tasks[op.task], Apply(d, op).value.tasks[op.task], op)
  {
    hide Clean, CleanAll;
    CleanAllReads(op.checks);
  }

  lemma ArchivingSaysSo(d: Doc, op: Op)
    requires Coherent(d) && op.Archive? && Apply(d, op).Ok? && Apply(d, op).value != d
    ensures op.task in d.tasks && op.task in Apply(d, op).value.tasks
    ensures SaysSo(d.tasks[op.task], Apply(d, op).value.tasks[op.task], op)
  {
    WithoutLeavesOthers(d.tasks[op.task].earlierThreads, if op.thread_.Some? then op.thread_.value else 0);
    hide Ledger.Without;
  }

  lemma OthersSaySo(d: Doc, op: Op)
    requires Coherent(d) && !op.SyncPlan? && !op.Submit? && !op.Archive? && Apply(d, op).Ok? && Apply(d, op).value != d
    ensures op.task in d.tasks && op.task in Apply(d, op).value.tasks
    ensures SaysSo(d.tasks[op.task], Apply(d, op).value.tasks[op.task], op)
  {
    hide Clean, ReviewLine, AttemptId;
  }

  /**
   * A change is of the operation's own kind, touches only what that kind may touch, and what it writes down
   * is what the operation said.
   */
  lemma WritesWhatWasSaid(d: Doc, op: Op)
    requires Coherent(d) && !op.SyncPlan? && Apply(d, op).Ok? && Apply(d, op).value != d
    ensures op.task in d.tasks && op.task in Apply(d, op).value.tasks
    ensures
      var (r, s) := (d.tasks[op.task], Apply(d, op).value.tasks[op.task]);
      && Apply(d, op).value == Put(d, s, KindOf(op)) && Legal(d, r, s, KindOf(op)) && SaysSo(r, s, op)
  {
    hide Apply, Legal, SaysSo, KindOf;
    var s, c := ApplyIsLegal(d, op);
    if op.Submit? {
      SubmissionSaysSo(d, op);
    } else if op.Archive? {
      ArchivingSaysSo(d, op);
    } else {
      OthersSaySo(d, op);
    }
  }

  lemma ReportIsRecorded(d: Doc, report: Op)
    requires Coherent(d) && report.Submit? && Apply(d, report).Ok?
    ensures report.task in d.tasks && report.task in Apply(d, report).value.tasks
    ensures
      var (r, s) := (d.tasks[report.task], Apply(d, report).value.tasks[report.task]);
      && s.number == r.number && s.attemptId == report.attempt && Settled(s)
      && s.commit == Clean(report.commit) && CleanAll(report.checks) == Some(s.checks)
  {
    hide Clean, CleanAll;
  }

  /**
   * What a worker reported is what the build keeps: as long as the task gets no new attempt, and whatever
   * else happens, the record has the commit and the checks of the report, cleaned and in order.
   */
  lemma {:induction false} ReportedWorkStays(d: Doc, born: set<Id>, report: Op, ops: seq<Op>, e: Doc)
    requires Coherent(d) && LogTrue(d, born) && report.Submit? && Apply(d, report).Ok?
    requires Leads(Apply(d, report).value, ops, e)
    ensures report.task in d.tasks && report.task in e.tasks
    ensures
      var (r, s) := (d.tasks[report.task], e.tasks[report.task]);
      s.number == r.number ==> s.commit == Clean(report.commit) && CleanedTo(report.checks, s.checks)
  {
    hide Apply, LogTrue, Leads, Clean, CleanAll, CleanedTo;
    var f := Apply(d, report).value;
    ReportIsRecorded(d, report);
    CleanAllReads(report.checks);
    AfterKeeps(d, born, report);
    HistoryKeeps(f, born, ops, e);
    assert Advances(f.tasks[report.task], e.tasks[report.task]);
  }

  /** The same report again is taken and changes nothing; one that says anything else is refused. */
  lemma ReportsAreFinal(d: Doc, report: Op, again: Op)
    requires Coherent(d) && report.Submit? && again.Submit? && again.task == report.task && again.attempt == report.attempt
    requires Apply(d, report).Ok? && !TextMissing(again)
    ensures
      var e := Apply(d, report).value;
      && Coherent(e)
      && Apply(e, again) ==
         if Clean(again.commit) == Clean(report.commit) && CleanAll(again.checks) == CleanAll(report.checks) then Ok(e)
         else Err(AlreadyFinished)
  {
    hide Clean, CleanAll, Blank;
    ReportIsRecorded(d, report);
    TextsRead(again);
  }
}
