/**
 * The build loop's writes to the mutable ledger: starting what is ready and recording what finished.
 * What workers answer, and which of them finishes first, is arbitrary.
 */
module LoopSteps {
  import opened Common
  import opened Plan
  import opened Text
  import opened Ledger
  import History
  import opened PlanEdits
  import opened BuildStates
  import opened Schedule
  import opened ManifestSteps
  import opened ManifestLoop
  import opened Courses
  import opened Answers
  import opened LoopRuns

  // -- the outside world ---------------------------------------------------------------

  /** Some workers finish; which ones is up to them. */
  method FirstCompleted(inFlight: set<Id>) returns (done: set<Id>)
    requires inFlight != {}
    ensures done != {} && done <= inFlight
  {
    var t :| t in inFlight;
    done := *;
    done := done * inFlight + {t};
  }

  // -- recording a result -----------------------------------------------------------------

  method StickTask(state: BuildState, t: Id, reason: string, repairable: string -> bool) returns (refusal: Option<Refusal>)
    requires state.Valid()
    modifies state`tasks, state`events
    ensures state.Valid() && (state.Document(), refusal) == Stick(old(state.Document()), t, reason, repairable)
  {
    var blocked := state.Block(t, reason);
    if blocked.Err? {
      return Some(blocked.error);
    }
    if repairable(reason) && state.tasks[t].lineageRepairs < MAX_AUTO_REPAIRS {
      var repaired := state.Repair(t);
    }
    refusal := None;
  }

  method RecordManifestResult(state: BuildState, res: WorkerResult, repairable: string -> bool)
    returns (refusal: Option<Refusal>)
    requires state.Valid()
    modifies state`tasks, state`events
    ensures state.Valid() && (state.Document(), refusal) == Record(old(state.Document()), res, repairable)
  {
    hide Clean, CleanAll, Stick;
    var t := res.task;
    if t !in state.tasks {
      return None;
    }
    var attempt := state.tasks[t].attemptId;
    if res.thread.Some? {
      var noted := state.NoteThread(t, attempt, res.thread.value, None);
    }
    if !HasCommit(res) {
      refusal := StickTask(state, t, ReasonOf(res), repairable);
      return;
    }
    var submitted := state.SubmitResult(t, attempt, res.commit.value, ChecksOf(res));
    if submitted.Err? {
      return Some(submitted.error);
    }
    if !res.ok {
      refusal := StickTask(state, t, ReasonOf(res), repairable);
      return;
    }
    var accepted := state.Accept(t, attempt);
    if accepted.Ok? {
      return None;
    }
    var reworked := state.Rework(t, PLAN_CHANGED);
    refusal := if reworked.Ok? then None else Some(reworked.error);
  }

  // -- starting what is ready ----------------------------------------------------------------

  /** The tasks still to be started can join everything started so far. */
  ghost predicate CanFollow(d: Doc, tree: Tree, inFlight: set<Id>, rest: seq<Id>)
    requires Coherent(d)
  {
    && (forall k :: 0 <= k < |rest| ==>
          && Known(tree.tasks, rest[k]) && rest[k] !in inFlight && rest[k] in d.tasks
          && d.tasks[rest[k]].status.Pending? && Released(d, TaskOf(tree.tasks, rest[k]).value.deps))
    && (forall k, o :: 0 <= k < |rest| && o in inFlight ==> CanRunTogether(tree, rest[k], o))
    && (forall k, l :: 0 <= l < k < |rest| ==> CanRunTogether(tree, rest[k], rest[l]))
  }

  lemma ReadyCanFollow(d: Doc, tree: Tree, inFlight: set<Id>, ready: seq<Id>)
    requires Coherent(d) && DistinctTasks(tree.tasks) && SoundChoice(d, tree, inFlight, ready)
    requires forall o :: o in inFlight ==> Known(tree.tasks, o)
    ensures CanFollow(d, tree, inFlight, ready)
  {
    hide CanRunTogether, TaskOf, Released;
    forall k, l | 0 <= l < k < |ready| ensures CanRunTogether(tree, ready[k], ready[l]) {
      assert ready[..k][l] == ready[l];
    }
  }

  lemma FollowAfterStart(d: Doc, e: Doc, tree: Tree, inFlight: set<Id>, rest: seq<Id>)
    requires Coherent(d) && Coherent(e) && rest != [] && CanFollow(d, tree, inFlight, rest)
    requires OnlyTouches(d, e, rest[0]) && !d.tasks[rest[0]].accepted
    ensures CanFollow(e, tree, inFlight + {rest[0]}, rest[1..])
  {
    hide TaskOf;
    var left := rest[1..];
    forall k | 0 <= k < |left|
      ensures left[k] != rest[0] && left[k] in e.tasks && e.tasks[left[k]] == d.tasks[left[k]]
        && Released(e, TaskOf(tree.tasks, left[k]).value.deps) && CanRunTogether(tree, left[k], rest[0])
    {
      assert left[k] == rest[k + 1];
      assert CanRunTogether(tree, rest[k + 1], rest[0]);
      var deps := TaskOf(tree.tasks, left[k]).value.deps;
      forall c | 0 <= c < |deps| ensures Releases(e, deps[c]) {
        assert Releases(d, deps[c]);
      }
    }
    hide CanRunTogether;
    forall k, o | 0 <= k < |left| && o in inFlight + {rest[0]} ensures CanRunTogether(tree, left[k], o) {
      assert left[k] == rest[k + 1];
    }
    forall k, l | 0 <= l < k < |left| ensures CanRunTogether(tree, left[k], left[l]) {
      assert left[k] == rest[k + 1] && left[l] == rest[l + 1];
    }
  }

  function Begins(tasks: seq<Id>): (ops: seq<History.Op>)
    ensures |ops| == |tasks|
  {
    seq(|tasks|, k requires 0 <= k < |tasks| => History.Begin(tasks[k]))
  }

  function Members(tasks: seq<Id>): set<Id> {
    set t | t in tasks
  }

  lemma OneMore(tasks: seq<Id>, i: nat)
    requires i < |tasks|
    ensures Members(tasks[..i + 1]) == Members(tasks[..i]) + {tasks[i]}
    ensures Begins(tasks[..i + 1]) == Begins(tasks[..i]) + [History.Begin(tasks[i])]
  {
    assert tasks[..i + 1] == tasks[..i] + [tasks[i]];
  }

  lemma NoneYet()
    ensures Members([]) == {} && Begins([]) == []
  {
  }

  /** The last write of a pass records something, so the next starts belong to the next pass. */
  predicate PassOver(ops: seq<History.Op>) {
    ops == [] || !ops[|ops| - 1].Begin?
  }

  // -- passes -------------------------------------------------------------------------------------

  /** Passes that started somebody, among the first i writes. */
  function Passes(ops: seq<History.Op>, i: nat): nat
    requires i <= |ops|
  {
    if i == 0 then 0
    else Passes(ops, i - 1) + if ops[i - 1].Begin? && (i == 1 || !ops[i - 2].Begin?) then 1 else 0
  }

  lemma {:induction false} PassesPrefix(a: seq<History.Op>, b: seq<History.Op>, i: nat)
    requires i <= |a|
    ensures Passes(a + b, i) == Passes(a, i)
  {
    if i > 0 {
      PassesPrefix(a, b, i - 1);
    }
  }

  /** The starts of one pass are counted once. */
  lemma {:induction false} PassesStart(ops: seq<History.Op>, tasks: seq<Id>)
    requires PassOver(ops) && tasks != []
    ensures Passes(ops + Begins(tasks), |ops| + |tasks|) == Passes(ops, |ops|) + 1
  {
    var n := |tasks| - 1;
    var more := ops + Begins(tasks);
    if n == 0 {
      PassesPrefix(ops, Begins(tasks), |ops|);
    } else {
      PassesStart(ops, tasks[..n]);
      assert more == ops + Begins(tasks[..n]) + [History.Begin(tasks[n])];
      PassesPrefix(ops + Begins(tasks[..n]), [History.Begin(tasks[n])], |ops| + n);
    }
  }

  predicate StartsNobody(ops: seq<History.Op>) {
    forall i :: 0 <= i < |ops| ==> !ops[i].Begin?
  }

  lemma {:induction false} PassesQuiet(ops: seq<History.Op>, more: seq<History.Op>)
    requires StartsNobody(more)
    ensures Passes(ops + more, |ops| + |more|) == Passes(ops, |ops|)
    decreases |more|
  {
    if more == [] {
      assert ops + more == ops;
    } else {
      var n := |more| - 1;
      PassesQuiet(ops, more[..n]);
      assert ops + more == ops + more[..n] + [more[n]];
      PassesPrefix(ops + more[..n], [more[n]], |ops| + n);
    }
  }

  /** Start everything that is ready: exactly these tasks take off, by exactly these ledger writes. */
  method StartReady(state: BuildState, ready: seq<Id>, inFlight0: set<Id>, world: World,
                    ghost d0: Doc, ghost start: nat, ghost ops0: seq<History.Op>)
    returns (inFlight: set<Id>, ghost ops: seq<History.Op>)
    requires state.Valid() && DistinctTasks(state.tree.tasks) && PassOver(ops0)
    requires OnTrack(d0, state.Document(), state.tree, inFlight0, start, ops0, world)
    requires CanFollow(state.Document(), state.tree, inFlight0, ready)
    requires |inFlight0| + |ready| <= Max(1, world.capacity(|state.events|)) && (ready != [] ==> !world.stops(|state.events|))
    modifies state`tasks, state`events
    ensures state.Valid() && OnTrack(d0, state.Document(), state.tree, inFlight, start, ops, world)
    ensures inFlight == inFlight0 + Members(ready) && ops == ops0 + Begins(ready)
    ensures Passes(ops, |ops|) == Passes(ops0, |ops0|) + if ready == [] then 0 else 1
    ensures TookOff(old(state.Document()), state.Document(), ready)
    ensures Total(state.tasks, state.tree.tasks, Weight) <= Total(old(state.tasks), state.tree.tasks, Weight)
    ensures Total(state.tasks, state.tree.tasks, StartsLeft) + |ready| <= Total(old(state.tasks), state.tree.tasks, StartsLeft)
  {
    hide OnTrack, Total, CanFollow, PassLog, Members, Begins, TookOff, Passes, PassOver, DistinctTasks, Coherent, At, Tracked, Safe,
      History.Leads;
    OnTrackFacts(d0, state.Document(), state.tree, inFlight0, start, ops0, world);
    PassBegins(d0, ops0);
    LogHere(state);
    NoneYet();
    NobodyTookOff(state.Document());
    inFlight, ops := inFlight0, ops0;
    for i := 0 to |ready|
      invariant state.Valid() && OnTrack(d0, state.Document(), state.tree, inFlight, start, ops, world)
      invariant CanFollow(state.Document(), state.tree, inFlight, ready[i..])
      invariant inFlight == inFlight0 + Members(ready[..i]) && ops == ops0 + Begins(ready[..i])
      invariant |inFlight| <= |inFlight0| + i
      invariant PassLog(d0, ops, |ops|) == |old(state.events)|
      invariant TookOff(old(state.Document()), state.Document(), ready[..i])
      invariant Total(state.tasks, state.tree.tasks, Weight) <= Total(old(state.tasks), state.tree.tasks, Weight)
      invariant Total(state.tasks, state.tree.tasks, StartsLeft) + i <= Total(old(state.tasks), state.tree.tasks, StartsLeft)
    {
      assert ready[i..][0] == ready[i] && ready[i..][1..] == ready[i + 1..];
      OneMore(ready, i);
      StartOne(state, ready[i..], inFlight, world, d0, start, ops, old(state.Document()), ready[..i]);
      assert ready[..i] + [ready[i]] == ready[..i + 1];
      PassGoesOn(d0, ops, ready[i]);
      inFlight := inFlight + {ready[i]};
      ops := ops + [History.Begin(ready[i])];
    }
    assert ready[..|ready|] == ready;
    if ready != [] {
      PassesStart(ops0, ready);
    } else {
      assert ops == ops0;
    }
  }

  lemma LogHere(state: BuildState)
    ensures state.Document().events == state.events
  {
  }

  /** Start the next ready task; `first` is the ledger before the starts of this pass. */
  method StartOne(state: BuildState, rest: seq<Id>, inFlight: set<Id>, ghost world: World,
                  ghost d0: Doc, ghost start: nat, ghost ops: seq<History.Op>, ghost first: Doc, ghost before: seq<Id>)
    requires state.Valid() && DistinctTasks(state.tree.tasks) && rest != []
    requires OnTrack(d0, state.Document(), state.tree, inFlight, start, ops, world)
    requires CanFollow(state.Document(), state.tree, inFlight, rest) && TookOff(first, state.Document(), before)
    requires |inFlight| < Max(1, world.capacity(PassLog(d0, ops, |ops|))) && !world.stops(PassLog(d0, ops, |ops|))
    modifies state`tasks, state`events
    ensures state.Valid()
    ensures OnTrack(d0, state.Document(), state.tree, inFlight + {rest[0]}, start, ops + [History.Begin(rest[0])], world)
    ensures CanFollow(state.Document(), state.tree, inFlight + {rest[0]}, rest[1..])
    ensures TookOff(first, state.Document(), before + [rest[0]])
    ensures Total(state.tasks, state.tree.tasks, Weight) <= Total(old(state.tasks), state.tree.tasks, Weight)
    ensures Total(state.tasks, state.tree.tasks, StartsLeft) + 1 <= Total(old(state.tasks), state.tree.tasks, StartsLeft)
  {
    hide OnTrack, Total, CanFollow, Begin, PassLog, Weight, StartsLeft, DistinctTasks, OnlyTouches, TookOff;
    ghost var d := state.Document();
    OnTrackStart(d0, d, state.tree, inFlight, start, ops, world, rest);
    var record := state.Begin(rest[0]);
    OneMoreTookOff(first, d, state.Document(), before, rest[0]);
    FollowAfterStart(d, state.Document(), state.tree, inFlight, rest);
  }

  /** After a finished pass the limit is read on the ledger as it stands. */
  lemma {:induction false} PassBegins(d0: Doc, ops: seq<History.Op>)
    requires PassOver(ops)
    ensures PassLog(d0, ops, |ops|) == |At(d0, ops, |ops|).events|
  {
  }

  /** A further start of the same pass keeps to what was already read. */
  lemma PassGoesOn(d0: Doc, ops: seq<History.Op>, t: Id)
    ensures PassLog(d0, ops + [History.Begin(t)], |ops| + 1) == PassLog(d0, ops, |ops|)
  {
    PassLogMore(d0, ops, History.Begin(t), |ops|);
  }

  lemma OnTrackStart(d0: Doc, d: Doc, tree: Tree, inFlight: set<Id>, start: nat, ops: seq<History.Op>, world: World,
                     rest: seq<Id>)
    requires OnTrack(d0, d, tree, inFlight, start, ops, world) && DistinctTasks(tree.tasks) && Coherent(d)
    requires rest != [] && CanFollow(d, tree, inFlight, rest)
    requires |inFlight| < Max(1, world.capacity(PassLog(d0, ops, |ops|))) && !world.stops(PassLog(d0, ops, |ops|))
    ensures
      var t, result := rest[0], Begin(d, rest[0]);
      && t in d.tasks && !d.tasks[t].accepted && result.Ok? && OnlyTouches(d, result.value, t)
      && d.tasks[t].status.Pending? && result.value.tasks[t] == JustBegun(d.tasks[t])
      && OnTrack(d0, result.value, tree, inFlight + {t}, start, ops + [History.Begin(t)], world)
      && Total(result.value.tasks, tree.tasks, Weight) < Total(d.tasks, tree.tasks, Weight)
      && Total(result.value.tasks, tree.tasks, StartsLeft) < Total(d.tasks, tree.tasks, StartsLeft)
  {
    assert Settledly(d.tasks[rest[0]]) by {
      hide CanRunTogether, Flying, Tracked, Released, Honest, NoneFinished;
    }
    hide OnTrack, Total, Begin, CanRunTogether, Released, Known, PassLog;
    StartOnTrack(d0, d, tree, inFlight, start, ops, world, rest[0]);
    BeginTouches(d, rest[0]);
  }

  // -- recording what finished ----------------------------------------------------------------

  /** Record everyone who finished: unless a result is refused, exactly they leave flight. */
  method CollectDone(state: BuildState, done: set<Id>, inFlight0: set<Id>, world: World,
                     ghost d0: Doc, ghost start: nat, ghost ops0: seq<History.Op>)
    returns (inFlight: set<Id>, refusal: Option<Refusal>, ghost ops: seq<History.Op>)
    requires state.Valid() && DistinctTasks(state.tree.tasks) && done <= inFlight0 && done != {}
    requires OnTrack(d0, state.Document(), state.tree, inFlight0, start, ops0, world)
    modifies state`tasks, state`events
    ensures state.Valid() && Tracked(d0, state.Document(), state.tree, start, ops, world)
    ensures Passes(ops, |ops|) == Passes(ops0, |ops0|) && ops0 <= ops
    ensures refusal.None? ==>
      && inFlight == inFlight0 - done && PassOver(ops) && Recorded(old(state.Document()), state.Document(), done, world)
      && OnTrack(d0, state.Document(), state.tree, inFlight, start, ops, world)
      && Total(state.tasks, state.tree.tasks, Weight) < Total(old(state.tasks), state.tree.tasks, Weight)
      && Total(state.tasks, state.tree.tasks, StartsLeft) <= Total(old(state.tasks), state.tree.tasks, StartsLeft)
    ensures refusal.Some? ==> !Tidy(world)
  {
    hide *;
    inFlight, ops := inFlight0, ops0;
    InFlightRuns(d0, state.Document(), state.tree, inFlight, start, ops, world);
    NothingRecorded(state.Document(), world);
    NothingFalls(state.tasks, state.tree.tasks);
    var left := done;
    ghost var recorded: set<Id> := {};
    while left != {}
      invariant left !! recorded && left + recorded == done && inFlight == inFlight0 - recorded && state.Valid()
      invariant OnTrack(d0, state.Document(), state.tree, inFlight, start, ops, world)
      invariant Passes(ops, |ops|) == Passes(ops0, |ops0|) && ops0 <= ops
      invariant Recorded(old(state.Document()), state.Document(), recorded, world)
      invariant Falls(old(state.tasks), state.tasks, state.tree.tasks, recorded != {}) && (recorded != {} ==> PassOver(ops))
      decreases left
    {
      var t :| t in left;
      ghost var tasks := state.tasks;
      refusal, ops := RecordOne(state, t, inFlight, world, d0, start, ops, old(state.Document()), recorded);
      if refusal.Some? {
        return;
      }
      FallsOn(old(state.tasks), tasks, state.tasks, state.tree.tasks, recorded != {});
      left, inFlight, recorded := left - {t}, inFlight - {t}, recorded + {t};
    }
    refusal := None;
    OnTrackFacts(d0, state.Document(), state.tree, inFlight, start, ops, world);
    FallsMeans(old(state.tasks), state.tasks, state.tree.tasks);
  }

  /** From a to b the measure has not risen, and has fallen if something was recorded; no start was given back. */
  ghost predicate Falls(a: map<Id, Attempt>, b: map<Id, Attempt>, tasks: seq<Task>, strictly: bool) {
    && Total(b, tasks, Weight) + (if strictly then 1 else 0) <= Total(a, tasks, Weight)
    && Total(b, tasks, StartsLeft) <= Total(a, tasks, StartsLeft)
  }

  lemma NothingFalls(a: map<Id, Attempt>, tasks: seq<Task>)
    ensures Falls(a, a, tasks, false)
  {
    hide Total;
  }

  lemma FallsOn(a: map<Id, Attempt>, b: map<Id, Attempt>, c: map<Id, Attempt>, tasks: seq<Task>, strictly: bool)
    requires Falls(a, b, tasks, strictly) && Falls(b, c, tasks, true)
    ensures Falls(a, c, tasks, true)
  {
    hide Total;
  }

  lemma {:induction false} FallsMeans(a: map<Id, Attempt>, b: map<Id, Attempt>, tasks: seq<Task>)
    requires Falls(a, b, tasks, true)
    ensures Total(b, tasks, Weight) < Total(a, tasks, Weight) && Total(b, tasks, StartsLeft) <= Total(a, tasks, StartsLeft)
  {
    hide Total;
  }

  /** Record the answer of one worker in flight; `first` is the ledger before the answers of this pass. */
  method RecordOne(state: BuildState, t: Id, inFlight: set<Id>, world: World, ghost d0: Doc, ghost start: nat,
                   ghost ops0: seq<History.Op>, ghost first: Doc, ghost before: set<Id>)
    returns (refusal: Option<Refusal>, ghost ops: seq<History.Op>)
    requires state.Valid() && DistinctTasks(state.tree.tasks) && t in inFlight && t !in before
    requires OnTrack(d0, state.Document(), state.tree, inFlight, start, ops0, world)
    requires Coherent(first) && Recorded(first, state.Document(), before, world)
    modifies state`tasks, state`events
    ensures state.Valid() && Tracked(d0, state.Document(), state.tree, start, ops, world)
    ensures Passes(ops, |ops|) == Passes(ops0, |ops0|) && ops0 <= ops
    ensures refusal.None? ==>
      && PassOver(ops) && Recorded(first, state.Document(), before + {t}, world)
      && OnTrack(d0, state.Document(), state.tree, inFlight - {t}, start, ops, world)
      && Falls(old(state.tasks), state.tasks, state.tree.tasks, true)
    ensures refusal.Some? ==> !Tidy(world)
  {
    hide OnTrack, Total, Record, RecordOps, Tracked, Tidy, Passes, Recorded, AsReported, PassOver, DistinctTasks, OnlyTouches, Coherent;
    ghost var d := state.Document();
    InFlightRuns(d0, d, state.tree, inFlight, start, ops0, world);
    var res := AnswerOf(world, state.Document(), t);
    OnTrackRecord(d0, d, state.tree, inFlight, start, ops0, world, res);
    refusal := RecordManifestResult(state, res, world.repairable);
    ops := ops0 + RecordOps(d, res, world.repairable);
    if refusal.None? {
      OneMoreRecorded(first, d, state.Document(), before, world, t);
    }
  }

  lemma {:induction false} OnTrackFacts(d0: Doc, d: Doc, tree: Tree, inFlight: set<Id>, start: nat, ops: seq<History.Op>, world: World)
    requires OnTrack(d0, d, tree, inFlight, start, ops, world)
    ensures Safe(d, tree, inFlight) && Tracked(d0, d, tree, start, ops, world)
    ensures History.Leads(d0, ops, d) && At(d0, ops, |ops|) == d
  {
  }

  lemma InFlightRuns(d0: Doc, d: Doc, tree: Tree, inFlight: set<Id>, start: nat, ops: seq<History.Op>, world: World)
    requires OnTrack(d0, d, tree, inFlight, start, ops, world)
    ensures Coherent(d) && forall t :: t in inFlight ==> t in d.tasks && Runs(d, t)
  {
    SafeIsCoherent(d, tree, inFlight);
  }

  /** Recording writes something, and nothing it writes is a start. */
  lemma {:induction false} CourseEnds(d: Doc, ops: seq<History.Op>, e: Doc, res: WorkerResult, repairable: string -> bool)
    requires Course(d, ops, e, res, repairable)
    ensures StartsNobody(ops) && (e != d ==> ops != [])
    decreases ops
  {
    hide History.After, OnlyTouches, AtCurrent, FromAnswer;
    if ops != [] {
      CourseEnds(History.After(d, ops[0]), ops[1..], e, res, repairable);
      assert ops == [ops[0]] + ops[1..];
    }
  }

  lemma {:induction false} RecordedQuietly(d: Doc, ops: seq<History.Op>, more: seq<History.Op>, e: Doc, res: WorkerResult, repairable: string -> bool)
    requires Course(d, more, e, res, repairable)
    ensures Passes(ops + more, |ops + more|) == Passes(ops, |ops|) && (e != d ==> PassOver(ops + more))
  {
    hide Course, Passes;
    CourseEnds(d, more, e, res, repairable);
    PassesQuiet(ops, more);
  }

  lemma UntidyAnswer(world: World, d: Doc, t: Id)
    requires t in d.tasks && BlankText(AnswerOf(world, d, t))
    ensures !Tidy(world)
  {
    hide Blank;
    assert BlankText(world.answers(t, d.tasks[t].number));
  }

  lemma {:induction false} OnTrackRecord(d0: Doc, d: Doc, tree: Tree, inFlight: set<Id>, start: nat, ops: seq<History.Op>, world: World,
                      res: WorkerResult)
    requires OnTrack(d0, d, tree, inFlight, start, ops, world) && DistinctTasks(tree.tasks) && Coherent(d)
    requires res.task in inFlight && res.task in d.tasks && res == AnswerOf(world, d, res.task)
    ensures
      var (e, err), t, more := Record(d, res, world.repairable), res.task, ops + RecordOps(d, res, world.repairable);
      && Tracked(d0, e, tree, start, more, world) && Passes(more, |more|) == Passes(ops, |ops|) && OnlyTouches(d, e, t)
      && (err.None? ==>
            && OnTrack(d0, e, tree, inFlight - {t}, start, more, world) && PassOver(more)
            && t in e.tasks && AsReported(d, d.tasks[t], e.tasks[t], res, world.repairable)
            && Total(e.tasks, tree.tasks, Weight) < Total(d.tasks, tree.tasks, Weight)
            && Total(e.tasks, tree.tasks, StartsLeft) <= Total(d.tasks, tree.tasks, StartsLeft))
      && (err.Some? ==> !Tidy(world))
  {
    hide Safe, Tracked, Total, Record, RecordOps, Course, Settled, AsReported, BlankText, SafePoint, Known, DistinctTasks, Tidy, Passes,
      PassOver;
    SafeIsCoherent(d, tree, inFlight);
    SafeIsSafePoint(d, tree, inFlight);
    RecordCourse(d, res, world.repairable);
    RecordSettles(d, res, world.repairable);
    RecordReports(d, res, world.repairable);
    var (e, err) := Record(d, res, world.repairable);
    var more := RecordOps(d, res, world.repairable);
    TrackCourse(d0, d, e, tree, start, ops, world, more, res);
    RecordedQuietly(d, ops, more, e, res, world.repairable);
    if err.None? {
      FinishOnTrack(d0, d, e, tree, inFlight, start, ops, world, Good(res), more, res);
    } else {
      UntidyAnswer(world, d, res.task);
    }
  }
}
