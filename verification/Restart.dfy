/** What the loop does first after a restart: salvage what interrupted workers saved, block the rest. */
module Restart {
  import opened Common
  import opened Plan
  import opened Text
  import opened Ledger
  import History
  import opened PlanEdits
  import opened BuildStates
  import opened ManifestSteps
  import opened ManifestLoop
  import opened Courses
  import opened LoopRuns

  // -- attempts a crash left running -------------------------------------------------------------

  const INTERRUPTED := "interrupted by a restart"
  const COMBINED_CHECK_FAILED := "combined check failed"

  /** What one ledger operation on t may do between restarts. */
  ghost predicate Brought(d: Doc, e: Doc, t: Id) {
    && Coherent(e) && OnlyTouches(d, e, t)
    && (NeedsCurrent(e.tasks[t].status) ==> e.tasks[t].planId in e.versions && e.tasks[t].planVersion == e.versions[e.tasks[t].planId])
    && Settledly(e.tasks[t])
  }

  lemma FirstLetterCounts(s: string)
    requires s != "" && !IsSpace(s[0])
    ensures Clean(s).Some?
  {
    CleanRefusesBlank(s);
  }

  lemma RestartTexts()
    ensures Clean(INTERRUPTED).Some? && Clean(COMBINED_CHECK_FAILED).Some? && Clean(PLAN_CHANGED).Some?
  {
    FirstLetterCounts(INTERRUPTED);
    FirstLetterCounts(COMBINED_CHECK_FAILED);
    PlanChangedIsText();
  }

  predicate BlankSaved(saved: Saved) {
    Blank(saved.commit) || exists k :: 0 <= k < |saved.checks| && Blank(saved.checks[k])
  }

  /** The attempt with what was saved of it. */
  function Handed(r: Attempt, saved: Saved): (s: Attempt)
    ensures s.planId == r.planId && s.planVersion == r.planVersion
  {
    r.(status := Finished, commit := Clean(saved.commit), checks := Kept(saved.checks), reason := None)
  }

  /** The verdict on finished work, with everything else of the record as it was. */
  ghost predicate VerdictIs(d: Doc, r: Attempt, s: Attempt, passed: bool)
    requires r.planId in d.versions
  {
    if !passed then s == r.(status := Blocked, reason := Clean(COMBINED_CHECK_FAILED))
    else if r.planVersion == d.versions[r.planId] then s == r.(status := Accepted, accepted := true)
    else History.Legal(d, r, s, Reworked) && s.reworkReason == Some(PLAN_CHANGED)
  }

  /** An interrupted attempt ended with just the commit and checks that were saved, and the verdict on them. */
  ghost predicate SavedAs(d: Doc, r: Attempt, s: Attempt, saved: Saved)
    requires r.planId in d.versions
  {
    !BlankSaved(saved) && VerdictIs(d, Handed(r, saved), s, saved.passed)
  }

  /** An interrupted attempt was blocked as such. */
  ghost predicate LeftAs(r: Attempt, s: Attempt) {
    s == r.(status := Blocked, reason := Clean(INTERRUPTED))
  }

  lemma VerdictElsewhere(d: Doc, e: Doc, r: Attempt, s: Attempt, passed: bool)
    requires d.versions == e.versions && d.build == e.build && r.planId in d.versions
    ensures VerdictIs(d, r, s, passed) == VerdictIs(e, r, s, passed)
  {
    hide AttemptId, Clean, History.KeepsThreads;
  }

  lemma SavedIsHandedIn(d: Doc, t: Id, saved: Saved)
    requires Coherent(d) && Runs(d, t)
    ensures
      var result := SubmitResult(d, t, d.tasks[t].attemptId, saved.commit, saved.checks);
      && (result.Err? <==> BlankSaved(saved))
      && (result.Ok? ==> t in result.value.tasks && result.value.tasks[t] == Handed(d.tasks[t], saved))
  {
    hide Clean, CleanAll, Blank;
    CleanRefusesBlank(saved.commit);
    CleanAllRefusesBlank(saved.checks);
  }

  method BlockInterrupted(state: BuildState, t: Id, reason: string, ghost tree: Tree) returns (ghost ops: seq<History.Op>)
    requires state.Valid() && t in Listed(state.Document(), tree) && !state.tasks[t].accepted && Clean(reason).Some?
    requires state.tasks[t].status.Running? || state.tasks[t].status.Finished?
    modifies state`tasks, state`events
    ensures state.Valid() && Brought(old(state.Document()), state.Document(), t)
    ensures Clearing(old(state.Document()), ops, state.Document(), tree)
    ensures t in state.tasks && state.tasks[t] == old(state.tasks[t]).(status := Blocked, reason := Clean(reason))
  {
    hide Clean, Clearing;
    ghost var d := state.Document();
    ops := [History.Block(t, reason)];
    OneClears(d, History.Block(t, reason), tree);
    var r := state.Block(t, reason);
  }

  /**
   * Keep what an interrupted worker had saved: accept it if it passed and its plan stands, send it round
   * again if only the plan moved on, block it otherwise. Only blank text is refused, and changes nothing.
   */
  method SalvageOne(state: BuildState, t: Id, saved: Saved, ghost tree: Tree) returns (failed: bool, ghost ops: seq<History.Op>)
    requires state.Valid() && t in Listed(state.Document(), tree) && Runs(state.Document(), t)
    modifies state`tasks, state`events
    ensures state.Valid() && Clearing(old(state.Document()), ops, state.Document(), tree)
    ensures failed <==> BlankSaved(saved)
    ensures failed ==> state.Document() == old(state.Document())
    ensures !failed ==>
      && Brought(old(state.Document()), state.Document(), t)
      && Settled(old(state.Document()), old(state.tasks[t]), state.tasks[t], saved.passed)
      && SavedAs(old(state.Document()), old(state.tasks[t]), state.tasks[t], saved)
  {
    hide Clean, CleanAll, AttemptId, Clearing, Blank, Settled, VerdictIs, Handed;
    ghost var d := state.Document();
    var attempt := state.tasks[t].attemptId;
    SubmitKeeps(d, t, saved.commit, saved.checks);
    SavedIsHandedIn(d, t, saved);
    var submitted := state.SubmitResult(t, attempt, saved.commit, saved.checks);
    failed := submitted.Err?;
    if failed {
      ops := [];
      NothingClears(d, tree);
      return;
    }
    ghost var e := state.Document();
    OneClears(d, History.Submit(t, attempt, saved.commit, saved.checks), tree);
    ghost var more := SettleSaved(state, t, saved.passed, tree);
    ClearingJoins(d, [History.Submit(t, attempt, saved.commit, saved.checks)], e, more, state.Document(), tree);
    ops := [History.Submit(t, attempt, saved.commit, saved.checks)] + more;
    SettledSince(d, e, t, state.tasks[t], saved.passed);
    VerdictElsewhere(d, e, e.tasks[t], state.tasks[t], saved.passed);
  }

  lemma {:induction false} NothingClears(d: Doc, tree: Tree)
    ensures Clearing(d, [], d, tree)
  {
  }

  lemma SettledSince(d: Doc, e: Doc, t: Id, s: Attempt, good: bool)
    requires Coherent(d) && OnlyTouches(d, e, t) && SameStanding(d.tasks[t], e.tasks[t])
    requires e.tasks[t].planId in e.versions && Settled(e, e.tasks[t], s, good)
    ensures Settled(d, d.tasks[t], s, good)
  {
  }

  lemma SettledIsBrought(d: Doc, e: Doc, t: Id, good: bool)
    requires Coherent(d) && Coherent(e) && OnlyTouches(d, e, t) && Settled(d, d.tasks[t], e.tasks[t], good)
    ensures Brought(d, e, t)
  {
  }

  /** The verdict on saved work that is now recorded as finished. */
  method SettleSaved(state: BuildState, t: Id, passed: bool, ghost tree: Tree) returns (ghost ops: seq<History.Op>)
    requires state.Valid() && t in Listed(state.Document(), tree) && !state.tasks[t].accepted
    requires state.tasks[t].status.Finished? && state.tasks[t].commit.Some?
    modifies state`tasks, state`events
    ensures state.Valid() && Clearing(old(state.Document()), ops, state.Document(), tree)
    ensures Brought(old(state.Document()), state.Document(), t)
    ensures Settled(old(state.Document()), old(state.tasks[t]), state.tasks[t], passed)
    ensures VerdictIs(old(state.Document()), old(state.tasks[t]), state.tasks[t], passed)
  {
    hide Clean, AttemptId, Clearing, Settled, Brought, Accept, Rework, OnlyTouches, History.Legal;
    RestartTexts();
    ghost var d := state.Document();
    VerdictSettles(d, t);
    GoodWorkReports(d, t);
    if !passed {
      ops := BlockInterrupted(state, t, COMBINED_CHECK_FAILED, tree);
      BlockedIsSettled(d, t, state.tasks[t]);
      return;
    }
    var attempt := state.tasks[t].attemptId;
    VerdictClears(d, t, tree);
    var accepted := state.Accept(t, attempt);
    if accepted.Ok? {
      ops := [History.Accept(t, attempt)];
    } else {
      ops := [History.Rework(t, PLAN_CHANGED)];
      var reworked := state.Rework(t, PLAN_CHANGED);
    }
    SettledIsBrought(d, state.Document(), t, true);
  }

  lemma BlockedIsSettled(d: Doc, t: Id, s: Attempt)
    requires Coherent(d) && t in d.tasks && !d.tasks[t].accepted
    requires s == d.tasks[t].(status := Blocked, reason := s.reason)
    ensures Settled(d, d.tasks[t], s, false)
  {
  }

  lemma {:induction false} VerdictClears(d: Doc, t: Id, tree: Tree)
    requires Coherent(d) && t in Listed(d, tree) && d.tasks[t].status.Finished? && !d.tasks[t].accepted
    ensures
      var accepted := Accept(d, t, d.tasks[t].attemptId);
      && (accepted.Ok? ==> Clearing(d, [History.Accept(t, d.tasks[t].attemptId)], accepted.value, tree))
      && (accepted.Err? ==>
            && Rework(d, t, PLAN_CHANGED).Ok?
            && Clearing(d, [History.Rework(t, PLAN_CHANGED)], Rework(d, t, PLAN_CHANGED).value, tree))
  {
    hide Clean, AttemptId, Clearing;
    RestartTexts();
    if Accept(d, t, d.tasks[t].attemptId).Ok? {
      OneClears(d, History.Accept(t, d.tasks[t].attemptId), tree);
    } else {
      OneClears(d, History.Rework(t, PLAN_CHANGED), tree);
    }
  }

  /** Between crash and restart a listed record is settled or still marked running. */
  ghost predicate Interrupted(d: Doc, tree: Tree) {
    && Coherent(d) && Honest(d, tree) && NoneFinished(d)
    && forall t :: t in Listed(d, tree) ==>
         Settledly(d.tasks[t]) || (d.tasks[t].status.Running? && !d.tasks[t].accepted)
  }

  lemma BroughtKeeps(d: Doc, e: Doc, tree: Tree, t: Id)
    requires Interrupted(d, tree) && Brought(d, e, t)
    ensures Interrupted(e, tree) && Listed(e, tree) == Listed(d, tree)
  {
    hide Known;
    TouchKeepsHonest(d, e, tree, t);
  }

  lemma AllSettledIsSafe(d: Doc, tree: Tree)
    requires Interrupted(d, tree) && forall t :: t in Listed(d, tree) ==> !d.tasks[t].status.Running?
    ensures Safe(d, tree, {})
  {
  }

  /** No work found after the restart has blank text, so none is refused. */
  ghost predicate TidySaves(world: World) {
    forall t, n :: var saved := world.saved(t, n); saved.Some? ==> !BlankSaved(saved.value)
  }

  /**
   * How an interrupted attempt ends: with what was saved of it and the verdict on that, or blocked as
   * interrupted when nothing was - or when a refused piece of saved work ended the salvage.
   */
  ghost predicate Ended(d: Doc, t: Id, s: Attempt, world: World)
    requires Coherent(d) && t in d.tasks
  {
    var (r, saved) := (d.tasks[t], world.saved(t, d.tasks[t].number));
    || (saved.Some? && SavedAs(d, r, s, saved.value))
    || (LeftAs(r, s) && (saved.None? || !TidySaves(world)))
  }

  /** Every listed record is as it was, or was interrupted and has ended. */
  ghost predicate Cleared(d: Doc, e: Doc, tree: Tree, world: World)
    requires Coherent(d)
  {
    && e.build == d.build && e.versions == d.versions && e.tasks.Keys == d.tasks.Keys
    && forall t :: t in d.tasks ==>
         e.tasks[t] == d.tasks[t] ||
         (t in Listed(d, tree) && d.tasks[t].status.Running? && Ended(d, t, e.tasks[t], world))
  }

  lemma OneCleared(d: Doc, e: Doc, f: Doc, tree: Tree, world: World, t: Id)
    requires Coherent(d) && Coherent(e) && Cleared(d, e, tree, world) && OnlyTouches(e, f, t)
    requires t in Listed(d, tree) && d.tasks[t].status.Running? && e.tasks[t] == d.tasks[t]
    requires Ended(e, t, f.tasks[t], world)
    ensures Cleared(d, f, tree, world)
  {
    hide Listed, Ended, Coherent;
    EndedElsewhere(d, e, t, f.tasks[t], world);
  }

  lemma EndedElsewhere(d: Doc, e: Doc, t: Id, s: Attempt, world: World)
    requires Coherent(d) && Coherent(e) && d.versions == e.versions && d.build == e.build
    requires t in d.tasks && t in e.tasks && e.tasks[t] == d.tasks[t]
    ensures Ended(d, t, s, world) <==> Ended(e, t, s, world)
  {
    hide TidySaves, Handed, BlankSaved, VerdictIs, LeftAs;
    var saved := world.saved(t, d.tasks[t].number);
    if saved.Some? {
      VerdictElsewhere(d, e, Handed(d.tasks[t], saved.value), s, saved.value.passed);
    }
  }

  lemma EndedRests(d: Doc, t: Id, s: Attempt, world: World)
    requires Coherent(d) && t in d.tasks && Ended(d, t, s, world)
    ensures !s.status.Running?
  {
    hide TidySaves, BlankSaved, Clean, CleanAll, Coherent, AttemptId, History.KeepsThreads;
  }

  lemma StillAsItWas(d: Doc, e: Doc, tree: Tree, world: World, t: Id)
    requires Coherent(d) && Cleared(d, e, tree, world) && t in d.tasks && e.tasks[t].status.Running?
    ensures e.tasks[t] == d.tasks[t]
  {
    hide Ended, Coherent, Listed;
    if e.tasks[t] != d.tasks[t] {
      EndedRests(d, t, e.tasks[t], world);
    }
  }

  /** Of the attempts still marked running only those in `but` may have saved work. */
  ghost predicate Unsaved(d: Doc, tree: Tree, world: World, but: set<Id>) {
    forall t :: t in Listed(d, tree) && d.tasks[t].status.Running? && t !in but ==> world.saved(t, d.tasks[t].number).None?
  }

  lemma SalvagedEnds(d: Doc, e: Doc, tree: Tree, world: World, but: set<Id>, t: Id)
    requires Brought(d, e, t) && Unsaved(d, tree, world, but) && world.saved(t, d.tasks[t].number).Some?
    requires Coherent(d) && SavedAs(d, d.tasks[t], e.tasks[t], world.saved(t, d.tasks[t].number).value)
    ensures Ended(d, t, e.tasks[t], world) && Unsaved(e, tree, world, but - {t})
  {
    EndedRests(d, t, e.tasks[t], world);
    hide TidySaves, SavedAs, NeedsCurrent, Coherent, Known;
  }

  lemma AllInStale(d: Doc, tree: Tree, world: World, stale: set<Id>)
    requires forall t :: t in Listed(d, tree) && d.tasks[t].status.Running? ==> t in stale
    ensures Unsaved(d, tree, world, stale)
  {
  }

  lemma NothingSaved(d: Doc, tree: Tree, world: World, but: set<Id>, t: Id)
    requires Unsaved(d, tree, world, but) && t in d.tasks
    requires world.saved(t, d.tasks[t].number).None? || !d.tasks[t].status.Running?
    ensures Unsaved(d, tree, world, but - {t})
  {
  }

  lemma NotTidy(world: World, t: Id, n: nat)
    requires world.saved(t, n).Some? && BlankSaved(world.saved(t, n).value)
    ensures !TidySaves(world)
  {
    hide BlankSaved;
  }

  /**
   * Bring every interrupted attempt to rest: first what it had saved, then a block for the rest. A refused
   * piece of saved work ends the salvage. Nothing else is touched, and nobody is started again.
   */
  method Reconcile(state: BuildState, world: World) returns (ghost ops: seq<History.Op>)
    requires state.Valid() && Interrupted(state.Document(), state.tree)
    modifies state`tasks, state`events
    ensures state.Valid() && Safe(state.Document(), state.tree, {})
    ensures Clearing(old(state.Document()), ops, state.Document(), state.tree)
    ensures Cleared(old(state.Document()), state.Document(), state.tree, world)
  {
    hide Brought, Interrupted, Clean, Clearing, Cleared, Coherent, Settled, BlankSaved, OnlyTouches, Runs, TidySaves, Unsaved, Ended, SavedAs, Known;
    ghost var d, tree := state.Document(), state.tree;
    NothingClears(d, tree);
    NothingCleared(d, tree, world);
    ops := [];
    var stale := set t | t in state.tasks && (state.tree.tasks == [] || Known(state.tree.tasks, t)) && state.tasks[t].status.Running?;
    var failed := false;
    AllInStale(d, tree, world, stale);
    while stale != {} && !failed
      invariant state.Valid() && Interrupted(state.Document(), tree)
      invariant Clearing(d, ops, state.Document(), tree) && Cleared(d, state.Document(), tree, world)
      invariant state.tasks.Keys == d.tasks.Keys && forall t :: t in stale ==> t in Listed(d, tree) && d.tasks[t].status.Running?
      invariant if failed then !TidySaves(world) else Unsaved(state.Document(), tree, world, stale)
    {
      var t :| t in stale;
      var saved := world.saved(t, state.tasks[t].number);
      if saved.Some? && state.tasks[t].status.Running? {
        ghost var e := state.Document();
        InterruptedRunning(e, tree, t);
        StillAsItWas(d, e, tree, world, t);
        ghost var more;
        failed, more := SalvageOne(state, t, saved.value, tree);
        ClearingJoins(d, ops, e, more, state.Document(), tree);
        ops := ops + more;
        if failed {
          NotTidy(world, t, e.tasks[t].number);
        } else {
          OnlyOneBrought(e, state.Document(), t);
          BroughtKeeps(e, state.Document(), tree, t);
          SalvagedEnds(e, state.Document(), tree, world, stale, t);
          OneCleared(d, e, state.Document(), tree, world, t);
        }
      } else {
        NothingSaved(state.Document(), tree, world, stale, t);
      }
      stale := stale - {t};
    }
    ops := BlockLeft(state, world, d, ops);
  }

  lemma NothingCleared(d: Doc, tree: Tree, world: World)
    requires Coherent(d)
    ensures Cleared(d, d, tree, world)
  {
  }

  lemma InterruptedRunning(d: Doc, tree: Tree, t: Id)
    requires Interrupted(d, tree) && t in Listed(d, tree) && d.tasks[t].status.Running?
    ensures Runs(d, t)
  {
  }

  /** Whatever is still running after the salvage is blocked, never handed to a new worker. */
  method BlockLeft(state: BuildState, ghost world: World, ghost d: Doc, ghost ops0: seq<History.Op>) returns (ghost ops: seq<History.Op>)
    requires state.Valid() && Interrupted(state.Document(), state.tree) && Coherent(d)
    requires Clearing(d, ops0, state.Document(), state.tree) && Cleared(d, state.Document(), state.tree, world)
    requires TidySaves(world) ==> Unsaved(state.Document(), state.tree, world, {})
    modifies state`tasks, state`events
    ensures state.Valid() && Safe(state.Document(), state.tree, {})
    ensures Clearing(d, ops, state.Document(), state.tree) && Cleared(d, state.Document(), state.tree, world)
  {
    hide Interrupted, Clean, Clearing, Cleared, Known, Honest, Coherent, Brought, OnlyTouches, TidySaves, Unsaved, Ended, Runs;
    RestartTexts();
    ghost var tree := state.tree;
    ops := ops0;
    SameKeys(d, state.Document(), tree, world);
    var left := set t | t in state.tasks && (state.tree.tasks == [] || Known(state.tree.tasks, t)) && state.tasks[t].status.Running?;
    while left != {}
      invariant state.Valid() && Interrupted(state.Document(), tree) && state.tasks.Keys == d.tasks.Keys
      invariant Clearing(d, ops, state.Document(), tree) && Cleared(d, state.Document(), tree, world)
      invariant left <= Listed(state.Document(), tree)
      invariant forall t :: t in Listed(state.Document(), tree) ==> (t in left <==> state.tasks[t].status.Running?)
      invariant TidySaves(world) ==> Unsaved(state.Document(), tree, world, {})
    {
      var t :| t in left;
      ghost var e := state.Document();
      InterruptedRunning(e, tree, t);
      StillAsItWas(d, e, tree, world, t);
      ghost var more := BlockInterrupted(state, t, INTERRUPTED, tree);
      OneLess(d, e, state.Document(), tree, world, t);
      ClearingJoins(d, ops, e, more, state.Document(), tree);
      ops := ops + more;
      left := left - {t};
    }
    AllSettledIsSafe(state.Document(), tree);
  }

  lemma OneLess(d: Doc, e: Doc, f: Doc, tree: Tree, world: World, t: Id)
    requires Coherent(d) && Interrupted(e, tree) && Brought(e, f, t) && Cleared(d, e, tree, world)
    requires t in Listed(d, tree) && t in Listed(e, tree) && d.tasks[t].status.Running? && e.tasks[t] == d.tasks[t]
    requires LeftAs(e.tasks[t], f.tasks[t]) && (TidySaves(world) ==> Unsaved(e, tree, world, {}))
    ensures Interrupted(f, tree) && Listed(f, tree) == Listed(e, tree) && f.tasks.Keys == e.tasks.Keys
    ensures Cleared(d, f, tree, world) && (TidySaves(world) ==> Unsaved(f, tree, world, {}))
    ensures forall u :: u in e.tasks && u != t ==> f.tasks[u] == e.tasks[u]
  {
    hide Brought, Cleared, TidySaves, Unsaved, Ended, Honest, OnlyTouches, Known;
    OnlyOneBrought(e, f, t);
    BroughtKeeps(e, f, tree, t);
    BlockedEnds(e, f, tree, world, t);
    OneCleared(d, e, f, tree, world, t);
  }

  lemma BlockedEnds(d: Doc, e: Doc, tree: Tree, world: World, t: Id)
    requires Coherent(d) && Brought(d, e, t) && t in Listed(d, tree) && d.tasks[t].status.Running? && LeftAs(d.tasks[t], e.tasks[t])
    requires TidySaves(world) ==> Unsaved(d, tree, world, {})
    ensures Ended(d, t, e.tasks[t], world)
    ensures TidySaves(world) ==> Unsaved(e, tree, world, {})
  {
    hide TidySaves, Settled, NeedsCurrent, Coherent, Known;
  }

  lemma SameKeys(d: Doc, e: Doc, tree: Tree, world: World)
    requires Coherent(d) && Cleared(d, e, tree, world)
    ensures e.tasks.Keys == d.tasks.Keys
  {
  }

  lemma OnlyOneBrought(d: Doc, e: Doc, t: Id)
    requires Brought(d, e, t)
    ensures OnlyTouches(d, e, t) && e.tasks.Keys == d.tasks.Keys && forall u :: u in d.tasks && u != t ==> e.tasks[u] == d.tasks[u]
  {
  }
}
