# Go Work build engine

A model of the engine that turns a validated plan into concurrent workers and records what
happened to each, and of the four smaller components beside it, with proofs of what they promise.

- **Plan graph** (`Graph`, `Plan`, `Exports`): what the plan validator accepts, which tasks may be
  in flight together, and the one-line build order.
- **Ledger** (`Text`, `Ledger`, `History`, `Transitions`, `PlanEdits`, `BuildStates`): the durable state machine per
  task as specification functions, results over all histories, and the mutable object that
  implements them.
- **Scheduler and manifest loop** (`Schedule`, `ManifestSteps`, `ManifestLoop`, `Courses`, `Answers`,
  `LoopRuns`, `LoopSteps`, `Restart`, `RunResults`, `TaskLoop`): the choice of ready tasks and the whole loop, with
  what workers, stop requests, capacity readings and salvage answer as an input and the finishing order
  left open; what is true between any two of its ledger writes, and over many runs.
- **Admission and capacity** (`Admission`, `AdmissionControl`, `Capacity`): slots as atomic steps, and
  the feedback policy that sets their number.
- **Checkbox plans** (`PlanText`, `Merges`, `MergePlaces`, `Grouping`, `Suggestions`, `Dispatches`): carrying the planner's edits into the build's
  copy, and repairing a suggested grouping.
- **Smaller components**: the event-stream decoder (`Sse`), the event mapper (`AgUi`, `Streams`), the
  retry tracker (`Recovery`) and the update pacer (`Pacing`).

Objects whose methods change their fields are classes whose methods are tied to specification
functions; the results over runs and interleavings are lemmas about those functions.

`dafny verify dfyconfig.toml` checks everything. Automatic induction is switched off wherever Dafny would
apply it: every induction is written out.

Where the code and its own wording differ, the model follows the code:

- `constrain_groups` says a suggestion without declared details is returned as is; it comes back in
  plan order (`Suggestions.AdviceIsReordered`), without repeats and with missing steps added. When it
  does come back as given: `Suggestions.ReturnedAsGiven`. With two open steps of one label, a dispatched group may hold only
  the second (`Grouping.NamesakeGoesFirst`).
- `CapacityPolicy` checks a limit set later but not the `operator_limit` it is built with: zero there
  stops everything (`Capacity.ZeroLimitStops`, `Capacity.GivenOutIsBounded`). An unknown reading
  described as "not growing" restores the starting size (`Capacity.UnknownRestoresStart`).
- A plan edited down to no tasks can end in "nothing is ready" (`TaskLoop.EmptiedPlanIsReached`), or in
  a failed look-up of a blocked task that the plan no longer has (the `UnlistedBlocked` outcome,
  `TaskLoop.BlockedThenEmptied`); exactly when: `TaskLoop.EmptiedPlanAnswer`.
- A step the planner reopens is not reopened in a copy that has it ticked (`Merges.MergeOpensAll`).
- The frame limit depends on how the stream was cut when lines end in several carriage returns
  (`Sse.CutsMatter`); exactly when it does not: `Sse.CutsDoNotMatter`.
- The count kept on disk is per build, not per request, so with two requests in line it may tell the
  wrong one (`Admission.SiblingsShareOneNote`); with one it is right (`Admission.OneRequestIsOnDisk`).
- A text chunk after content without a start fails on a missing key (`AgUi.ChunkNeedsARole`), and a
  faulty event swallows the compact tool call before it (`AgUi.FaultSwallowsTheCall`; exactly when:
  `AgUi.CompactMeansTheSame`).
- The checkbox check speaks of one line per task but compares outcomes
  (`Exports.SharedOutcomeHidesATask`); what passes builds every task exactly when no outcome is shared
  (`Exports.PassingBuildsInOrder`).

## Model

| member | source | states |
|---|---|---|
| Graph.FindCycle | claude_code_core/gowork_plan.py:408-424 | the explicit-stack search terminates on every closed graph, finds nothing exactly when no cycle exists, and a reported cycle is a real path of edges back to its start |
| Graph.Explore | claude_code_core/gowork_plan.py:412-424 | one outermost search step: either a real cycle, or everything reached is finished in an order that puts targets first |
| Graph.FinishedMeansAcyclic | claude_code_core/gowork_plan.py:408-424 | an order in which every vertex comes after what it points at rules out every cycle |
| Graph.AcyclicHasSink | claude_code_core/gowork_plan.py:388-424 | in an acyclic graph every non-empty set of vertices has a member without an edge back into the set |
| Graph.WalkMovesLeft | claude_code_core/gowork_plan.py:408-424 | a walk from a finished vertex moves strictly left in the finishing order, so it cannot return |
| Graph.TrailClosesCycle | claude_code_core/gowork_plan.py:419-421 | a dependency found on the current trail closes a cycle made of real edges |
| Graph.FindParentLoop | claude_code_core/gowork_plan.py:344-358 | the parent chase reports nothing exactly when every plan climbs to a plan without parent, and a reported loop is a real chain of parents |
| Graph.LoopNeverTops | claude_code_core/gowork_plan.py:344-358 | from inside a parent loop no number of steps up leaves the loop |
| Plan.CollectParents | claude_code_core/gowork_plan.py:332-336 | refuses exactly the repeated plan ids and otherwise yields every plan's declared parent |
| Plan.ValidateTree | claude_code_core/gowork_plan.py:328-364 | accepts exactly the rooted trees: distinct ids, known parents, one master that every plan reaches; a reported parent loop is real |
| Plan.RootedHasOneRoot | claude_code_core/gowork_plan.py:360-364 | a rooted tree has exactly one parentless plan |
| Plan.OneRootIsMaster | claude_code_core/gowork_plan.py:344-364 | one parentless plan and no parent loop make a rooted tree |
| Plan.ValidateAssignments | claude_code_core/gowork_plan.py:367-385 | accepts exactly distinct task ids whose plans exist at the stated version |
| Plan.ValidateDepList | claude_code_core/gowork_plan.py:393-406 | accepts exactly the dependency lists without repeats, self-references or unknown tasks |
| Plan.ValidateCrossInputs | claude_code_core/gowork_plan.py:426-438 | accepts exactly the tasks that name every dependency from another project among their inputs |
| Plan.ValidateDependencies | claude_code_core/gowork_plan.py:388-438 | accepts exactly the sound, acyclic task lists; a reported cycle is a real path of dependencies |
| Plan.ValidateCoverage | claude_code_core/gowork_plan.py:497-520 | accepts exactly when requirements are distinct, every task serves one and every one is served |
| Plan.ValidateOwnedFiles | claude_code_core/gowork_plan.py:441-446 | accepts exactly the task lists whose every owned path is safe; a refusal names an unsafe one |
| Plan.SafePathStaysInside | claude_code_core/gowork_plan.py:449-463 | following a safe path part by part never leaves the project and does not end inside its .git |
| Plan.SafePathExactly | claude_code_core/gowork_plan.py:449-463 | a path is taken exactly when all its characters are ordinary, it starts at no root, home directory or drive, has no '..' and does not lead into .git |
| Plan.Validate | claude_code_core/gowork_plan.py:113-124 | building a plan tree: the checks in the order they run accept exactly the valid trees the other components rely on |
| Plan.OwnedPrefix | claude_code_core/gowork_plan.py:466-475 | the loop yields the literal leading parts, skipping empty and '.' parts and stopping at a pattern |
| Plan.PrefixReads | claude_code_core/gowork_plan.py:466-475 | the prefix is what the parts in front of the first pattern lead to, all of them when there is none |
| Plan.SharedFile | claude_code_core/gowork_plan.py:478-485 | two owned paths share something exactly when some file may be covered by both, and the answer is the narrower of the two |
| Plan.SharedFiles | claude_code_core/gowork_plan.py:173-189 | the list holds what every overlapping pair of owned paths has in common, nothing else and nothing twice; it is empty exactly when no file may be covered by both |
| Plan.Conflict | claude_code_core/gowork_plan.py:173-189 | a conflict is reported exactly when the tasks share a resource, or a file under one project |
| Plan.ConflictsSymmetric | claude_code_core/gowork_plan.py:173-189 | conflict does not depend on the order of the two tasks |
| Plan.RunTogether | claude_code_core/gowork_plan.py:167-171 | answers exactly whether two known, different tasks have no ownership conflict |
| Plan.TogetherSymmetric | claude_code_core/gowork_plan.py:167-171 | running together is symmetric |
| Plan.TogetherMeansExclusive | claude_code_core/gowork_plan.py:167-189 | tasks that may run together hold no common resource and never write one file, however pattern paths are read below their literal prefix |
| Plan.ExclusiveRunTogether | claude_code_core/gowork_plan.py:167-189 | and nothing but a common resource, or a possible common file of one project, keeps two different tasks apart |
| Text.CleanRefusesBlank | claude_code_core/gowork_state.py:55-59 | exactly the texts of white space only are refused |
| Text.CleanKeeps | claude_code_core/gowork_state.py:55-59 | any other text is kept from its first to its last letter that is not white space, cut at 2000 characters |
| Text.PlainIsKept | claude_code_core/gowork_state.py:55-59 | so a text of at most 2000 characters without white space at its ends is itself |
| Text.ReviewLineReads | claude_code_core/gowork_state.py:282-291 | a review line is the cleaned verdict, followed by the cleaned notes when there are any, and refused exactly for a blank verdict |
| Text.DecimalReads | claude_code_core/gowork_state.py:172-173 | the decimal form of a number, read digit by digit, is the number |
| Text.DecimalInjective | claude_code_core/gowork_state.py:172-173 | different attempt numbers have different decimal forms |
| Text.AttemptIdInjective | claude_code_core/gowork_state.py:172-173 | for task ids without ':' an attempt id determines task and number, so ids are unique in a build |
| BuildStates.BuildState.constructor | claude_code_core/gowork_state.py:601-652 | a new ledger is coherent and holds one fresh pending attempt per task of the tree |
| BuildStates.BuildState.ApplyRecord | claude_code_core/gowork_state.py:577-594 | one record is replaced and one event appended; nothing else in the document moves |
| BuildStates.BuildState.CurrentRecord | claude_code_core/gowork_state.py:567-575 | a report is let through only for the current attempt of a known task, else refused as unknown or stale |
| BuildStates.BuildState.Begin | claude_code_core/gowork_state.py:246-251 | carries out the begin transition of the ledger specification, or refuses and changes nothing |
| BuildStates.BuildState.SubmitResult | claude_code_core/gowork_state.py:253-280 | carries out the submit transition (commit, checks, finished) or refuses with the same error and no change |
| BuildStates.BuildState.RecordReview | claude_code_core/gowork_state.py:282-291 | keeps the cleaned verdict with its notes, cut on their own, on finished or accepted work, or refuses: wrong status before empty verdict |
| BuildStates.BuildState.RecordRepair | claude_code_core/gowork_state.py:293-299 | carries out the repair note on the current attempt, or refuses |
| BuildStates.BuildState.Accept | claude_code_core/gowork_state.py:301-318 | accepts a finished attempt of the current plan version only |
| BuildStates.BuildState.Block | claude_code_core/gowork_state.py:320-328 | blocks unaccepted work with its reason, or refuses |
| BuildStates.BuildState.Retry | claude_code_core/gowork_state.py:330-335 | starts a new attempt for a person, per the specification |
| BuildStates.BuildState.Repair | claude_code_core/gowork_state.py:340-353 | starts the one automatic repair of a lineage, or refuses when it is spent |
| BuildStates.BuildState.NoteThread | claude_code_core/gowork_state.py:375-389 | keeps the thread of the current attempt, and the base commit unless a new one that is not empty is given |
| BuildStates.BuildState.MarkArchived | claude_code_core/gowork_state.py:391-405 | marks a thread archived once |
| BuildStates.BuildState.Rework | claude_code_core/gowork_state.py:418-430 | starts over finished or accepted work whose plan moved on, keeping its commit as the previous one |
| BuildStates.BuildState.TakeVersions | claude_code_core/gowork_state.py:441-446 | the loop over plans leaves every plan at its new version and returns exactly the changed ones |
| BuildStates.BuildState.AddTasks | claude_code_core/gowork_state.py:447-461 | the loop adds a fresh record for every task not yet known and touches no other |
| BuildStates.BuildState.SyncOne | claude_code_core/gowork_state.py:468-483 | one task of a changed plan: started over, re-versioned, or left alone, as the specification says |
| BuildStates.BuildState.SyncEach | claude_code_core/gowork_state.py:467-483 | the task-by-task loop equals the specification's whole edit |
| BuildStates.BuildState.SyncTree | claude_code_core/gowork_state.py:432-487 | a plan edit taken as one step: the object ends in the specified document and follows the new tree |
| History.ApplyIsLegal | claude_code_core/gowork_state.py:246-430 | every ledger operation changes at most one record, in a way the legal-move relation allows, and logs exactly one event |
| History.SyncedIsLegal | claude_code_core/gowork_state.py:468-483 | what a plan edit does to a record is a legal move as well |
| History.PutFollows | claude_code_core/gowork_state.py:355-369 | a legal move only raises (attempt number, phase) lexicographically, keeps a finished attempt's commit and checks, and never lowers the repair count |
| History.FollowsTransitive | claude_code_core/gowork_state.py:355-369 | the same over any number of moves |
| History.PutKeepsOwnLog | claude_code_core/gowork_state.py:577-594 | after a legal move the log still replays to the moved record's status and number |
| History.PutKeepsLog | claude_code_core/gowork_state.py:577-594 | and to every other record's |
| History.WidenKeeps | claude_code_core/gowork_state.py:441-466 | adding the tasks and versions of an edit disturbs no record and no log |
| History.AfterKeeps | claude_code_core/gowork_state.py:246-487 | every operation, refused ones and plan edits included, keeps coherence, a true log and the order of attempts |
| History.HistoryKeeps | claude_code_core/gowork_state.py:246-487 | so does every sequence of operations |
| History.NewDocTrue | claude_code_core/gowork_state.py:601-623 | a new document's log is true of it |
| History.OnlyBeginStarts | claude_code_core/gowork_state.py:246-251 | the started-events of a task on the log go up by one with each successful begin of it, and with no other operation, plan edits included |
| History.ExactlyOnce | claude_code_core/gowork_state.py:330-369 | over every history of a valid tree an attempt is begun at most once, a task is repaired automatically at most once, and replaying the event log gives every task's status and attempt number |
| History.SupersededForever | claude_code_core/gowork_state.py:567-575 | a report for a superseded attempt id is refused as stale in every later state |
| Transitions.CarriedOutExactly | claude_code_core/gowork_state.py:246-430 | every ledger operation is carried out if and only if nothing of a plain list hinders it (unknown task, superseded attempt, status, blank text, other report, old plan version, spent repair), a refusal names a hindrance that is there, and the ledger stays as it was if and only if the operation asked for nothing new |
| Transitions.FirstHindrance | claude_code_core/gowork_state.py:246-430 | of several hindrances the unknown task is named first, then the superseded attempt, then the status |
| Transitions.CleanAllReads | claude_code_core/gowork_state.py:253-280 | a list of lines is refused exactly when one is blank, and else kept line for line, cleaned, in order |
| Transitions.WritesWhatWasSaid | claude_code_core/gowork_state.py:246-430 | what an operation changes is what its kind may change, and what it writes down is what it was told: commit, checks, review line, reason, thread |
| Transitions.ReportIsRecorded | claude_code_core/gowork_state.py:253-280 | a report let through leaves the attempt finished or accepted with the reported commit and checks, cleaned and in order |
| Transitions.ReportedWorkStays | claude_code_core/gowork_state.py:253-369 | over every later history the record has the commit and checks of the report as long as the task gets no new attempt |
| Transitions.ReportsAreFinal | claude_code_core/gowork_state.py:253-280 | the same report again is taken and changes nothing; one that says anything else is refused |
| PlanEdits.PutKeepsHonest | claude_code_core/gowork_state.py:301-369 | no ledger operation leaves a waiting or accepted task at an old plan version |
| PlanEdits.EditedHonest | claude_code_core/gowork_state.py:468-483 | an edited record is honest exactly when the edit fitted the task |
| PlanEdits.SyncHonestIff | claude_code_core/gowork_state.py:432-487 | after an edit every waiting or accepted task of the new tree is at its plan's version if and only if each task fitted the edit (kept its plan, or came back with a version bump) |
| PlanEdits.SyncKeepsHonest | claude_code_core/gowork_state.py:432-487 | careful edits keep versions honest |
| PlanEdits.HonestOverHistories | claude_code_core/gowork_state.py:301-487 | over every history of operations and careful edits no task of the current tree waits, or stays accepted, at an old version |
| PlanEdits.SyncLosesNothing | claude_code_core/gowork_state.py:467-483 | an edit drops no record, starts at most one new attempt, leaves running and blocked work alone, and keeps result commits and repair budgets |
| PlanEdits.SyncTwice | claude_code_core/gowork_state.py:432-487 | a second sync with the same tree changes nothing |
| PlanEdits.SyncTaskByTask | claude_code_core/gowork_state.py:432-487 | an edit task by task: a new task gets its first attempt; of the tasks whose plan has a new version the waiting ones move to the version they name and the settled ones start over with their commit kept; all others stay as they are |
| PlanEdits.SyncTakesVersions | claude_code_core/gowork_state.py:441-446 | every plan of the tree is at its new version, and the versions of others stay |
| PlanEdits.EditIsLogged | claude_code_core/gowork_state.py:462-466 | one log entry names exactly the plans with a new version and the tasks added; without either there is none |
| PlanEdits.AfterSyncIsSync | claude_code_core/gowork_state.py:432-487 | for a coherent ledger and a valid tree a sync is never refused |
| Ledger.WidenFits | claude_code_core/gowork_state.py:441-461 | after versions and new records are taken in, every record belongs to a plan with a known version |
| Schedule.ReadyTasks | claude_code_core/gowork_schedule.py:29-51 | the appending loop with early exit gives the choice made task by task in plan order: all chosen may start together beside what is running, never more than the limit, and with room left no task of the plan could start beside the running ones and the chosen ones |
| Schedule.PickSound | claude_code_core/gowork_schedule.py:29-51 | the choice is startable task by task given those before it, never more than the limit, and leaves out no task that could still join while there is room |
| Schedule.ReadyFillsUp | claude_code_core/gowork_schedule.py:29-51 | for everything running and every limit: if fewer are chosen than the limit allows, no task of the plan is startable beside the running ones and those chosen |
| Schedule.ChosenExactly | claude_code_core/gowork_schedule.py:29-51 | a task is chosen if and only if there is room after those ahead of it in the plan that are, and it is startable beside them and the running ones |
| Schedule.NotTwice | claude_code_core/gowork_schedule.py:29-51 | no task is chosen twice |
| Schedule.BusyIsComplete | claude_code_core/gowork_schedule.py:33-34 | every running task of the tree is checked for conflicts |
| Schedule.CheckStartable | claude_code_core/gowork_schedule.py:39-48 | pending, released by accepted prerequisites at current versions, and compatible with everything running and chosen: exactly then a task is taken |
| Schedule.StallIsExplained | claude_code_core/gowork_schedule.py:25-51 | at rest with nothing startable every unaccepted task is blocked or depends, through a chain, on a blocked one: validation, scheduler and ledger together exclude a deadlock |
| Schedule.HeldThrough | claude_code_core/gowork_schedule.py:25-26 | a task that depends on one held by a blocked task is held by it too |
| Schedule.SinkIsStartable | claude_code_core/gowork_schedule.py:25-51 | a pending task whose dependencies all are accepted can start when nothing runs |
| ManifestSteps.CleanAllRefusesBlank | claude_code_core/gowork_state.py:253-280 | a list of check lines is refused exactly when one of them is blank |
| ManifestSteps.StickSettles | claude_code_core/task_loop.py:982-990 | a failed result either uses the one repair or blocks the task; which of the two: StickReports |
| ManifestSteps.StickReports | claude_code_core/task_loop.py:982-990 | a failure whose reason is repairable, of a task not repaired yet, leaves a waiting attempt with the next number, one repair spent and the cleaned reason as its previous failure; any other leaves the attempt blocked with the cleaned reason and otherwise as it was; refused exactly for a blank reason, and then nothing changes |
| ManifestSteps.RecordWorkSettles | claude_code_core/task_loop.py:960-990 | a result for a running attempt settles exactly one way, at the current plan version or an old one |
| ManifestSteps.RecordSettles | claude_code_core/task_loop.py:948-993 | for every running attempt: good work is accepted at the current plan version and, at an old one, kept as the previous commit of a reworked attempt; anything else is blocked or started over with the one repair; refused only for blank text, and then never accepted |
| ManifestSteps.RecordReports | claude_code_core/task_loop.py:948-993 | recording a result, field by field: refused exactly for blank text; good work at the current version is accepted with the thread, commit and checks reported; at an old one it starts over with that commit as the previous one; a failure is repaired or blocked as above, with the work handed in kept; on a refusal at most thread, commit and checks are recorded |
| ManifestSteps.VerdictSettles | claude_code_core/task_loop.py:968-980 | the verdict on finished work is acceptance exactly at the current plan version, and rework otherwise |
| ManifestLoop.StartKeepsSafe | claude_code_core/task_loop.py:842-857 | starting a chosen task keeps the in-flight set equal to the running records, pairwise exclusive, with accepted prerequisites |
| ManifestLoop.StartableExactlySafe | claude_code_core/gowork_schedule.py:29-51 | a waiting task may start beside what is in flight if and only if starting it leaves the loop safe: the scheduler holds back nothing that could go |
| ManifestLoop.RecordKeepsSafe | claude_code_core/task_loop.py:861-884 | recording one result takes exactly that task out of flight and keeps the rest safe |
| ManifestLoop.StartLowers | claude_code_core/task_loop.py:842-857 | every start strictly lowers the measure over all tasks, and the workers the task has left by one |
| ManifestLoop.ResultLowers | claude_code_core/task_loop.py:948-993 | every recorded result strictly lowers the measure and gives no start back |
| ManifestLoop.TotalBounded | claude_code_core/task_loop.py:842-857 | no task ever has more than two workers left |
| Courses.RecordCourse | claude_code_core/task_loop.py:948-993 | recording a result for any running attempt is a list of ordinary ledger operations about its task, each saying what the worker said and none starting a worker; while its plan stands still each lowers the measure |
| Answers.TookOffIsExplained | claude_code_core/task_loop.py:842-857 | starting waiting tasks keeps it true that every record of the plan came about attempt by attempt from what its workers answered |
| Answers.RecordedIsExplained | claude_code_core/task_loop.py:861-884 | so does recording what workers answered, whichever finish first |
| Answers.RecordsSayWhy | claude_code_core/task_loop.py:842-993 | what a record that a run changed says: blocked means its worker failed with that reason, one that is not repairable or not for the first time; accepted means its worker delivered that commit and those checks; waiting again means a repairable first failure, whose reason it knows, or good work whose plan moved on |
| LoopRuns.TrackOp | claude_code_core/task_loop.py:842-884 | one more ledger write keeps everything promised of a run: ledger and log follow from the writes, every point is safe, every write lowers the measure and starts somebody within the limit and before a stop or records an answer, two workers a task |
| LoopRuns.TrackCourse | claude_code_core/task_loop.py:861-884 | recording a result keeps that at each of its writes, not only at the end |
| LoopRuns.TrackedSoFar | claude_code_core/task_loop.py:787-889 | cut off between any two ledger writes a run is still a run: a crash leaves everything promised of one |
| LoopRuns.QuietKeepsSafe | claude_code_core/task_loop.py:948-993 | a write about one unaccepted task keeps versions honest and leaves every running task its prerequisites and its exclusive ownership |
| LoopRuns.TrackBegins | claude_code_core/task_loop.py:805-833 | a run that has started nobody and left nobody running is on track |
| LoopRuns.StartOnTrack | claude_code_core/task_loop.py:842-857 | starting a ready task extends a run on track within the limit read for this pass, and spends one of its workers |
| LoopRuns.FinishOnTrack | claude_code_core/task_loop.py:861-884 | a recorded result extends it too, and exactly its task leaves flight |
| Courses.LeadsJoin | claude_code_core/task_loop.py:787-889 | histories of ledger operations join into one history |
| LoopSteps.ReadyCanFollow | claude_code_core/task_loop.py:842-857 | a ready list can be started one after another, each start leaving the rest startable |
| LoopSteps.FollowAfterStart | claude_code_core/task_loop.py:842-857 | one start leaves the remaining ready tasks startable |
| LoopSteps.StartReady | claude_code_core/task_loop.py:842-857 | exactly the ready tasks take off, by exactly one begin each in their order, and no other record changes; the run stays on track, so each start keeps ownership exclusive and the limit read; each spends one of the task's workers |
| LoopSteps.RecordManifestResult | claude_code_core/task_loop.py:948-993 | the method on the mutable ledger equals the specified recording of a result, whose every outcome ManifestSteps.RecordReports states |
| LoopSteps.CollectDone | claude_code_core/task_loop.py:861-884 | whichever workers finish first, exactly their records change, each to what its worker answered, and exactly they leave flight unless a report is refused, which tidy workers never cause; the run stays on track, the measure falls, and nobody is started |
| LoopSteps.CourseEnds | claude_code_core/task_loop.py:861-884 | recording anything writes something, and its last write is no start, so a pass's starts are told apart from the next one's |
| LoopSteps.PassesStart | claude_code_core/task_loop.py:805-859 | the passes of a run that started somebody, counted from its writes: a pass's starts add one |
| LoopSteps.PassesQuiet | claude_code_core/task_loop.py:861-884 | and writes that start nobody add none |
| Restart.BlockInterrupted | claude_code_core/task_loop.py:928-934 | an interrupted attempt ends blocked with the reason given, the rest of its record as it was, by one ledger operation |
| Restart.SalvageOne | claude_code_core/task_loop.py:923-928 | saved work of an interrupted attempt is recorded with just the commit and checks saved, and accepted if it passed at the current plan version, reworked with its commit kept if only the plan moved on, blocked if it failed; refused exactly for blank text, and then nothing changes |
| Restart.SettleSaved | claude_code_core/task_loop.py:923-928 | the verdict on saved work, the rest of the record as it was: accepted if and only if it passed at the current version, reworked if it passed at an old one, blocked if it failed |
| Restart.Reconcile | claude_code_core/task_loop.py:918-946 | after a crash anywhere outside a sync every interrupted attempt ends by ordinary ledger operations: with the commit, checks and verdict of its saved work, or blocked as interrupted - when nothing was saved, or only after another saved piece was refused; every other record stays as it was, and the loop starts from a safe state with nothing in flight |
| TaskLoop.RunManifest | claude_code_core/task_loop.py:787-889 | for every worker behaviour, finishing order, stop request, capacity answers and crash before it: the loop ends within two rounds a task, and its rounds are the passes of its writes that started somebody; between any two writes the running tasks are at current versions with accepted prerequisites and own nothing in common; each write lowers the measure and either starts a worker within the limit and before a stop, or records what a worker said; no task gets more than two workers; what a crash left is first settled as saved, and from there every record of the plan came about attempt by attempt exactly as its workers answered, with the automatic repair of a repairable first failure; it stops only if a stop was requested at some point of the run, and fails only on a blank report; otherwise, and always when left alone with rounds enough, the answer is what the ledger says, explained, and complete when every worker delivers; unless a report was refused the ledger may be run again |
| TaskLoop.StalledAnswer | claude_code_core/task_loop.py:1016-1035 | no deadlock: the answer is complete exactly when every task is accepted; otherwise some task is blocked, every unaccepted one hangs on a blocked one, and "nothing is ready" cannot come |
| TaskLoop.CompleteDelivers | claude_code_core/task_loop.py:1016-1035 | a complete build has every task accepted at its current version and, unless legacy, an accepted task for every agreed outcome |
| TaskLoop.DeliveredIsComplete | claude_code_core/task_loop.py:787-889 | a run left to answer in which every worker delivers is complete, on a plan without blocked or interrupted tasks |
| TaskLoop.EmptiedPlanAnswer | claude_code_core/task_loop.py:1016-1035 | a plan edited down to no tasks answers "nothing is ready" exactly when an old record is unaccepted and none is blocked, and looks up a task the plan no longer has exactly when one is unaccepted and one is blocked |
| TaskLoop.EmptiedPlanIsReached | claude_code_core/task_loop.py:805-833 | and every plan with tasks gets there: its new build, edited to no tasks before the first look, may be run, leaves nothing in flight, and answers "nothing is ready" with every task waiting |
| TaskLoop.BlockedThenEmptied | claude_code_core/task_loop.py:805-833 | the other answer is reached too: from the new build of any plan with tasks a worker starts and fails, the plan is edited to no tasks, and the blocked task it looks up is not in the plan |
| RunResults.NewBuildMayRun | claude_code_core/task_loop.py:805-833 | every new build of a valid plan meets what the loop needs |
| RunResults.MayRunAgain | claude_code_core/task_loop.py:787-946 | cut off after any write, the first look and the clean-up included, or ended, a run leaves what the next run needs, for the same plan or any careful edit, unless a result was just submitted and has no verdict yet |
| RunResults.PointsHonest | claude_code_core/task_loop.py:805-946 | from the first write on no task of the plan waits, or stays accepted, at an old version, while a crash is cleared up as well as afterwards |
| RunResults.TwoWorkersARun | claude_code_core/task_loop.py:787-889 | at every point of a run, cut off or not, a task has got at most two workers of it |
| RunResults.RunsJoin | claude_code_core/task_loop.py:787-889 | any number of runs over one ledger, with edits and crashes between them, is one history, with at most two workers a task for each run |
| RunResults.OverAllRuns | claude_code_core/task_loop.py:787-889 | so from a new build on, over any number of runs, no attempt is begun twice and no task repaired automatically twice; while the plan is not edited a task gets two workers in all |
| RunResults.SamePlanSpends | claude_code_core/task_loop.py:787-889 | in a run of the plan the ledger follows, workers a task had and workers it has left never add up to more than before, at any point |
| RunResults.TwoWorkersInAll | claude_code_core/task_loop.py:787-889 | so over all runs of one unedited plan, however they end, a task gets at most two workers in all |
| RunResults.DeliveredIsNotBlocked | claude_code_core/task_loop.py:787-889 | when every worker delivers, no task of a plan without blocked or interrupted tasks is blocked at any point of the run |
| TaskLoop.FirstLook | claude_code_core/task_loop.py:805-833 | taking in the plan at the start leaves an honest ledger in which everything is settled or was interrupted |
| TaskLoop.LookAgain | claude_code_core/task_loop.py:805-810 | looking at the same plan again each round changes nothing |
| TaskLoop.FirstLoad | claude_code_core/task_loop.py:805-833 | the first look at the plan and the restart clean-up together leave the run on track with nothing in flight |
| TaskLoop.Look | claude_code_core/task_loop.py:805-833 | the first look settles what a crash left; every later look at the same plan changes nothing |
| TaskLoop.StartPhase | claude_code_core/task_loop.py:842-859 | the room is the limit read less what is in flight; exactly the scheduler's choice for it takes off, none after a stop; afterwards a stop was requested, or the limit read is reached, or no task of the plan could start beside those in flight |
| TaskLoop.FilledUp | claude_code_core/task_loop.py:842-859 | once what was chosen has taken off, what could not join the choice cannot join what is in flight |
| TaskLoop.Round | claude_code_core/task_loop.py:842-884 | one pass either answers, or lowers the measure and counts at most one round for its starts |
| TaskLoop.Answer | claude_code_core/task_loop.py:1016-1035 | the answer given is the specified one, explained whenever the plan has tasks, on a ledger in which no task of the plan could start |
| TaskLoop.ReadyFits | claude_code_core/task_loop.py:842-857 | what is chosen fits the room left by what is in flight |
| Exports.DependencyOrder | claude_code_core/gowork_export.py:130-147 | returns an order exactly when one exists (always for an acyclic closed graph): a permutation of the tasks, each after its dependencies, and the least such order by plan position; otherwise exactly the tasks that no order of tasks after their dependencies ever gets to, in plan order |
| Exports.GreedyIsLeast | claude_code_core/gowork_export.py:130-147 | always taking the first task that can go next yields an order whose first difference from any other valid order is an earlier task of the plan |
| Exports.StuckMeansNoOrder | claude_code_core/gowork_export.py:139-146 | once every remaining task waits for another remaining one, no valid order of the tasks exists |
| Exports.SomethingIsUnheld | claude_code_core/gowork_export.py:139-146 | a closed acyclic graph always has a task that can go next |
| Exports.ByOutcome | claude_code_core/gowork_export.py:293-293 | the dictionary by outcome holds, for repeated outcomes, the last task, and its values are distinct |
| Exports.CheckboxOrderProblem | claude_code_core/gowork_export.py:290-310 | no problem exactly when the lines match the plan's outcomes one to one and each line comes after the lines of its dependencies; a mismatch exactly when they do not match one to one; otherwise the first line that comes too early, with the first of its dependencies that has no line above it |
| Exports.EarlyDependency | claude_code_core/gowork_export.py:300-310 | reports a line exactly when some line has a dependency without a line above it: the first such line, and the first such dependency of its task |
| Exports.OwnOrderPasses | claude_code_core/gowork_export.py:130-147 | the exported list, in dependency order, passes the checkbox check if and only if no two tasks share an outcome |
| Exports.PassingBuildsInOrder | claude_code_core/gowork_export.py:290-310 | a list that passes builds each task once and never too early if and only if no two tasks share an outcome |
| Exports.SharedOutcomeHidesATask | claude_code_core/gowork_export.py:293-299 | with a shared outcome the check accepts a list that leaves one of the two tasks out |
| Admission.Choose | claude_code_core/gowork_admission.py:208-214 | somebody is chosen exactly when somebody in line has room, and the chosen one is in line with room |
| Admission.ChooseIsFair | claude_code_core/gowork_admission.py:208-214 | nobody with room has a better claim: starving before patient, then reviews, then most unblocked work, then age |
| Admission.ChoiceReads | claude_code_core/gowork_admission.py:208-214 | in numbers: of everybody in line whose slot would fit, the chosen one has been passed over three times if anybody has; among those alike in that a review comes first, then what unblocks more, then what came earlier |
| Admission.WakeKeeps | claude_code_core/gowork_admission.py:185-206 | waking conserves every slot and ends with no live waiter beside room for it |
| Admission.RequestKeeps | claude_code_core/gowork_admission.py:137-179 | a request keeps the books, admitted at once or queued |
| Admission.AdmittedWithinCeiling | claude_code_core/gowork_admission.py:129-152 | a task or review is admitted on the spot exactly when nobody waits and one more slot, counted over all kinds, stays within the ceiling, the reserve left free for a task; a chat always is; exactly one slot of its kind is then held more |
| Admission.LineWithinCeiling | claude_code_core/gowork_admission.py:129-206 | over every interleaving, whoever is admitted from the line leaves the slots held in all within that ceiling |
| Admission.WaitersDoNotFit | claude_code_core/gowork_admission.py:129-206 | and whoever still waits, after every interleaving, waits because one more slot in all would not fit |
| Admission.QueuedAsMade | claude_code_core/gowork_admission.py:137-152 | a request that waits stands at the end of the line as it was made, with its build's noted count |
| Admission.AdmissionIsNoted | claude_code_core/gowork_admission.py:161-179 | an admission, on the spot or on resuming, counts for its build and clears what was noted of it; a chat counts for nobody |
| Admission.CancelKeeps | claude_code_core/gowork_admission.py:153-156 | cancelling a waiter in line keeps the books |
| Admission.ResumeExchanges | claude_code_core/gowork_admission.py:161-168 | a resuming request turns the slot granted to it into one it holds, one for one; held counts and the line stay |
| Admission.AbandonGivesBack | claude_code_core/gowork_admission.py:153-160 | a request that gives up is gone from line and grants; its slot is back if it had one, and nobody else changes standing |
| Admission.ReleaseGivesOneBack | claude_code_core/gowork_admission.py:181-183 | one held slot of that kind comes back if one is held, and nothing else moves |
| Admission.CapacityLeavesHeld | claude_code_core/gowork_admission.py:101-107 | held slots, grants and line stay whatever the ceiling; the reserve stays unless the ceiling no longer leaves room for it; a ceiling below one changes nothing |
| Admission.StepKeeps | claude_code_core/gowork_admission.py:101-206 | after every step held slots of each kind equal reservations holding plus grants not yet resumed, and no live waiter has room |
| Admission.RunKeeps | claude_code_core/gowork_admission.py:101-206 | over every interleaving of requests, cancellations, resumptions, releases and capacity changes |
| Admission.ReleaseNeverClamps | claude_code_core/gowork_admission.py:181-183 | the floor at zero under a release is never needed |
| Admission.BoundedBypass | claude_code_core/gowork_admission.py:185-214 | from any state and over every interleaving, a waiting request is bypassed while it has room, by a patient request of another build, at most as often as it still has to be passed over to starve, counting what it can still meet afterwards: never more than AGE_LIMIT for a count that starts at zero or more |
| Admission.GrantUsesPatience | claude_code_core/gowork_admission.py:194-214 | each bypass uses up one such turn, and a starving request is never bypassed |
| Admission.StepUsesPatience | claude_code_core/gowork_admission.py:137-206 | no step gives a waiting request its turns back |
| Admission.PassingIsNoted | claude_code_core/gowork_admission.py:195-202 | what is kept on disk for a build that was passed over is the new count of its last request in line; its admissions stay as they were |
| Admission.NothingNoted | claude_code_core/gowork_admission.py:195-202 | nothing changes on disk for a build with nobody passed over |
| Admission.RestartKeepsThePlace | claude_code_core/gowork_admission.py:85-94 | a controller opened with any counts bypasses a build's first request in line, over everything other builds do before and anybody does afterwards, at most AGE_LIMIT minus the noted count times |
| Admission.OneRequestIsOnDisk | claude_code_core/gowork_admission.py:137-202 | while a build has one request in line and makes no other, what is noted of it is how often that request was passed over, after every step of every interleaving |
| Admission.RestartAddsUp | claude_code_core/gowork_admission.py:85-202 | for such a build the bypasses before and after a restart add up: together at most AGE_LIMIT minus what was noted when it first asked |
| Admission.SiblingsShareOneNote | claude_code_core/gowork_admission.py:161-202 | with two requests of one build in line the note tells the earlier one's count if and only if both were passed over equally often, and a sibling that resumes resets it |
| Admission.WakeIsFair | claude_code_core/gowork_admission.py:185-214 | everyone admitted from the line was live and had the best claim at that moment |
| Admission.NoJumpingTheLine | claude_code_core/gowork_admission.py:137-168 | behind a non-empty line a task or review is admitted only by being chosen from the line |
| Admission.NobodyIsForgotten | claude_code_core/gowork_admission.py:137-206 | a live request leaves the line only with a slot or by its own cancellation |
| Admission.TasksLeaveTheReserve | claude_code_core/gowork_admission.py:129-135 | while the ceiling is never lowered, running tasks stay within capacity minus reserve |
| Admission.ReviewsWaitForReviews | claude_code_core/gowork_admission.py:129-135 | then, with no chat open, a review waits only when reviews already hold at least the reserve |
| Admission.LoweringOvershoots | claude_code_core/gowork_admission.py:101-107 | lowering the ceiling can leave more tasks running than the new share, since held slots stay held |
| Admission.OpensSound | claude_code_core/gowork_admission.py:85-94 | the controller opens in order, whatever fairness counts an earlier run left |
| AdmissionControl.AdmissionController.constructor | claude_code_core/gowork_admission.py:85-94 | the object opens in the specified state |
| AdmissionControl.AdmissionController.Acquire | claude_code_core/gowork_admission.py:137-179 | takes the request step; a queued request waits live in line or already has its slot |
| AdmissionControl.AdmissionController.CancelWaiting | claude_code_core/gowork_admission.py:153-156 | takes the cancellation step |
| AdmissionControl.AdmissionController.Resumed | claude_code_core/gowork_admission.py:163-168 | takes the resumption step |
| AdmissionControl.AdmissionController.Abandoned | claude_code_core/gowork_admission.py:155-162 | takes the abandonment step, waking others when a slot came free |
| AdmissionControl.AdmissionController.Released | claude_code_core/gowork_admission.py:181-183 | takes the release step; a reservation not held releases nothing |
| AdmissionControl.AdmissionController.ChangeCapacity | claude_code_core/gowork_admission.py:101-107 | takes the capacity step, or refuses a ceiling below one unchanged |
| AdmissionControl.AdmissionController.WakeLine | claude_code_core/gowork_admission.py:185-206 | the loop that sweeps, chooses and grants equals the specified waking and restores the invariant |
| AdmissionControl.AdmissionController.PassOthers | claude_code_core/gowork_admission.py:195-202 | everyone of another build still in line has been passed over once more, in line and on disk |
| Capacity.HealthyNeedsEverything | claude_code_core/gowork_resources.py:83-99 | a reading is healthy only with every value readable and none in trouble; it is critical exactly when some readable value is |
| Capacity.PressureReads | claude_code_core/gowork_resources.py:64-99 | every reading by what the host said: critical below 1024 MB free memory or disk or above 512 MB swap, unknown when a value is missing, constrained below a fifth of the smaller memory or above four fifths of the fewer processors, host or limit, and healthy otherwise |
| Capacity.MemoryHelps | claude_code_core/gowork_resources.py:73-99 | more free memory, all else equal, never classifies worse |
| Capacity.FitIsLargest | claude_code_core/gowork_resources.py:102-112 | the answer is the largest number of workers that fits above the headroom, and zero when none does |
| Capacity.WorkerPeaks.Observe | claude_code_core/gowork_resources.py:122-125 | a worker's peak never falls while it is watched and covers the reading just made |
| Capacity.WorkerPeaks.Typical | claude_code_core/gowork_resources.py:133-135 | at least the default and every peak, and equal to one of them |
| Capacity.TypicalIsUnique | claude_code_core/gowork_resources.py:133-135 | that determines the typical size |
| Capacity.ForgettingShrinks | claude_code_core/gowork_resources.py:130-135 | forgetting a worker never makes the typical size larger, and smaller only if that worker's peak was the largest |
| Capacity.RunKeepsValid | claude_code_core/gowork_capacity.py:68-119 | over every sequence of readings and limit changes the measured capacity stays between one and the ceiling |
| Capacity.GivenOutIsBounded | claude_code_core/gowork_capacity.py:104-119 | the capacity given out is at most the ceiling and the external limit, and at least one exactly when that limit is |
| Capacity.HealthyGrowth | claude_code_core/gowork_capacity.py:90-102 | a healthy reading raises it by at most the growth step and, beyond one worker, only as far as held slots and what fits above the headroom |
| Capacity.HealthyIsGreedy | claude_code_core/gowork_capacity.py:90-102 | with no cooldown every size within the ceiling, the growth step and the free memory is reached, so the new capacity is the largest such one |
| Capacity.HealthyReaches | claude_code_core/gowork_capacity.py:90-103 | exactly how far it goes, cooling down or not: beyond one worker n are allowed if and only if n is within the ceiling and the growth step, no step while cooling down, and those not held yet fit above the headroom |
| Capacity.OthersLeave | claude_code_core/gowork_capacity.py:76-89 | what the other readings leave, exactly: one less than is used but at least one, what is held within one and the ceiling, or the starting size and what is used beyond it |
| Capacity.DecisionSays | claude_code_core/gowork_capacity.py:72-119 | starts pause exactly on critical and constrained readings, one worker is cancelled exactly on a critical one with two or more held, and the capacity is the measured one or the smaller limit |
| Capacity.LimitHolds | claude_code_core/gowork_capacity.py:62-119 | a limit, or having none, holds for every reading from then on; one below one is not taken |
| Capacity.ZeroLimitStops | claude_code_core/gowork_capacity.py:37-56 | an operator limit of zero at construction keeps the capacity given out at zero over every sequence of readings |
| Capacity.CriticalSheds | claude_code_core/gowork_capacity.py:76-81 | a critical reading never raises it, sheds one when more than one slot is held, and cancels only what is held |
| Capacity.NoGrowthUnlessHealthy | claude_code_core/gowork_capacity.py:76-89 | other readings allow no start beyond the slots held and the starting size |
| Capacity.UnknownRestoresStart | claude_code_core/gowork_capacity.py:87-89 | an unknown reading raises a shed capacity back to the starting size, although its reason says it is not growing |
| Capacity.CooldownSeparates | claude_code_core/gowork_capacity.py:82-103 | between a constrained or critical reading and the next healthy raise there are at least cooldown_ticks other healthy readings |
| Capacity.CooldownLasts | claude_code_core/gowork_capacity.py:95-98 | only healthy readings use the cooldown up, one each |
| Capacity.GrowsAgain | claude_code_core/gowork_capacity.py:76-98 | after a constrained or critical reading, and until the next one, growth by the step is back exactly when cooldown_ticks healthy readings have been made |
| Capacity.CapacityPolicy.constructor | claude_code_core/gowork_capacity.py:37-56 | opens at the starting capacity; the operator limit is taken unchecked |
| Capacity.CapacityPolicy.SetExternalLimit | claude_code_core/gowork_capacity.py:62-66 | limits below one are refused and change nothing |
| Capacity.CapacityPolicy.DecideOn | claude_code_core/gowork_capacity.py:68-114 | the branching update equals the specified decision and next state |
| Recovery.DelayIsBounded | claude_code_core/capacity_policy.py:147-169 | every wait lies between the minimum and the maximum if and only if minimum does not exceed maximum |
| Recovery.DelayReads | claude_code_core/capacity_policy.py:147-169 | a positive hint, brought within the bounds, is the wait; without one it is the bounded backoff with the drawn share of the jitter on top, bounded again |
| Recovery.BackoffReads | claude_code_core/capacity_policy.py:162-165 | the backoff starts at the base delay and every further attempt multiplies it |
| Recovery.BackoffGrows | claude_code_core/capacity_policy.py:162-165 | without a hint a later attempt never waits less, for the same draw |
| Recovery.RetryIsDueInTime | claude_code_core/capacity_policy.py:353-382 | every retry is due by the deadline and not in the past |
| Recovery.RetryWaits | claude_code_core/capacity_policy.py:372-382 | a retry waits just as long as asked, unless the deadline comes first, and then until the deadline |
| Recovery.DecisionReads | claude_code_core/capacity_policy.py:316-359 | a failure for good stops the turn and is forgotten; output that went out makes it ambiguous; a disabled policy gives up |
| Recovery.GivesUpInTime | claude_code_core/capacity_policy.py:344-359 | by the max_attempts-th retryable failure the turn is exhausted or ambiguous |
| Recovery.GoesOnUntilThen | claude_code_core/capacity_policy.py:344-382 | before that, an enabled turn without output goes on exactly while there is time |
| Recovery.GoesOnWithinTheWindow | claude_code_core/capacity_policy.py:329-382 | and there is time exactly while less than the total window has passed since the first retryable failure of the turn |
| Recovery.WaitsFitTheWindow | claude_code_core/capacity_policy.py:353-382 | the waits a caller honours add up to no more than the total window, for a clock that does not run backwards |
| Recovery.FallbacksInOrder | claude_code_core/capacity_policy.py:361-370 | each fallback target is entered at most once, in chain order, and the index tells which is in use |
| Recovery.TargetsGetTheirShare | claude_code_core/capacity_policy.py:361-370 | from one fallback, or the start of the turn, up to any later fallback there are at least fallback_after_attempts retryable failures |
| Recovery.NoMoreThanItsShare | claude_code_core/capacity_policy.py:361-382 | a target is retried once more only while its retryable failures since it was entered are below that number, or when nothing follows in the chain |
| Recovery.CountsSinceEntered | claude_code_core/capacity_policy.py:329-331 | what is counted for a target are the retryable failures since it was entered, exactly, while no fallback comes between |
| Recovery.RunKeepsSane | claude_code_core/capacity_policy.py:316-382 | attempts count exactly the retryable failures, and the index stays in the chain |
| Recovery.RecoveryTracker.Next | claude_code_core/capacity_policy.py:316-382 | one call equals the specified decision and next state |
| Pacing.StepKeepsPace | claude_code_core/pacer.py:91-177 | every step keeps at most one timer task, a timer whenever something waits, and sends at least the interval apart |
| Pacing.StepAccounts | claude_code_core/pacer.py:91-177 | every step keeps each submission sent once, waiting, or superseded by a later one for its key |
| Pacing.RunKeepsPace | claude_code_core/pacer.py:91-177 | both over every interleaving of submissions and timer steps |
| Pacing.WaitingHasATimer | claude_code_core/pacer.py:152-177 | while anything waits exactly one timer task is there to send it |
| Pacing.GoesOutAtOnce | claude_code_core/pacer.py:91-105 | a submission goes out at once exactly when nobody waits, no timer task is there and the interval has passed since every send; else nothing does |
| Pacing.TimerIsPunctual | claude_code_core/pacer.py:161-172 | a timer task sends the longest-waiting update at once when the interval has passed, and otherwise sleeps to exactly that moment |
| Pacing.TimerGoesOn | claude_code_core/pacer.py:161-177 | awake it sends that update; after a send there is a next timer task if and only if somebody waits |
| Pacing.PutReplaces | claude_code_core/pacer.py:99-105 | holding an update replaces the one waiting for its key and no other |
| Pacing.TurnComes | claude_code_core/pacer.py:161-177 | a key with j others ahead is the one sent in the j+1st slot, whatever is submitted meanwhile |
| Pacing.UpdatePacer.SubmitUpdate | claude_code_core/pacer.py:91-105 | takes the submission step: sent at once when due, held otherwise |
| Pacing.UpdatePacer.TimerStarts | claude_code_core/pacer.py:161-172 | takes the timer's first step: to its sleep, or straight to sending |
| Pacing.UpdatePacer.TimerWakes | claude_code_core/pacer.py:168-172 | sends the longest-waiting target's update |
| Pacing.UpdatePacer.TimerFinishes | claude_code_core/pacer.py:173-177 | ends the timer task and starts another when someone still waits |
| PlanText.TaskBlocks | claude_code_core/task_loop.py:147-163 | the scanning loop yields the specified blocks |
| PlanText.BlocksAreBlocks | claude_code_core/task_loop.py:147-163 | each block is a task line and the whole run of details under it, ending where no detail follows |
| PlanText.TaskOpensBlock | claude_code_core/task_loop.py:147-163 | every task line, indented or not, opens a block of its own |
| PlanText.LabelsOfBlocks | claude_code_core/task_loop.py:374-382 | the labels a parse finds, open or all, are those of the task lines |
| PlanText.BodiesAreBlocks | claude_code_core/task_loop.py:147-163 | block texts and block positions describe the same blocks |
| PlanText.BodiesJoin | claude_code_core/task_loop.py:147-163 | texts joined at a line that is no detail keep their blocks apart |
| Merges.MergeOpenTasks | claude_code_core/task_loop.py:364-422 | the loops (blocks, additions, drop set, assembly) compute the merge that MergePlaces.MergeAddsExactly and Merges.MergeKeepsLines describe line by line |
| Merges.MergeIsNone | claude_code_core/task_loop.py:364-422 | None exactly when no removed step is open in the copy and no newly opened step is missing from it |
| Merges.MergeOpens | claude_code_core/task_loop.py:364-422 | re-parsing gives as open steps the copy's without the removed ones, with those newly opened that the copy did not list |
| Merges.MergeOpensAll | claude_code_core/task_loop.py:384-388 | that is every newly opened step if and only if the copy holds none of them only as ticked |
| Merges.ReopenedStepStaysDone | claude_code_core/task_loop.py:384-390 | a step the planner reopens stays ticked in the copy |
| Merges.MergeKeepsBlocks | claude_code_core/task_loop.py:392-422 | ticked steps come through line for line in order, and the blocks are exactly the kept and the added ones: none is split or absorbs another |
| Merges.MergeKeepsLines | claude_code_core/task_loop.py:392-422 | every line of the merged text is a line of the copy or of an addition, each of those comes through exactly once apart from the lines of removed open steps, and they stand by place, at one place the additions in their order before the copy's own line |
| MergePlaces.MergeAddsExactly | claude_code_core/task_loop.py:384-415 | exactly the steps newly opened that the copy does not list are added, in plan order, each with all its lines, and each in its right place: behind the last earlier step of the plan that the copy lists and the planner kept, else in front of the first open step that stays, else behind the last step, else at the end |
| MergePlaces.PlaceIsRight | claude_code_core/task_loop.py:398-411 | the place computed for a step is that one, said by the lines of copy and plan alone |
| Merges.MergeSettles | claude_code_core/task_loop.py:364-422 | applying the same edit again changes nothing |
| Merges.WovenBodies | claude_code_core/task_loop.py:416-421 | the blocks of the merged text, in order, are the kept ones with the additions at their places |
| Merges.BlocksCounted | claude_code_core/task_loop.py:392-421 | counted with multiplicity, the blocks are the kept ones and the added ones |
| Merges.TickedStay | claude_code_core/task_loop.py:392-421 | the ticked blocks are those of the copy |
| Merges.OpenAfter | claude_code_core/task_loop.py:379-421 | the open labels of any such merge, and that kept labels stay listed |
| Merges.FindPlace | claude_code_core/task_loop.py:398-411 | an added step goes behind the nearest earlier step that the copy lists and the planner kept, else to the fallback |
| Merges.AddsTidy | claude_code_core/task_loop.py:384-415 | every addition is one whole open step at a place that splits nothing, and the additions are the new steps |
| Merges.DropSet | claude_code_core/task_loop.py:392-397 | the dropped line numbers are exactly the lines of open steps the planner removed |
| Merges.GatherInserts | claude_code_core/task_loop.py:399-415 | the inserts by place hold the additions, in plan order |
| Grouping.DependsOnLabels | claude_code_core/task_loop.py:212-233 | the nested scans find the specified steps: by backticked id first, else by label, never the step itself |
| Grouping.NamedStepsAreFound | claude_code_core/task_loop.py:212-233 | a dependency that names another step always brings in a step it names |
| Dispatches.DependencyBringsIn | claude_code_core/task_loop.py:212-233 | each dependency brings in at most one more step: the first other step it names by id in backquotes and, only when it names none so, the first it names by label |
| Dispatches.WaitsOnlyForNamed | claude_code_core/task_loop.py:212-233 | a step waits only for steps that one of its dependencies names |
| Dispatches.NamesMean | claude_code_core/task_loop.py:212-233 | naming is standing anywhere in the text of the dependency, the id in backquotes or the label |
| Grouping.OverlapIsCommonFile | claude_code_core/gowork_plan.py:488-494 | two owned paths overlap exactly when some file may be covered by both |
| Grouping.ConstrainedIsSound | claude_code_core/task_loop.py:317-361 | whatever is suggested - duplicates, unknown or missing labels - every open step comes out exactly once, and a group of two or more is free of conflicts with all prerequisites in strictly earlier groups |
| Grouping.ConstrainGroups | claude_code_core/task_loop.py:317-361 | the loops compute those groups and their labels |
| Suggestions.ReturnedAsGiven | claude_code_core/task_loop.py:317-361 | with nothing declared and labels of their own, a suggestion comes back as it was given if and only if it names every open step once and nothing else, in groups that are not empty and read in plan order |
| Suggestions.AdviceIsReordered | claude_code_core/task_loop.py:317-361 | two open steps with nothing declared, suggested as B, A, come back as A, B |
| Grouping.GroupMeans | claude_code_core/task_loop.py:300-361 | members of a group wait only for earlier groups and, once anything is declared, own no common file or resource |
| Dispatches.ConflictExactly | claude_code_core/task_loop.py:300-315 | once anything is declared two steps conflict unless both own something and no file and no resource is both's; with nothing declared none do |
| Dispatches.RunsNowExactly | claude_code_core/task_loop.py:341-350 | a step of a suggested group runs now exactly when it waits for nobody outside earlier groups and is exclusive with those ahead of it that do; else it is held back |
| Dispatches.GroupsInOrder | claude_code_core/task_loop.py:317-361 | suggestion by suggestion the steps that run now come first, as one group, then the ones held back, each alone; the steps nobody suggested come last, each alone; all in plan order |
| Dispatches.IndependentStepsGoTogether | claude_code_core/task_loop.py:1101-1120 | steps that wait for nobody and share nothing, suggested with the first open step among them, are all dispatched together up to the limit, however the suggestion orders or repeats them |
| Grouping.PlacedIsSound | claude_code_core/task_loop.py:341-356 | placing one suggested group keeps the groups sound and places exactly its steps |
| Grouping.SplitKeepsAll | claude_code_core/task_loop.py:341-350 | splitting a group into those that run now and those held loses and repeats nothing |
| Grouping.CurrentIsCompatible | claude_code_core/task_loop.py:343-350 | those that run now wait for nothing still open and do not conflict pairwise |
| Grouping.SplitGroup | claude_code_core/task_loop.py:341-350 | the loop computes that split |
| Grouping.TakeLabels | claude_code_core/task_loop.py:323-333 | the loop takes exactly the specified steps for a list of labels |
| Grouping.MentionsTake | claude_code_core/task_loop.py:323-333 | each mention of a label takes another unused step of that label, earlier steps first, for as long as there are any; further mentions take nothing |
| Grouping.AdviceStands | claude_code_core/task_loop.py:341-350 | with nothing declared everybody in a suggested group runs now and nobody is held back |
| Grouping.ParallelGroup | claude_code_core/task_loop.py:1101-1120 | dispatches the first of the repaired groups, cut to the limit, when it names the first open step; two or more only if none waits for an open step and none conflict; the first open step leads them if and only if it waits for nobody, and always when its label is its own |
| Dispatches.DispatchedExactly | claude_code_core/task_loop.py:1101-1120 | the steps of the suggestion that run now are dispatched, cut to the limit, exactly when they are two or more, the first open step's label is among them, nothing is noted and that step need not go alone; otherwise at most one is |
| Grouping.NamesakeGoesFirst | claude_code_core/task_loop.py:1117-1120 | with two open steps X of which the first waits for Y, the suggestion X, X, Z dispatches the second X and Z: a group without the first open step |
| Sse.Decode | claude_code_core/agui_backend.py:454-498 | for every way of cutting the stream, success yields the frames of reading the whole input line by line; it succeeds exactly while the counted bytes fit at every cut; on refusal the frames are exactly those completed before the line that was refused, in the first chunk at which the count does not fit |
| Sse.TakeLines | claude_code_core/agui_backend.py:461-488 | the inner loop takes out exactly the complete lines, stops exactly when an event is counted too large, and has taken out every event completed before that |
| Sse.BeforeTheRefused | claude_code_core/agui_backend.py:461-488 | what is completed before a refusal, and that the next line or the unfinished rest is what exceeds the limit |
| Sse.FramesReadOn | claude_code_core/agui_backend.py:460-488 | reading in two parts gives the frames of the whole, given the open event and the unfinished line |
| Sse.RestReadsOn | claude_code_core/agui_backend.py:460-488 | and leaves the same open event and unfinished line |
| Sse.CountReadsOn | claude_code_core/agui_backend.py:463-471 | what is counted so far carries over a cut |
| Sse.CountsLess | claude_code_core/agui_backend.py:463-471 | the decoder never counts more bytes than were received |
| Sse.TooLarge | claude_code_core/agui_backend.py:463-471 | a refused prefix means some event of the whole input exceeds the limit |
| Sse.CutsMatter | claude_code_core/agui_backend.py:454-471 | carriage returns before a newline make the outcome depend on the cut: one input, in pieces of at most 8192 bytes as the client delivers them, fits at every cut of one delivery and not of another that differs in its last cut |
| Sse.EveryBeginningFits | claude_code_core/agui_backend.py:454-471 | a condition on the input read line by line says exactly when every beginning of it fits |
| Sse.ReadHoweverCut | claude_code_core/agui_backend.py:454-471 | an input is read however it is cut, pieces of at most 8192 bytes included, if and only if it meets that condition |
| Sse.CutsDoNotMatter | claude_code_core/agui_backend.py:454-471 | the outcome is the same for every delivery of an input if and only if it does not fit even in one piece, or meets that condition |
| Sse.WrittenIsRead | claude_code_core/agui_backend.py:472-498 | reading back written events gives the events |
| Sse.EventIsItsData | claude_code_core/agui_backend.py:472-488 | whatever lines stand before a blank one are one event with the data they carry, in order, or none when they carry no data, and reading goes on as at the start |
| Sse.LastEventIsItsData | claude_code_core/agui_backend.py:490-498 | at the end the last event needs no blank line, and its last line no newline as long as it is data with a colon |
| Sse.DataReads | claude_code_core/agui_backend.py:479-488 | a data line carries what follows its colon without one leading space, and nothing when it has no colon; other lines carry no data |
| Sse.ReturnsGo | claude_code_core/agui_backend.py:468-468 | all carriage returns at the end of a line go, and nothing else |
| Sse.EventFitsExactly | claude_code_core/agui_backend.py:463-471 | an event is counted too large exactly when its lines, without returns at their ends but with a byte for each newline, exceed a mebibyte |
| AgUi.CompactMeansTheSame | claude_code_core/agui_backend.py:54-63 | rewriting compact tool calls into start, arguments and end, and identified text chunks into start and content, leaves the output unchanged for every well-formed stream; both break off at the same event, and then the written-out form has put out one thing more exactly when a compact call was open in front of the fault: that call |
| AgUi.FaultAt | claude_code_core/agui_backend.py:54-63 | where a stream breaks off, and that what the fault swallows is the compact call open at that point, if one is |
| AgUi.StepMatches | claude_code_core/agui_backend.py:54-261 | one event and its written-out form do the same, whatever compact call is open; a faulty event loses what the open call's explicit end puts out, and nothing else |
| AgUi.ToolChunkMatches | claude_code_core/agui_backend.py:209-245 | a tool chunk opens, extends or replaces the open call as the written-out events do |
| AgUi.OpenMatchesText | claude_code_core/agui_backend.py:247-261 | an identified text chunk is its content, after a start when the message is new |
| AgUi.EndCloses | claude_code_core/agui_backend.py:228-245 | closing a compact call puts out what its end event would |
| AgUi.OnlyTheLastCallIsOpen | claude_code_core/agui_backend.py:60-63 | a compact call the stream leaves open is the only output its end event would add |
| AgUi.TextAccumulates | claude_code_core/agui_backend.py:109-124 | an open assistant message holds exactly the deltas sent for it, whatever is interleaved |
| AgUi.ShownIsSent | claude_code_core/agui_backend.py:109-124 | each partial text shown is the message as sent up to then, so each extends the one before |
| AgUi.EndShowsAll | claude_code_core/agui_backend.py:126-138 | the end of a message shows all of its text |
| AgUi.ChunkNeedsARole | claude_code_core/agui_backend.py:247-261 | a text chunk breaks the stream exactly when its message has text but was never started |
| AgUi.ContentThenChunk | claude_code_core/agui_backend.py:109-141 | content without a start is accepted, a chunk after it is not |
| AgUi.FaultSwallowsTheCall | claude_code_core/agui_backend.py:59-63 | a compact call with a faulty event behind it: nothing is shown, while the written-out stream shows the call |
| Streams.BreaksExactly | claude_code_core/agui_backend.py:54-261 | an event breaks the stream off exactly when something it must carry is missing |
| Streams.CallShowsAll | claude_code_core/agui_backend.py:143-171 | a tool call is shown with its id, the name of its start and all arguments sent for it since, in order, whatever is interleaved |
| Streams.UnstartedCallShowsAll | claude_code_core/agui_backend.py:151-171 | so is a call nobody started, as unknown |
| Streams.CompactCallShowsAll | claude_code_core/agui_backend.py:209-245 | so is a compact call, by the next event of another kind |
| Streams.CompactCallBegins | claude_code_core/agui_backend.py:209-226 | a chunk that opens a call starts it with its own id, name and piece, and shows the one it replaces |
| Streams.ThoughtShowsAll | claude_code_core/agui_backend.py:184-205 | a thought is everything reasoned since it began, joined, shown unless empty, and the next one begins anew |
| Streams.PassedOn | claude_code_core/agui_backend.py:64-101 | tool results, run starts and failures are passed on as they come, a failure cut at a thousand characters; starts and arguments show nothing |
| Streams.FinishesItsThread | claude_code_core/agui_backend.py:64-87 | a run that finishes without naming its thread belongs to the thread started last |
| Streams.MessageBegins | claude_code_core/agui_backend.py:103-107 | a started message is empty and is the assistant's when nobody says otherwise |
| Streams.PieceShows | claude_code_core/agui_backend.py:109-124 | a piece of an open message shows the text so far |
| Streams.MessageEnds | claude_code_core/agui_backend.py:126-138 | the end of a message shows all of it, unless empty, and forgets it |
| Streams.OthersAreNotShown | claude_code_core/agui_backend.py:109-141 | nobody else's message is shown |
| Streams.UnstartedContentShows | claude_code_core/agui_backend.py:109-138 | content nobody started a message for is shown, and so is its end |
| Streams.LooseChunkShows | claude_code_core/agui_backend.py:247-261 | a text chunk without an id is a message of its own |
| AgUi.AgUiEventMapper.FeedEvent | claude_code_core/agui_backend.py:54-207 | the object moves and replies as specified, closing an open compact call first |
| AgUi.AgUiEventMapper.FeedTexts | claude_code_core/agui_backend.py:103-141 | the message dictionaries move as specified, errors included |
| AgUi.AgUiEventMapper.FeedTools | claude_code_core/agui_backend.py:143-179 | the tool dictionaries move as specified, errors included |
| AgUi.AgUiEventMapper.FeedChunk | claude_code_core/agui_backend.py:209-226 | the compact call fields move as specified, errors included |
| AgUi.AgUiEventMapper.FinishToolChunk | claude_code_core/agui_backend.py:228-245 | clears the open call and puts it out |

## Left out

- Subprocess runners, HTTP, chat surfaces, git worktrees, databases and host probes: foreign calls; their results are arbitrary inputs here.
- JSON text, regular expressions and Markdown: the model starts from parsed records and classified lines; event payloads are lists of data lines, tool arguments raw text.
- Owned paths are sequences of parts, split at `/`; nested project paths and case-insensitive file systems are not modelled.
- Plan.Validate: the schema version number of a manifest is not part of the tree.
- Copies of ownership in records, `updated_at`, project copies, integrated commits and the list of unarchived threads: record copying.
- `note_plan_version` and a person retrying accepted work bypass the version rule on purpose; `Ledger.Retry` is modelled, the loop results assume nobody uses them during a run.
- A crash in the middle of `sync_tree`: a plan edit is one step.
- TaskLoop.RunManifest: starts from a ledger without finished-but-unaccepted records and covers a run in which the plan file does not change; a crash between submitting and accepting leaves such a record and is not recovered by the code either.
- A worker that returns another task's id, and one reservation acquired twice.
- Stop requests and the limit are read once a pass and while the log stands still, so they are functions of its length here.
- Whether a failure reason counts as repairable is an arbitrary predicate; the salvage hook is modelled per record; message texts are abbreviated.
- `retry_after_block` is the block and retry operations one after the other.
- Reports, friction logs, prompts, blocker questions, build queue, guidance and session lifecycle: text building and record copying.
- Text.AttemptIdInjective: for task ids without ':', which the id rules of manifests guarantee.
- Merges.MergeOpenTasks: the copy's last line ends with a newline; the code only repairs the newline of inserted blocks.
- Grouping.DependsOnLabels: how a `Depends on` line is split and stripped into items is not modelled.
- Admission: unbounded waiting is possible under endless requests that unblock more; the bounded form is what is proved. Fairness timestamps and the file they are saved to are left out.
- Capacity and Recovery: real arithmetic, without rounding; timestamps in seconds.
- Recovery.BackoffGrows: for a multiplier of at least one and non-negative base and jitter; with others the delay may shrink.
- Pacing: `flush` and `close` are left out, since spacing is promised only without them; a sleep lasts at least as long as asked.
- AgUi.CompactMeansTheSame: tool chunks that open a call with an id an explicit call is using, or text chunks of messages never started, are outside the well-formed streams it speaks of.
- AgUi: tool categories and argument parsing; the identifier made up for an anonymous text chunk is an input of the event.
