/**
 * A rooted tree of plans with an acyclic task graph: what the validator accepts,
 * and which tasks may be in flight together.
 */
module Plan {
  import opened Common
  import opened Graph

  datatype Project = Project(path: string)

  datatype PlanIdentity = PlanIdentity(id: Id, version: int, project: Project, parent: Option<Id>)

  /** An owned path as the parts between its '/' separators. */
  type OwnedPath = seq<string>

  /** A file inside a project, as its directory names and file name. */
  type FilePath = seq<string>

  /** `inputs` holds what each required input names before its first ':'. */
  datatype Task = Task(
    id: Id, planId: Id, planVersion: int, outcome: string, deps: seq<Id>,
    files: seq<OwnedPath>, resources: seq<Id>, inputs: seq<Id>, requirement: Id)

  datatype Tree = Tree(plans: seq<PlanIdentity>, tasks: seq<Task>, requirements: seq<Id>, legacy: bool)

  datatype Problem =
    | NoPlans
    | DuplicatePlan(id: Id)
    | UnknownParent(id: Id)
    | ParentCycle(loop: seq<Id>)
    | NotOneMaster(found: nat)
    | DuplicateTask(id: Id)
    | UnknownPlan(id: Id)
    | VersionMismatch(id: Id)
    | SelfDependency(id: Id)
    | RepeatedDependency(id: Id, dep: Id)
    | UnknownDependency(id: Id, dep: Id)
    | DependencyCycle(cycle: seq<Id>)
    | UnnamedCrossProjectInput(id: Id, dep: Id)
    | UnsafeFile(id: Id, path: OwnedPath)
    | DuplicateRequirement(id: Id)
    | NoRequirements
    | UnknownRequirement(id: Id)
    | UncoveredRequirement(id: Id)

  // -- lookups -------------------------------------------------------------------

  function PlanOf(plans: seq<PlanIdentity>, id: Id): (r: Option<PlanIdentity>)
    ensures r.Some? ==> r.value in plans && r.value.id == id
    ensures r.None? ==> forall p :: p in plans ==> p.id != id
  {
    if plans == [] then None
    else if plans[0].id == id then Some(plans[0])
    else PlanOf(plans[1..], id)
  }

  function TaskOf(tasks: seq<Task>, id: Id): (r: Option<Task>)
    ensures r.Some? ==> r.value in tasks && r.value.id == id
    ensures r.None? ==> forall t :: t in tasks ==> t.id != id
  {
    if tasks == [] then None
    else if tasks[0].id == id then Some(tasks[0])
    else TaskOf(tasks[1..], id)
  }

  ghost predicate DistinctPlans(plans: seq<PlanIdentity>) {
    forall i, j :: 0 <= i < j < |plans| ==> plans[i].id != plans[j].id
  }

  ghost predicate DistinctTasks(tasks: seq<Task>) {
    forall i, j :: 0 <= i < j < |tasks| ==> tasks[i].id != tasks[j].id
  }

  lemma {:induction false} TaskFound(tasks: seq<Task>, t: Task)
    requires DistinctTasks(tasks) && t in tasks
    ensures TaskOf(tasks, t.id) == Some(t)
  {
  }

  lemma FirstIsOnly(tasks: seq<Task>)
    requires DistinctTasks(tasks) && tasks != []
    ensures DistinctTasks(tasks[1..]) && TaskOf(tasks[1..], tasks[0].id).None?
  {
  }

  lemma FirstPlanIsOnly(plans: seq<PlanIdentity>)
    requires DistinctPlans(plans) && plans != []
    ensures DistinctPlans(plans[1..]) && PlanOf(plans[1..], plans[0].id).None?
  {
  }

  // -- the plan tree ---------------------------------------------------------------

  ghost function ParentsOf(plans: seq<PlanIdentity>): (up: Parents)
    ensures forall k :: 0 <= k < |plans| ==> plans[k].id in up
    ensures DistinctPlans(plans) ==> forall k :: 0 <= k < |plans| ==> up[plans[k].id] == plans[k].parent
  {
    assert plans != [] ==> plans == plans[..|plans| - 1] + [plans[|plans| - 1]];
    if plans == [] then map[]
    else var n := |plans| - 1; ParentsOf(plans[..n])[plans[n].id := plans[n].parent]
  }

  lemma {:induction false} ParentHasPlan(plans: seq<PlanIdentity>, v: Id) returns (k: nat)
    requires v in ParentsOf(plans)
    ensures k < |plans| && plans[k].id == v
  {
    var n := |plans| - 1;
    if plans[n].id == v {
      k := n;
    } else {
      k := ParentHasPlan(plans[..n], v);
    }
  }

  ghost predicate Reaches(up: Parents, v: Id, top: Id) {
    exists n: nat :: Climb(up, Some(v), n) == Some(top)
  }

  ghost predicate IsMaster(plans: seq<PlanIdentity>, up: Parents, m: int) {
    && 0 <= m < |plans| && plans[m].parent.None?
    && forall k :: 0 <= k < |plans| ==> Reaches(up, plans[k].id, plans[m].id)
  }

  /** Every plan reaches the one master through its parents. */
  ghost predicate RootedTree(plans: seq<PlanIdentity>) {
    && DistinctPlans(plans)
    && ClosedParents(ParentsOf(plans))
    && exists m :: IsMaster(plans, ParentsOf(plans), m)
  }

  lemma {:induction false} ClimbOnce(up: Parents, from: Option<Id>, n: nat, v: Id)
    requires Climb(up, from, n) == Some(v) && v in up
    ensures Climb(up, from, n + 1) == up[v]
    decreases n
  {
    if n == 0 {
      assert Climb(up, up[v], 0) == up[v];
    } else {
      ClimbOnce(up, up[from.value], n - 1, v);
    }
  }

  /** Whatever reaches a plan without a parent runs out of parents, and stops nowhere else. */
  lemma MasterIsTop(up: Parents, v: Id, master: Id)
    requires master in up && up[master].None? && Reaches(up, v, master)
    ensures ReachesTop(up, v)
    ensures v in up && up[v].None? ==> v == master
  {
    var n: nat :| Climb(up, Some(v), n) == Some(master);
    ClimbOnce(up, Some(v), n, master);
    assert Climb(up, Some(v), n + 1).None?;
    if v in up && up[v].None? {
      TopIsTheEnd(up, v, n);
    }
  }

  lemma {:induction false} TopIsTheEnd(up: Parents, v: Id, n: nat)
    requires v in up && up[v].None?
    ensures Climb(up, Some(v), n).Some? ==> n == 0 && Climb(up, Some(v), n) == Some(v)
  {
    if n > 0 {
      assert Climb(up, up[v], n - 1).None?;
    }
  }

  /** Where the plans that name no parent stand, from position i on. */
  function Roots(plans: seq<PlanIdentity>, i: nat): (r: seq<nat>)
    requires i <= |plans|
    ensures forall k :: k in r <==> i <= k < |plans| && plans[k].parent.None?
    ensures forall a, b :: 0 <= a < b < |r| ==> r[a] < r[b]
    decreases |plans| - i
  {
    if i == |plans| then []
    else if plans[i].parent.None? then
      var rest := Roots(plans, i + 1);
      assert forall b :: 0 <= b < |rest| ==> rest[b] in rest;
      [i] + rest
    else Roots(plans, i + 1)
  }

  lemma FirstBelowSecond(r: seq<nat>)
    requires forall a, b :: 0 <= a < b < |r| ==> r[a] < r[b]
    ensures |r| >= 2 ==> r[0] < r[1]
  {
  }

  lemma {:induction false} RootedHasOneRoot(plans: seq<PlanIdentity>)
    requires RootedTree(plans)
    ensures DistinctPlans(plans) && ClosedParents(ParentsOf(plans)) && plans != []
    ensures |Roots(plans, 0)| == 1
    ensures forall v :: v in ParentsOf(plans) ==> ReachesTop(ParentsOf(plans), v)
  {
    hide ParentsOf, Reaches, ReachesTop, Climb;
    var up := ParentsOf(plans);
    var m :| IsMaster(plans, up, m);
    forall k | 0 <= k < |plans| ensures ReachesTop(up, plans[k].id) && (plans[k].parent.None? ==> k == m) {
      MasterIsTop(up, plans[k].id, plans[m].id);
    }
    forall v | v in up ensures ReachesTop(up, v) {
      var k := ParentHasPlan(plans, v);
    }
    var roots := Roots(plans, 0);
    assert m in roots;
    forall a | 0 <= a < |roots| ensures roots[a] == m {
      assert roots[a] in roots;
    }
    FirstBelowSecond(roots);
  }

  lemma {:induction false} OneRootIsMaster(plans: seq<PlanIdentity>)
    requires DistinctPlans(plans) && ClosedParents(ParentsOf(plans))
    requires |Roots(plans, 0)| == 1
    requires forall v :: v in ParentsOf(plans) ==> ReachesTop(ParentsOf(plans), v)
    ensures RootedTree(plans)
  {
    hide ParentsOf, Climb;
    var up := ParentsOf(plans);
    var roots := Roots(plans, 0);
    var m := roots[0];
    assert m in roots;
    forall k | 0 <= k < |plans| ensures Reaches(up, plans[k].id, plans[m].id) {
      assert ReachesTop(up, plans[k].id);
      var n: nat :| Climb(up, Some(plans[k].id), n).None?;
      var steps, top := TopHasNoParent(up, plans[k].id, n);
      var q := ParentHasPlan(plans, top);
      assert q in roots;
    }
    assert IsMaster(plans, up, m);
  }

  lemma ParentsGrow(plans: seq<PlanIdentity>, i: nat)
    requires i < |plans| && DistinctPlans(plans[..i])
    ensures DistinctPlans(plans[..i + 1]) <==> plans[i].id !in ParentsOf(plans[..i])
    ensures ParentsOf(plans[..i + 1]) == ParentsOf(plans[..i])[plans[i].id := plans[i].parent]
  {
    var shorter, longer := plans[..i], plans[..i + 1];
    assert longer[..i] == shorter && longer[i] == plans[i];
    assert ParentsOf(longer) == ParentsOf(shorter)[plans[i].id := plans[i].parent];
    hide ParentsOf;
    if plans[i].id in ParentsOf(shorter) {
      var k := ParentHasPlan(shorter, plans[i].id);
      assert longer[k].id == longer[i].id;
    } else {
      forall a, b | 0 <= a < b < |longer| ensures longer[a].id != longer[b].id {
        assert longer[a] == shorter[a];
        if b < i {
          assert longer[b] == shorter[b];
        }
      }
    }
  }

  /** The parent of every plan by id, unless two plans share an id. */
  method CollectParents(plans: seq<PlanIdentity>) returns (duplicate: Option<Id>, up: Parents)
    ensures duplicate.None? <==> DistinctPlans(plans)
    ensures duplicate.None? ==> up == ParentsOf(plans)
  {
    up := map[];
    assert up == ParentsOf(plans[..0]);
    hide ParentsOf;
    for i := 0 to |plans|
      invariant DistinctPlans(plans[..i]) && up == ParentsOf(plans[..i])
    {
      ParentsGrow(plans, i);
      if plans[i].id in up {
        duplicate := Some(plans[i].id);
        return;
      }
      up := up[plans[i].id := plans[i].parent];
    }
    assert plans[..|plans|] == plans;
    duplicate := None;
  }

  method FindUnknownParent(plans: seq<PlanIdentity>, up: Parents) returns (orphan: Option<Id>)
    requires DistinctPlans(plans) && up == ParentsOf(plans)
    ensures orphan.None? <==> ClosedParents(up)
  {
    hide ParentsOf;
    for i := 0 to |plans|
      invariant forall k :: 0 <= k < i && plans[k].parent.Some? ==> plans[k].parent.value in up
    {
      if plans[i].parent.Some? && plans[i].parent.value !in up {
        assert up[plans[i].id] == plans[i].parent;
        return Some(plans[i].id);
      }
    }
    forall v | v in up && up[v].Some? ensures up[v].value in up {
      var k := ParentHasPlan(plans, v);
    }
    orphan := None;
  }

  method ValidateTree(plans: seq<PlanIdentity>) returns (problem: Option<Problem>)
    ensures problem.None? <==> RootedTree(plans)
    ensures problem.Some? && problem.value.ParentCycle? ==>
      DistinctPlans(plans) && IsParentLoop(ParentsOf(plans), problem.value.loop)
  {
    hide *;
    if RootedTree(plans) {
      RootedHasOneRoot(plans);
    }
    if plans == [] {
      return Some(NoPlans);
    }
    var duplicate, up := CollectParents(plans);
    if duplicate.Some? {
      return Some(DuplicatePlan(duplicate.value));
    }
    var orphan := FindUnknownParent(plans, up);
    if orphan.Some? {
      return Some(UnknownParent(orphan.value));
    }
    var ids := seq(|plans|, i requires 0 <= i < |plans| => plans[i].id);
    assert forall k :: 0 <= k < |plans| ==> ids[k] == plans[k].id;
    forall v ensures v in up <==> v in ids {
      if v in up {
        var k := ParentHasPlan(plans, v);
        assert ids[k] == v;
      }
    }
    var loop := FindParentLoop(up, ids);
    if loop.Some? {
      return Some(ParentCycle(loop.value));
    }
    if |Roots(plans, 0)| != 1 {
      return Some(NotOneMaster(|Roots(plans, 0)|));
    }
    OneRootIsMaster(plans);
    problem := None;
  }

  // -- the task graph ------------------------------------------------------------

  function DepGraph(tasks: seq<Task>): (g: Graph)
    ensures forall k :: 0 <= k < |tasks| ==> tasks[k].id in g
    ensures DistinctTasks(tasks) ==> forall k :: 0 <= k < |tasks| ==> g[tasks[k].id] == tasks[k].deps
  {
    if tasks == [] then map[]
    else
      var n := |tasks| - 1;
      assert tasks == tasks[..n] + [tasks[n]];
      DepGraph(tasks[..n])[tasks[n].id := tasks[n].deps]
  }

  lemma {:induction false} VertexHasTask(tasks: seq<Task>, v: Id) returns (k: nat)
    requires v in DepGraph(tasks)
    ensures k < |tasks| && tasks[k].id == v
  {
    var n := |tasks| - 1;
    if tasks[n].id == v {
      k := n;
    } else {
      k := VertexHasTask(tasks[..n], v);
    }
  }

  predicate Known(tasks: seq<Task>, id: Id) {
    TaskOf(tasks, id).Some?
  }

  /** A task's own dependency list: no self-reference, no repeats, nothing unknown. */
  ghost predicate SoundDeps(tasks: seq<Task>, t: Task) {
    && Distinct(t.deps)
    && forall d :: d in t.deps ==> d != t.id && Known(tasks, d)
  }

  function ProjectOf(plans: seq<PlanIdentity>, planId: Id): Option<Project> {
    var p := PlanOf(plans, planId);
    if p.Some? then Some(p.value.project) else None
  }

  function DepProject(plans: seq<PlanIdentity>, tasks: seq<Task>, dep: Id): Option<Project> {
    var t := TaskOf(tasks, dep);
    if t.Some? then ProjectOf(plans, t.value.planId) else None
  }

  /** Whatever a task consumes from another project is named among its inputs. */
  ghost predicate CrossInputsNamed(plans: seq<PlanIdentity>, tasks: seq<Task>, t: Task) {
    forall d :: d in t.deps && Known(tasks, d) && DepProject(plans, tasks, d) != ProjectOf(plans, t.planId) ==>
      d in t.inputs
  }

  ghost predicate AssignedTask(plans: seq<PlanIdentity>, t: Task) {
    PlanOf(plans, t.planId).Some? && PlanOf(plans, t.planId).value.version == t.planVersion
  }

  ghost predicate Covers(tree: Tree) {
    && Distinct(tree.requirements)
    && (forall k :: 0 <= k < |tree.tasks| ==> tree.tasks[k].requirement in tree.requirements)
    && (forall r :: r in tree.requirements ==> exists k :: 0 <= k < |tree.tasks| && tree.tasks[k].requirement == r)
  }

  ghost predicate ValidTasks(plans: seq<PlanIdentity>, tasks: seq<Task>) {
    && DistinctTasks(tasks)
    && (forall k :: 0 <= k < |tasks| ==> AssignedTask(plans, tasks[k]))
    && (forall k :: 0 <= k < |tasks| ==> SoundDeps(tasks, tasks[k]))
    && Acyclic(DepGraph(tasks))
    && (forall k :: 0 <= k < |tasks| ==> CrossInputsNamed(plans, tasks, tasks[k]))
  }

  /** What the manifest validator promises everyone downstream. */
  ghost predicate ValidTree(tree: Tree) {
    && RootedTree(tree.plans)
    && ValidTasks(tree.plans, tree.tasks)
    && OwnsSafely(tree.tasks)
    && (tree.legacy || Covers(tree))
  }

  lemma {:induction false} TaskAssigned(tree: Tree, t: Id)
    requires ValidTree(tree)
    ensures DistinctPlans(tree.plans) && DistinctTasks(tree.tasks)
    ensures Known(tree.tasks, t) ==> AssignedTask(tree.plans, TaskOf(tree.tasks, t).value)
  {
  }

  lemma {:induction false} DepGraphClosed(tasks: seq<Task>)
    requires DistinctTasks(tasks) && forall k :: 0 <= k < |tasks| ==> SoundDeps(tasks, tasks[k])
    ensures Closed(DepGraph(tasks))
  {
    hide DepGraph;
    var g := DepGraph(tasks);
    forall v, w | v in g && w in g[v] ensures w in g {
      var k := VertexHasTask(tasks, v);
      assert w in tasks[k].deps && Known(tasks, w);
      var t := TaskOf(tasks, w).value;
      var j :| 0 <= j < |tasks| && tasks[j] == t;
    }
  }

  method ValidateAssignments(plans: seq<PlanIdentity>, tasks: seq<Task>) returns (problem: Option<Problem>)
    ensures problem.None? <==> DistinctTasks(tasks) && forall k :: 0 <= k < |tasks| ==> AssignedTask(plans, tasks[k])
  {
    hide PlanOf;
    var ids: set<Id> := {};
    for i := 0 to |tasks|
      invariant forall k :: 0 <= k < i ==> tasks[k].id in ids && AssignedTask(plans, tasks[k])
      invariant forall v :: v in ids ==> exists k :: 0 <= k < i && tasks[k].id == v
      invariant forall a, b :: 0 <= a < b < i ==> tasks[a].id != tasks[b].id
    {
      if tasks[i].id in ids {
        return Some(DuplicateTask(tasks[i].id));
      }
      ids := ids + {tasks[i].id};
      var plan := PlanOf(plans, tasks[i].planId);
      if plan.None? {
        return Some(UnknownPlan(tasks[i].id));
      }
      if tasks[i].planVersion != plan.value.version {
        return Some(VersionMismatch(tasks[i].id));
      }
    }
    problem := None;
  }

  /** The first loop of the dependency check, for one task. */
  method ValidateDepList(tasks: seq<Task>, t: Task) returns (problem: Option<Problem>)
    ensures problem.None? <==> SoundDeps(tasks, t)
    ensures problem.Some? ==> !problem.value.DependencyCycle?
  {
    hide TaskOf;
    var seen: set<Id> := {};
    for i := 0 to |t.deps|
      invariant Distinct(t.deps[..i])
      invariant forall d :: d in seen <==> d in t.deps[..i]
      invariant forall k :: 0 <= k < i ==> t.deps[k] != t.id && Known(tasks, t.deps[k])
    {
      var d := t.deps[i];
      assert d in t.deps;
      if d == t.id {
        return Some(SelfDependency(t.id));
      }
      if d in seen {
        assert t.deps[i] in t.deps[..i];
        return Some(RepeatedDependency(t.id, d));
      }
      seen := seen + {d};
      if TaskOf(tasks, d).None? {
        return Some(UnknownDependency(t.id, d));
      }
      assert t.deps[..i + 1] == t.deps[..i] + [d];
    }
    assert t.deps[..|t.deps|] == t.deps;
    problem := None;
  }

  /** The last loop of the dependency check, for one task. */
  method ValidateCrossInputs(plans: seq<PlanIdentity>, tasks: seq<Task>, t: Task) returns (problem: Option<Problem>)
    requires SoundDeps(tasks, t)
    ensures problem.None? <==> CrossInputsNamed(plans, tasks, t)
    ensures problem.Some? ==> !problem.value.DependencyCycle?
  {
    hide DepProject, ProjectOf;
    var project := ProjectOf(plans, t.planId);
    for i := 0 to |t.deps|
      invariant forall k :: 0 <= k < i && DepProject(plans, tasks, t.deps[k]) != project ==> t.deps[k] in t.inputs
    {
      var d := t.deps[i];
      assert d in t.deps && Known(tasks, d);
      if DepProject(plans, tasks, d) != project && d !in t.inputs {
        return Some(UnnamedCrossProjectInput(t.id, d));
      }
    }
    problem := None;
  }

  method ValidateDependencies(plans: seq<PlanIdentity>, tasks: seq<Task>) returns (problem: Option<Problem>)
    requires DistinctTasks(tasks) && forall k :: 0 <= k < |tasks| ==> AssignedTask(plans, tasks[k])
    ensures problem.None? <==> ValidTasks(plans, tasks)
    ensures problem.Some? && problem.value.DependencyCycle? ==> IsCycle(DepGraph(tasks), problem.value.cycle)
  {
    hide SoundDeps, CrossInputsNamed, AssignedTask, IsCycle, DepGraph;
    for i := 0 to |tasks|
      invariant forall k :: 0 <= k < i ==> SoundDeps(tasks, tasks[k])
    {
      problem := ValidateDepList(tasks, tasks[i]);
      if problem.Some? {
        return;
      }
    }
    DepGraphClosed(tasks);
    var ids := seq(|tasks|, i requires 0 <= i < |tasks| => tasks[i].id);
    assert forall k :: 0 <= k < |tasks| ==> ids[k] == tasks[k].id;
    forall v ensures v in DepGraph(tasks) <==> v in ids {
      if v in DepGraph(tasks) {
        var k := VertexHasTask(tasks, v);
        assert ids[k] == v;
      }
    }
    var cycle := FindCycle(DepGraph(tasks), ids);
    if cycle.Some? {
      return Some(DependencyCycle(cycle.value));
    }
    for i := 0 to |tasks|
      invariant forall k :: 0 <= k < i ==> CrossInputsNamed(plans, tasks, tasks[k])
    {
      problem := ValidateCrossInputs(plans, tasks, tasks[i]);
      if problem.Some? {
        return;
      }
    }
    problem := None;
  }

  /** The first requirement listed twice. */
  method FindRepeat(ids: seq<Id>) returns (repeat: Option<Id>, seen: set<Id>)
    ensures repeat.None? <==> Distinct(ids)
    ensures repeat.None? ==> forall r :: r in seen <==> r in ids
  {
    seen := {};
    for i := 0 to |ids|
      invariant Distinct(ids[..i]) && forall r :: r in seen <==> r in ids[..i]
    {
      if ids[i] in seen {
        assert ids[i] in ids[..i];
        return Some(ids[i]), seen;
      }
      assert ids[..i + 1] == ids[..i] + [ids[i]];
      seen := seen + {ids[i]};
    }
    assert ids[..|ids|] == ids;
    repeat := None;
  }

  method ValidateCoverage(tree: Tree) returns (problem: Option<Problem>)
    ensures problem.None? <==> Covers(tree)
  {
    var repeat, seen := FindRepeat(tree.requirements);
    if repeat.Some? {
      return Some(DuplicateRequirement(repeat.value));
    }
    if tree.tasks != [] && tree.requirements == [] {
      assert tree.tasks[0].requirement !in tree.requirements;
      return Some(NoRequirements);
    }
    var covered: set<Id> := {};
    for i := 0 to |tree.tasks|
      invariant forall k :: 0 <= k < i ==> tree.tasks[k].requirement in tree.requirements
      invariant forall k :: 0 <= k < i ==> tree.tasks[k].requirement in covered
      invariant forall r :: r in covered ==> exists k :: 0 <= k < i && tree.tasks[k].requirement == r
    {
      if tree.tasks[i].requirement !in seen {
        return Some(UnknownRequirement(tree.tasks[i].id));
      }
      covered := covered + {tree.tasks[i].requirement};
    }
    for i := 0 to |tree.requirements|
      invariant forall k :: 0 <= k < i ==> tree.requirements[k] in covered
    {
      if tree.requirements[i] !in covered {
        assert tree.requirements[i] in tree.requirements;
        return Some(UncoveredRequirement(tree.requirements[i]));
      }
    }
    problem := None;
  }

  // -- where owned paths may lead ---------------------------------------------------------

  /** Control characters, and separators of another system. */
  predicate IsForeign(c: char) {
    c as int < 32 || c as int == 127 || c == '\\'
  }

  predicate IsLetter(c: char) {
    'a' <= c <= 'z' || 'A' <= c <= 'Z'
  }

  /** The path's first part makes it a home directory, an absolute path or a drive. */
  predicate IsRooted(path: OwnedPath) {
    path != [] &&
    (|| (path[0] == "" && |path| > 1)
     || (path[0] != "" && path[0][0] == '~')
     || (|path[0]| > 1 && IsLetter(path[0][0]) && path[0][1] == ':'))
  }

  predicate IsGit(part: string) {
    |part| == 4 && part[0] == '.' && part[1] in "gG" && part[2] in "iI" && part[3] in "tT"
  }

  /** The parts that lead anywhere. */
  function Steps(path: OwnedPath): (steps: FilePath)
    ensures forall part :: part in steps ==> part in path
  {
    if path == [] then []
    else
      assert path == [path[0]] + path[1..];
      (if path[0] == "" || path[0] == "." then [] else [path[0]]) + Steps(path[1..])
  }

  predicate SafePath(path: OwnedPath) {
    && (forall k, i :: 0 <= k < |path| && 0 <= i < |path[k]| ==> !IsForeign(path[k][i]))
    && !IsRooted(path) && ".." !in Steps(path)
    && (Steps(path) != [] ==> !IsGit(Steps(path)[0]))
  }

  /** Where following the parts leads from a directory of the project; None once outside of it. */
  function Follow(at: FilePath, path: OwnedPath): Option<FilePath>
    decreases path
  {
    if path == [] then Some(at)
    else if path[0] == "" || path[0] == "." then Follow(at, path[1..])
    else if path[0] != ".." then Follow(at + [path[0]], path[1..])
    else if at == [] then None
    else Follow(at[..|at| - 1], path[1..])
  }

  lemma {:induction false} FollowSteps(at: FilePath, path: OwnedPath)
    requires ".." !in Steps(path)
    ensures Follow(at, path) == Some(at + Steps(path))
    decreases path
  {
    if path == [] {
      assert at + [] == at;
    } else {
      FollowSteps(if path[0] == "" || path[0] == "." then at else at + [path[0]], path[1..]);
      assert at + [path[0]] + Steps(path[1..]) == at + ([path[0]] + Steps(path[1..]));
      assert [] + Steps(path[1..]) == Steps(path[1..]);
    }
  }

  /** A safe path is relative and leads to a place inside its project, outside the repository's own files. */
  lemma {:induction false} SafePathStaysInside(path: OwnedPath)
    requires SafePath(path)
    ensures !IsRooted(path) && Follow([], path).Some?
    ensures Follow([], path).value != [] ==> !IsGit(Follow([], path).value[0])
  {
    FollowSteps([], path);
    assert [] + Steps(path) == Steps(path);
  }

  lemma {:induction false} UpIsAStep(path: OwnedPath)
    ensures ".." in Steps(path) <==> ".." in path
  {
    if path != [] {
      assert path == [path[0]] + path[1..];
      UpIsAStep(path[1..]);
    }
  }

  /**
   * Exactly the paths of ordinary characters are taken that start at no root, home or drive, have no '..' in
   * them and do not lead into .git.
   */
  lemma {:induction false} SafePathExactly(path: OwnedPath)
    ensures SafePath(path) <==>
      && (forall k, i :: 0 <= k < |path| && 0 <= i < |path[k]| ==> 32 <= path[k][i] as int != 127 && path[k][i] != '\\')
      && (|path| > 1 ==> path[0] != "") && (path != [] && path[0] != "" ==> path[0][0] != '~')
      && (path != [] && |path[0]| > 1 && path[0][1] == ':' ==> !IsLetter(path[0][0]))
      && ".." !in path && Follow([], path).Some?
      && (Follow([], path).value != [] ==> !IsGit(Follow([], path).value[0]))
  {
    hide IsGit, IsLetter, Follow, Steps;
    UpIsAStep(path);
    if ".." !in path {
      FollowSteps([], path);
      assert [] + Steps(path) == Steps(path);
    }
  }

  ghost predicate OwnsSafely(tasks: seq<Task>) {
    forall k, n :: 0 <= k < |tasks| && 0 <= n < |tasks[k].files| ==> SafePath(tasks[k].files[n])
  }

  method ValidateOwnedFiles(tasks: seq<Task>) returns (problem: Option<Problem>)
    ensures problem.None? <==> OwnsSafely(tasks)
    ensures problem.Some? ==> problem.value.UnsafeFile? && !SafePath(problem.value.path)
  {
    for i := 0 to |tasks|
      invariant forall k, n :: 0 <= k < i && 0 <= n < |tasks[k].files| ==> SafePath(tasks[k].files[n])
    {
      var files := tasks[i].files;
      for j := 0 to |files|
        invariant forall n :: 0 <= n < j ==> SafePath(files[n])
      {
        if !SafePath(files[j]) {
          return Some(UnsafeFile(tasks[i].id, files[j]));
        }
      }
    }
    problem := None;
  }

  /** Building a plan tree: every check in turn, so that acceptance means ValidTree. */
  method Validate(tree: Tree) returns (problem: Option<Problem>)
    ensures problem.None? <==> ValidTree(tree)
  {
    hide RootedTree, Covers, AssignedTask, SoundDeps, CrossInputsNamed, Acyclic, OwnsSafely, SafePath;
    problem := ValidateTree(tree.plans);
    if problem.Some? {
      return;
    }
    problem := ValidateAssignments(tree.plans, tree.tasks);
    if problem.Some? {
      return;
    }
    problem := ValidateDependencies(tree.plans, tree.tasks);
    if problem.Some? {
      return;
    }
    problem := ValidateOwnedFiles(tree.tasks);
    if problem.Some? || tree.legacy {
      return;
    }
    problem := ValidateCoverage(tree);
  }

  // -- ownership -------------------------------------------------------------------

  predicate IsPattern(part: string) {
    '*' in part || '?' in part || '[' in part
  }

  /** The literal leading parts of an owned path, stopping at any pattern. */
  function Prefix(path: OwnedPath): FilePath {
    if path == [] then []
    else if path[0] == "" || path[0] == "." then Prefix(path[1..])
    else if IsPattern(path[0]) then []
    else [path[0]] + Prefix(path[1..])
  }

  /** The literal parts in front of the first pattern, all of them if there is none; empty and '.' parts do not count. */
  lemma {:induction false} PrefixReads(path: OwnedPath, k: nat)
    requires k <= |path| && (k < |path| ==> IsPattern(path[k]))
    requires forall i :: 0 <= i < k ==> !IsPattern(path[i])
    ensures Prefix(path) == Steps(path[..k])
    decreases path
  {
    if k > 0 {
      PrefixReads(path[1..], k - 1);
      assert path[..k][1..] == path[1..][..k - 1];
    }
  }

  /** What leads anywhere of an ordinary path is all of it. */
  lemma {:induction false} OrdinarySteps(path: OwnedPath)
    requires forall i :: 0 <= i < |path| ==> path[i] != "" && path[i] != "."
    ensures Steps(path) == path
  {
    if path != [] {
      OrdinarySteps(path[1..]);
    }
  }

  method OwnedPrefix(path: OwnedPath) returns (parts: FilePath)
    ensures parts == Prefix(path)
  {
    parts := [];
    for i := 0 to |path|
      invariant parts + Prefix(path[i..]) == Prefix(path)
    {
      assert path[i..][0] == path[i] && path[i..][1..] == path[i + 1..];
      if path[i] != "" && path[i] != "." {
        if IsPattern(path[i]) {
          return;
        }
        parts := parts + [path[i]];
      }
    }
  }

  /**
   * The files an owned path may stand for: those at or below its literal prefix. Any
   * reading of the pattern characters stays inside this set.
   */
  predicate MayCover(path: OwnedPath, file: FilePath) {
    Prefix(path) <= file
  }

  /** s is one of two owned paths and stands for exactly the files both may cover. */
  ghost predicate Narrower(s: OwnedPath, p: OwnedPath, q: OwnedPath) {
    (s == p || s == q) && forall f :: MayCover(s, f) <==> MayCover(p, f) && MayCover(q, f)
  }

  /** The narrower path when one owned path equals or contains the other. */
  method SharedFile(first: OwnedPath, second: OwnedPath) returns (shared: Option<OwnedPath>)
    ensures shared.Some? <==> exists f :: MayCover(first, f) && MayCover(second, f)
    ensures shared.Some? ==> Narrower(shared.value, first, second)
  {
    var a := OwnedPrefix(first);
    var b := OwnedPrefix(second);
    var shorter := Min(|a|, |b|);
    if a[..shorter] != b[..shorter] {
      forall f ensures !(MayCover(first, f) && MayCover(second, f)) {
        if a <= f && b <= f {
          CommonPrefix(a, b, f);
        }
      }
      return None;
    }
    shared := if |a| >= |b| then Some(first) else Some(second);
    assert MayCover(shared.value, if |a| >= |b| then a else b);
    forall f ensures MayCover(shared.value, f) <==> MayCover(first, f) && MayCover(second, f) {
      PrefixOfPrefix(a, b, f);
      PrefixOfPrefix(b, a, f);
    }
  }

  lemma CommonPrefix(a: FilePath, b: FilePath, f: FilePath)
    requires a <= f && b <= f
    ensures a[..Min(|a|, |b|)] == b[..Min(|a|, |b|)]
  {
  }

  lemma PrefixOfPrefix(a: FilePath, b: FilePath, f: FilePath)
    ensures |a| <= |b| && a == b[..|a|] && b <= f ==> a <= f
  {
  }

  datatype OwnershipConflict = OwnershipConflict(first: Id, second: Id, files: seq<OwnedPath>, resources: seq<Id>)

  ghost predicate SharesFile(a: Task, b: Task) {
    exists p, q, f :: p in a.files && q in b.files && MayCover(p, f) && MayCover(q, f)
  }

  ghost predicate SharesResource(a: Task, b: Task) {
    exists r :: r in a.resources && r in b.resources
  }

  /** Two tasks own something in common: a resource, or a possible file of one project. */
  ghost predicate Conflicts(plans: seq<PlanIdentity>, a: Task, b: Task) {
    || (ProjectOf(plans, a.planId) == ProjectOf(plans, b.planId) && SharesFile(a, b))
    || SharesResource(a, b)
  }

  lemma ConflictsSymmetric(plans: seq<PlanIdentity>, a: Task, b: Task)
    ensures Conflicts(plans, a, b) <==> Conflicts(plans, b, a)
  {
  }

  ghost predicate SharedPath(a: Task, b: Task, s: OwnedPath) {
    exists k, l :: 0 <= k < |a.files| && 0 <= l < |b.files| && Narrower(s, a.files[k], b.files[l])
  }

  lemma SharedPathSharesFile(a: Task, b: Task, s: OwnedPath)
    requires SharedPath(a, b, s)
    ensures SharesFile(a, b)
  {
    var k, l :| 0 <= k < |a.files| && 0 <= l < |b.files| && Narrower(s, a.files[k], b.files[l]);
    assert MayCover(s, Prefix(s));
    assert a.files[k] in a.files && b.files[l] in b.files;
  }

  ghost predicate Apart(p: OwnedPath, q: OwnedPath) {
    forall f :: !(MayCover(p, f) && MayCover(q, f))
  }

  ghost predicate Shown(files: seq<OwnedPath>, p: OwnedPath, q: OwnedPath) {
    exists n :: 0 <= n < |files| && Narrower(files[n], p, q)
  }

  /** What two owned paths have in common is listed, if they have anything in common. */
  ghost predicate Noted(files: seq<OwnedPath>, p: OwnedPath, q: OwnedPath) {
    Apart(p, q) || Shown(files, p, q)
  }

  /** The files two tasks of one project share: one entry for every overlap, none twice. */
  method SharedFiles(a: Task, b: Task) returns (files: seq<OwnedPath>)
    ensures files != [] <==> SharesFile(a, b)
    ensures forall n :: 0 <= n < |files| ==> SharedPath(a, b, files[n])
    ensures Distinct(files)
    ensures forall k, l :: 0 <= k < |a.files| && 0 <= l < |b.files| ==> Noted(files, a.files[k], b.files[l])
  {
    hide MayCover, SharedPath, Narrower, Shown, Apart;
    files := [];
    for i := 0 to |a.files|
      invariant Distinct(files) && forall n :: 0 <= n < |files| ==> SharedPath(a, b, files[n])
      invariant forall k, l :: 0 <= k < i && 0 <= l < |b.files| ==> Noted(files, a.files[k], b.files[l])
    {
      for j := 0 to |b.files|
        invariant Distinct(files) && forall n :: 0 <= n < |files| ==> SharedPath(a, b, files[n])
        invariant forall k, l :: 0 <= k < i && 0 <= l < |b.files| ==> Noted(files, a.files[k], b.files[l])
        invariant forall l :: 0 <= l < j ==> Noted(files, a.files[i], b.files[l])
      {
        hide Noted;
        var shared := SharedFile(a.files[i], b.files[j]);
        if shared.Some? {
          SharedPathIntro(a, b, i, j, shared.value);
          if shared.value !in files {
            NotedStays(files, shared.value);
            files := files + [shared.value];
          }
        }
        NotedNow(files, a.files[i], b.files[j], shared);
      }
    }
    SharedExactly(a, b, files);
  }

  lemma NotedStays(files: seq<OwnedPath>, more: OwnedPath)
    ensures forall p, q :: Noted(files, p, q) ==> Noted(files + [more], p, q)
  {
    forall p, q | Shown(files, p, q) ensures Shown(files + [more], p, q) {
      var n :| 0 <= n < |files| && Narrower(files[n], p, q);
      assert (files + [more])[n] == files[n];
    }
  }

  lemma NotedNow(files: seq<OwnedPath>, p: OwnedPath, q: OwnedPath, shared: Option<OwnedPath>)
    requires shared.None? ==> !exists f :: MayCover(p, f) && MayCover(q, f)
    requires shared.Some? ==> shared.value in files && Narrower(shared.value, p, q)
    ensures Noted(files, p, q)
  {
  }

  lemma SharedExactly(a: Task, b: Task, files: seq<OwnedPath>)
    requires forall n :: 0 <= n < |files| ==> SharedPath(a, b, files[n])
    requires forall k, l :: 0 <= k < |a.files| && 0 <= l < |b.files| ==> Noted(files, a.files[k], b.files[l])
    ensures files != [] <==> SharesFile(a, b)
  {
    hide MayCover, SharedPath, Narrower;
    if files != [] {
      SharedPathSharesFile(a, b, files[0]);
    }
    if SharesFile(a, b) {
      var p, q, f :| p in a.files && q in b.files && MayCover(p, f) && MayCover(q, f);
      var k :| 0 <= k < |a.files| && a.files[k] == p;
      var l :| 0 <= l < |b.files| && b.files[l] == q;
      assert Noted(files, a.files[k], b.files[l]);
    }
  }

  lemma SharedPathIntro(a: Task, b: Task, k: nat, l: nat, s: OwnedPath)
    requires k < |a.files| && l < |b.files| && Narrower(s, a.files[k], b.files[l])
    ensures SharedPath(a, b, s)
  {
  }

  method Conflict(plans: seq<PlanIdentity>, a: Task, b: Task) returns (conflict: Option<OwnershipConflict>)
    ensures conflict.Some? <==> Conflicts(plans, a, b)
    ensures conflict.Some? ==>
      && conflict.value.first == a.id && conflict.value.second == b.id
      && (forall n :: 0 <= n < |conflict.value.files| ==> SharedPath(a, b, conflict.value.files[n]))
      && (forall r :: r in conflict.value.resources <==> r in a.resources && r in b.resources)
  {
    hide SharedPath, SharesFile;
    var files := [];
    if ProjectOf(plans, a.planId) == ProjectOf(plans, b.planId) {
      files := SharedFiles(a, b);
    }
    var resources: seq<Id> := [];
    for i := 0 to |a.resources|
      invariant forall r :: r in resources <==> r in a.resources[..i] && r in b.resources
    {
      assert a.resources[..i + 1] == a.resources[..i] + [a.resources[i]];
      if a.resources[i] in b.resources {
        resources := resources + [a.resources[i]];
      }
    }
    assert a.resources[..|a.resources|] == a.resources;
    if resources != [] {
      assert resources[0] in resources;
    }
    conflict := if files == [] && resources == [] then None
                else Some(OwnershipConflict(a.id, b.id, files, resources));
  }

  /** Whether two tasks of the tree own nothing in common. */
  ghost predicate CanRunTogether(tree: Tree, a: Id, b: Id) {
    && a != b && Known(tree.tasks, a) && Known(tree.tasks, b)
    && !Conflicts(tree.plans, TaskOf(tree.tasks, a).value, TaskOf(tree.tasks, b).value)
  }

  lemma TogetherSymmetric(tree: Tree, a: Id, b: Id)
    requires CanRunTogether(tree, a, b)
    ensures CanRunTogether(tree, b, a)
  {
  }

  method RunTogether(tree: Tree, a: Id, b: Id) returns (together: bool)
    requires Known(tree.tasks, a) && Known(tree.tasks, b)
    ensures together <==> CanRunTogether(tree, a, b)
  {
    var first, second := TaskOf(tree.tasks, a).value, TaskOf(tree.tasks, b).value;
    var conflict := Conflict(tree.plans, first, second);
    together := first.id != second.id && conflict.None?;
  }

  /** Nothing but a common resource, or a possible file of one project, keeps two tasks apart. */
  lemma {:induction false} ExclusiveRunTogether(tree: Tree, a: Id, b: Id)
    requires Known(tree.tasks, a) && Known(tree.tasks, b) && a != b
    ensures
      var s, t := TaskOf(tree.tasks, a).value, TaskOf(tree.tasks, b).value;
      CanRunTogether(tree, a, b) <==>
        && (forall r :: !(r in s.resources && r in t.resources))
        && (ProjectOf(tree.plans, s.planId) != ProjectOf(tree.plans, t.planId)
            || forall p, q, f :: p in s.files && q in t.files ==> !(MayCover(p, f) && MayCover(q, f)))
  {
    hide MayCover;
  }

  /**
   * Whatever meaning a runner gives owned paths, as long as a path only stands for files at or
   * below its literal prefix, tasks that may run together never write one file or hold one resource.
   */
  lemma {:induction false} TogetherMeansExclusive(tree: Tree, a: Id, b: Id, writes: (OwnedPath, FilePath) -> bool)
    requires CanRunTogether(tree, a, b)
    requires forall p, f :: writes(p, f) ==> MayCover(p, f)
    ensures
      var s, t := TaskOf(tree.tasks, a).value, TaskOf(tree.tasks, b).value;
      && (forall r :: !(r in s.resources && r in t.resources))
      && (ProjectOf(tree.plans, s.planId) == ProjectOf(tree.plans, t.planId) ==>
            forall p, q, f :: p in s.files && q in t.files ==> !(writes(p, f) && writes(q, f)))
  {
  }
}
