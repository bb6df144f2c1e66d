/**
 * The two graph walks behind plan validation: an explicit-stack depth-first
 * search over task dependencies and a pointer chase over plan parents.
 */
module Graph {
  import opened Common

  /** Each vertex with the vertices it points at, in declared order. */
  type Graph = map<Id, seq<Id>>

  ghost predicate Closed(g: Graph) {
    forall v, w :: v in g && w in g[v] ==> w in g
  }

  predicate Edge(g: Graph, v: Id, w: Id) {
    v in g && w in g[v]
  }

  ghost predicate IsWalk(g: Graph, p: seq<Id>) {
    forall i :: 0 <= i < |p| - 1 ==> Edge(g, p[i], p[i + 1])
  }

  ghost predicate IsCycle(g: Graph, p: seq<Id>) {
    |p| >= 2 && p[0] == p[|p| - 1] && IsWalk(g, p)
  }

  ghost predicate Acyclic(g: Graph) {
    forall p :: !IsCycle(g, p)
  }

  // -- what an acyclic graph gives its users ----------------------------------

  ghost predicate PointsInto(g: Graph, v: Id, s: set<Id>) {
    exists w :: w in s && Edge(g, v, w)
  }

  /** If every vertex of s points back into s, walks inside s never have to end. */
  lemma {:induction false} WalkInside(g: Graph, s: set<Id>, n: nat) returns (p: seq<Id>)
    requires s != {}
    requires forall v {:trigger PointsInto(g, v, s)} :: v in s ==> PointsInto(g, v, s)
    ensures |p| == n + 1 && IsWalk(g, p) && forall i :: 0 <= i < |p| ==> p[i] in s
  {
    if n == 0 {
      var v :| v in s;
      p := [v];
    } else {
      var q := WalkInside(g, s, n - 1);
      assert PointsInto(g, q[n - 1], s);
      var w :| w in s && Edge(g, q[n - 1], w);
      p := q + [w];
    }
  }

  lemma RepeatClosesCycle(g: Graph, p: seq<Id>, i: nat, j: nat)
    requires IsWalk(g, p) && i < j < |p| && p[i] == p[j]
    ensures IsCycle(g, p[i..j + 1])
  {
  }

  /** In an acyclic graph every non-empty set of vertices has one with no edge back into it. */
  lemma AcyclicHasSink(g: Graph, s: set<Id>) returns (v: Id)
    requires Acyclic(g) && s != {}
    ensures v in s && forall w :: w in s ==> !Edge(g, v, w)
  {
    if forall u {:trigger PointsInto(g, u, s)} :: u in s ==> PointsInto(g, u, s) {
      var p := WalkInside(g, s, |s|);
      Pigeonhole(p, s);
      var i, j :| 0 <= i < j < |p| && p[i] == p[j];
      RepeatClosesCycle(g, p, i, j);
      assert false;
    }
    v :| v in s && !PointsInto(g, v, s);
  }

  // -- finishing orders --------------------------------------------------------

  /** The order in which a search finishes vertices: everything a vertex points at comes first. */
  ghost predicate FinishOrder(g: Graph, s: seq<Id>) {
    && Distinct(s)
    && forall i :: 0 <= i < |s| ==> s[i] in g && forall w :: w in g[s[i]] ==> w in s[..i]
  }

  ghost predicate Finishes(g: Graph, order: seq<Id>, finished: set<Id>) {
    FinishOrder(g, order) && forall v :: v in order <==> v in finished
  }

  /** Following edges from a finished vertex only ever moves left in the finishing order. */
  lemma {:induction false} WalkMovesLeft(g: Graph, s: seq<Id>, p: seq<Id>, at: nat) returns (k: nat)
    requires FinishOrder(g, s) && IsWalk(g, p) && |p| >= 1
    requires at < |s| && s[at] == p[0]
    ensures k < |s| && s[k] == p[|p| - 1] && k + |p| - 1 <= at
  {
    if |p| == 1 {
      k := at;
    } else {
      assert Edge(g, p[0], p[1]);
      assert p[1] in s[..at];
      var next :| 0 <= next < at && s[next] == p[1];
      assert IsWalk(g, p[1..]) by {
        forall i | 0 <= i < |p| - 2 ensures Edge(g, p[1..][i], p[1..][i + 1]) {
          assert Edge(g, p[i + 1], p[i + 2]);
        }
      }
      k := WalkMovesLeft(g, s, p[1..], next);
    }
  }

  lemma FinishedMeansAcyclic(g: Graph, s: seq<Id>)
    requires FinishOrder(g, s)
    requires forall v :: v in g ==> v in s
    ensures Acyclic(g)
  {
    forall p | IsCycle(g, p) ensures false {
      assert Edge(g, p[0], p[1]);
      var at :| 0 <= at < |s| && s[at] == p[0];
      var k := WalkMovesLeft(g, s, p, at);
      assert false;
    }
  }

  // -- depth-first search with an explicit stack -------------------------------

  /** Position k of the stack: how many of trail[k]'s edges the search has settled for good. */
  ghost predicate StackShape(g: Graph, trail: seq<Id>, pending: seq<nat>, finished: set<Id>) {
    && |trail| == |pending|
    && Distinct(trail)
    && (forall k :: 0 <= k < |trail| ==>
          && trail[k] in g && trail[k] !in finished
          && pending[k] <= |g[trail[k]]|)
    && (forall k :: 0 <= k < |trail| - 1 ==>
          && pending[k] > 0
          && g[trail[k]][pending[k] - 1] == trail[k + 1])
    && (forall k, i :: 0 <= k < |trail| && 0 <= i < pending[k] - (if k < |trail| - 1 then 1 else 0) ==>
          g[trail[k]][i] in finished)
  }

  /** The vertices the search has not yet touched. */
  ghost function Untouched(g: Graph, trail: seq<Id>, finished: set<Id>): set<Id> {
    set v | v in g && v !in finished && v !in trail
  }

  /** A dependency already on the trail closes a cycle through the top of the stack. */
  lemma TrailClosesCycle(g: Graph, trail: seq<Id>, pending: seq<nat>, finished: set<Id>, from: nat)
    requires StackShape(g, trail, pending, finished) && from < |trail|
    requires Edge(g, trail[|trail| - 1], trail[from])
    ensures IsCycle(g, trail[from..] + [trail[from]])
  {
  }

  lemma PopKeepsShape(g: Graph, trail: seq<Id>, pending: seq<nat>, finished: set<Id>)
    requires StackShape(g, trail, pending, finished) && trail != []
    requires pending[|trail| - 1] == |g[trail[|trail| - 1]]|
    ensures StackShape(g, trail[..|trail| - 1], pending[..|trail| - 1], finished + {trail[|trail| - 1]})
    ensures forall w :: w in g[trail[|trail| - 1]] ==> w in finished
    ensures Untouched(g, trail[..|trail| - 1], finished + {trail[|trail| - 1]}) == Untouched(g, trail, finished)
  {
  }

  lemma PushKeepsShape(g: Graph, trail: seq<Id>, pending: seq<nat>, finished: set<Id>)
    requires StackShape(g, trail, pending, finished) && trail != []
    requires pending[|trail| - 1] < |g[trail[|trail| - 1]]|
    requires var d := g[trail[|trail| - 1]][pending[|trail| - 1]]; d in g && d !in finished && d !in trail
    ensures
      var d := g[trail[|trail| - 1]][pending[|trail| - 1]];
      && StackShape(g, trail + [d], pending[|trail| - 1 := pending[|trail| - 1] + 1] + [0], finished)
      && Untouched(g, trail + [d], finished) < Untouched(g, trail, finished)
  {
    var d := g[trail[|trail| - 1]][pending[|trail| - 1]];
    assert d in Untouched(g, trail, finished) && d !in Untouched(g, trail + [d], finished);
  }

  lemma SkipKeepsShape(g: Graph, trail: seq<Id>, pending: seq<nat>, finished: set<Id>)
    requires StackShape(g, trail, pending, finished) && trail != []
    requires pending[|trail| - 1] < |g[trail[|trail| - 1]]|
    requires g[trail[|trail| - 1]][pending[|trail| - 1]] in finished
    ensures StackShape(g, trail, pending[|trail| - 1 := pending[|trail| - 1] + 1], finished)
  {
  }

  lemma FinishKeepsOrder(g: Graph, order: seq<Id>, finished: set<Id>, v: Id)
    requires Finishes(g, order, finished) && v in g && v !in finished
    requires forall w :: w in g[v] ==> w in finished
    ensures Finishes(g, order + [v], finished + {v})
  {
    var longer := order + [v];
    forall i | 0 <= i < |longer| ensures longer[i] in g && forall w :: w in g[longer[i]] ==> w in longer[..i] {
      assert longer[..i] == order[..i];
      if i == |order| {
        assert order[..i] == order;
      }
    }
  }

  /**
   * Explore everything below start. A dependency found on the current trail closes a
   * cycle, which is reported as the vertices along it.
   */
  method Explore(g: Graph, start: Id, finished0: set<Id>, ghost order0: seq<Id>)
    returns (cycle: Option<seq<Id>>, finished: set<Id>, ghost order: seq<Id>)
    requires Closed(g) && start in g && start !in finished0
    requires Finishes(g, order0, finished0)
    ensures cycle.Some? ==> IsCycle(g, cycle.value)
    ensures cycle.None? ==>
      && Finishes(g, order, finished)
      && finished0 <= finished && start in finished
  {
    hide Finishes;
    finished, order := finished0, order0;
    var trail: seq<Id> := [start];
    var pending: seq<nat> := [0];
    while pending != []
      invariant Finishes(g, order, finished)
      invariant StackShape(g, trail, pending, finished)
      invariant finished0 <= finished && (start in finished || start in trail)
      decreases Untouched(g, trail, finished), |trail|,
        if trail == [] then 0 else |g[trail[|trail| - 1]]| - pending[|trail| - 1]
    {
      var top := |pending| - 1;
      var deps := g[trail[top]];
      if pending[top] == |deps| {
        PopKeepsShape(g, trail, pending, finished);
        FinishKeepsOrder(g, order, finished, trail[top]);
        finished, order := finished + {trail[top]}, order + [trail[top]];
        pending, trail := pending[..top], trail[..top];
      } else {
        var dependency := deps[pending[top]];
        if dependency in trail {
          var from := IndexOf(trail, dependency);
          TrailClosesCycle(g, trail, pending, finished, from);
          return Some(trail[from..] + [dependency]), finished, order;
        } else if dependency !in finished {
          PushKeepsShape(g, trail, pending, finished);
          pending := pending[top := pending[top] + 1] + [0];
          trail := trail + [dependency];
        } else {
          SkipKeepsShape(g, trail, pending, finished);
          pending := pending[top := pending[top] + 1];
        }
      }
    }
    cycle := None;
  }

  /** Search from every vertex in turn: accepts exactly the acyclic graphs. */
  method FindCycle(g: Graph, vertices: seq<Id>) returns (cycle: Option<seq<Id>>)
    requires Closed(g) && forall v :: v in g <==> v in vertices
    ensures cycle.None? <==> Acyclic(g)
    ensures cycle.Some? ==> IsCycle(g, cycle.value)
  {
    var finished: set<Id> := {};
    ghost var order: seq<Id> := [];
    for i := 0 to |vertices|
      invariant Finishes(g, order, finished)
      invariant forall k :: 0 <= k < i ==> vertices[k] in finished
    {
      if vertices[i] !in finished {
        cycle, finished, order := Explore(g, vertices[i], finished, order);
        if cycle.Some? {
          return;
        }
      }
    }
    FinishedMeansAcyclic(g, order);
    cycle := None;
  }

  // -- chasing parents -----------------------------------------------------------

  /** Each plan with its parent; the master plan has none. */
  type Parents = map<Id, Option<Id>>

  ghost predicate ClosedParents(up: Parents) {
    forall v {:trigger up[v]} :: v in up && up[v].Some? ==> up[v].value in up
  }

  /** Follow n parent links. */
  ghost function Climb(up: Parents, from: Option<Id>, n: nat): Option<Id>
    decreases n
  {
    if n == 0 || from.None? then from
    else if from.value in up then Climb(up, up[from.value], n - 1)
    else None
  }

  ghost predicate ReachesTop(up: Parents, v: Id) {
    exists n: nat :: Climb(up, Some(v), n).None?
  }

  ghost predicate IsParentLoop(up: Parents, p: seq<Id>) {
    && |p| >= 2 && p[0] == p[|p| - 1]
    && forall i :: 0 <= i < |p| - 1 ==> p[i] in up && up[p[i]] == Some(p[i + 1])
  }

  /** Nothing on a parent loop ever climbs out of it. */
  lemma {:induction false} LoopNeverTops(up: Parents, p: seq<Id>, i: nat, n: nat)
    requires IsParentLoop(up, p) && i < |p| - 1
    ensures Climb(up, Some(p[i]), n).Some? && Climb(up, Some(p[i]), n).value in p
    decreases n
  {
    if n > 0 {
      LoopNeverTops(up, p, if i + 1 == |p| - 1 then 0 else i + 1, n - 1);
    }
  }

  /** The last plan met before running out of parents has no parent itself. */
  lemma {:induction false} TopHasNoParent(up: Parents, v: Id, n: nat) returns (m: nat, top: Id)
    requires ClosedParents(up) && v in up && Climb(up, Some(v), n).None?
    ensures m < n && Climb(up, Some(v), m) == Some(top) && top in up && up[top].None?
    decreases n
  {
    if up[v].None? {
      m, top := 0, v;
    } else {
      m, top := TopHasNoParent(up, up[v].value, n - 1);
      m := m + 1;
    }
  }

  /** Each vertex of the trail has the next one as its parent, and the last has `next`. */
  ghost predicate Ascends(up: Parents, trail: seq<Id>, next: Option<Id>) {
    && (forall k :: 0 <= k < |trail| ==> trail[k] in up)
    && (forall k :: 0 <= k < |trail| - 1 ==> up[trail[k]] == Some(trail[k + 1]))
    && (trail != [] ==> up[trail[|trail| - 1]] == next)
  }

  lemma AscentClosesLoop(up: Parents, trail: seq<Id>, next: Id, from: nat)
    requires Ascends(up, trail, Some(next)) && from < |trail| && trail[from] == next
    ensures IsParentLoop(up, trail[from..] + [next])
  {
  }

  lemma AscendMore(up: Parents, trail: seq<Id>, next: Id)
    requires Ascends(up, trail, Some(next)) && next in up
    ensures Ascends(up, trail + [next], up[next])
  {
  }

  /** Walk to the top from start, or to something already known to reach it. */
  method ChaseFrom(up: Parents, start: Id, finished: set<Id>)
    returns (cycle: Option<seq<Id>>, trail: seq<Id>)
    requires ClosedParents(up) && start in up && start !in finished
    requires forall v :: v in finished ==> ReachesTop(up, v)
    ensures cycle.Some? ==> IsParentLoop(up, cycle.value)
    ensures cycle.None? ==> start in trail && forall v :: v in trail ==> ReachesTop(up, v)
  {
    trail := [];
    var positions: map<Id, nat> := map[];
    var current := Some(start);
    assert Ascends(up, trail, current);
    hide ReachesTop, Ascends, IsParentLoop;
    while current.Some? && current.value !in finished
      invariant current.Some? ==> current.value in up
      invariant forall v :: v in positions <==> v in trail
      invariant positions.Keys <= up.Keys
      invariant forall v :: v in positions ==> positions[v] < |trail| && trail[positions[v]] == v
      invariant Ascends(up, trail, current)
      invariant if trail == [] then current == Some(start) else trail[0] == start
      decreases up.Keys - positions.Keys
    {
      if current.value in positions {
        var from := positions[current.value];
        AscentClosesLoop(up, trail, current.value, from);
        cycle := Some(trail[from..] + [current.value]);
        return;
      }
      ghost var before := positions.Keys;
      positions := positions[current.value := |trail|];
      assert before < positions.Keys;
      AscendMore(up, trail, current.value);
      trail := trail + [current.value];
      current := up[current.value];
    }
    TrailReachesTop(up, trail, current);
    cycle := None;
  }

  lemma TrailReachesTop(up: Parents, trail: seq<Id>, current: Option<Id>)
    requires Ascends(up, trail, current)
    requires current.Some? ==> ReachesTop(up, current.value)
    ensures forall v :: v in trail ==> ReachesTop(up, v)
  {
    if current.None? {
      assert Climb(up, current, 0).None?;
    }
    var steps: nat :| Climb(up, current, steps).None?;
    TrailTops(up, trail, current, steps);
  }

  lemma {:induction false} TrailTops(up: Parents, trail: seq<Id>, current: Option<Id>, steps: nat)
    requires Ascends(up, trail, current)
    requires Climb(up, current, steps).None?
    ensures forall v :: v in trail ==> ReachesTop(up, v)
  {
    if trail != [] {
      var last := |trail| - 1;
      assert up[trail[last]] == current;
      assert Climb(up, Some(trail[last]), steps + 1).None?;
      TrailTops(up, trail[..last], Some(trail[last]), steps + 1);
    }
  }

  /** Accepts exactly the parent maps in which every vertex runs out of parents. */
  method FindParentLoop(up: Parents, vertices: seq<Id>) returns (cycle: Option<seq<Id>>)
    requires ClosedParents(up) && forall v :: v in up <==> v in vertices
    ensures cycle.None? <==> forall v :: v in up ==> ReachesTop(up, v)
    ensures cycle.Some? ==> IsParentLoop(up, cycle.value)
  {
    var finished: set<Id> := {};
    for i := 0 to |vertices|
      invariant forall v :: v in finished ==> ReachesTop(up, v)
      invariant forall k :: 0 <= k < i ==> vertices[k] in finished
    {
      if vertices[i] !in finished {
        var trail;
        cycle, trail := ChaseFrom(up, vertices[i], finished);
        if cycle.Some? {
          var p := cycle.value;
          forall n: nat ensures Climb(up, Some(p[0]), n).Some? {
            LoopNeverTops(up, p, 0, n);
          }
          return;
        }
        finished := finished + set v | v in trail;
      }
    }
    cycle := None;
  }
}
