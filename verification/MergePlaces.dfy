/** Which steps a merge adds, with all their lines, and where in the copy each of them goes: line by line. */
module MergePlaces {
  import opened Common
  import opened PlanText
  import opened Merges

  // -- places, by lines ---------------------------------------------------------------------------

  ghost predicate IsTask(lines: seq<Line>, k: int) {
    0 <= k < |lines| && lines[k].TaskLine?
  }

  /** Line e is the first behind the task line c and its details. */
  ghost predicate EndsAt(lines: seq<Line>, c: nat, e: nat) {
    && c < e <= |lines| && (forall k :: c < k < e ==> lines[k].Detail?) && (e < |lines| ==> !lines[e].Detail?)
  }

  /** The copy lists the step in some state, and the planner did not remove it. */
  ghost predicate Anchored(copy: seq<Line>, removed: set<string>, name: string) {
    name !in removed && exists k :: IsTask(copy, k) && copy[k].name == name
  }

  /** Line a of the plan is the last in front of line p that names such a step. */
  ghost predicate NearestAnchor(copy: seq<Line>, plan: seq<Line>, removed: set<string>, p: nat, a: int) {
    && IsTask(plan, a) && a < p && Anchored(copy, removed, plan[a].name)
    && forall q :: a < q < p && IsTask(plan, q) ==> !Anchored(copy, removed, plan[q].name)
  }

  ghost predicate FirstNamed(lines: seq<Line>, name: string, p: nat) {
    && IsTask(lines, p) && lines[p].name == name
    && forall q :: 0 <= q < p && IsTask(lines, q) ==> lines[q].name != name
  }

  /** Right behind the last step of that name. */
  ghost predicate BehindStep(copy: seq<Line>, name: string, at: nat) {
    exists c: nat ::
      && IsTask(copy, c) && copy[c].name == name && EndsAt(copy, c, at)
      && forall k :: IsTask(copy, k) && copy[k].name == name ==> k <= c
  }

  /** An open step that the planner did not remove. */
  ghost predicate StaysOpen(copy: seq<Line>, removed: set<string>, k: int) {
    IsTask(copy, k) && !copy[k].ticked && copy[k].name !in removed
  }

  /** In front of the first open step that stays; without one behind the last step; without any step at the end. */
  ghost predicate InFront(copy: seq<Line>, removed: set<string>, at: nat) {
    if exists k :: StaysOpen(copy, removed, k) then
      StaysOpen(copy, removed, at) && forall k :: StaysOpen(copy, removed, k) ==> at <= k
    else if exists k :: IsTask(copy, k) then
      exists c: nat :: IsTask(copy, c) && EndsAt(copy, c, at) && forall k :: IsTask(copy, k) ==> k <= c
    else at == |copy|
  }

  /** Where a new step goes: behind its nearest earlier step that the copy has and the planner kept, else in front. */
  ghost predicate RightPlace(copy: seq<Line>, plan: seq<Line>, removed: set<string>, name: string, at: nat) {
    exists p :: FirstNamed(plan, name, p) &&
      if exists a :: NearestAnchor(copy, plan, removed, p, a) then
        forall a :: NearestAnchor(copy, plan, removed, p, a) ==> BehindStep(copy, plan[a].name, at)
      else InFront(copy, removed, at)
  }

  // -- blocks and lines -----------------------------------------------------------------------------

  /** Blocks come in the order of their lines, one after the other. */
  lemma {:induction false} BlocksAscend(lines: seq<Line>, i: nat)
    requires i <= |lines|
    ensures forall n :: 0 <= n < |Blocks(lines, i)| ==> Blocks(lines, i)[n].start >= i
    ensures forall m, n :: 0 <= m < n < |Blocks(lines, i)| ==> Blocks(lines, i)[m].start < Blocks(lines, i)[n].start
    decreases |lines| - i
  {
    if i < |lines| {
      BlocksAscend(lines, if lines[i].TaskLine? then DetailsEnd(lines, i + 1) else i + 1);
    }
  }

  /** Blocks are the task lines: in both directions, in order. */
  ghost predicate Mirrors(lines: seq<Line>, bs: seq<Block>) {
    && (forall n :: 0 <= n < |bs| ==> IsBlock(lines, bs[n]))
    && (forall m, n :: 0 <= m < n < |bs| ==> bs[m].start < bs[n].start)
    && forall k :: IsTask(lines, k) ==> exists n :: 0 <= n < |bs| && bs[n].start == k
  }

  lemma {:induction false} BlocksMirror(lines: seq<Line>)
    ensures Mirrors(lines, Blocks(lines, 0))
  {
    hide Blocks;
    BlocksAreBlocks(lines, 0);
    BlocksAscend(lines, 0);
    forall k | IsTask(lines, k) ensures exists n :: 0 <= n < |Blocks(lines, 0)| && Blocks(lines, 0)[n].start == k {
      var n := TaskOpensBlock(lines, 0, k);
    }
  }

  lemma BlockEndsAt(lines: seq<Line>, b: Block)
    requires IsBlock(lines, b)
    ensures EndsAt(lines, b.start, b.end) && IsTask(lines, b.start) && lines[b.start].name == b.name && lines[b.start].ticked == b.ticked
  {
  }

  lemma {:induction false} AnchorsIs(copy: seq<Line>, bs: seq<Block>, removed: set<string>, name: string)
    requires Mirrors(copy, bs)
    ensures Anchors(bs, removed, name) <==> Anchored(copy, removed, name)
    ensures Anchors(bs, removed, name) ==> BehindStep(copy, name, bs[LastNamed(bs, name).value].end)
  {
    hide LastNamed;
    var last := LastNamed(bs, name);
    if last.Some? {
      BlockEndsAt(copy, bs[last.value]);
      forall k | IsTask(copy, k) && copy[k].name == name ensures k <= bs[last.value].start {
        var n :| 0 <= n < |bs| && bs[n].start == k;
        BlockEndsAt(copy, bs[n]);
        assert n <= last.value;
      }
    } else {
      forall k | IsTask(copy, k) ensures copy[k].name != name {
        var n :| 0 <= n < |bs| && bs[n].start == k;
        BlockEndsAt(copy, bs[n]);
      }
    }
  }

  lemma StaysIs(copy: seq<Line>, bs: seq<Block>, removed: set<string>, n: nat)
    requires Mirrors(copy, bs) && n < |bs|
    ensures Stays(bs[n], removed) <==> StaysOpen(copy, removed, bs[n].start)
  {
    BlockEndsAt(copy, bs[n]);
  }

  lemma FallbackIsInFront(copy: seq<Line>, bs: seq<Block>, removed: set<string>)
    requires Mirrors(copy, bs)
    ensures InFront(copy, removed, Fallback(bs, removed, |copy|))
  {
    hide FirstStaying, Stays, StaysOpen, EndsAt, IsBlock;
    var n := FirstStaying(bs, removed);
    if n < |bs| {
      StaysIs(copy, bs, removed, n);
      forall k | StaysOpen(copy, removed, k) ensures bs[n].start <= k {
        var m := BlockOf(copy, bs, removed, k);
        StaysIs(copy, bs, removed, m);
      }
    } else {
      forall k ensures !StaysOpen(copy, removed, k) {
        if StaysOpen(copy, removed, k) {
          var m := BlockOf(copy, bs, removed, k);
          StaysIs(copy, bs, removed, m);
        }
      }
      if bs != [] {
        var last := bs[|bs| - 1];
        BlockEndsAt(copy, last);
        forall k | IsTask(copy, k) ensures k <= last.start {
          var m :| 0 <= m < |bs| && bs[m].start == k;
        }
      }
    }
  }

  lemma BlockOf(copy: seq<Line>, bs: seq<Block>, removed: set<string>, k: int) returns (m: nat)
    requires Mirrors(copy, bs) && StaysOpen(copy, removed, k)
    ensures m < |bs| && bs[m].start == k
  {
    m :| 0 <= m < |bs| && bs[m].start == k;
  }

  // -- the place of a new step --------------------------------------------------------------------------

  lemma {:induction false} BehindReads(earlier: seq<string>, blocks: seq<Block>, removed: set<string>, fallback: nat)
    returns (n: int)
    ensures n == -1 || IsNearest(earlier, blocks, removed, n)
    ensures n == -1 ==> forall m :: 0 <= m < |earlier| ==> !Anchors(blocks, removed, earlier[m])
    ensures Behind(earlier, blocks, removed, fallback) ==
      if n == -1 then fallback else blocks[LastNamed(blocks, earlier[n]).value].end
  {
    hide LastNamed;
    n := -1;
    if earlier != [] {
      var last := |earlier| - 1;
      if Anchors(blocks, removed, earlier[last]) {
        n := last;
      } else {
        n := BehindReads(earlier[..last], blocks, removed, fallback);
      }
    }
  }

  /** In the order of the plan the first step of a name is where the plan names it first. */
  lemma {:induction false} FirstInOrder(plan: seq<Line>, bs: seq<Block>, name: string)
    requires Mirrors(plan, bs) && name in Order(bs)
    ensures FirstNamed(plan, name, bs[IndexOf(Order(bs), name)].start)
  {
    hide IsBlock;
    var i := IndexOf(Order(bs), name);
    BlockEndsAt(plan, bs[i]);
    forall q | 0 <= q < bs[i].start && IsTask(plan, q) ensures plan[q].name != name {
      var m :| 0 <= m < |bs| && bs[m].start == q;
      BlockEndsAt(plan, bs[m]);
      assert m < i && Order(bs)[..i][m] == bs[m].name;
    }
  }

  lemma NearestIs(copy: seq<Line>, plan: seq<Line>, cbs: seq<Block>, bs: seq<Block>, removed: set<string>, i: nat, n: int)
    requires Mirrors(copy, cbs) && Mirrors(plan, bs) && i < |bs| && IsNearest(Order(bs)[..i], cbs, removed, n)
    ensures NearestAnchor(copy, plan, removed, bs[i].start, bs[n].start) && plan[bs[n].start].name == bs[n].name
  {
    hide LastNamed, IsBlock;
    BlockEndsAt(plan, bs[n]);
    AnchorsIs(copy, cbs, removed, bs[n].name);
    forall q | bs[n].start < q < bs[i].start && IsTask(plan, q) ensures !Anchored(copy, removed, plan[q].name) {
      var m :| 0 <= m < |bs| && bs[m].start == q;
      BlockEndsAt(plan, bs[m]);
      AnchorsIs(copy, cbs, removed, bs[m].name);
      assert n < m < i && Order(bs)[..i][m] == bs[m].name;
    }
  }

  lemma NoneNear(copy: seq<Line>, plan: seq<Line>, cbs: seq<Block>, bs: seq<Block>, removed: set<string>, i: nat)
    requires Mirrors(copy, cbs) && Mirrors(plan, bs) && i < |bs|
    requires forall m :: 0 <= m < i ==> !Anchors(cbs, removed, Order(bs)[..i][m])
    ensures forall a :: !NearestAnchor(copy, plan, removed, bs[i].start, a)
  {
    hide LastNamed, IsBlock;
    forall q | 0 <= q < bs[i].start && IsTask(plan, q) ensures !Anchored(copy, removed, plan[q].name) {
      var m :| 0 <= m < |bs| && bs[m].start == q;
      BlockEndsAt(plan, bs[m]);
      AnchorsIs(copy, cbs, removed, bs[m].name);
      assert m < i && Order(bs)[..i][m] == bs[m].name;
    }
  }

  lemma OnlyNearest(copy: seq<Line>, plan: seq<Line>, removed: set<string>, p: nat, a: int, b: int)
    requires NearestAnchor(copy, plan, removed, p, a) && NearestAnchor(copy, plan, removed, p, b)
    ensures a == b
  {
  }

  /** The place a new step gets is the right one. */
  lemma {:induction false} PlaceIsRight(copy: seq<Line>, plan: seq<Line>, removed: set<string>, name: string)
    requires name in Order(Blocks(plan, 0))
    ensures RightPlace(copy, plan, removed, name, Place(name, Order(Blocks(plan, 0)), Blocks(copy, 0), removed, |copy|))
  {
    hide Blocks, Fallback, Behind, Mirrors, BehindStep, InFront, NearestAnchor, LastNamed;
    var cbs, bs := Blocks(copy, 0), Blocks(plan, 0);
    BlocksMirror(copy);
    BlocksMirror(plan);
    var i := IndexOf(Order(bs), name);
    var p, fallback := bs[i].start, Fallback(cbs, removed, |copy|);
    FirstInOrder(plan, bs, name);
    var n := BehindReads(Order(bs)[..i], cbs, removed, fallback);
    if n == -1 {
      NoneNear(copy, plan, cbs, bs, removed, i);
      FallbackIsInFront(copy, cbs, removed);
    } else {
      NearestIs(copy, plan, cbs, bs, removed, i, n);
      AnchorsIs(copy, cbs, removed, bs[n].name);
      forall a | NearestAnchor(copy, plan, removed, p, a) ensures a == bs[n].start {
        OnlyNearest(copy, plan, removed, p, a, bs[n].start);
      }
    }
  }

  // -- what is added ------------------------------------------------------------------------------------------

  /** Line s opens a step that the planner newly opened and the copy does not list. */
  ghost predicate IsNew(copy: seq<Line>, before: seq<Line>, after: seq<Line>, s: int) {
    IsTask(after, s) && !after[s].ticked && after[s].name !in OpenLabels(before) && after[s].name !in Labels(copy)
  }

  /** The step of line s with all its details, its last line ended. */
  ghost predicate CarriesStep(plan: seq<Line>, s: nat, block: seq<Line>) {
    && EndsAt(plan, s, s + |block|)
    && forall k :: 0 <= k < |block| ==>
         block[k] == if k == |block| - 1 then plan[s + k].(ended := true) else plan[s + k]
  }

  ghost predicate AddedAs(copy: seq<Line>, plan: seq<Line>, removed: set<string>, s: nat, add: Add) {
    IsTask(plan, s) && CarriesStep(plan, s, add.block) && RightPlace(copy, plan, removed, plan[s].name, add.at)
  }

  /** These steps are added, in this order, each whole and in its right place. */
  ghost predicate AddedExactly(copy: seq<Line>, plan: seq<Line>, removed: set<string>, starts: seq<nat>, adds: seq<Add>) {
    && |starts| == |adds| && (forall m, n :: 0 <= m < n < |starts| ==> starts[m] < starts[n])
    && forall n :: 0 <= n < |adds| ==> AddedAs(copy, plan, removed, starts[n], adds[n])
  }

  lemma BlockIsCarried(plan: seq<Line>, b: Block)
    requires IsBlock(plan, b)
    ensures CarriesStep(plan, b.start, Ended(plan[b.start..b.end]))
  {
  }

  lemma {:induction false} AddsAre(bs: seq<Block>, plan: seq<Line>, oldOpen: set<string>, copy: seq<Line>, removed: set<string>)
    returns (starts: seq<nat>)
    requires bs <= Blocks(plan, 0) && Mirrors(plan, Blocks(plan, 0))
    requires forall n :: 0 <= n < |bs| ==> bs[n].start <= bs[n].end <= |plan| && bs[n].name in Order(Blocks(plan, 0))
    ensures AddedExactly(copy, plan, removed, starts, Adds(bs, plan, Order(Blocks(plan, 0)), oldOpen, Blocks(copy, 0), removed, |copy|))
    ensures forall s: nat :: s in starts <==>
      exists n :: 0 <= n < |bs| && bs[n].start == s && IsAdded(bs[n], oldOpen, BlockLabels(Blocks(copy, 0), false))
  {
    hide Blocks, BlockLabels, Order, IsBlock, Place, AddedAs, RightPlace, CarriesStep, Ended;
    starts := [];
    if bs != [] {
      var n := |bs| - 1;
      var all := Blocks(plan, 0);
      starts := AddsAre(bs[..n], plan, oldOpen, copy, removed);
      var b := bs[n];
      assert b == all[n];
      if IsAdded(b, oldOpen, BlockLabels(Blocks(copy, 0), false)) {
        BlockEndsAt(plan, b);
        BlockIsCarried(plan, b);
        PlaceIsRight(copy, plan, removed, b.name);
        var add := Add(Place(b.name, Order(all), Blocks(copy, 0), removed, |copy|), Ended(plan[b.start..b.end]));
        AddedOne(copy, plan, removed, b, add);
        forall m | 0 <= m < |starts| ensures starts[m] < b.start {
          assert starts[m] in starts;
        }
        starts := OneMoreAdded(copy, plan, removed, starts, Adds(bs[..n], plan, Order(all), oldOpen, Blocks(copy, 0), removed, |copy|), b.start, add);
      }
    }
  }

  lemma OneMoreAdded(copy: seq<Line>, plan: seq<Line>, removed: set<string>, starts: seq<nat>, adds: seq<Add>, s: nat, add: Add)
    returns (more: seq<nat>)
    requires AddedExactly(copy, plan, removed, starts, adds) && AddedAs(copy, plan, removed, s, add)
    requires forall m :: 0 <= m < |starts| ==> starts[m] < s
    ensures more == starts + [s] && AddedExactly(copy, plan, removed, more, adds + [add])
  {
    hide AddedAs;
    more := starts + [s];
  }

  lemma AddedOne(copy: seq<Line>, plan: seq<Line>, removed: set<string>, b: Block, add: Add)
    requires IsTask(plan, b.start) && plan[b.start].name == b.name
    requires CarriesStep(plan, b.start, add.block) && RightPlace(copy, plan, removed, b.name, add.at)
    ensures AddedAs(copy, plan, removed, b.start, add)
  {
  }

  /**
   * The merge adds exactly the steps the planner newly opened that the copy does not list in any state, in plan
   * order, each with all its lines and in its right place.
   */
  lemma MergeAddsExactly(copy: seq<Line>, before: seq<Line>, after: seq<Line>) returns (starts: seq<nat>)
    ensures AddedExactly(copy, after, Removed(before, after), starts, AddsOf(copy, before, after))
    ensures forall s: nat :: s in starts <==> IsNew(copy, before, after, s)
  {
    hide Blocks, AddedExactly, IsBlock, Mirrors;
    var bs := Blocks(after, 0);
    LabelsOfBlocks(before);
    LabelsOfBlocks(after);
    LabelsOfBlocks(copy);
    BlocksMirror(after);
    BlocksInBounds(after);
    starts := AddsAre(bs, after, OpenLabels(before), copy, Removed(before, after));
    NewIs(copy, before, after, bs);
  }

  lemma NewIs(copy: seq<Line>, before: seq<Line>, after: seq<Line>, bs: seq<Block>)
    requires Mirrors(after, bs)
    ensures forall s: nat :: IsNew(copy, before, after, s) <==>
      exists n :: 0 <= n < |bs| && bs[n].start == s && IsAdded(bs[n], OpenLabels(before), Labels(copy))
  {
    hide IsBlock;
    forall n | 0 <= n < |bs| ensures IsTask(after, bs[n].start) && after[bs[n].start].name == bs[n].name
      && after[bs[n].start].ticked == bs[n].ticked
    {
      BlockEndsAt(after, bs[n]);
    }
  }
}
