/** Carrying the planner's own edits of the real plan over into the build's copy of it. */
module Merges {
  import opened Common
  import opened PlanText

  /** Lines to put before the copy's line `at` (or at the very end). */
  datatype Add = Add(at: nat, block: seq<Line>)

  // -- what is dropped ------------------------------------------------------------

  /** The task line a line belongs to. */
  function HeadOf(lines: seq<Line>, k: nat): (h: Option<nat>)
    requires k < |lines|
    ensures h.Some? ==> h.value <= k && lines[h.value].TaskLine?
  {
    match lines[k]
    case TaskLine(_, _, _, _) => Some(k)
    case Other(_, _) => None
    case Detail(_, _) => if k == 0 then None else HeadOf(lines, k - 1)
  }

  /** Line k belongs to an open step the planner removed. */
  predicate Dropped(copy: seq<Line>, removed: set<string>, k: nat)
    requires k < |copy|
  {
    var h := HeadOf(copy, k);
    h.Some? && !copy[h.value].ticked && copy[h.value].name in removed
  }

  // -- where an added step goes -----------------------------------------------------

  function LastNamed(blocks: seq<Block>, name: string): (n: Option<nat>)
    ensures n.None? ==> forall m :: 0 <= m < |blocks| ==> blocks[m].name != name
    ensures n.Some? ==> n.value < |blocks| && blocks[n.value].name == name
    ensures n.Some? ==> forall m :: n.value < m < |blocks| ==> blocks[m].name != name
  {
    if blocks == [] then None
    else if blocks[|blocks| - 1].name == name then Some(|blocks| - 1)
    else LastNamed(blocks[..|blocks| - 1], name)
  }

  predicate Stays(b: Block, removed: set<string>) {
    !b.ticked && b.name !in removed
  }

  function FirstStaying(blocks: seq<Block>, removed: set<string>): (n: nat)
    ensures n <= |blocks| && (n < |blocks| ==> Stays(blocks[n], removed))
    ensures forall m :: 0 <= m < n ==> !Stays(blocks[m], removed)
  {
    if blocks == [] || Stays(blocks[0], removed) then 0
    else 1 + FirstStaying(blocks[1..], removed)
  }

  /** Where the first open step that stays begins, else behind the last step, else at the end. */
  function Fallback(blocks: seq<Block>, removed: set<string>, size: nat): nat {
    var n := FirstStaying(blocks, removed);
    if n < |blocks| then blocks[n].start
    else if blocks != [] then blocks[|blocks| - 1].end
    else size
  }

  /** Behind the last of the earlier steps that the copy has and the planner kept. */
  function Behind(earlier: seq<string>, blocks: seq<Block>, removed: set<string>, fallback: nat): nat {
    if earlier == [] then fallback
    else
      var nearest := earlier[|earlier| - 1];
      var n := LastNamed(blocks, nearest);
      if n.Some? && nearest !in removed then blocks[n.value].end
      else Behind(earlier[..|earlier| - 1], blocks, removed, fallback)
  }

  function Order(blocks: seq<Block>): (names: seq<string>)
    ensures |names| == |blocks| && forall n :: 0 <= n < |blocks| ==> names[n] == blocks[n].name
  {
    seq(|blocks|, n requires 0 <= n < |blocks| => blocks[n].name)
  }

  function Place(name: string, order: seq<string>, blocks: seq<Block>, removed: set<string>, size: nat): nat
    requires name in order
  {
    Behind(order[..IndexOf(order, name)], blocks, removed, Fallback(blocks, removed, size))
  }

  // -- what is added -------------------------------------------------------------------

  /** The block's lines with the newline at its end put there when it is missing. */
  function Ended(block: seq<Line>): (r: seq<Line>)
    ensures |r| == |block| && forall k :: 0 <= k < |block| - 1 ==> r[k] == block[k]
    ensures block != [] ==> r[|block| - 1] == block[|block| - 1].(ended := true)
  {
    if block == [] then block else block[|block| - 1 := block[|block| - 1].(ended := true)]
  }

  predicate IsAdded(b: Block, oldOpen: set<string>, inCopy: set<string>) {
    !b.ticked && b.name !in oldOpen && b.name !in inCopy
  }

  /** The planner's new open steps, each with its place in the copy; `bs` are the first blocks of the plan. */
  function Adds(
    bs: seq<Block>, plan: seq<Line>, order: seq<string>, oldOpen: set<string>,
    copyBlocks: seq<Block>, removed: set<string>, size: nat): (adds: seq<Add>)
    requires forall n :: 0 <= n < |bs| ==> bs[n].start <= bs[n].end <= |plan| && bs[n].name in order
  {
    if bs == [] then []
    else
      var b := bs[|bs| - 1];
      Adds(bs[..|bs| - 1], plan, order, oldOpen, copyBlocks, removed, size) +
        if IsAdded(b, oldOpen, BlockLabels(copyBlocks, false))
        then [Add(Place(b.name, order, copyBlocks, removed, size), Ended(plan[b.start..b.end]))]
        else []
  }

  // -- the merged text -----------------------------------------------------------------

  function InsertsAt(adds: seq<Add>, p: nat): seq<Line> {
    if adds == [] then []
    else InsertsAt(adds[..|adds| - 1], p) + if adds[|adds| - 1].at == p then adds[|adds| - 1].block else []
  }

  /** The copy from line i on, without what is dropped and with what is added. */
  function Woven(copy: seq<Line>, removed: set<string>, adds: seq<Add>, i: nat): seq<Line>
    requires i <= |copy|
    decreases |copy| - i
  {
    if i == |copy| then InsertsAt(adds, i)
    else InsertsAt(adds, i) + Kept(copy, removed, i) + Woven(copy, removed, adds, i + 1)
  }

  // -- the blocks of the merged text -------------------------------------------------------

  /** A whole open step. */
  ghost predicate IsStep(block: seq<Line>) {
    && block != [] && block[0].TaskLine? && !block[0].ticked
    && forall k :: 1 <= k < |block| ==> block[k].Detail?
  }

  /** Whole open steps, put where they split nothing. */
  ghost predicate TidyAdds(copy: seq<Line>, adds: seq<Add>) {
    forall n :: 0 <= n < |adds| ==> IsStep(adds[n].block) && Clean(copy, adds[n].at)
  }

  /** The bodies of the additions at p, in order. */
  function AddedAt(adds: seq<Add>, p: nat): seq<seq<Line>> {
    if adds == [] then []
    else AddedAt(adds[..|adds| - 1], p) + if adds[|adds| - 1].at == p then [adds[|adds| - 1].block] else []
  }

  lemma {:induction false} DetailsFill(block: seq<Line>, j: nat)
    requires IsStep(block) && 1 <= j <= |block|
    ensures DetailsEnd(block, j) == |block|
  {
  }

  lemma {:induction false} StepBody(block: seq<Line>)
    requires IsStep(block)
    ensures Bodies(block) == [block]
  {
    DetailsFill(block, 1);
    assert block[..|block|] == block && block[|block|..] == [];
  }

  lemma {:induction false} InsertsBodies(copy: seq<Line>, adds: seq<Add>, p: nat)
    requires TidyAdds(copy, adds)
    ensures Bodies(InsertsAt(adds, p)) == AddedAt(adds, p)
    ensures InsertsAt(adds, p) != [] ==> InsertsAt(adds, p)[0].TaskLine?
    ensures !Clean(copy, p) ==> InsertsAt(adds, p) == []
  {
    if adds != [] {
      var last := adds[|adds| - 1];
      var before := InsertsAt(adds[..|adds| - 1], p);
      InsertsBodies(copy, adds[..|adds| - 1], p);
      assert IsStep(last.block) && Clean(copy, last.at);
      if last.at == p {
        BodiesJoin(before, last.block);
        StepBody(last.block);
        assert Bodies(before + last.block) == AddedAt(adds[..|adds| - 1], p) + [last.block];
      } else {
        assert before + [] == before;
        assert InsertsAt(adds, p) == before;
      }
    }
  }

  /** Line k as it comes through: itself, or nothing when dropped. */
  function Kept(copy: seq<Line>, removed: set<string>, k: nat): seq<Line>
    requires k < |copy|
  {
    if Dropped(copy, removed, k) then [] else [copy[k]]
  }

  /** Lines k to e as they come through. */
  ghost function Remains(copy: seq<Line>, removed: set<string>, k: nat, e: nat): seq<Line>
    requires k <= e <= |copy|
    decreases e - k
  {
    if k == e then [] else Kept(copy, removed, k) + Remains(copy, removed, k + 1, e)
  }

  lemma SplitFirst(lines: seq<Line>, k: nat, e: nat)
    requires k < e <= |lines|
    ensures lines[k..e] == [lines[k]] + lines[k + 1..e]
  {
  }

  lemma {:induction false} BlockRemains(copy: seq<Line>, removed: set<string>, s: nat, k: nat, e: nat)
    requires s < |copy| && copy[s].TaskLine? && s <= k <= e && e == DetailsEnd(copy, s + 1)
    ensures Remains(copy, removed, k, e) == if Dropped(copy, removed, s) then [] else copy[k..e]
    decreases e - k
  {
    if k < e {
      HeadOfDetail(copy, s, k);
      HeadOfDetail(copy, s, s);
      hide HeadOf, DetailsEnd;
      BlockRemains(copy, removed, s, k + 1, e);
      SplitFirst(copy, k, e);
    }
  }

  lemma WovenInside(copy: seq<Line>, removed: set<string>, adds: seq<Add>, k: nat)
    requires TidyAdds(copy, adds) && k < |copy| && copy[k].Detail?
    ensures Woven(copy, removed, adds, k) == Kept(copy, removed, k) + Woven(copy, removed, adds, k + 1)
  {
    InsertsBodies(copy, adds, k);
    hide InsertsAt, Dropped, TidyAdds, IsStep;
  }

  lemma RemainsOpens(copy: seq<Line>, removed: set<string>, k: nat, e: nat)
    requires k <= e <= |copy|
    ensures Remains(copy, removed, k, e) == if k == e then [] else Kept(copy, removed, k) + Remains(copy, removed, k + 1, e)
  {
  }

  /** Where a run of details is, the text comes through without insertions. */
  lemma {:induction false} WovenThroughDetails(copy: seq<Line>, removed: set<string>, adds: seq<Add>, k: nat, e: nat)
    requires TidyAdds(copy, adds)
    requires k <= e <= |copy| && forall j :: k <= j < e ==> copy[j].Detail?
    ensures Woven(copy, removed, adds, k) == Remains(copy, removed, k, e) + Woven(copy, removed, adds, e)
    decreases e - k
  {
    hide TidyAdds, Woven, Kept, Remains;
    var rest := Woven(copy, removed, adds, e);
    RemainsOpens(copy, removed, k, e);
    if k == e {
      EmptyEnds(rest);
    } else {
      WovenInside(copy, removed, adds, k);
      WovenThroughDetails(copy, removed, adds, k + 1, e);
      Associates(Kept(copy, removed, k), Remains(copy, removed, k + 1, e), rest);
    }
  }

  lemma {:induction false} HeadOfDetail(lines: seq<Line>, s: nat, k: nat)
    requires s < |lines| && lines[s].TaskLine? && s <= k < DetailsEnd(lines, s + 1)
    ensures HeadOf(lines, k) == Some(s)
  {
    if k > s {
      HeadOfDetail(lines, s, k - 1);
    }
  }

  /** The blocks to expect from line i on: the added ones and the kept ones, nothing else. */
  ghost function Expected(copy: seq<Line>, removed: set<string>, adds: seq<Add>, i: nat): seq<seq<Line>>
    requires i <= |copy|
    decreases |copy| - i
  {
    if i == |copy| then AddedAt(adds, i)
    else if copy[i].TaskLine? then
      var e := DetailsEnd(copy, i + 1);
      if Dropped(copy, removed, i) then AddedAt(adds, i) + Expected(copy, removed, adds, e)
      else AddedAt(adds, i) + ([copy[i..e]] + Expected(copy, removed, adds, e))
    else AddedAt(adds, i) + Expected(copy, removed, adds, i + 1)
  }

  /** A detail here belongs to no task: i is not inside a block. */
  ghost predicate Boundary(copy: seq<Line>, i: nat) {
    i <= |copy| && (i < |copy| && copy[i].Detail? ==> HeadOf(copy, i).None?)
  }

  lemma {:induction false} WovenBodies(copy: seq<Line>, removed: set<string>, adds: seq<Add>, i: nat)
    requires TidyAdds(copy, adds) && Boundary(copy, i)
    ensures Bodies(Woven(copy, removed, adds, i)) == Expected(copy, removed, adds, i)
    decreases |copy| - i
  {
    hide TidyAdds, IsStep, Dropped, Bodies;
    InsertsBodies(copy, adds, i);
    if i == |copy| {
    } else if copy[i].TaskLine? {
      WovenBodies(copy, removed, adds, DetailsEnd(copy, i + 1));
      if Dropped(copy, removed, i) {
        BodiesAtDropped(copy, removed, adds, i);
      } else {
        BodiesAtKept(copy, removed, adds, i);
      }
    } else {
      assert HeadOf(copy, i).None?;
      WovenBodies(copy, removed, adds, i + 1);
      BodiesOutside(copy, removed, adds, i);
    }
  }

  lemma Regroup(a: seq<Line>, b: seq<Line>, c: seq<Line>, d: seq<Line>)
    ensures a + b + (c + d) == a + (b + c + d)
  {
  }

  lemma WovenAtTask(copy: seq<Line>, removed: set<string>, adds: seq<Add>, i: nat)
    requires TidyAdds(copy, adds) && i < |copy| && copy[i].TaskLine?
    ensures var e := DetailsEnd(copy, i + 1);
      Woven(copy, removed, adds, i) == InsertsAt(adds, i) + (Remains(copy, removed, i, e) + Woven(copy, removed, adds, e))
  {
    hide TidyAdds, DetailsEnd, InsertsAt, Dropped, Kept;
    var e := DetailsEnd(copy, i + 1);
    var rest := Woven(copy, removed, adds, e);
    WovenThroughDetails(copy, removed, adds, i + 1, e);
    assert Woven(copy, removed, adds, i) ==
      InsertsAt(adds, i) + Kept(copy, removed, i) + (Remains(copy, removed, i + 1, e) + rest);
    assert Remains(copy, removed, i, e) == Kept(copy, removed, i) + Remains(copy, removed, i + 1, e);
    hide Woven, Remains;
    Regroup(InsertsAt(adds, i), Kept(copy, removed, i), Remains(copy, removed, i + 1, e), rest);
  }

  /** From a clean place on, the merged text does not begin with a detail. */
  lemma {:induction false} WovenStartsClean(copy: seq<Line>, removed: set<string>, adds: seq<Add>, i: nat)
    requires TidyAdds(copy, adds) && Clean(copy, i)
    ensures Woven(copy, removed, adds, i) == [] || !Woven(copy, removed, adds, i)[0].Detail?
    decreases |copy| - i
  {
    hide TidyAdds, InsertsAt, Remains;
    InsertsBodies(copy, adds, i);
    if i < |copy| && Dropped(copy, removed, i) {
      var e := DetailsEnd(copy, i + 1);
      WovenStartsClean(copy, removed, adds, e);
      DroppedTask(copy, removed, adds, i);
    }
  }

  lemma DroppedTask(copy: seq<Line>, removed: set<string>, adds: seq<Add>, i: nat)
    requires TidyAdds(copy, adds) && i < |copy| && copy[i].TaskLine? && Dropped(copy, removed, i)
    ensures Woven(copy, removed, adds, i) == InsertsAt(adds, i) + Woven(copy, removed, adds, DetailsEnd(copy, i + 1))
  {
    var e := DetailsEnd(copy, i + 1);
    WovenAtTask(copy, removed, adds, i);
    BlockRemains(copy, removed, i, i, e);
    hide *;
    EmptyEnds(Woven(copy, removed, adds, e));
  }

  lemma KeptTask(copy: seq<Line>, removed: set<string>, adds: seq<Add>, i: nat) returns (block: seq<Line>)
    requires TidyAdds(copy, adds) && i < |copy| && copy[i].TaskLine? && !Dropped(copy, removed, i)
    ensures block == copy[i..DetailsEnd(copy, i + 1)]
    ensures block != [] && block[0] == copy[i] && forall k :: 1 <= k < |block| ==> block[k].Detail?
    ensures Woven(copy, removed, adds, i) ==
      InsertsAt(adds, i) + (block + Woven(copy, removed, adds, DetailsEnd(copy, i + 1)))
  {
    var e := DetailsEnd(copy, i + 1);
    block := copy[i..e];
    WovenAtTask(copy, removed, adds, i);
    BlockRemains(copy, removed, i, i, e);
    hide *;
  }

  lemma BodiesAtDropped(copy: seq<Line>, removed: set<string>, adds: seq<Add>, i: nat)
    requires TidyAdds(copy, adds) && i < |copy| && copy[i].TaskLine? && Dropped(copy, removed, i)
    ensures Bodies(Woven(copy, removed, adds, i)) ==
      AddedAt(adds, i) + Bodies(Woven(copy, removed, adds, DetailsEnd(copy, i + 1)))
  {
    var e := DetailsEnd(copy, i + 1);
    WovenStartsClean(copy, removed, adds, e);
    hide *;
    InsertsBodies(copy, adds, i);
    DroppedTask(copy, removed, adds, i);
    BodiesJoin(InsertsAt(adds, i), Woven(copy, removed, adds, e));
  }

  lemma BodiesAtKept(copy: seq<Line>, removed: set<string>, adds: seq<Add>, i: nat)
    requires TidyAdds(copy, adds) && i < |copy| && copy[i].TaskLine? && !Dropped(copy, removed, i)
    ensures Bodies(Woven(copy, removed, adds, i)) ==
      AddedAt(adds, i) + ([copy[i..DetailsEnd(copy, i + 1)]] + Bodies(Woven(copy, removed, adds, DetailsEnd(copy, i + 1))))
  {
    var e := DetailsEnd(copy, i + 1);
    WovenStartsClean(copy, removed, adds, e);
    hide *;
    var rest := Woven(copy, removed, adds, e);
    var block := KeptTask(copy, removed, adds, i);
    InsertsBodies(copy, adds, i);
    KeptBlock(block, rest);
    BodiesJoin(InsertsAt(adds, i), block + rest);
  }

  lemma {:induction false} KeptBlock(block: seq<Line>, rest: seq<Line>)
    requires block != [] && block[0].TaskLine? && forall k :: 1 <= k < |block| ==> block[k].Detail?
    requires rest == [] || !rest[0].Detail?
    ensures Bodies(block + rest) == [block] + Bodies(rest)
  {
    BodiesJoin(block, rest);
    assert DetailsEnd(block, 1) == |block|;
    assert block[..|block|] == block && block[|block|..] == [];
  }

  lemma WovenOutside(copy: seq<Line>, removed: set<string>, adds: seq<Add>, i: nat)
    requires Boundary(copy, i) && i < |copy| && !copy[i].TaskLine?
    ensures Woven(copy, removed, adds, i) == InsertsAt(adds, i) + ([copy[i]] + Woven(copy, removed, adds, i + 1))
  {
  }

  lemma {:induction false} BodiesSkip(line: Line, rest: seq<Line>)
    requires !line.TaskLine?
    ensures Bodies([line] + rest) == Bodies(rest)
  {
  }

  lemma BodiesOutside(copy: seq<Line>, removed: set<string>, adds: seq<Add>, i: nat)
    requires TidyAdds(copy, adds) && Boundary(copy, i) && i < |copy| && !copy[i].TaskLine?
    ensures Bodies(Woven(copy, removed, adds, i)) == AddedAt(adds, i) + Bodies(Woven(copy, removed, adds, i + 1))
  {
    hide TidyAdds, InsertsAt, HeadOf, Dropped, Bodies, Woven, AddedAt;
    var ins, rest := InsertsAt(adds, i), Woven(copy, removed, adds, i + 1);
    var line := [copy[i]] + rest;
    WovenOutside(copy, removed, adds, i);
    InsertsBodies(copy, adds, i);
    BodiesSkip(copy[i], rest);
    if copy[i].Detail? {
      assert ins == [] && [] + line == line;
      BodiesOfNothing();
    } else {
      BodiesJoin(ins, line);
    }
  }

  lemma BodiesOfNothing()
    ensures Bodies([]) == []
  {
  }

  // -- what becomes of the blocks -----------------------------------------------------------

  function TickedOnly(bodies: seq<seq<Line>>): seq<seq<Line>> {
    if bodies == [] then []
    else
      var last := bodies[|bodies| - 1];
      TickedOnly(bodies[..|bodies| - 1]) + if last != [] && last[0].TaskLine? && last[0].ticked then [last] else []
  }

  lemma {:induction false} TickedJoin(a: seq<seq<Line>>, b: seq<seq<Line>>)
    ensures TickedOnly(a + b) == TickedOnly(a) + TickedOnly(b)
  {
    if b == [] {
      assert a + b == a;
    } else {
      TickedJoin(a, b[..|b| - 1]);
      assert (a + b)[..|a + b| - 1] == a + b[..|b| - 1];
    }
  }

  lemma {:induction false} AddedAreOpen(copy: seq<Line>, adds: seq<Add>, p: nat)
    requires TidyAdds(copy, adds)
    ensures TickedOnly(AddedAt(adds, p)) == []
  {
    if adds != [] {
      AddedAreOpen(copy, adds[..|adds| - 1], p);
      var last := adds[|adds| - 1];
      var before := AddedAt(adds[..|adds| - 1], p);
      assert IsStep(last.block);
      if last.at == p {
        TickedJoin(before, [last.block]);
        OpenBlock(last.block);
      } else {
        assert before + [] == before;
      }
    }
  }

  /** The ticked steps are those of the copy, in the same order, line for line. */
  lemma {:induction false} TickedStay(copy: seq<Line>, removed: set<string>, adds: seq<Add>, i: nat)
    requires i <= |copy| && TidyAdds(copy, adds)
    ensures TickedOnly(Expected(copy, removed, adds, i)) == TickedOnly(Expected(copy, {}, [], i))
    decreases |copy| - i
  {
    hide TidyAdds, TickedOnly, AddedAt;
    AddedAreOpen(copy, adds, i);
    NothingAdded(i);
    if i == |copy| {
    } else if copy[i].TaskLine? {
      var e := DetailsEnd(copy, i + 1);
      var block := [copy[i..e]];
      var rest, plain := Expected(copy, removed, adds, e), Expected(copy, {}, [], e);
      TickedStay(copy, removed, adds, e);
      TickedJoin([], block + plain);
      TickedJoin(block, plain);
      TickedJoin(AddedAt(adds, i), if Dropped(copy, removed, i) then rest else block + rest);
      TickedJoin(block, rest);
      if Dropped(copy, removed, i) {
        OpenBlock(copy[i..e]);
      }
    } else {
      TickedStay(copy, removed, adds, i + 1);
      TickedJoin(AddedAt(adds, i), Expected(copy, removed, adds, i + 1));
      TickedJoin([], Expected(copy, {}, [], i + 1));
    }
  }

  lemma OpenBlock(block: seq<Line>)
    requires block != [] && block[0].TaskLine? && !block[0].ticked
    ensures TickedOnly([block]) == []
  {
  }

  lemma {:induction false} NothingAdded(p: nat)
    ensures AddedAt([], p) == [] && InsertsAt([], p) == [] && TickedOnly([]) == []
  {
  }

  /** The blocks of the additions from place i on. */
  function AddedFrom(adds: seq<Add>, i: nat): seq<seq<Line>> {
    if adds == [] then []
    else AddedFrom(adds[..|adds| - 1], i) + if adds[|adds| - 1].at >= i then [adds[|adds| - 1].block] else []
  }

  lemma {:induction false} AddedSplit(adds: seq<Add>, i: nat, j: nat)
    requires i < j && forall n :: 0 <= n < |adds| ==> !(i < adds[n].at < j)
    ensures multiset(AddedFrom(adds, i)) == multiset(AddedAt(adds, i)) + multiset(AddedFrom(adds, j))
  {
    if adds != [] {
      AddedSplit(adds[..|adds| - 1], i, j);
    }
  }

  lemma {:induction false} AddedAtEnd(copy: seq<Line>, adds: seq<Add>)
    requires forall n :: 0 <= n < |adds| ==> adds[n].at <= |copy|
    ensures AddedFrom(adds, |copy|) == AddedAt(adds, |copy|)
  {
    if adds != [] {
      AddedAtEnd(copy, adds[..|adds| - 1]);
    }
  }

  lemma NoneInside(copy: seq<Line>, adds: seq<Add>, i: nat)
    requires TidyAdds(copy, adds) && i < |copy|
    ensures forall n :: 0 <= n < |adds| ==> adds[n].at <= |copy| && !(i < adds[n].at < DetailsEnd(copy, i + 1))
  {
  }

  /** Nothing is split, absorbed or lost: the blocks are the copy's kept ones and the added ones. */
  lemma {:induction false} BlocksCounted(copy: seq<Line>, removed: set<string>, adds: seq<Add>, i: nat)
    requires i <= |copy| && TidyAdds(copy, adds)
    ensures multiset(Expected(copy, removed, adds, i)) ==
      multiset(Expected(copy, removed, [], i)) + multiset(AddedFrom(adds, i))
    decreases |copy| - i
  {
    hide TidyAdds, AddedAt, AddedFrom;
    NothingAdded(i);
    if i == |copy| {
      TidyPlaces(copy, adds);
      AddedAtEnd(copy, adds);
    } else if copy[i].TaskLine? {
      var e := DetailsEnd(copy, i + 1);
      NoneInside(copy, adds, i);
      AddedSplit(adds, i, e);
      BlocksCounted(copy, removed, adds, e);
    } else {
      AddedSplit(adds, i, i + 1);
      BlocksCounted(copy, removed, adds, i + 1);
    }
  }

  lemma TidyPlaces(copy: seq<Line>, adds: seq<Add>)
    requires TidyAdds(copy, adds)
    ensures forall n :: 0 <= n < |adds| ==> adds[n].at <= |copy|
  {
  }

  // -- where the lines come from ------------------------------------------------------------

  /** A line of the merged text: the copy's line `at`, or a line added before it. */
  datatype Origin = Copied(at: nat) | Inserted(at: nat, add: nat, line: nat)

  /** By place; at one place the additions in their order, line by line, and then the copy's own line. */
  predicate ComesBefore(a: Origin, b: Origin) {
    || a.at < b.at
    || (a.at == b.at && a.Inserted? && (b.Copied? || a.add < b.add || (a.add == b.add && a.line < b.line)))
  }

  /** The lines of addition n, at place p. */
  ghost function LinesAt(p: nat, n: nat, size: nat): (r: seq<Origin>)
    ensures |r| == size && forall l :: 0 <= l < size ==> r[l] == Inserted(p, n, l)
  {
    seq(size, l requires 0 <= l < size => Inserted(p, n, l))
  }

  /** What is inserted at place p: the additions for it, in their order, line by line. */
  ghost function InsertedAt(adds: seq<Add>, p: nat): (r: seq<Origin>)
    ensures |r| == |InsertsAt(adds, p)|
    ensures forall j :: 0 <= j < |r| ==> r[j].Inserted? && r[j].at == p && r[j].add < |adds|
  {
    if adds == [] then []
    else
      var n := |adds| - 1;
      InsertedAt(adds[..n], p) + if adds[n].at == p then LinesAt(p, n, |adds[n].block|) else []
  }

  /** What stands for place i alone: the additions before line i, and line i when kept. */
  ghost function OriginsAt(copy: seq<Line>, removed: set<string>, adds: seq<Add>, i: nat): (r: seq<Origin>)
    requires i <= |copy|
    ensures forall j :: 0 <= j < |r| ==> r[j].at == i
  {
    InsertedAt(adds, i) + if i < |copy| && !Dropped(copy, removed, i) then [Copied(i)] else []
  }

  ghost function Origins(copy: seq<Line>, removed: set<string>, adds: seq<Add>, i: nat): (r: seq<Origin>)
    requires i <= |copy|
    ensures forall j :: 0 <= j < |r| ==> r[j].at >= i
    decreases |copy| - i
  {
    OriginsAt(copy, removed, adds, i) + if i == |copy| then [] else Origins(copy, removed, adds, i + 1)
  }

  /** No two lines change places, and an addition stands right at its place. */
  ghost predicate InOrder(from: seq<Origin>) {
    forall j, k :: 0 <= j < k < |from| ==> ComesBefore(from[j], from[k])
  }

  /** The line is the one the origin names. */
  ghost predicate ComesFrom(copy: seq<Line>, adds: seq<Add>, o: Origin, line: Line) {
    match o
    case Copied(k) => k < |copy| && line == copy[k]
    case Inserted(at, n, l) => n < |adds| && adds[n].at == at && l < |adds[n].block| && line == adds[n].block[l]
  }

  /** Every line of the merged text has its origin. */
  ghost predicate Genuine(copy: seq<Line>, adds: seq<Add>, merged: seq<Line>, from: seq<Origin>) {
    |from| == |merged| && forall j :: 0 <= j < |from| ==> ComesFrom(copy, adds, from[j], merged[j])
  }

  lemma {:induction false} InsertedInOrder(adds: seq<Add>, p: nat)
    ensures InOrder(InsertedAt(adds, p))
  {
    if adds != [] {
      var n := |adds| - 1;
      InsertedInOrder(adds[..n], p);
      var front := InsertedAt(adds[..n], p);
      assert forall j :: 0 <= j < |front| ==> front[j].add < n;
    }
  }

  lemma GenuineJoins(copy: seq<Line>, adds: seq<Add>, m: seq<Line>, a: seq<Origin>, n: seq<Line>, b: seq<Origin>)
    requires Genuine(copy, adds, m, a) && Genuine(copy, adds, n, b)
    ensures Genuine(copy, adds, m + n, a + b)
  {
    hide ComesFrom;
  }

  lemma FewerAdditions(copy: seq<Line>, adds: seq<Add>, merged: seq<Line>, from: seq<Origin>)
    requires adds != [] && Genuine(copy, adds[..|adds| - 1], merged, from)
    ensures Genuine(copy, adds, merged, from)
  {
  }

  lemma LinesAreGenuine(copy: seq<Line>, adds: seq<Add>, n: nat)
    requires n < |adds|
    ensures Genuine(copy, adds, adds[n].block, LinesAt(adds[n].at, n, |adds[n].block|))
  {
  }

  lemma {:induction false} InsertedAreGenuine(copy: seq<Line>, adds: seq<Add>, p: nat)
    ensures Genuine(copy, adds, InsertsAt(adds, p), InsertedAt(adds, p))
  {
    hide Genuine;
    if adds == [] {
      NothingIsGenuine(copy, adds);
    } else {
      var n := |adds| - 1;
      var front := adds[..n];
      InsertedAreGenuine(copy, front, p);
      FewerAdditions(copy, adds, InsertsAt(front, p), InsertedAt(front, p));
      if adds[n].at == p {
        LinesAreGenuine(copy, adds, n);
        GenuineJoins(copy, adds, InsertsAt(front, p), InsertedAt(front, p), adds[n].block, LinesAt(p, n, |adds[n].block|));
      } else {
        assert InsertsAt(front, p) + [] == InsertsAt(front, p) && InsertedAt(front, p) + [] == InsertedAt(front, p);
      }
    }
  }

  lemma NothingIsGenuine(copy: seq<Line>, adds: seq<Add>)
    ensures Genuine(copy, adds, [], [])
  {
  }

  lemma {:induction false} InsertedAre(adds: seq<Add>, p: nat, n: nat, l: nat)
    ensures Inserted(p, n, l) in InsertedAt(adds, p) <==> n < |adds| && adds[n].at == p && l < |adds[n].block|
  {
    if adds != [] {
      var last := |adds| - 1;
      InsertedAre(adds[..last], p, n, l);
      var lines := LinesAt(p, last, |adds[last].block|);
      assert n == last && l < |lines| ==> lines[l] == Inserted(p, n, l);
    }
  }

  lemma {:induction false} AtPlace(copy: seq<Line>, removed: set<string>, adds: seq<Add>, i: nat)
    requires i <= |copy|
    ensures InOrder(OriginsAt(copy, removed, adds, i))
    ensures Genuine(copy, adds, InsertsAt(adds, i) + if i < |copy| then Kept(copy, removed, i) else [], OriginsAt(copy, removed, adds, i))
    ensures forall k: nat :: Copied(k) in OriginsAt(copy, removed, adds, i) <==> k == i && k < |copy| && !Dropped(copy, removed, k)
    ensures forall n: nat, l: nat ::
      Inserted(i, n, l) in OriginsAt(copy, removed, adds, i) <==> n < |adds| && adds[n].at == i && l < |adds[n].block|
  {
    hide InsertsAt, InsertedAt, Dropped;
    InsertedInOrder(adds, i);
    InsertedAreGenuine(copy, adds, i);
    forall n: nat, l: nat ensures Inserted(i, n, l) in InsertedAt(adds, i) <==> n < |adds| && adds[n].at == i && l < |adds[n].block| {
      InsertedAre(adds, i, n, l);
    }
  }

  lemma OrderJoins(a: seq<Origin>, b: seq<Origin>, i: nat)
    requires InOrder(a) && InOrder(b)
    requires forall j :: 0 <= j < |a| ==> a[j].at == i
    requires forall j :: 0 <= j < |b| ==> b[j].at > i
    ensures InOrder(a + b)
  {
  }

  lemma {:induction false} OriginsInOrder(copy: seq<Line>, removed: set<string>, adds: seq<Add>, i: nat)
    requires i <= |copy|
    ensures InOrder(Origins(copy, removed, adds, i))
    ensures Genuine(copy, adds, Woven(copy, removed, adds, i), Origins(copy, removed, adds, i))
    decreases |copy| - i
  {
    hide InOrder, Genuine, OriginsAt, InsertsAt, Kept;
    AtPlace(copy, removed, adds, i);
    var here := OriginsAt(copy, removed, adds, i);
    if i == |copy| {
      assert here + [] == here && InsertsAt(adds, i) + [] == InsertsAt(adds, i);
    } else {
      OriginsInOrder(copy, removed, adds, i + 1);
      OrderJoins(here, Origins(copy, removed, adds, i + 1), i);
      GenuineJoins(copy, adds, InsertsAt(adds, i) + Kept(copy, removed, i), here,
        Woven(copy, removed, adds, i + 1), Origins(copy, removed, adds, i + 1));
    }
  }

  /** Every line of every addition is there, once its place is reached. */
  lemma {:induction false} InsertionsComplete(copy: seq<Line>, removed: set<string>, adds: seq<Add>, i: nat, n: nat, l: nat)
    requires i <= |copy| && n < |adds| && i <= adds[n].at <= |copy| && l < |adds[n].block|
    ensures Inserted(adds[n].at, n, l) in Origins(copy, removed, adds, i)
    decreases |copy| - i
  {
    hide Dropped, OriginsAt;
    AtPlace(copy, removed, adds, i);
    if i < adds[n].at {
      InsertionsComplete(copy, removed, adds, i + 1, n, l);
    }
  }

  /** A line of the copy is in the merged text exactly when it is not dropped. */
  lemma {:induction false} OriginsComplete(copy: seq<Line>, removed: set<string>, adds: seq<Add>, i: nat, k: nat)
    requires i <= |copy| && i <= k
    ensures Copied(k) in Origins(copy, removed, adds, i) <==> k < |copy| && !Dropped(copy, removed, k)
    decreases |copy| - i
  {
    hide Dropped, OriginsAt;
    AtPlace(copy, removed, adds, i);
    if i < |copy| {
      if k > i {
        OriginsComplete(copy, removed, adds, i + 1, k);
      } else {
        assert Copied(k) !in Origins(copy, removed, adds, i + 1);
      }
    }
  }

  // -- which lines, and which open steps ----------------------------------------------------

  ghost predicate FromCopy(copy: seq<Line>, removed: set<string>, i: nat, l: Line)
    requires i <= |copy|
  {
    exists k :: i <= k < |copy| && copy[k] == l && !Dropped(copy, removed, k)
  }

  ghost predicate FromAdds(adds: seq<Add>, i: nat, l: Line) {
    exists n :: 0 <= n < |adds| && adds[n].at >= i && l in adds[n].block
  }

  lemma {:induction false} InsertsHave(adds: seq<Add>, p: nat, l: Line)
    ensures l in InsertsAt(adds, p) <==> exists n :: 0 <= n < |adds| && adds[n].at == p && l in adds[n].block
  {
    if adds != [] {
      var last := |adds| - 1;
      InsertsHave(adds[..last], p, l);
      if n :| 0 <= n < |adds| && adds[n].at == p && l in adds[n].block {
        assert n < last ==> adds[..last][n] == adds[n];
      }
    }
  }

  lemma {:induction false} WovenHas(copy: seq<Line>, removed: set<string>, adds: seq<Add>, i: nat, l: Line)
    requires i <= |copy| && forall n :: 0 <= n < |adds| ==> adds[n].at <= |copy|
    ensures l in Woven(copy, removed, adds, i) <==> FromCopy(copy, removed, i, l) || FromAdds(adds, i, l)
    decreases |copy| - i
  {
    hide Dropped, InsertsAt;
    InsertsHave(adds, i, l);
    if i < |copy| {
      WovenHas(copy, removed, adds, i + 1, l);
      CopyAt(copy, removed, i, l);
      AddsAt(adds, i, l);
    }
  }

  lemma CopyAt(copy: seq<Line>, removed: set<string>, i: nat, l: Line)
    requires i < |copy|
    ensures FromCopy(copy, removed, i, l) <==> l in Kept(copy, removed, i) || FromCopy(copy, removed, i + 1, l)
  {
  }

  lemma AddsAt(adds: seq<Add>, i: nat, l: Line)
    ensures FromAdds(adds, i, l) <==>
      (exists n :: 0 <= n < |adds| && adds[n].at == i && l in adds[n].block) || FromAdds(adds, i + 1, l)
  {
  }

  ghost function AddedNames(adds: seq<Add>): set<string>
    requires forall n :: 0 <= n < |adds| ==> IsStep(adds[n].block)
  {
    set n | 0 <= n < |adds| && IsStep(adds[n].block) :: adds[n].block[0].name
  }

  lemma OpenLineOfStep(block: seq<Line>, l: Line)
    requires IsStep(block) && l in block && l.TaskLine?
    ensures l == block[0]
  {
  }

  /** The open steps of the merged text: the copy's without the removed ones, and the added ones. */
  lemma {:induction false} OpenAfter(copy: seq<Line>, removed: set<string>, adds: seq<Add>)
    requires TidyAdds(copy, adds)
    ensures OpenLabels(Woven(copy, removed, adds, 0)) == OpenLabels(copy) - removed + AddedNames(adds)
    ensures Labels(copy) - removed + AddedNames(adds) <= Labels(Woven(copy, removed, adds, 0))
  {
    hide Woven;
    TidyPlaces(copy, adds);
    var m := Woven(copy, removed, adds, 0);
    forall x | x in OpenLabels(m) ensures x in OpenLabels(copy) - removed + AddedNames(adds) {
      OpenComesFrom(copy, removed, adds, x);
    }
    forall x | x in Labels(copy) && x !in removed
      ensures x in Labels(m) && (x in OpenLabels(copy) ==> x in OpenLabels(m))
    {
      KeptLabel(copy, removed, adds, x);
    }
    forall n | 0 <= n < |adds| ensures adds[n].block[0].name in OpenLabels(m) && adds[n].block[0].name in Labels(m) {
      var l := adds[n].block[0];
      assert IsStep(adds[n].block) && l in adds[n].block;
      WovenHas(copy, removed, adds, 0, l);
      assert FromAdds(adds, 0, l);
      var j :| 0 <= j < |m| && m[j] == l;
    }
  }

  lemma {:induction false} OpenComesFrom(copy: seq<Line>, removed: set<string>, adds: seq<Add>, x: string)
    requires TidyAdds(copy, adds) && x in OpenLabels(Woven(copy, removed, adds, 0))
    ensures x in OpenLabels(copy) - removed + AddedNames(adds)
  {
    TidyPlaces(copy, adds);
    var m := Woven(copy, removed, adds, 0);
    hide Woven;
    var j :| 0 <= j < |m| && m[j].TaskLine? && !m[j].ticked && m[j].name == x;
    WovenHas(copy, removed, adds, 0, m[j]);
    if FromCopy(copy, removed, 0, m[j]) {
      var k :| 0 <= k < |copy| && copy[k] == m[j] && !Dropped(copy, removed, k);
      assert x in OpenLabels(copy) && x !in removed;
    } else {
      var n :| 0 <= n < |adds| && m[j] in adds[n].block;
      OpenLineOfStep(adds[n].block, m[j]);
      assert x in AddedNames(adds);
    }
  }

  lemma {:induction false} KeptLabel(copy: seq<Line>, removed: set<string>, adds: seq<Add>, x: string)
    requires TidyAdds(copy, adds) && x in Labels(copy) && x !in removed
    ensures x in Labels(Woven(copy, removed, adds, 0))
    ensures x in OpenLabels(copy) ==> x in OpenLabels(Woven(copy, removed, adds, 0))
  {
    TidyPlaces(copy, adds);
    var m := Woven(copy, removed, adds, 0);
    hide Woven;
    var k :| 0 <= k < |copy| && copy[k].TaskLine? && copy[k].name == x && (x in OpenLabels(copy) ==> !copy[k].ticked);
    assert !Dropped(copy, removed, k);
    WovenHas(copy, removed, adds, 0, copy[k]);
    assert FromCopy(copy, removed, 0, copy[k]);
    var j :| 0 <= j < |m| && m[j] == copy[k];
  }

  // -- merge_open_tasks --------------------------------------------------------------------------

  /** The planner's edit: what it removed, and the steps to add with their places. */
  function RemovedBy(before: seq<Line>, after: seq<Line>): set<string> {
    BlockLabels(Blocks(before, 0), true) - BlockLabels(Blocks(after, 0), true)
  }

  lemma {:induction false} BlocksInBounds(lines: seq<Line>)
    ensures forall n :: 0 <= n < |Blocks(lines, 0)| ==>
      Blocks(lines, 0)[n].start < Blocks(lines, 0)[n].end <= |lines| && Blocks(lines, 0)[n].name in Order(Blocks(lines, 0))
  {
    hide Blocks;
    BlocksAreBlocks(lines, 0);
    forall n | 0 <= n < |Blocks(lines, 0)| ensures Blocks(lines, 0)[n].name in Order(Blocks(lines, 0)) {
      assert Order(Blocks(lines, 0))[n] == Blocks(lines, 0)[n].name;
    }
  }

  function AddsOf(copy: seq<Line>, before: seq<Line>, after: seq<Line>): seq<Add> {
    BlocksInBounds(after);
    var bs := Blocks(after, 0);
    Adds(bs, after, Order(bs), BlockLabels(Blocks(before, 0), true), Blocks(copy, 0), RemovedBy(before, after), |copy|)
  }

  /** The copy with the planner's edit applied, or None when that changes nothing. */
  function Merge(copy: seq<Line>, before: seq<Line>, after: seq<Line>): Option<seq<Line>> {
    var removed, adds := RemovedBy(before, after), AddsOf(copy, before, after);
    if removed == {} && adds == [] then None
    else
      var merged := Woven(copy, removed, adds, 0);
      if merged == copy then None else Some(merged)
  }

  // -- the additions are tidy -----------------------------------------------------------------------

  lemma {:induction false} FallbackIsClean(copy: seq<Line>, removed: set<string>)
    ensures Clean(copy, Fallback(Blocks(copy, 0), removed, |copy|))
  {
    var bs := Blocks(copy, 0);
    BlocksAreBlocks(copy, 0);
    hide Blocks;
    var n := FirstStaying(bs, removed);
    if n < |bs| {
      assert IsBlock(copy, bs[n]);
    } else if bs != [] {
      assert IsBlock(copy, bs[|bs| - 1]);
    }
  }

  lemma {:induction false} BehindIsClean(copy: seq<Line>, earlier: seq<string>, removed: set<string>, fallback: nat)
    requires Clean(copy, fallback)
    ensures Clean(copy, Behind(earlier, Blocks(copy, 0), removed, fallback))
  {
    if earlier != [] {
      var bs := Blocks(copy, 0);
      var last := LastNamed(bs, earlier[|earlier| - 1]);
      BlocksAreBlocks(copy, 0);
      hide Blocks, LastNamed;
      BehindIsClean(copy, earlier[..|earlier| - 1], removed, fallback);
      if last.Some? {
        assert IsBlock(copy, bs[last.value]);
      }
    }
  }

  lemma StepOfBlock(plan: seq<Line>, b: Block)
    requires IsBlock(plan, b) && !b.ticked
    ensures IsStep(Ended(plan[b.start..b.end])) && Ended(plan[b.start..b.end])[0].name == b.name
  {
  }

  ghost function NamesToAdd(bs: seq<Block>, oldOpen: set<string>, inCopy: set<string>): set<string> {
    set n | 0 <= n < |bs| && IsAdded(bs[n], oldOpen, inCopy) :: bs[n].name
  }

  lemma AddIsTidy(b: Block, plan: seq<Line>, order: seq<string>, copy: seq<Line>, removed: set<string>) returns (add: Add)
    requires b.start <= b.end <= |plan| && b.name in order && IsBlock(plan, b) && !b.ticked
    ensures add == Add(Place(b.name, order, Blocks(copy, 0), removed, |copy|), Ended(plan[b.start..b.end]))
    ensures IsStep(add.block) && add.block[0].name == b.name && Clean(copy, add.at)
  {
    StepOfBlock(plan, b);
    FallbackIsClean(copy, removed);
    BehindIsClean(copy, order[..IndexOf(order, b.name)], removed, Fallback(Blocks(copy, 0), removed, |copy|));
    hide Behind, Fallback, Blocks, Ended, IsStep, IndexOf;
    add := Add(Place(b.name, order, Blocks(copy, 0), removed, |copy|), Ended(plan[b.start..b.end]));
  }

  lemma {:induction false} AddsTidy(
    bs: seq<Block>, plan: seq<Line>, order: seq<string>, oldOpen: set<string>, copy: seq<Line>, removed: set<string>)
    requires forall n :: 0 <= n < |bs| ==> bs[n].start <= bs[n].end <= |plan| && bs[n].name in order
    requires forall n :: 0 <= n < |bs| ==> IsBlock(plan, bs[n])
    ensures var adds := Adds(bs, plan, order, oldOpen, Blocks(copy, 0), removed, |copy|);
      && TidyAdds(copy, adds)
      && AddedNames(adds) == NamesToAdd(bs, oldOpen, BlockLabels(Blocks(copy, 0), false))
  {
    hide Blocks, BlockLabels, IsBlock, IsStep, AddedNames, NamesToAdd, Place, Ended, Clean;
    if bs == [] {
      NoNames(oldOpen, BlockLabels(Blocks(copy, 0), false));
    } else {
      var last, front := bs[|bs| - 1], bs[..|bs| - 1];
      var inCopy := BlockLabels(Blocks(copy, 0), false);
      var adds := Adds(front, plan, order, oldOpen, Blocks(copy, 0), removed, |copy|);
      AddsTidy(front, plan, order, oldOpen, copy, removed);
      NamesGrow(front, last, oldOpen, inCopy);
      assert bs == front + [last];
      if IsAdded(last, oldOpen, inCopy) {
        var add := AddIsTidy(last, plan, order, copy, removed);
        assert Adds(bs, plan, order, oldOpen, Blocks(copy, 0), removed, |copy|) == adds + [add];
        hide Adds;
        AddedNamesGrow(adds, add);
      } else {
        assert Adds(bs, plan, order, oldOpen, Blocks(copy, 0), removed, |copy|) == adds;
      }
    }
  }

  lemma NoNames(oldOpen: set<string>, inCopy: set<string>)
    ensures NamesToAdd([], oldOpen, inCopy) == {} && AddedNames([]) == {}
  {
  }

  lemma NamesGrow(front: seq<Block>, last: Block, oldOpen: set<string>, inCopy: set<string>)
    ensures NamesToAdd(front + [last], oldOpen, inCopy) ==
      NamesToAdd(front, oldOpen, inCopy) + if IsAdded(last, oldOpen, inCopy) then {last.name} else {}
  {
    var bs := front + [last];
    assert bs[|front|] == last;
    forall n | 0 <= n < |front| ensures bs[n] == front[n] {
    }
  }

  lemma AddedNamesGrow(adds: seq<Add>, add: Add)
    requires forall n :: 0 <= n < |adds| ==> IsStep(adds[n].block)
    requires IsStep(add.block)
    ensures forall n :: 0 <= n < |adds + [add]| ==> IsStep((adds + [add])[n].block)
    ensures AddedNames(adds + [add]) == AddedNames(adds) + {add.block[0].name}
  {
    var more := adds + [add];
    assert more[|adds|] == add;
    forall n | 0 <= n < |adds| ensures more[n] == adds[n] {
    }
  }

  /** The steps the planner newly opened that the copy does not list in any state. */
  ghost function NewSteps(copy: seq<Line>, before: seq<Line>, after: seq<Line>): set<string> {
    OpenLabels(after) - OpenLabels(before) - Labels(copy)
  }

  ghost function Removed(before: seq<Line>, after: seq<Line>): set<string> {
    OpenLabels(before) - OpenLabels(after)
  }

  lemma AddsOfAreTidy(copy: seq<Line>, before: seq<Line>, after: seq<Line>)
    ensures RemovedBy(before, after) == Removed(before, after)
    ensures TidyAdds(copy, AddsOf(copy, before, after))
    ensures AddedNames(AddsOf(copy, before, after)) == NewSteps(copy, before, after)
  {
    hide Blocks;
    LabelsOfBlocks(before);
    LabelsOfBlocks(after);
    LabelsOfBlocks(copy);
    BlocksAreBlocks(after, 0);
    BlocksInBounds(after);
    var bs := Blocks(after, 0);
    AddsTidy(bs, after, Order(bs), OpenLabels(before), copy, RemovedBy(before, after));
    assert NamesToAdd(bs, OpenLabels(before), Labels(copy)) ==
      BlockLabels(bs, true) - OpenLabels(before) - Labels(copy);
  }

  // -- the merge, as a whole ----------------------------------------------------------------------------

  lemma {:induction false} NothingToDo(copy: seq<Line>, removed: set<string>, i: nat)
    requires i <= |copy| && forall k :: 0 <= k < |copy| ==> !Dropped(copy, removed, k)
    ensures Woven(copy, removed, [], i) == copy[i..]
    decreases |copy| - i
  {
    if i < |copy| {
      NothingToDo(copy, removed, i + 1);
    }
  }

  /** No edit comes back exactly when no removed step is open in the copy and no new one is missing from it. */
  lemma MergeIsNone(copy: seq<Line>, before: seq<Line>, after: seq<Line>)
    ensures Merge(copy, before, after).None? <==>
      NewSteps(copy, before, after) == {} && OpenLabels(copy) * Removed(before, after) == {}
  {
    hide Woven, AddsOf, NewSteps;
    var removed, adds := RemovedBy(before, after), AddsOf(copy, before, after);
    AddsOfAreTidy(copy, before, after);
    OpenAfter(copy, removed, adds);
    if NewSteps(copy, before, after) == {} && OpenLabels(copy) * removed == {} {
      NamesOfSome(adds);
      NothingToDo(copy, removed, 0);
    } else if Woven(copy, removed, adds, 0) == copy {
      NewStepsAreNew(copy, before, after);
    }
  }

  lemma NamesOfSome(adds: seq<Add>)
    requires forall n :: 0 <= n < |adds| ==> IsStep(adds[n].block)
    ensures adds != [] ==> AddedNames(adds) != {}
  {
    assert adds != [] ==> IsStep(adds[0].block);
    assert adds != [] ==> adds[0].block[0].name in AddedNames(adds);
  }

  lemma NewStepsAreNew(copy: seq<Line>, before: seq<Line>, after: seq<Line>)
    ensures NewSteps(copy, before, after) !! Labels(copy) && OpenLabels(copy) <= Labels(copy)
    ensures NewSteps(copy, before, after) !! Removed(before, after)
  {
  }

  /**
   * The open steps afterwards are the copy's, without what the planner removed, with what the
   * planner newly opened and the copy did not list.
   */
  lemma MergeOpens(copy: seq<Line>, before: seq<Line>, after: seq<Line>)
    requires Merge(copy, before, after).Some?
    ensures OpenLabels(Merge(copy, before, after).value) ==
      OpenLabels(copy) - Removed(before, after) + NewSteps(copy, before, after)
  {
    hide Woven, AddsOf;
    AddsOfAreTidy(copy, before, after);
    OpenAfter(copy, RemovedBy(before, after), AddsOf(copy, before, after));
  }

  /** That is every step the planner opened, unless the copy holds one of them only as done. */
  lemma MergeOpensAll(copy: seq<Line>, before: seq<Line>, after: seq<Line>)
    requires Merge(copy, before, after).Some?
    ensures OpenLabels(Merge(copy, before, after).value) ==
        OpenLabels(copy) - Removed(before, after) + (OpenLabels(after) - OpenLabels(before))
      <==> (OpenLabels(after) - OpenLabels(before)) * Labels(copy) <= OpenLabels(copy)
  {
    hide Merge;
    MergeOpens(copy, before, after);
  }

  /** A step the planner reopens stays done when the build has ticked it. */
  lemma ReopenedStepStaysDone(text: string)
    ensures Merge([TaskLine(true, "step", text, true)], [TaskLine(true, "step", text, true)],
      [TaskLine(false, "step", text, true)]).None?
  {
    var copy, after := [TaskLine(true, "step", text, true)], [TaskLine(false, "step", text, true)];
    MergeIsNone(copy, copy, after);
    assert copy[0].name in Labels(copy);
    assert NewSteps(copy, copy, after) == {};
  }

  /** Ticked steps come through line for line and in order; the rest is the kept and the added blocks. */
  lemma {:induction false} MergeKeepsBlocks(copy: seq<Line>, before: seq<Line>, after: seq<Line>)
    requires Merge(copy, before, after).Some?
    ensures var m := Merge(copy, before, after).value; var adds := AddsOf(copy, before, after);
      && TickedOnly(Bodies(m)) == TickedOnly(Bodies(copy))
      && multiset(Bodies(m)) == multiset(Expected(copy, RemovedBy(before, after), [], 0)) + multiset(AddedFrom(adds, 0))
  {
    hide AddsOf, Bodies, TickedOnly, Expected, AddedFrom;
    var removed, adds := RemovedBy(before, after), AddsOf(copy, before, after);
    AddsOfAreTidy(copy, before, after);
    WovenBodies(copy, removed, adds, 0);
    TickedStay(copy, removed, adds, 0);
    BlocksCounted(copy, removed, adds, 0);
    NothingToDo(copy, {}, 0);
    WovenBodies(copy, {}, [], 0);
  }

  /**
   * The merged text, line by line: every line of the copy outside a removed open step and every line of every
   * addition, each once; the copy's in their order, and the additions for a place, in their order, right in
   * front of its line.
   */
  lemma MergeKeepsLines(copy: seq<Line>, before: seq<Line>, after: seq<Line>) returns (from: seq<Origin>)
    requires Merge(copy, before, after).Some?
    ensures Genuine(copy, AddsOf(copy, before, after), Merge(copy, before, after).value, from) && InOrder(from)
    ensures forall k: nat :: Copied(k) in from <==> k < |copy| && !Dropped(copy, Removed(before, after), k)
    ensures var adds := AddsOf(copy, before, after);
      forall n: nat, l: nat :: n < |adds| && l < |adds[n].block| ==> Inserted(adds[n].at, n, l) in from
  {
    hide AddsOf, Woven, Origins, Dropped, InOrder, Genuine;
    var removed, adds := RemovedBy(before, after), AddsOf(copy, before, after);
    AddsOfAreTidy(copy, before, after);
    from := Origins(copy, removed, adds, 0);
    OriginsInOrder(copy, removed, adds, 0);
    forall k: nat ensures Copied(k) in from <==> k < |copy| && !Dropped(copy, removed, k) {
      OriginsComplete(copy, removed, adds, 0, k);
    }
    forall n: nat, l: nat | n < |adds| && l < |adds[n].block| ensures Inserted(adds[n].at, n, l) in from {
      InsertionsComplete(copy, removed, adds, 0, n, l);
    }
  }

  /** Applying the same edit once more changes nothing. */
  lemma MergeSettles(copy: seq<Line>, before: seq<Line>, after: seq<Line>)
    requires Merge(copy, before, after).Some?
    ensures Merge(Merge(copy, before, after).value, before, after).None?
  {
    hide Woven, AddsOf;
    var m := Merge(copy, before, after).value;
    AddsOfAreTidy(copy, before, after);
    OpenAfter(copy, RemovedBy(before, after), AddsOf(copy, before, after));
    MergeIsNone(m, before, after);
  }

  // -- the merge as it runs --------------------------------------------------------------------------------

  ghost predicate Doomed(b: Block, removed: set<string>) {
    !b.ticked && b.name in removed
  }

  ghost predicate InDoomed(blocks: seq<Block>, removed: set<string>, k: int) {
    exists n :: 0 <= n < |blocks| && Doomed(blocks[n], removed) && blocks[n].start <= k < blocks[n].end
  }

  lemma {:induction false} HeadReaches(lines: seq<Line>, k: nat)
    requires k < |lines| && HeadOf(lines, k).Some?
    ensures k < DetailsEnd(lines, HeadOf(lines, k).value + 1)
  {
    if lines[k].Detail? {
      HeadReaches(lines, k - 1);
    }
  }

  lemma {:induction false} BlockEnds(lines: seq<Line>, b: Block)
    requires IsBlock(lines, b)
    ensures DetailsEnd(lines, b.start + 1) == b.end
  {
  }

  lemma {:induction false} DroppedByBlock(copy: seq<Line>, removed: set<string>, k: nat)
    requires k < |copy|
    ensures Dropped(copy, removed, k) <==> InDoomed(Blocks(copy, 0), removed, k)
  {
    hide Blocks;
    var bs := Blocks(copy, 0);
    BlocksAreBlocks(copy, 0);
    if Dropped(copy, removed, k) {
      var h := HeadOf(copy, k).value;
      var n := TaskOpensBlock(copy, 0, h);
      assert IsBlock(copy, bs[n]);
      BlockEnds(copy, bs[n]);
      HeadReaches(copy, k);
      assert Doomed(bs[n], removed);
    }
    if InDoomed(bs, removed, k) {
      var n :| 0 <= n < |bs| && Doomed(bs[n], removed) && bs[n].start <= k < bs[n].end;
      assert IsBlock(copy, bs[n]);
      BlockEnds(copy, bs[n]);
      HeadOfDetail(copy, bs[n].start, k);
    }
  }

  method DropSet(copy: seq<Line>, blocks: seq<Block>, removed: set<string>) returns (drop: set<int>)
    requires blocks == Blocks(copy, 0)
    ensures forall k :: 0 <= k < |copy| ==> (k in drop <==> Dropped(copy, removed, k))
  {
    BlocksAreBlocks(copy, 0);
    hide Blocks;
    drop := {};
    for n := 0 to |blocks|
      invariant forall k :: k in drop <==> InDoomed(blocks[..n], removed, k)
    {
      hide InDoomed;
      var b := blocks[n];
      ghost var dropped := drop;
      DoomedGrows(blocks[..n], b, removed);
      if !b.ticked && b.name in removed {
        var i := b.start;
        while i < b.end
          invariant b.start <= i <= b.end
          invariant forall k :: k in drop <==> k in dropped || b.start <= k < i
        {
          drop := drop + {i};
          i := i + 1;
        }
      }
      assert blocks[..n + 1] == blocks[..n] + [b];
      forall k ensures k in drop <==> InDoomed(blocks[..n + 1], removed, k) {
        assert k in dropped <==> InDoomed(blocks[..n], removed, k);
      }
    }
    assert blocks[..|blocks|] == blocks;
    hide Dropped, InDoomed;
    forall k | 0 <= k < |copy| ensures k in drop <==> Dropped(copy, removed, k) {
      DroppedByBlock(copy, removed, k);
    }
  }

  lemma DoomedGrows(front: seq<Block>, last: Block, removed: set<string>)
    ensures forall k :: InDoomed(front + [last], removed, k) <==>
      InDoomed(front, removed, k) || (Doomed(last, removed) && last.start <= k < last.end)
  {
    forall k ensures InDoomed(front + [last], removed, k) <==>
      InDoomed(front, removed, k) || (Doomed(last, removed) && last.start <= k < last.end)
    {
      if n :| 0 <= n < |front| && Doomed(front[n], removed) && front[n].start <= k < front[n].end {
        assert (front + [last])[n] == front[n];
      }
      if Doomed(last, removed) && last.start <= k < last.end {
        assert (front + [last])[|front|] == last;
      }
    }
  }

  /** The copy lists the step and the planner kept it. */
  predicate Anchors(blocks: seq<Block>, removed: set<string>, name: string) {
    LastNamed(blocks, name).Some? && name !in removed
  }

  ghost predicate IsNearest(earlier: seq<string>, blocks: seq<Block>, removed: set<string>, n: int) {
    && 0 <= n < |earlier| && Anchors(blocks, removed, earlier[n])
    && forall m :: n < m < |earlier| ==> !Anchors(blocks, removed, earlier[m])
  }

  /** The place behind the nearest earlier step that the copy lists and the planner kept. */
  method FindPlace(earlier: seq<string>, blocks: seq<Block>, removed: set<string>, fallback: nat) returns (at: nat)
    ensures at == Behind(earlier, blocks, removed, fallback)
    ensures (forall n :: 0 <= n < |earlier| ==> !Anchors(blocks, removed, earlier[n])) ==> at == fallback
    ensures forall n :: IsNearest(earlier, blocks, removed, n) ==> at == blocks[LastNamed(blocks, earlier[n]).value].end
  {
    var n := |earlier|;
    assert earlier[..n] == earlier;
    while n > 0
      invariant 0 <= n <= |earlier|
      invariant forall m :: n <= m < |earlier| ==> !Anchors(blocks, removed, earlier[m])
      invariant Behind(earlier[..n], blocks, removed, fallback) == Behind(earlier, blocks, removed, fallback)
    {
      n := n - 1;
      assert earlier[..n + 1][..n] == earlier[..n];
      var last := LastNamed(blocks, earlier[n]);
      if last.Some? && earlier[n] !in removed {
        return blocks[last.value].end;
      }
    }
    at := fallback;
  }

  ghost predicate Holds(inserts: map<nat, seq<Line>>, adds: seq<Add>) {
    forall p: nat :: InsertsAt(adds, p) == if p in inserts then inserts[p] else []
  }

  lemma HoldsMore(inserts: map<nat, seq<Line>>, adds: seq<Add>, add: Add)
    requires Holds(inserts, adds)
    ensures Holds(inserts[add.at := (if add.at in inserts then inserts[add.at] else []) + add.block], adds + [add])
  {
  }

  /** Gathers the planner's new steps by the place they go to. */
  method GatherInserts(copy: seq<Line>, before: seq<Line>, after: seq<Line>, newBlocks: seq<Block>, copyBlocks: seq<Block>,
      oldOpen: set<string>, removed: set<string>) returns (inserts: map<nat, seq<Line>>, ghost adds: seq<Add>)
    requires newBlocks == Blocks(after, 0) && copyBlocks == Blocks(copy, 0)
    requires oldOpen == BlockLabels(Blocks(before, 0), true) && removed == RemovedBy(before, after)
    ensures adds == AddsOf(copy, before, after)
    ensures Holds(inserts, adds) && (inserts == map[] <==> adds == [])
  {
    BlocksInBounds(after);
    hide Blocks, BlockLabels, Behind, Ended, Holds, Fallback, IndexOf;
    var fallback := Fallback(copyBlocks, removed, |copy|);
    var order := Order(newBlocks);
    var inCopy := BlockLabels(copyBlocks, false);
    inserts, adds := map[], [];
    NothingHeld();
    for n := 0 to |newBlocks|
      invariant adds == Adds(newBlocks[..n], after, order, oldOpen, copyBlocks, removed, |copy|)
      invariant Holds(inserts, adds) && (inserts == map[] <==> adds == [])
    {
      var b := newBlocks[n];
      assert newBlocks[..n + 1][..n] == newBlocks[..n];
      if IsAdded(b, oldOpen, inCopy) {
        var at := FindPlace(order[..IndexOf(order, b.name)], copyBlocks, removed, fallback);
        var block := Ended(after[b.start..b.end]);
        HoldsMore(inserts, adds, Add(at, block));
        inserts := inserts[at := (if at in inserts then inserts[at] else []) + block];
        adds := adds + [Add(at, block)];
      }
    }
    assert newBlocks[..|newBlocks|] == newBlocks;
  }

  lemma NothingHeld()
    ensures Holds(map[], [])
  {
  }

  /** Steps the planner removed are dropped if still open, steps it added are inserted, the rest stays. */
  method MergeOpenTasks(copy: seq<Line>, before: seq<Line>, after: seq<Line>) returns (merged: Option<seq<Line>>)
    ensures merged == Merge(copy, before, after)
  {
    hide Blocks, BlockLabels, AddsOf, InsertsAt, Dropped;
    var oldBlocks := TaskBlocks(before);
    var newBlocks := TaskBlocks(after);
    var copyBlocks := TaskBlocks(copy);
    var oldOpen := BlockLabels(oldBlocks, true);
    var removed := oldOpen - BlockLabels(newBlocks, true);
    var inserts;
    ghost var adds;
    inserts, adds := GatherInserts(copy, before, after, newBlocks, copyBlocks, oldOpen, removed);
    if removed == {} && inserts == map[] {
      return None;
    }
    var drop := DropSet(copy, copyBlocks, removed);
    var out := Assemble(copy, removed, adds, inserts, drop);
    merged := if out == copy then None else Some(out);
  }

  lemma WovenStep(out: seq<Line>, copy: seq<Line>, removed: set<string>, adds: seq<Add>, i: nat)
    requires i < |copy|
    ensures out + InsertsAt(adds, i) + Kept(copy, removed, i) + Woven(copy, removed, adds, i + 1) ==
      out + Woven(copy, removed, adds, i)
  {
  }

  method Assemble(copy: seq<Line>, ghost removed: set<string>, ghost adds: seq<Add>,
      inserts: map<nat, seq<Line>>, drop: set<int>) returns (out: seq<Line>)
    requires Holds(inserts, adds)
    requires forall k :: 0 <= k < |copy| ==> (k in drop <==> Dropped(copy, removed, k))
    ensures out == Woven(copy, removed, adds, 0)
  {
    hide InsertsAt, Dropped, Woven;
    out := [];
    EmptyEnds(Woven(copy, removed, adds, 0));
    for i := 0 to |copy|
      invariant out + Woven(copy, removed, adds, i) == Woven(copy, removed, adds, 0)
    {
      WovenStep(out, copy, removed, adds, i);
      ghost var before := out;
      if i in inserts {
        out := out + inserts[i];
      }
      assert out == before + InsertsAt(adds, i);
      ghost var between := out;
      if i !in drop {
        out := out + [copy[i]];
      }
      assert out == between + Kept(copy, removed, i);
    }
    WovenEnds(copy, removed, adds);
    if |copy| in inserts {
      out := out + inserts[|copy|];
    }
  }

  lemma {:induction false} WovenEnds(copy: seq<Line>, removed: set<string>, adds: seq<Add>)
    ensures Woven(copy, removed, adds, |copy|) == InsertsAt(adds, |copy|)
  {
  }
}
