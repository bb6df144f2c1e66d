/** A checkbox plan as classified lines, and the task blocks its lines form. */
module PlanText {
  /**
   * A checkbox line; an indented line that is neither blank nor a checkbox; anything else.
   * A line is ended when its newline is there.
   */
  datatype Line =
    | TaskLine(ticked: bool, name: string, text: string, ended: bool)
    | Detail(text: string, ended: bool)
    | Other(text: string, ended: bool)

  /** A task and the indented lines that belong to it: lines[start..end]. */
  datatype Block = Block(start: nat, end: nat, ticked: bool, name: string)

  /** Where the run of details that begins at j ends. */
  function DetailsEnd(lines: seq<Line>, j: nat): (e: nat)
    requires j <= |lines|
    ensures j <= e <= |lines|
    ensures forall k :: j <= k < e ==> lines[k].Detail?
    ensures e < |lines| ==> !lines[e].Detail?
    decreases |lines| - j
  {
    if j < |lines| && lines[j].Detail? then DetailsEnd(lines, j + 1) else j
  }

  function Blocks(lines: seq<Line>, i: nat): (bs: seq<Block>)
    requires i <= |lines|
    decreases |lines| - i
  {
    if i == |lines| then []
    else if lines[i].TaskLine? then
      var e := DetailsEnd(lines, i + 1);
      [Block(i, e, lines[i].ticked, lines[i].name)] + Blocks(lines, e)
    else Blocks(lines, i + 1)
  }

  method TaskBlocks(lines: seq<Line>) returns (blocks: seq<Block>)
    ensures blocks == Blocks(lines, 0)
  {
    blocks := [];
    var i := 0;
    while i < |lines|
      invariant i <= |lines|
      invariant blocks + Blocks(lines, i) == Blocks(lines, 0)
      decreases |lines| - i
    {
      if !lines[i].TaskLine? {
        i := i + 1;
      } else {
        var j := i + 1;
        while j < |lines| && lines[j].Detail?
          invariant i < j <= |lines| && DetailsEnd(lines, j) == DetailsEnd(lines, i + 1)
        {
          j := j + 1;
        }
        blocks := blocks + [Block(i, j, lines[i].ticked, lines[i].name)];
        i := j;
      }
    }
  }

  ghost predicate IsBlock(lines: seq<Line>, b: Block) {
    && b.start < b.end <= |lines|
    && lines[b.start].TaskLine? && lines[b.start].ticked == b.ticked && lines[b.start].name == b.name
    && (forall k :: b.start < k < b.end ==> lines[k].Detail?)
    && Clean(lines, b.end)
  }

  /** A place where a block may be put without splitting another or taking its details. */
  ghost predicate Clean(lines: seq<Line>, p: nat) {
    p <= |lines| && (p < |lines| ==> !lines[p].Detail?)
  }

  lemma {:induction false} BlocksAreBlocks(lines: seq<Line>, i: nat)
    requires i <= |lines|
    ensures forall n :: 0 <= n < |Blocks(lines, i)| ==> IsBlock(lines, Blocks(lines, i)[n])
    decreases |lines| - i
  {
    if i < |lines| {
      BlocksAreBlocks(lines, if lines[i].TaskLine? then DetailsEnd(lines, i + 1) else i + 1);
    }
  }

  /** Every task line opens a block of its own. */
  lemma {:induction false} TaskOpensBlock(lines: seq<Line>, i: nat, k: nat) returns (n: nat)
    requires i <= k < |lines| && lines[k].TaskLine?
    ensures n < |Blocks(lines, i)| && Blocks(lines, i)[n].start == k
    ensures Blocks(lines, i)[n].name == lines[k].name && Blocks(lines, i)[n].ticked == lines[k].ticked
    decreases |lines| - i
  {
    if lines[i].TaskLine? {
      if k == i {
        n := 0;
      } else {
        var m := TaskOpensBlock(lines, DetailsEnd(lines, i + 1), k);
        n := m + 1;
      }
    } else {
      n := TaskOpensBlock(lines, i + 1, k);
    }
  }

  // -- labels ----------------------------------------------------------------------

  ghost function OpenLabels(lines: seq<Line>): set<string> {
    set k | 0 <= k < |lines| && lines[k].TaskLine? && !lines[k].ticked :: lines[k].name
  }

  ghost function Labels(lines: seq<Line>): set<string> {
    set k | 0 <= k < |lines| && lines[k].TaskLine? :: lines[k].name
  }

  /** The labels of the blocks, open ones only or all. */
  function BlockLabels(blocks: seq<Block>, openOnly: bool): (r: set<string>) {
    set n | 0 <= n < |blocks| && (openOnly ==> !blocks[n].ticked) :: blocks[n].name
  }

  /** What a parse calls the open labels are the labels of the unticked task lines. */
  lemma {:induction false} LabelsOfBlocks(lines: seq<Line>)
    ensures BlockLabels(Blocks(lines, 0), true) == OpenLabels(lines)
    ensures BlockLabels(Blocks(lines, 0), false) == Labels(lines)
  {
    hide Blocks;
    BlocksAreBlocks(lines, 0);
    forall k | 0 <= k < |lines| && lines[k].TaskLine?
      ensures lines[k].name in BlockLabels(Blocks(lines, 0), false)
      ensures !lines[k].ticked ==> lines[k].name in BlockLabels(Blocks(lines, 0), true)
    {
      var n := TaskOpensBlock(lines, 0, k);
    }
  }

  // -- bodies --------------------------------------------------------------------------

  /** The text of every block, in order. */
  function Bodies(lines: seq<Line>): seq<seq<Line>>
    decreases |lines|
  {
    if lines == [] then []
    else if lines[0].TaskLine? then
      var e := DetailsEnd(lines, 1);
      [lines[..e]] + Bodies(lines[e..])
    else Bodies(lines[1..])
  }

  lemma {:induction false} DetailsEndShifts(lines: seq<Line>, i: nat, j: nat)
    requires i <= j <= |lines|
    ensures DetailsEnd(lines[i..], j - i) == DetailsEnd(lines, j) - i
    decreases |lines| - j
  {
  }

  lemma {:induction false} BodiesAreBlocks(lines: seq<Line>, i: nat)
    requires i <= |lines|
    ensures |Bodies(lines[i..])| == |Blocks(lines, i)|
    ensures forall n :: 0 <= n < |Blocks(lines, i)| ==>
      var b := Blocks(lines, i)[n]; b.start <= b.end <= |lines| && Bodies(lines[i..])[n] == lines[b.start..b.end]
    decreases |lines| - i
  {
    if i < |lines| {
      var rest := lines[i..];
      if lines[i].TaskLine? {
        var e := DetailsEnd(lines, i + 1);
        DetailsEndShifts(lines, i, i + 1);
        assert rest[e - i..] == lines[e..] && rest[..e - i] == lines[i..e];
        BodiesAreBlocks(lines, e);
      } else {
        assert rest[1..] == lines[i + 1..];
        BodiesAreBlocks(lines, i + 1);
      }
    }
  }

  lemma {:induction false} DetailsEndJoins(a: seq<Line>, b: seq<Line>, j: nat)
    requires j <= |a| && (b == [] || !b[0].Detail?)
    ensures DetailsEnd(a + b, j) == DetailsEnd(a, j)
    decreases |a| - j
  {
    if j < |a| && a[j].Detail? {
      DetailsEndJoins(a, b, j + 1);
    }
  }

  /** Texts joined at a line that is no detail keep their blocks apart. */
  lemma {:induction false} BodiesJoin(a: seq<Line>, b: seq<Line>)
    requires b == [] || !b[0].Detail?
    ensures Bodies(a + b) == Bodies(a) + Bodies(b)
    decreases |a|
  {
    if a == [] {
      assert a + b == b;
    } else if a[0].TaskLine? {
      var e := DetailsEnd(a, 1);
      DetailsEndJoins(a, b, 1);
      assert (a + b)[e..] == a[e..] + b && (a + b)[..e] == a[..e];
      BodiesJoin(a[e..], b);
    } else {
      assert (a + b)[1..] == a[1..] + b;
      BodiesJoin(a[1..], b);
    }
  }
}
