/**
 * Server-sent event frames out of a byte stream that arrives in arbitrary pieces: the
 * buffering decoder against a line-by-line reading of the whole input.
 */
module Sse {
  import opened Common

  newtype byte = x: int | 0 <= x < 256

  type Bytes = seq<byte>

  /** The data lines of one event. */
  type Frame = seq<Bytes>

  const MAX_EVENT_BYTES := 1_048_576
  const NL: byte := 10
  const CR: byte := 13
  const SPACE: byte := 32
  const COLON: byte := 58
  const DATA: Bytes := [100, 97, 116, 97]

  // -- one line at a time -----------------------------------------------------------

  /** Where the first newline is, or the length when there is none. */
  function FindNewline(s: Bytes): (n: nat)
    ensures n <= |s| && (n < |s| ==> s[n] == NL)
    ensures forall k :: 0 <= k < n ==> s[k] != NL
  {
    if s == [] || s[0] == NL then 0 else 1 + FindNewline(s[1..])
  }

  function StripCr(line: Bytes): (r: Bytes)
    ensures |r| <= |line|
  {
    if line != [] && line[|line| - 1] == CR then StripCr(line[..|line| - 1]) else line
  }

  /** The event so far: its data lines, the bytes the decoder counts, and the bytes received. */
  datatype Pending = Pending(lines: Frame, counted: nat, raw: nat)

  const START := Pending([], 0, 0)

  /** What a line adds to the data: nothing for comments and other fields. */
  function DataOf(line: Bytes): Option<Bytes> {
    if line == DATA then Some([])
    else if DATA + [COLON] <= line then
      var value := line[5..];
      Some(if value != [] && value[0] == SPACE then value[1..] else value)
    else None
  }

  /** A line as received, without its newline. */
  function Line(p: Pending, received: Bytes): Pending {
    var line := StripCr(received);
    var data := DataOf(line);
    if line == [] then START
    else Pending(if data.Some? then p.lines + [data.value] else p.lines, p.counted + |line| + 1, p.raw + |received| + 1)
  }

  /** An empty line completes an event that has data. */
  function Completed(p: Pending, received: Bytes): seq<Frame> {
    if StripCr(received) == [] && p.lines != [] then [p.lines] else []
  }

  // -- the whole input ------------------------------------------------------------------

  /** The events the input's complete lines complete. */
  function Frames(p: Pending, input: Bytes): seq<Frame>
    decreases |input|
  {
    var n := FindNewline(input);
    if n == |input| then [] else Completed(p, input[..n]) + Frames(Line(p, input[..n]), input[n + 1..])
  }

  /** The event still open after the input's complete lines. */
  function Rest(p: Pending, input: Bytes): Pending
    decreases |input|
  {
    var n := FindNewline(input);
    if n == |input| then p else Rest(Line(p, input[..n]), input[n + 1..])
  }

  /** The last line, when no newline ends it. */
  function Tail(input: Bytes): (t: Bytes)
    ensures |t| <= |input| && FindNewline(t) == |t|
    decreases |input|
  {
    var n := FindNewline(input);
    if n == |input| then input else Tail(input[n + 1..])
  }

  /** An unfinished last line counts only when it holds data, and the last event needs no empty line. */
  function AtEnd(p: Pending, tail: Bytes): seq<Frame> {
    var line := StripCr(tail);
    var data := if DATA + [COLON] <= line then DataOf(line) else None;
    var lines := if data.Some? then p.lines + [data.value] else p.lines;
    if lines == [] then [] else [lines]
  }

  /** Every event of the input, read at once. */
  function AllFrames(input: Bytes): seq<Frame> {
    Frames(START, input) + AtEnd(Rest(START, input), Tail(input))
  }

  /** No event, counting every byte received for it, is larger than the limit. */
  predicate Fits(p: Pending, input: Bytes)
    decreases |input|
  {
    var n := FindNewline(input);
    if n == |input| then p.raw + |input| <= MAX_EVENT_BYTES
    else p.raw + n + 1 <= MAX_EVENT_BYTES && Fits(Line(p, input[..n]), input[n + 1..])
  }

  /** The same for the bytes the decoder counts, which leave out trailing carriage returns. */
  predicate CountFits(p: Pending, input: Bytes)
    decreases |input|
  {
    var n := FindNewline(input);
    if n == |input| then p.counted + |input| <= MAX_EVENT_BYTES
    else p.counted + |StripCr(input[..n])| + 1 <= MAX_EVENT_BYTES && CountFits(Line(p, input[..n]), input[n + 1..])
  }

  /** The events completed before the one that is counted too large; all of them when none is. */
  function Until(p: Pending, input: Bytes): seq<Frame>
    decreases |input|
  {
    var n := FindNewline(input);
    if n == |input| || p.counted + |StripCr(input[..n])| + 1 > MAX_EVENT_BYTES then []
    else Completed(p, input[..n]) + Until(Line(p, input[..n]), input[n + 1..])
  }

  // -- reading in two parts ------------------------------------------------------------------

  lemma {:induction false} NewlineStays(a: Bytes, b: Bytes)
    requires FindNewline(a) < |a|
    ensures FindNewline(a + b) == FindNewline(a)
  {
    var n := FindNewline(a);
    assert (a + b)[n] == a[n];
    assert forall k :: 0 <= k < n ==> (a + b)[k] == a[k];
  }

  lemma {:induction false} NoNewlineJoins(a: Bytes, b: Bytes)
    requires FindNewline(a) == |a|
    ensures FindNewline(a + b) == |a| + FindNewline(b)
  {
    if a == [] {
      assert a + b == b;
    } else {
      assert FindNewline(a[1..]) == |a[1..]|;
      NoNewlineJoins(a[1..], b);
      assert (a + b)[1..] == a[1..] + b;
    }
  }

  lemma CutBehind(a: Bytes, b: Bytes, n: nat)
    requires n < |a|
    ensures (a + b)[..n] == a[..n] && (a + b)[n + 1..] == a[n + 1..] + b
  {
  }

  lemma {:induction false} FirstLineStays(a: Bytes, b: Bytes)
    requires FindNewline(a) < |a|
    ensures var n := FindNewline(a);
      FindNewline(a + b) == n < |a + b| && (a + b)[..n] == a[..n] && (a + b)[n + 1..] == a[n + 1..] + b
  {
    hide FindNewline;
    NewlineStays(a, b);
    CutBehind(a, b, FindNewline(a));
  }

  /** However the input is cut in two, the second part only needs the open event and the unfinished line. */
  lemma {:induction false} FramesReadOn(p: Pending, a: Bytes, b: Bytes)
    ensures Frames(p, a + b) == Frames(p, a) + Frames(Rest(p, a), Tail(a) + b)
    decreases |a|
  {
    hide Line, Completed, FindNewline, StripCr, Frames, Rest, Tail;
    NextLine(p, a);
    var n := FindNewline(a);
    if n < |a| {
      FirstLineStays(a, b);
      NextLine(p, a + b);
      var rest, next, done := a[n + 1..], Line(p, a[..n]), Completed(p, a[..n]);
      FramesReadOn(next, rest, b);
      Associates(done, Frames(next, rest), Frames(Rest(next, rest), Tail(rest) + b));
    } else {
      EmptyEnds(Frames(p, a + b));
    }
  }

  lemma {:induction false} RestReadsOn(p: Pending, a: Bytes, b: Bytes)
    ensures Rest(p, a + b) == Rest(Rest(p, a), Tail(a) + b)
    ensures Tail(a + b) == Tail(Tail(a) + b)
    decreases |a|
  {
    hide Line, FindNewline;
    var n := FindNewline(a);
    if n < |a| {
      FirstLineStays(a, b);
      RestReadsOn(Line(p, a[..n]), a[n + 1..], b);
    }
  }

  lemma {:induction false} CountReadsOn(p: Pending, a: Bytes, b: Bytes)
    requires CountFits(p, a)
    ensures CountFits(p, a + b) <==> CountFits(Rest(p, a), Tail(a) + b)
    decreases |a|
  {
    hide Line, FindNewline, StripCr;
    var n := FindNewline(a);
    if n < |a| {
      FirstLineStays(a, b);
      CountReadsOn(Line(p, a[..n]), a[n + 1..], b);
    }
  }

  /** Up to a refusal, too, the second part only needs the open event and the unfinished line. */
  lemma {:induction false} UntilReadsOn(p: Pending, a: Bytes, b: Bytes)
    requires CountFits(p, a)
    ensures Until(p, a + b) == Frames(p, a) + Until(Rest(p, a), Tail(a) + b)
    decreases |a|
  {
    hide Line, Completed, FindNewline, StripCr, Frames, Rest, Tail, Until, CountFits;
    NextLine(p, a);
    var n := FindNewline(a);
    if n < |a| {
      FirstLineStays(a, b);
      NextLine(p, a + b);
      var rest, next, done := a[n + 1..], Line(p, a[..n]), Completed(p, a[..n]);
      UntilReadsOn(next, rest, b);
      Associates(done, Frames(next, rest), Until(Rest(next, rest), Tail(rest) + b));
    } else {
      EmptyEnds(Until(p, a + b));
    }
  }

  /**
   * What comes out before a refusal: everything up to some line end, where the events so far fit, and
   * the line behind it is the one that makes its event too large.
   */
  lemma {:induction false} BeforeTheRefused(p: Pending, input: Bytes) returns (m: nat)
    requires p.counted <= MAX_EVENT_BYTES && !CountFits(p, input)
    ensures m <= |input| && Until(p, input) == Frames(p, input[..m])
    ensures CountFits(p, input[..m]) && Tail(input[..m]) == []
    ensures
      var q, rest := Rest(p, input[..m]), input[m..];
      var n := FindNewline(rest);
      q.counted + (if n == |rest| then |rest| else |StripCr(rest[..n])| + 1) > MAX_EVENT_BYTES
    decreases |input|
  {
    hide Completed, StripCr, Line, FindNewline, Frames, Rest, Tail, Until, CountFits;
    var n := FindNewline(input);
    NextLine(p, input);
    if n == |input| || p.counted + |StripCr(input[..n])| + 1 > MAX_EVENT_BYTES {
      m := 0;
      NothingLeft(p);
      assert input[0..] == input && input[..0] == [];
    } else {
      var next, rest := Line(p, input[..n]), input[n + 1..];
      FitsAfterLine(p, input[..n]);
      var k := BeforeTheRefused(next, rest);
      m := n + 1 + k;
      var some := input[..m];
      FindNewlineBefore(input, m);
      assert some[..n] == input[..n] && some[n + 1..] == rest[..k] && input[m..] == rest[k..];
      NextLine(p, some);
    }
  }

  lemma {:induction false} FitsAfterLine(p: Pending, received: Bytes)
    requires p.counted + |StripCr(received)| + 1 <= MAX_EVENT_BYTES
    ensures Line(p, received).counted <= MAX_EVENT_BYTES
  {
  }

  lemma {:induction false} FindNewlineBefore(input: Bytes, m: nat)
    requires FindNewline(input) < m <= |input|
    ensures FindNewline(input[..m]) == FindNewline(input)
  {
    assert input[..m] + input[m..] == input;
    assert input[..m][FindNewline(input)] == NL;
    NewlineStays(input[..m], input[m..]);
  }

  /** Nothing that comes out before a refusal is wrong. */
  lemma {:induction false} UntilIsPrefix(p: Pending, input: Bytes)
    ensures Until(p, input) <= Frames(p, input)
    ensures CountFits(p, input) ==> Until(p, input) == Frames(p, input)
    decreases |input|
  {
    hide Line, Completed, FindNewline, StripCr;
    var n := FindNewline(input);
    if n < |input| {
      UntilIsPrefix(Line(p, input[..n]), input[n + 1..]);
    }
  }

  lemma {:induction false} FitsSoFar(p: Pending, a: Bytes, b: Bytes)
    requires Fits(p, a + b)
    ensures Fits(p, a)
    decreases |a|
  {
    hide Line, FindNewline;
    var n := FindNewline(a);
    if n < |a| {
      FirstLineStays(a, b);
      FitsSoFar(Line(p, a[..n]), a[n + 1..], b);
    } else {
      NoNewlineJoins(a, b);
    }
  }

  lemma LineCountsLess(p: Pending, received: Bytes)
    requires p.counted <= p.raw
    ensures Line(p, received).counted <= Line(p, received).raw
  {
  }

  /** The decoder never counts more than it received. */
  lemma {:induction false} CountsLess(p: Pending, input: Bytes)
    requires p.counted <= p.raw
    ensures Rest(p, input).counted <= Rest(p, input).raw
    ensures Fits(p, input) ==> CountFits(p, input)
    decreases |input|
  {
    hide Line, StripCr, FindNewline;
    var n := FindNewline(input);
    if n < |input| {
      LineCountsLess(p, input[..n]);
      CountsLess(Line(p, input[..n]), input[n + 1..]);
    }
  }

  // -- the decoder -----------------------------------------------------------------------------

  function Joined(chunks: seq<Bytes>): Bytes {
    if chunks == [] then [] else Joined(chunks[..|chunks| - 1]) + chunks[|chunks| - 1]
  }

  /** What the decoder holds after reading `input`: the events so far, the open one, the unfinished line. */
  ghost predicate HasRead(input: Bytes, frames: seq<Frame>, p: Pending, buffer: Bytes) {
    frames == Frames(START, input) && p == Rest(START, input) && buffer == Tail(input)
  }

  lemma {:induction false} ReadChunk(input: Bytes, frames: seq<Frame>, p: Pending, buffer: Bytes, chunk: Bytes)
    requires HasRead(input, frames, p, buffer)
    ensures Frames(START, input + chunk) == frames + Frames(p, buffer + chunk)
    ensures Rest(START, input + chunk) == Rest(p, buffer + chunk) && Tail(input + chunk) == Tail(buffer + chunk)
  {
    FramesReadOn(START, input, chunk);
    RestReadsOn(START, input, chunk);
  }

  /**
   * Takes the complete lines out of the buffer. Stops with ok false as soon as the bytes counted
   * for an event exceed the limit; the events before that are already out.
   */
  method TakeLines(p0: Pending, start: Bytes) returns (frames: seq<Frame>, p: Pending, buffer: Bytes, ok: bool)
    ensures frames == Until(p0, start)
    ensures ok ==> frames == Frames(p0, start) && p == Rest(p0, start) && buffer == Tail(start)
    ensures ok <==> CountFits(p0, start)
  {
    hide Frames, Until, Rest, Tail, CountFits, Line, Completed, FindNewline, StripCr;
    frames, p, buffer := [], p0, start;
    while true
      invariant Frames(p0, start) == frames + Frames(p, buffer) && Until(p0, start) == frames + Until(p, buffer)
      invariant Rest(p0, start) == Rest(p, buffer) && Tail(start) == Tail(buffer)
      invariant CountFits(p0, start) <==> CountFits(p, buffer)
      decreases |buffer|
    {
      NextLine(p, buffer);
      var newline := FindNewline(buffer);
      if newline == |buffer| {
        ok := p.counted + |buffer| <= MAX_EVENT_BYTES;
        break;
      }
      var line := StripCr(buffer[..newline]);
      if p.counted + |line| + 1 > MAX_EVENT_BYTES {
        ok := false;
        break;
      }
      Associates(frames, Completed(p, buffer[..newline]), Frames(Line(p, buffer[..newline]), buffer[newline + 1..]));
      Associates(frames, Completed(p, buffer[..newline]), Until(Line(p, buffer[..newline]), buffer[newline + 1..]));
      frames := frames + Completed(p, buffer[..newline]);
      p, buffer := Line(p, buffer[..newline]), buffer[newline + 1..];
    }
  }

  lemma NextLine(p: Pending, buffer: Bytes)
    ensures var n := FindNewline(buffer);
      if n == |buffer| then
        && Frames(p, buffer) == Until(p, buffer) == [] && Rest(p, buffer) == p && Tail(buffer) == buffer
        && (CountFits(p, buffer) <==> p.counted + |buffer| <= MAX_EVENT_BYTES)
      else
        var next, rest := Line(p, buffer[..n]), buffer[n + 1..];
        && Frames(p, buffer) == Completed(p, buffer[..n]) + Frames(next, rest)
        && Rest(p, buffer) == Rest(next, rest) && Tail(buffer) == Tail(rest)
        && (if p.counted + |StripCr(buffer[..n])| + 1 > MAX_EVENT_BYTES then Until(p, buffer) == [] && !CountFits(p, buffer)
            else Until(p, buffer) == Completed(p, buffer[..n]) + Until(next, rest) && CountFits(p, buffer) == CountFits(next, rest))
  {
  }

  /** Nothing is ever counted too large, however the stream goes on. */
  ghost predicate FitsAtEveryCut(chunks: seq<Bytes>) {
    forall k :: 0 <= k <= |chunks| ==> CountFits(START, Joined(chunks[..k]))
  }

  /** The k-th piece is the first with which something is counted too large, and these are the events before that. */
  ghost predicate RefusedWith(chunks: seq<Bytes>, k: int, frames: seq<Frame>) {
    && 0 < k <= |chunks| && FitsAtEveryCut(chunks[..k - 1]) && !CountFits(START, Joined(chunks[..k]))
    && frames == Until(START, Joined(chunks[..k]))
  }

  /**
   * The events of a stream that arrives in any pieces. When every event fits, they are those of the whole
   * input read line by line; on a refusal they are all the events completed before it.
   */
  method Decode(chunks: seq<Bytes>) returns (frames: seq<Frame>, ok: bool)
    ensures ok ==> frames == AllFrames(Joined(chunks))
    ensures ok <==> FitsAtEveryCut(chunks)
    ensures !ok ==> exists k :: RefusedWith(chunks, k, frames)
    ensures !ok ==> frames <= Frames(START, Joined(chunks)) && !Fits(START, Joined(chunks))
  {
    hide Frames, Until, Rest, Tail, Fits, CountFits, FitsAtEveryCut, Joined;
    frames := [];
    var p, buffer := START, [];
    ghost var input: Bytes := [];
    NothingRead();
    for k := 0 to |chunks|
      invariant input == Joined(chunks[..k])
      invariant HasRead(input, frames, p, buffer) && CountFits(START, input) && FitsAtEveryCut(chunks[..k])
    {
      OneMoreCut(chunks, k);
      ReadChunk(input, frames, p, buffer, chunks[k]);
      CountReadsOn(START, input, chunks[k]);
      UntilReadsOn(START, input, chunks[k]);
      input := input + chunks[k];
      var more, p', rest, good := TakeLines(p, buffer + chunks[k]);
      frames := frames + more;
      if !good {
        ok := false;
        PrefixJoins(chunks, k + 1);
        UntilIsPrefix(START, input);
        TooLarge(input, Joined(chunks));
        assert RefusedWith(chunks, k + 1, frames);
        return;
      }
      p, buffer := p', rest;
    }
    assert chunks[..|chunks|] == chunks;
    CountAtEnd(START, input);
    ok := p.counted + |buffer| <= MAX_EVENT_BYTES;
    if ok {
      frames := frames + AtEnd(p, buffer);
    }
  }

  lemma OneMoreCut(chunks: seq<Bytes>, k: nat)
    requires k < |chunks|
    ensures Joined(chunks[..k + 1]) == Joined(chunks[..k]) + chunks[k]
    ensures FitsAtEveryCut(chunks[..k]) && CountFits(START, Joined(chunks[..k + 1])) ==> FitsAtEveryCut(chunks[..k + 1])
    ensures FitsAtEveryCut(chunks) ==> CountFits(START, Joined(chunks[..k + 1]))
  {
    hide CountFits;
    assert chunks[..k + 1][..k] == chunks[..k];
    hide Joined;
    var more := chunks[..k + 1];
    if FitsAtEveryCut(chunks[..k]) && CountFits(START, Joined(more)) {
      forall j | 0 <= j <= |more| ensures CountFits(START, Joined(more[..j])) {
        if j <= k {
          assert more[..j] == chunks[..k][..j];
        } else {
          assert more[..j] == more;
        }
      }
    }
  }

  /** What has been counted for the open event and the unfinished line is within the limit. */
  lemma {:induction false} CountAtEnd(p: Pending, input: Bytes)
    requires CountFits(p, input)
    ensures Rest(p, input).counted + |Tail(input)| <= MAX_EVENT_BYTES
    decreases |input|
  {
    hide Line, StripCr, FindNewline;
    var n := FindNewline(input);
    if n < |input| {
      CountAtEnd(Line(p, input[..n]), input[n + 1..]);
    }
  }

  /** An input refused so far has an event that does not fit, whatever follows. */
  lemma {:induction false} TooLarge(input: Bytes, whole: Bytes)
    requires input <= whole && !CountFits(START, input)
    ensures !Fits(START, whole) && Frames(START, input) <= Frames(START, whole)
  {
    hide Fits, CountFits, Frames, Rest, Tail;
    var more := whole[|input|..];
    assert whole == input + more;
    CountsLess(START, input);
    FramesReadOn(START, input, more);
    if Fits(START, whole) {
      FitsSoFar(START, input, more);
    }
  }

  lemma NothingRead()
    ensures HasRead([], [], START, []) && CountFits(START, []) && Joined([]) == [] && FitsAtEveryCut([])
  {
  }

  lemma {:induction false} PrefixJoins(chunks: seq<Bytes>, k: nat)
    requires k <= |chunks|
    ensures Joined(chunks[..k]) <= Joined(chunks)
    decreases |chunks| - k
  {
    if k < |chunks| {
      PrefixJoins(chunks, k + 1);
      assert chunks[..k + 1][..k] == chunks[..k];
    } else {
      assert chunks[..k] == chunks;
    }
  }

  // -- where the cuts matter --------------------------------------------------------------------------

  /** What the HTTP client hands over at once. */
  const MAX_PIECE := 8192

  /** A comment line of n bytes in all. */
  function Comment(n: nat): (line: Bytes)
    requires n > 0
    ensures |line| == n
  {
    seq(n - 1, _ => COLON) + [NL]
  }

  function Comments(k: nat): (pieces: seq<Bytes>)
    ensures |pieces| == k && forall i :: 0 <= i < k ==> pieces[i] == Comment(MAX_PIECE)
  {
    seq(k, _ => Comment(MAX_PIECE))
  }

  /** Everything so far is read, into p, with no line left open. */
  ghost predicate ReadTo(input: Bytes, p: Pending) {
    CountFits(START, input) && Rest(START, input) == p && Tail(input) == []
  }

  lemma CommentCounts(p: Pending, n: nat)
    requires n > 0
    ensures var line := seq(n - 1, _ => COLON);
      FindNewline(line) == |line| && StripCr(line) == line && (n > 1 ==> Line(p, line) == Pending(p.lines, p.counted + n, p.raw + n))
  {
    var line: Bytes := seq(n - 1, _ => COLON);
    NoNewlineIn(line);
    if n > 1 {
      assert line[0] == COLON && DATA[0] != COLON;
    }
  }

  lemma {:induction false} NoNewlineIn(s: Bytes)
    requires forall k :: 0 <= k < |s| ==> s[k] != NL
    ensures FindNewline(s) == |s|
  {
  }

  lemma ReadComment(input: Bytes, p: Pending, n: nat)
    requires ReadTo(input, p) && n > 1 && p.counted + n <= MAX_EVENT_BYTES
    ensures ReadTo(input + Comment(n), Pending(p.lines, p.counted + n, p.raw + n))
  {
    var line: Bytes := seq(n - 1, _ => COLON);
    assert [] + Comment(n) == Comment(n) == line + [NL] + [];
    CommentCounts(p, n);
    OneLine(p, line, []);
    hide Frames, Rest, Tail, CountFits, Line, FindNewline, StripCr;
    CountReadsOn(START, input, Comment(n));
    RestReadsOn(START, input, Comment(n));
    NextLine(p, Comment(n));
    NextLine(Line(p, line), []);
    NothingLeft(Line(p, line));
  }

  lemma {:induction false} NothingLeft(p: Pending)
    ensures FindNewline([]) == 0 && Rest(p, []) == p && Tail([]) == []
    ensures p.counted <= MAX_EVENT_BYTES ==> CountFits(p, [])
    ensures Frames(p, []) == []
  {
  }

  lemma {:induction false} JoinedMore(chunks: seq<Bytes>, chunk: Bytes)
    ensures Joined(chunks + [chunk]) == Joined(chunks) + chunk
  {
    assert (chunks + [chunk])[..|chunks|] == chunks;
  }

  lemma {:induction false} ReadComments(k: nat)
    requires k * MAX_PIECE <= MAX_EVENT_BYTES
    ensures ReadTo(Joined(Comments(k)), Pending([], k * MAX_PIECE, k * MAX_PIECE))
  {
    hide ReadTo, Joined, Comment;
    if k == 0 {
      NoneRead();
    } else {
      ReadComments(k - 1);
      assert Comments(k) == Comments(k - 1) + [Comment(MAX_PIECE)];
      JoinedMore(Comments(k - 1), Comment(MAX_PIECE));
      ReadComment(Joined(Comments(k - 1)), Pending([], (k - 1) * MAX_PIECE, (k - 1) * MAX_PIECE), MAX_PIECE);
    }
  }

  lemma NoneRead()
    ensures Joined([]) == [] && ReadTo([], START)
  {
    NothingLeft(START);
  }

  /** One byte under the limit, reached in pieces of the client's size; every prefix of them is fine. */
  lemma AlmostFull() returns (pieces: seq<Bytes>)
    ensures forall k :: 0 <= k < |pieces| ==> |pieces[k]| <= MAX_PIECE
    ensures FitsAtEveryCut(pieces)
    ensures ReadTo(Joined(pieces), Pending([], MAX_EVENT_BYTES - 1, MAX_EVENT_BYTES - 1))
  {
    hide Joined, Comment, Rest, Tail, CountFits;
    var last := Comment(MAX_PIECE - 1);
    pieces := Comments(127) + [last];
    ReadComments(127);
    JoinedMore(Comments(127), last);
    ReadComment(Joined(Comments(127)), Pending([], 127 * MAX_PIECE, 127 * MAX_PIECE), MAX_PIECE - 1);
    forall k | 0 <= k <= 128 ensures CountFits(START, Joined(pieces[..k])) {
      if k < 128 {
        assert pieces[..k] == Comments(k);
        ReadComments(k);
      } else {
        assert pieces[..k] == pieces;
      }
    }
  }

  /** Two carriage returns and a newline count one byte together, but two before the newline is there. */
  lemma {:induction false} ReturnsCount(p: Pending)
    requires p.counted == MAX_EVENT_BYTES - 1
    ensures CountFits(p, [CR, CR, NL]) && !CountFits(p, [CR, CR])
  {
    var crs: Bytes := [CR, CR];
    assert StripCr(crs) == [] by {
      assert crs[..1] == [CR];
      assert StripCr([CR]) == [];
    }
    NoNewlineIn(crs);
    OneLine(p, crs, []);
    assert crs + [NL] + [] == [CR, CR, NL];
    hide StripCr, FindNewline, CountFits;
    NextLine(p, crs);
    NextLine(p, [CR, CR, NL]);
    NothingLeft(Line(p, crs));
  }

  /**
   * Carriage returns before a newline are not counted, but they are while the newline is still to come.
   * So one and the same input, in pieces no larger than the client's, is read or refused by its last cut.
   */
  lemma CutsMatter() returns (whole: seq<Bytes>, cut: seq<Bytes>)
    ensures Joined(whole) == Joined(cut)
    ensures InPieces(whole) && InPieces(cut)
    ensures FitsAtEveryCut(whole) && !FitsAtEveryCut(cut)
  {
    hide Joined, Rest, Tail, CountFits;
    var pieces := AlmostFull();
    var input, p := Joined(pieces), Pending([], MAX_EVENT_BYTES - 1, MAX_EVENT_BYTES - 1);
    var n := |pieces|;
    whole, cut := pieces + [[CR, CR, NL]], pieces + [[CR, CR]] + [[NL]];
    ReturnsCount(p);
    JoinedMore(pieces, [CR, CR, NL]);
    JoinedMore(pieces, [CR, CR]);
    JoinedMore(pieces + [[CR, CR]], [NL]);
    assert [CR, CR] + [NL] == [CR, CR, NL];
    assert input + [CR, CR] + [NL] == input + ([CR, CR] + [NL]);
    CountReadsOn(START, input, [CR, CR, NL]);
    CountReadsOn(START, input, [CR, CR]);
    assert [] + [CR, CR, NL] == [CR, CR, NL] && [] + [CR, CR] == [CR, CR];
    forall k | 0 <= k <= |whole| ensures CountFits(START, Joined(whole[..k])) {
      if k <= n {
        assert whole[..k] == pieces[..k];
      } else {
        assert whole[..k] == whole;
      }
    }
    assert cut[..n + 1] == pieces + [[CR, CR]];
  }

  // -- inputs for which no cut matters ------------------------------------------------------------------

  /** No event is ever counted too large, wherever its bytes are cut: neither an unfinished line nor a whole one. */
  predicate FitsHowever(p: Pending, input: Bytes)
    decreases |input|
  {
    var n := FindNewline(input);
    if n == |input| then p.counted + |input| <= MAX_EVENT_BYTES
    else
      && p.counted + n <= MAX_EVENT_BYTES && p.counted + |StripCr(input[..n])| + 1 <= MAX_EVENT_BYTES
      && FitsHowever(Line(p, input[..n]), input[n + 1..])
  }

  lemma {:induction false} FirstLineOnly(p: Pending, input: Bytes, k: nat)
    requires k <= FindNewline(input)
    ensures CountFits(p, input[..k]) <==> p.counted + k <= MAX_EVENT_BYTES
  {
    NoNewlineIn(input[..k]);
  }

  lemma {:induction false} BeyondFirstLine(p: Pending, input: Bytes, k: nat)
    requires FindNewline(input) < k <= |input|
    ensures
      var n := FindNewline(input);
      CountFits(p, input[..k]) <==>
        && p.counted + |StripCr(input[..n])| + 1 <= MAX_EVENT_BYTES
        && CountFits(Line(p, input[..n]), input[n + 1..][..k - n - 1])
  {
    hide Line, StripCr, FindNewline;
    var n := FindNewline(input);
    FindNewlineBefore(input, k);
    assert input[..k][..n] == input[..n] && input[..k][n + 1..] == input[n + 1..][..k - n - 1];
  }

  /** That is so exactly when every beginning of the input is counted small enough. */
  lemma {:induction false} EveryBeginningFits(p: Pending, input: Bytes)
    ensures FitsHowever(p, input) <==> forall k :: 0 <= k <= |input| ==> CountFits(p, input[..k])
    decreases |input|
  {
    hide Line, StripCr, CountFits;
    var n := FindNewline(input);
    forall k | 0 <= k <= n ensures CountFits(p, input[..k]) <==> p.counted + k <= MAX_EVENT_BYTES {
      FirstLineOnly(p, input, k);
    }
    assert CountFits(p, input[..n]) <==> p.counted + n <= MAX_EVENT_BYTES;
    if n < |input| {
      var next, rest := Line(p, input[..n]), input[n + 1..];
      EveryBeginningFits(next, rest);
      forall k | n < k <= |input|
        ensures CountFits(p, input[..k]) <==>
          p.counted + |StripCr(input[..n])| + 1 <= MAX_EVENT_BYTES && CountFits(next, rest[..k - n - 1])
      {
        BeyondFirstLine(p, input, k);
      }
      hide FindNewline, FitsHowever;
      BeginningsBehind(p, input, n, next, rest);
    }
  }

  lemma BeginningsBehind(p: Pending, input: Bytes, n: nat, next: Pending, rest: Bytes)
    requires n < |input| && rest == input[n + 1..]
    requires forall k :: n < k <= |input| ==>
      (CountFits(p, input[..k]) <==>
        p.counted + |StripCr(input[..n])| + 1 <= MAX_EVENT_BYTES && CountFits(next, rest[..k - n - 1]))
    ensures (forall k :: n < k <= |input| ==> CountFits(p, input[..k])) <==>
      p.counted + |StripCr(input[..n])| + 1 <= MAX_EVENT_BYTES && forall j :: 0 <= j <= |rest| ==> CountFits(next, rest[..j])
  {
    hide CountFits, StripCr;
    if forall k :: n < k <= |input| ==> CountFits(p, input[..k]) {
      assert CountFits(p, input[..n + 1]);
      forall j | 0 <= j <= |rest| ensures CountFits(next, rest[..j]) {
        assert CountFits(p, input[..n + 1 + j]);
      }
    }
  }

  /** The input byte by byte. */
  function Singles(input: Bytes): (chunks: seq<Bytes>)
    ensures |chunks| == |input| && forall k :: 0 <= k < |input| ==> chunks[k] == [input[k]]
  {
    seq(|input|, k requires 0 <= k < |input| => [input[k]])
  }

  lemma {:induction false} SinglesJoin(input: Bytes, k: nat)
    requires k <= |input|
    ensures Joined(Singles(input)[..k]) == input[..k]
  {
    if k > 0 {
      SinglesJoin(input, k - 1);
      JoinedMore(Singles(input)[..k - 1], [input[k - 1]]);
      assert Singles(input)[..k] == Singles(input)[..k - 1] + [[input[k - 1]]];
    }
  }

  ghost predicate Delivers(chunks: seq<Bytes>, input: Bytes) {
    Joined(chunks) == input
  }

  ghost predicate InPieces(chunks: seq<Bytes>) {
    forall k :: 0 <= k < |chunks| ==> |chunks[k]| <= MAX_PIECE
  }

  lemma {:induction false} CutIsBeginning(chunks: seq<Bytes>, input: Bytes, k: nat)
    requires Delivers(chunks, input) && k <= |chunks|
    ensures |Joined(chunks[..k])| <= |input| && Joined(chunks[..k]) == input[..|Joined(chunks[..k])|]
  {
    PrefixJoins(chunks, k);
  }

  /** Every delivery of the input in the client's pieces is read exactly when no event is too large however it is cut. */
  lemma {:induction false} ReadHoweverCut(input: Bytes)
    ensures (forall chunks :: Delivers(chunks, input) && InPieces(chunks) ==> FitsAtEveryCut(chunks)) <==> FitsHowever(START, input)
  {
    hide Joined, CountFits, FitsHowever;
    EveryBeginningFits(START, input);
    if FitsHowever(START, input) {
      forall chunks | Delivers(chunks, input) ensures FitsAtEveryCut(chunks) {
        FitsHoweverCut(chunks, input);
      }
    }
    SinglesDeliver(input);
    if FitsAtEveryCut(Singles(input)) {
      forall k | 0 <= k <= |input| ensures CountFits(START, input[..k]) {
        SinglesJoin(input, k);
      }
    }
  }

  lemma {:induction false} FitsHoweverCut(chunks: seq<Bytes>, input: Bytes)
    requires Delivers(chunks, input) && FitsHowever(START, input)
    ensures FitsAtEveryCut(chunks)
  {
    hide Joined, CountFits, FitsHowever, Delivers;
    EveryBeginningFits(START, input);
    forall k | 0 <= k <= |chunks| ensures CountFits(START, Joined(chunks[..k])) {
      CutIsBeginning(chunks, input, k);
    }
  }

  lemma SinglesDeliver(input: Bytes)
    ensures Delivers(Singles(input), input) && InPieces(Singles(input))
  {
    SinglesJoin(input, |input|);
    assert Singles(input)[..|input|] == Singles(input) && input[..|input|] == input;
  }

  lemma {:induction false} OnePiece(input: Bytes)
    ensures Delivers([input], input) && (FitsAtEveryCut([input]) <==> CountFits(START, input))
  {
    JoinedMore([], input);
    assert [] + [input] == [input] && [] + input == input;
    assert [input][..0] == [] && [input][..1] == [input];
    NothingRead();
  }

  lemma {:induction false} WholeMustFit(chunks: seq<Bytes>, input: Bytes)
    requires Delivers(chunks, input) && FitsAtEveryCut(chunks)
    ensures CountFits(START, input)
  {
    hide CountFits, Joined;
    assert chunks[..|chunks|] == chunks;
  }

  /** The outcome does not depend on the cuts exactly when the input is too large uncut or fits however it is cut. */
  lemma {:induction false} CutsDoNotMatter(input: Bytes)
    ensures
      (forall a, b :: Delivers(a, input) && Delivers(b, input) ==> FitsAtEveryCut(a) == FitsAtEveryCut(b)) <==>
      !CountFits(START, input) || FitsHowever(START, input)
  {
    hide Joined, CountFits, FitsHowever, FitsAtEveryCut, Delivers;
    OnePiece(input);
    SinglesDeliver(input);
    if !CountFits(START, input) {
      forall a | Delivers(a, input) ensures !FitsAtEveryCut(a) {
        if FitsAtEveryCut(a) {
          WholeMustFit(a, input);
        }
      }
    } else if FitsHowever(START, input) {
      forall a | Delivers(a, input) ensures FitsAtEveryCut(a) {
        FitsHoweverCut(a, input);
      }
    } else {
      SinglesRefused(input);
    }
  }

  lemma {:induction false} SinglesRefused(input: Bytes)
    requires !FitsHowever(START, input)
    ensures !FitsAtEveryCut(Singles(input))
  {
    hide Joined, CountFits, FitsHowever;
    EveryBeginningFits(START, input);
    var k :| 0 <= k <= |input| && !CountFits(START, input[..k]);
    SinglesJoin(input, k);
  }

  // -- reading what was written ---------------------------------------------------------------------------

  predicate Plain(line: Bytes) {
    (forall k :: 0 <= k < |line| ==> line[k] != NL) && (line != [] ==> line[|line| - 1] != CR)
  }

  function Written(line: Bytes): Bytes {
    DATA + [COLON, SPACE] + line
  }

  function WriteLines(lines: Frame): Bytes {
    if lines == [] then [] else WriteLines(lines[..|lines| - 1]) + Written(lines[|lines| - 1]) + [NL]
  }

  function Write(frames: seq<Frame>): Bytes {
    if frames == [] then [] else WriteLines(frames[0]) + [NL] + Write(frames[1..])
  }

  ghost predicate Writable(frame: Frame) {
    frame != [] && forall k :: 0 <= k < |frame| ==> Plain(frame[k])
  }

  lemma ReadsLine(p: Pending, line: Bytes)
    requires Plain(line)
    ensures StripCr(Written(line)) == Written(line) && DataOf(Written(line)) == Some(line)
    ensures FindNewline(Written(line)) == |Written(line)|
    ensures Line(p, Written(line)).lines == p.lines + [line] && Completed(p, Written(line)) == []
  {
  }

  lemma NewlineFirst()
    ensures FindNewline([NL]) == 0
  {
  }

  /** The first line of an input that starts with a whole line. */
  lemma {:induction false} OneLine(p: Pending, line: Bytes, rest: Bytes)
    requires FindNewline(line) == |line|
    ensures var input := line + [NL] + rest;
      FindNewline(input) == |line| < |input| && input[..|line|] == line && input[|line| + 1..] == rest
  {
    NoNewlineJoins(line, [NL]);
    NewlineFirst();
    hide FindNewline;
    FirstLineStays(line + [NL], rest);
  }

  lemma {:induction false} ReadsFirst(p: Pending, line: Bytes, rest: Bytes)
    requires FindNewline(line) == |line|
    ensures var input := line + [NL] + rest;
      && Frames(p, input) == Completed(p, line) + Frames(Line(p, line), rest)
      && Rest(p, input) == Rest(Line(p, line), rest) && Tail(input) == Tail(rest)
  {
    OneLine(p, line, rest);
    hide Line, Completed, FindNewline;
    NextLine(p, line + [NL] + rest);
  }

  lemma Assoc(a: Bytes, b: Bytes, c: Bytes, d: Bytes)
    ensures a + b + c + d == a + (b + c + d)
  {
  }

  lemma {:induction false} LastLine(lines: Frame, rest: Bytes)
    requires lines != []
    ensures var n := |lines| - 1;
      WriteLines(lines) + rest == WriteLines(lines[..n]) + (Written(lines[n]) + [NL] + rest)
  {
    hide Written;
    var n := |lines| - 1;
    Assoc(WriteLines(lines[..n]), Written(lines[n]), [NL], rest);
  }

  lemma OneMoreLine(before: Frame, lines: Frame)
    requires lines != []
    ensures before + lines[..|lines| - 1] + [lines[|lines| - 1]] == before + lines
  {
  }

  /** Written data lines leave the event open with those lines. */
  lemma {:induction false} ReadsLines(p: Pending, lines: Frame, rest: Bytes) returns (q: Pending)
    requires forall k :: 0 <= k < |lines| ==> Plain(lines[k])
    ensures q.lines == p.lines + lines
    ensures Frames(p, WriteLines(lines) + rest) == Frames(q, rest)
    ensures Rest(p, WriteLines(lines) + rest) == Rest(q, rest) && Tail(WriteLines(lines) + rest) == Tail(rest)
    decreases |lines|
  {
    if lines == [] {
      q := p;
      assert WriteLines(lines) + rest == rest;
    } else {
      var n := |lines| - 1;
      LastLine(lines, rest);
      hide *;
      var line := Written(lines[n]);
      var o := ReadsLines(p, lines[..n], line + [NL] + rest);
      ReadsLine(o, lines[n]);
      ReadsFirst(o, line, rest);
      q := Line(o, line);
      OneMoreLine(p.lines, lines);
    }
  }

  lemma {:induction false} ReadsFrame(frame: Frame, rest: Bytes)
    requires Writable(frame)
    ensures Frames(START, WriteLines(frame) + [NL] + rest) == [frame] + Frames(START, rest)
    ensures Rest(START, WriteLines(frame) + [NL] + rest) == Rest(START, rest)
    ensures Tail(WriteLines(frame) + [NL] + rest) == Tail(rest)
  {
    BlankLine();
    hide WriteLines, Frames, Rest, Tail, Plain;
    assert WriteLines(frame) + [NL] + rest == WriteLines(frame) + ([] + [NL] + rest);
    var q := ReadsLines(START, frame, [] + [NL] + rest);
    assert START.lines + frame == frame;
    ReadsFirst(q, [], rest);
    EndsEvent(q);
  }

  lemma {:induction false} ReadsFrames(frames: seq<Frame>)
    requires forall k :: 0 <= k < |frames| ==> Writable(frames[k])
    ensures Frames(START, Write(frames)) == frames
    ensures Rest(START, Write(frames)) == START && Tail(Write(frames)) == []
    decreases |frames|
  {
    if frames != [] {
      hide Writable, WriteLines, Frames, Rest, Tail;
      ReadsFrame(frames[0], Write(frames[1..]));
      ReadsFrames(frames[1..]);
      assert frames == [frames[0]] + frames[1..];
    }
  }

  lemma BlankLine()
    ensures FindNewline([]) == 0
  {
  }

  lemma EndsEvent(q: Pending)
    requires q.lines != []
    ensures Completed(q, []) == [q.lines] && Line(q, []) == START
  {
  }

  /** Reading back what was written gives the events that were written. */
  lemma {:induction false} WrittenIsRead(frames: seq<Frame>)
    requires forall k :: 0 <= k < |frames| ==> Writable(frames[k])
    ensures AllFrames(Write(frames)) == frames
  {
    hide Writable, Write, Frames, Rest, Tail;
    ReadsFrames(frames);
  }

  // -- what a line says --------------------------------------------------------------------------------------

  /** A data line carries what follows its colon without one leading space, and nothing without a colon. Others carry no data. */
  lemma DataReads(value: Bytes)
    ensures DataOf([100, 97, 116, 97, 58, 32] + value) == Some(value)
    ensures value == [] || value[0] != 32 ==> DataOf([100, 97, 116, 97, 58] + value) == Some(value)
    ensures DataOf([100, 97, 116, 97]) == Some([])
    ensures DataOf(value).None? <==> value != [100, 97, 116, 97] && !([100, 97, 116, 97, 58] <= value)
  {
    assert DATA + [COLON] == [100, 97, 116, 97, 58];
    assert ([100, 97, 116, 97, 58] + value)[5..] == value;
    var spaced: Bytes := [100, 97, 116, 97, 58, 32] + value;
    assert spaced[5..][1..] == value;
  }

  /** All carriage returns at the end of a line go, and nothing else. */
  lemma {:induction false} ReturnsGo(line: Bytes)
    ensures
      var r := StripCr(line);
      && r <= line && (r != [] ==> r[|r| - 1] != 13)
      && forall k :: |r| <= k < |line| ==> line[k] == 13
  {
    if line != [] && line[|line| - 1] == CR {
      ReturnsGo(line[..|line| - 1]);
    }
  }

  // -- any event at all -----------------------------------------------------------------------------------------

  /** The data the given lines carry, in order. */
  function DataIn(lines: seq<Bytes>): Frame {
    if lines == [] then []
    else
      var data := DataOf(StripCr(lines[|lines| - 1]));
      DataIn(lines[..|lines| - 1]) + if data.Some? then [data.value] else []
  }

  /** The given lines, each ended by a newline. */
  function Ended(lines: seq<Bytes>): Bytes {
    if lines == [] then [] else Ended(lines[..|lines| - 1]) + lines[|lines| - 1] + [NL]
  }

  /** A line that holds no newline, and more than carriage returns. */
  ghost predicate SaysSomething(line: Bytes) {
    && (forall k :: 0 <= k < |line| ==> line[k] != 10)
    && exists k :: 0 <= k < |line| && line[k] != 13
  }

  lemma {:induction false} LastEnded(lines: seq<Bytes>, rest: Bytes)
    requires lines != []
    ensures var n := |lines| - 1;
      Ended(lines) + rest == Ended(lines[..n]) + (lines[n] + [NL] + rest)
  {
    var n := |lines| - 1;
    Assoc(Ended(lines[..n]), lines[n], [NL], rest);
  }

  lemma {:induction false} ReadsSomething(p: Pending, line: Bytes)
    requires SaysSomething(line)
    ensures FindNewline(line) == |line| && Completed(p, line) == []
    ensures Line(p, line).lines == p.lines + DataIn([line])
  {
    NoNewlineIn(line);
    ReturnsGo(line);
    assert [line][..0] == [];
    assert DataIn([]) == [];
    assert p.lines + [] == p.lines;
  }

  lemma {:induction false} DataInMore(lines: seq<Bytes>, line: Bytes)
    ensures DataIn(lines + [line]) == DataIn(lines) + DataIn([line])
  {
    assert (lines + [line])[..|lines|] == lines && [line][..0] == [];
  }

  /** Any lines that say something leave the event open, with the data they carry behind what it had. */
  lemma {:induction false} ReadsAnyLines(p: Pending, lines: seq<Bytes>, rest: Bytes) returns (q: Pending)
    requires forall k :: 0 <= k < |lines| ==> SaysSomething(lines[k])
    ensures q.lines == p.lines + DataIn(lines)
    ensures Frames(p, Ended(lines) + rest) == Frames(q, rest)
    ensures Rest(p, Ended(lines) + rest) == Rest(q, rest) && Tail(Ended(lines) + rest) == Tail(rest)
    decreases |lines|
  {
    hide DataOf, StripCr, Frames, Rest, Tail, Line, Completed, FindNewline, SaysSomething;
    if lines == [] {
      q := p;
      assert Ended(lines) + rest == rest && p.lines + DataIn(lines) == p.lines;
    } else {
      var n := |lines| - 1;
      LastEnded(lines, rest);
      assert lines == lines[..n] + [lines[n]];
      DataInMore(lines[..n], lines[n]);
      hide *;
      var o := ReadsAnyLines(p, lines[..n], lines[n] + [NL] + rest);
      ReadsSomething(o, lines[n]);
      ReadsFirst(o, lines[n], rest);
      q := Line(o, lines[n]);
      Associates(p.lines, DataIn(lines[..n]), DataIn([lines[n]]));
      NothingBefore(Frames(q, rest));
    }
  }

  lemma NothingBefore(frames: seq<Frame>)
    ensures [] + frames == frames
  {
  }

  /** A line of carriage returns only, or nothing. */
  ghost predicate Blank(line: Bytes) {
    forall k :: 0 <= k < |line| ==> line[k] == 13
  }

  lemma {:induction false} BlankEnds(p: Pending, line: Bytes)
    requires Blank(line)
    ensures FindNewline(line) == |line| && Line(p, line) == START && Completed(p, line) == if p.lines == [] then [] else [p.lines]
  {
    NoNewlineIn(line);
    ReturnsGo(line);
  }

  /**
   * Whatever lines stand before a blank one - data, comments, other fields, with or without carriage
   * returns - they are one event with the data they carry, in order, or none when they carry no data;
   * and reading goes on behind it as at the start.
   */
  lemma {:induction false} EventIsItsData(lines: seq<Bytes>, blank: Bytes, rest: Bytes)
    requires Blank(blank) && forall k :: 0 <= k < |lines| ==> SaysSomething(lines[k])
    ensures
      var input := Ended(lines) + blank + [NL] + rest;
      AllFrames(input) == (if DataIn(lines) == [] then [] else [DataIn(lines)]) + AllFrames(rest)
  {
    hide *;
    var end := blank + [NL] + rest;
    Assoc(Ended(lines), blank, [NL], rest);
    var q := ReadsAnyLines(START, lines, end);
    StartHasNoLines(DataIn(lines));
    BlankEnds(q, blank);
    ReadsFirst(q, blank, rest);
    ReadsAll(Ended(lines) + end);
    ReadsAll(rest);
    Associates(Completed(q, blank), Frames(START, rest), AtEnd(Rest(START, rest), Tail(rest)));
  }

  lemma StartHasNoLines(frame: Frame)
    ensures START.lines + frame == frame
  {
  }

  lemma {:induction false} ReadsAll(input: Bytes)
    ensures AllFrames(input) == Frames(START, input) + AtEnd(Rest(START, input), Tail(input))
  {
  }

  /**
   * At the end of the input the last event needs no blank line, and its last line no newline - as long as
   * that line is data with a colon.
   */
  lemma {:induction false} LastEventIsItsData(lines: seq<Bytes>, last: Bytes)
    requires forall k :: 0 <= k < |lines| ==> SaysSomething(lines[k])
    requires forall k :: 0 <= k < |last| ==> last[k] != 10
    ensures
      var data := DataIn(lines) + if [100, 97, 116, 97, 58] <= StripCr(last) then DataIn([last]) else [];
      AllFrames(Ended(lines) + last) == if data == [] then [] else [data]
  {
    hide *;
    var q := ReadsAnyLines(START, lines, last);
    StartHasNoLines(DataIn(lines));
    UnendedLine(q, last);
    ReadsAll(Ended(lines) + last);
    NothingBefore(AtEnd(q, last));
  }

  lemma {:induction false} UnendedLine(p: Pending, last: Bytes)
    requires forall k :: 0 <= k < |last| ==> last[k] != 10
    ensures Frames(p, last) == [] && Rest(p, last) == p && Tail(last) == last
    ensures
      var data := p.lines + if [100, 97, 116, 97, 58] <= StripCr(last) then DataIn([last]) else [];
      AtEnd(p, last) == if data == [] then [] else [data]
  {
    NoNewlineIn(last);
    DataInOne(last);
    hide StripCr, DataIn;
    DataReads(StripCr(last));
    assert DATA + [COLON] == [100, 97, 116, 97, 58];
    assert p.lines + [] == p.lines;
  }

  lemma {:induction false} DataInOne(line: Bytes)
    ensures DataIn([line]) == if DataOf(StripCr(line)).Some? then [DataOf(StripCr(line)).value] else []
  {
    assert [line][..0] == [];
    assert DataIn([]) == [];
  }

  // -- how large an event is -----------------------------------------------------------------------------------

  /** The bytes of the lines without the returns at their ends, and one for each newline. */
  function Size(lines: seq<Bytes>): nat {
    if lines == [] then 0 else |StripCr(lines[0])| + 1 + Size(lines[1..])
  }

  lemma {:induction false} OneEnded(lines: seq<Bytes>, rest: Bytes)
    requires |lines| == 1
    ensures Ended(lines) + rest == lines[0] + [NL] + (Ended(lines[1..]) + rest)
  {
    assert lines[..0] == [] && lines[1..] == [];
    assert Ended(lines) == [] + lines[0] + [NL];
    assert [] + lines[0] == lines[0] && [] + rest == rest;
  }

  lemma {:induction false} FirstOfLines(lines: seq<Bytes>, rest: Bytes)
    requires lines != []
    ensures Ended(lines) + rest == lines[0] + [NL] + (Ended(lines[1..]) + rest)
    decreases |lines|
  {
    hide Ended;
    var n := |lines| - 1;
    if n == 0 {
      OneEnded(lines, rest);
    } else {
      LastEnded(lines, rest);
      FirstOfLines(lines[..n], lines[n] + [NL] + rest);
      assert lines[..n][1..] == lines[1..][..n - 1];
      LastEnded(lines[1..], rest);
    }
  }

  lemma {:induction false} LineFits(p: Pending, line: Bytes, rest: Bytes)
    requires FindNewline(line) == |line|
    ensures CountFits(p, line + [NL] + rest) <==> p.counted + |StripCr(line)| + 1 <= MAX_EVENT_BYTES && CountFits(Line(p, line), rest)
  {
    OneLine(p, line, rest);
    hide Line, FindNewline, StripCr;
    NextLine(p, line + [NL] + rest);
  }

  lemma {:induction false} ReadsOneSomething(p: Pending, line: Bytes)
    requires SaysSomething(line)
    ensures FindNewline(line) == |line| && Line(p, line).counted == p.counted + |StripCr(line)| + 1
  {
    NoNewlineIn(line);
    ReturnsGo(line);
  }

  lemma {:induction false} LinesFit(p: Pending, lines: seq<Bytes>, rest: Bytes) returns (q: Pending)
    requires forall k :: 0 <= k < |lines| ==> SaysSomething(lines[k])
    ensures q.counted == p.counted + Size(lines)
    ensures CountFits(p, Ended(lines) + rest) <==> (lines == [] || q.counted <= MAX_EVENT_BYTES) && CountFits(q, rest)
    decreases |lines|
  {
    hide CountFits, StripCr, SaysSomething, Line, FindNewline;
    if lines == [] {
      q := p;
      assert Ended(lines) + rest == rest;
    } else {
      FirstOfLines(lines, rest);
      ReadsOneSomething(p, lines[0]);
      LineFits(p, lines[0], Ended(lines[1..]) + rest);
      q := LinesFit(Line(p, lines[0]), lines[1..], rest);
    }
  }

  /** An event is too large exactly when its lines, without returns at their ends but with a byte for each newline, exceed a mebibyte. */
  lemma {:induction false} EventFitsExactly(lines: seq<Bytes>, blank: Bytes, rest: Bytes)
    requires Blank(blank) && forall k :: 0 <= k < |lines| ==> SaysSomething(lines[k])
    ensures
      var input := Ended(lines) + blank + [NL] + rest;
      CountFits(START, input) <==> Size(lines) + 1 <= 1_048_576 && CountFits(START, rest)
  {
    hide *;
    var end := blank + [NL] + rest;
    Assoc(Ended(lines), blank, [NL], rest);
    var q := LinesFit(START, lines, end);
    BlankEnds(q, blank);
    BlankCounts(blank);
    LineFits(q, blank, rest);
  }

  lemma {:induction false} BlankCounts(blank: Bytes)
    requires Blank(blank)
    ensures |StripCr(blank)| == 0 && START.counted == 0 && MAX_EVENT_BYTES == 1_048_576
  {
    ReturnsGo(blank);
  }
}
