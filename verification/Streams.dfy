/** What a stream of agent events shows, call by call, thought by thought and run by run; and where it breaks off. */
module Streams {
  import opened Common
  import opened AgUi

  /** What closing an open compact call puts in front of an event's own output. */
  function InFront(m: Mapper, e: Event): seq<Out> {
    if m.chunk.Some? && !e.NoType? && !e.ToolChunk? then [ToolUse(m.chunk.value.id, m.chunk.value.name, m.chunk.value.args)] else []
  }

  /** The mapper once that is done. */
  function Closed(m: Mapper, e: Event): Mapper {
    if e.NoType? || e.ToolChunk? then m else m.(chunk := None)
  }

  /** An event's own output comes behind what it closes. */
  lemma FeedIs(m: Mapper, e: Event)
    ensures
      var (n, r) := FeedOpen(Closed(m, e), e);
      Feed(m, e) == (n, if r.Ok? then Ok(InFront(m, e) + r.value) else r)
  {
    hide FeedOpen;
    var r := FeedOpen(Closed(m, e), e).1;
    if m.chunk.None? {
      assert m.(chunk := None) == m;
    }
    if r.Ok? {
      assert [] + r.value == r.value;
    }
  }

  // -- where a stream breaks off ---------------------------------------------------------------------

  predicate Missing(field: Option<string>) {
    field.None? || field.value == ""
  }

  /** A tool chunk carries no id, or the open call's. */
  predicate Continues(m: Mapper, e: Event)
    requires e.ToolChunk?
  {
    m.chunk.Some? && (e.id.None? || e.id.value == m.chunk.value.id)
  }

  /** What the event must carry is not there. */
  predicate Incomplete(m: Mapper, e: Event) {
    match e
    case NoType => true
    case RunStarted(thread) => Missing(thread)
    case TextStart(id, _) => Missing(id)
    case TextContent(id, delta) => Missing(id) || (delta.None? && (id.value !in m.roles || m.roles[id.value] == "assistant"))
    case TextEnd(id) => Missing(id)
    case TextChunk(id, _, _, made) => var of := if Missing(id) then made else id.value; of in m.texts && of !in m.roles
    case ToolStart(id, name) => Missing(id) || Missing(name)
    case ToolArgs(id, delta) => Missing(id) || delta.None?
    case ToolEnd(id) => Missing(id)
    case ToolResult(id, content) => Missing(id) || content.None?
    case ToolChunk(id, name, _) => !Continues(m, e) && (id.None? || name.None?)
    case ReasoningContent(delta) => delta.None?
    case _ => false
  }

  /** A stream breaks off exactly at an event without something it must carry. */
  lemma BreaksExactly(m: Mapper, e: Event)
    ensures Feed(m, e).1.Err? <==> Incomplete(m, e)
  {
    hide Concat;
  }

  // -- tool calls ---------------------------------------------------------------------------------------

  function ArgsOf(e: Event, id: string): string {
    if e.ToolArgs? && e.id == Some(id) && e.delta.Some? then e.delta.value else ""
  }

  /** The pieces of arguments sent for call `id`, joined. */
  function ArgsSent(es: seq<Event>, id: string): string
    decreases es
  {
    if es == [] then "" else ArgsOf(es[0], id) + ArgsSent(es[1..], id)
  }

  predicate NoFrameOf(e: Event, id: string) {
    !((e.ToolStart? || e.ToolEnd?) && e.id == Some(id))
  }

  /** What is known of call `id`: its name, or that nobody gave it one, and its arguments so far. */
  predicate CallIs(m: Mapper, id: string, name: string, args: string) {
    && id != ""
    && name == (if id in m.names then m.names[id] else "unknown")
    && args == if id in m.args then m.args[id] else ""
  }

  lemma TextsKeepCalls(m: Mapper, e: Event)
    requires e.TextStart? || e.TextContent? || e.TextEnd? || e.TextChunk?
    ensures FeedText(m, e).0.names == m.names && FeedText(m, e).0.args == m.args
  {
  }

  lemma CallGoesOn(m: Mapper, e: Event, id: string, name: string, args: string)
    requires CallIs(m, id, name, args) && NoFrameOf(e, id) && Feed(m, e).1.Ok?
    ensures CallIs(Feed(m, e).0, id, name, args + ArgsOf(e, id))
  {
    hide Feed, Concat, FeedText;
    FeedIs(m, e);
    if e.TextStart? || e.TextContent? || e.TextEnd? || e.TextChunk? {
      TextsKeepCalls(Closed(m, e), e);
    }
    assert args + "" == args;
  }

  lemma {:induction false} ArgsAccumulate(m: Mapper, es: seq<Event>, id: string, name: string, args: string)
    requires CallIs(m, id, name, args) && !Run(m, es).broke && forall k :: 0 <= k < |es| ==> NoFrameOf(es[k], id)
    ensures CallIs(Run(m, es).end, id, name, args + ArgsSent(es, id))
    decreases es
  {
    hide Feed, NoFrameOf, ArgsOf, CallIs;
    if es == [] {
      assert args + "" == args;
    } else {
      CallGoesOn(m, es[0], id, name, args);
      ArgsAccumulate(Feed(m, es[0]).0, es[1..], id, name, args + ArgsOf(es[0], id));
      Associates(args, ArgsOf(es[0], id), ArgsSent(es[1..], id));
    }
  }

  lemma CallBegins(m: Mapper, id: string, name: string)
    requires id != "" && name != ""
    ensures Feed(m, ToolStart(Some(id), Some(name))).1 == Ok(InFront(m, ToolStart(Some(id), Some(name))))
    ensures CallIs(Feed(m, ToolStart(Some(id), Some(name))).0, id, name, "")
  {
    hide Feed;
    var e := ToolStart(Some(id), Some(name));
    FeedIs(m, e);
    assert InFront(m, e) + [] == InFront(m, e);
  }

  lemma CallEnds(m: Mapper, id: string, name: string, args: string)
    requires CallIs(m, id, name, args)
    ensures Feed(m, ToolEnd(Some(id))).1 == Ok(InFront(m, ToolEnd(Some(id))) + [ToolUse(id, name, args)])
    ensures CallIs(Feed(m, ToolEnd(Some(id))).0, id, "unknown", "")
  {
    hide Feed;
    FeedIs(m, ToolEnd(Some(id)));
  }

  /**
   * A call shows its name as given at its start and all the pieces of arguments sent for it since, in order,
   * whatever else is interleaved.
   */
  lemma {:induction false} CallShowsAll(m: Mapper, id: string, name: string, es: seq<Event>)
    requires id != "" && name != "" && forall k :: 0 <= k < |es| ==> NoFrameOf(es[k], id)
    requires !Run(Feed(m, ToolStart(Some(id), Some(name))).0, es).broke
    ensures
      var end := Run(Feed(m, ToolStart(Some(id), Some(name))).0, es).end;
      Feed(end, ToolEnd(Some(id))).1 == Ok(InFront(end, ToolEnd(Some(id))) + [ToolUse(id, name, ArgsSent(es, id))])
  {
    hide Feed, CallIs, NoFrameOf, Run, InFront;
    CallBegins(m, id, name);
    var n := Feed(m, ToolStart(Some(id), Some(name))).0;
    ArgsAccumulate(n, es, id, name, "");
    assert "" + ArgsSent(es, id) == ArgsSent(es, id);
    CallEnds(Run(n, es).end, id, name, ArgsSent(es, id));
  }

  /** A call nobody started is shown all the same, as unknown; and once shown it is forgotten. */
  lemma {:induction false} UnstartedCallShowsAll(m: Mapper, id: string, es: seq<Event>)
    requires id != "" && id !in m.names && id !in m.args && !Run(m, es).broke && forall k :: 0 <= k < |es| ==> NoFrameOf(es[k], id)
    ensures
      var end := Run(m, es).end;
      var r := Feed(end, ToolEnd(Some(id)));
      r.1 == Ok(InFront(end, ToolEnd(Some(id))) + [ToolUse(id, "unknown", ArgsSent(es, id))]) && CallIs(r.0, id, "unknown", "")
  {
    hide Feed, NoFrameOf, Run, InFront;
    ArgsAccumulate(m, es, id, "unknown", "");
    assert "" + ArgsSent(es, id) == ArgsSent(es, id);
    CallEnds(Run(m, es).end, id, "unknown", ArgsSent(es, id));
  }

  /** The pieces compact chunks carry, joined. */
  function PiecesSent(es: seq<Event>): string
    decreases es
  {
    if es == [] then "" else (if es[0].ToolChunk? && es[0].delta.Some? then es[0].delta.value else "") + PiecesSent(es[1..])
  }

  lemma PieceGoesOn(m: Mapper, e: Event)
    requires e.ToolChunk? && Continues(m, e)
    ensures
      var (c, piece) := (m.chunk.value, if e.delta.Some? then e.delta.value else "");
      Feed(m, e) == (m.(chunk := Some(Chunk(c.id, c.name, c.args + piece))), Ok([]))
  {
    var c := m.chunk.value;
    assert c.args + "" == c.args;
  }

  /** A compact call shows the id and name it was opened with and all its pieces, once the next event of another kind closes it. */
  lemma {:induction false} CompactCallShowsAll(m: Mapper, es: seq<Event>, next: Event)
    requires m.chunk.Some? && forall k :: 0 <= k < |es| ==> es[k].ToolChunk? && (es[k].id.None? || es[k].id.value == m.chunk.value.id)
    requires !next.NoType? && !next.ToolChunk?
    ensures
      var (c, r) := (m.chunk.value, Run(m, es));
      && !r.broke && r.outs == [] && r.end == m.(chunk := Some(Chunk(c.id, c.name, c.args + PiecesSent(es))))
      && InFront(r.end, next) == [ToolUse(c.id, c.name, c.args + PiecesSent(es))]
    decreases es
  {
    hide Feed;
    var c := m.chunk.value;
    if es == [] {
      assert c.args + "" == c.args;
    } else {
      PieceGoesOn(m, es[0]);
      CompactCallShowsAll(Feed(m, es[0]).0, es[1..], next);
      Associates(c.args, if es[0].delta.Some? then es[0].delta.value else "", PiecesSent(es[1..]));
    }
  }

  /** A chunk that opens a compact call starts it with its own id, name and piece, and shows the one it replaces. */
  lemma CompactCallBegins(m: Mapper, id: string, name: string, delta: Option<string>)
    requires !Continues(m, ToolChunk(Some(id), Some(name), delta))
    ensures
      var r := Feed(m, ToolChunk(Some(id), Some(name), delta));
      && r.0.chunk == Some(Chunk(id, name, if delta.Some? then delta.value else ""))
      && r.1 == Ok(if m.chunk.Some? then [ToolUse(m.chunk.value.id, m.chunk.value.name, m.chunk.value.args)] else [])
  {
    assert delta.Some? ==> "" + delta.value == delta.value;
  }

  // -- thoughts --------------------------------------------------------------------------------------------

  function ThoughtOf(e: Event): string {
    if e.ReasoningContent? && e.delta.Some? then e.delta.value else ""
  }

  function Thoughts(es: seq<Event>): string
    decreases es
  {
    if es == [] then "" else ThoughtOf(es[0]) + Thoughts(es[1..])
  }

  lemma ThoughtGrows(m: Mapper, e: Event)
    requires !e.ReasoningStart? && !e.ReasoningEnd? && Feed(m, e).1.Ok?
    ensures Concat(Feed(m, e).0.reasoning) == Concat(m.reasoning) + ThoughtOf(e)
  {
    hide Feed;
    FeedIs(m, e);
    assert Concat(m.reasoning) + "" == Concat(m.reasoning);
    if e.ReasoningContent? && e.delta.value != "" {
      assert (m.reasoning + [e.delta.value])[..|m.reasoning|] == m.reasoning;
    }
  }

  lemma {:induction false} ThoughtsAccumulate(m: Mapper, es: seq<Event>)
    requires !Run(m, es).broke && forall k :: 0 <= k < |es| ==> !es[k].ReasoningStart? && !es[k].ReasoningEnd?
    ensures Concat(Run(m, es).end.reasoning) == Concat(m.reasoning) + Thoughts(es)
    decreases es
  {
    hide Feed, Concat;
    if es == [] {
      assert Concat(m.reasoning) + "" == Concat(m.reasoning);
    } else {
      ThoughtGrows(m, es[0]);
      ThoughtsAccumulate(Feed(m, es[0]).0, es[1..]);
      Associates(Concat(m.reasoning), ThoughtOf(es[0]), Thoughts(es[1..]));
    }
  }

  lemma ThoughtBegins(m: Mapper)
    ensures Feed(m, ReasoningStart).1 == Ok(InFront(m, ReasoningStart))
    ensures Concat(Feed(m, ReasoningStart).0.reasoning) == ""
  {
    hide Feed;
    FeedIs(m, ReasoningStart);
    assert InFront(m, ReasoningStart) + [] == InFront(m, ReasoningStart);
  }

  lemma ThoughtEnds(m: Mapper)
    ensures
      var (r, text) := (Feed(m, ReasoningEnd), Concat(m.reasoning));
      && r.1 == Ok(InFront(m, ReasoningEnd) + if text == "" then [] else [Thinking(text)])
      && r.0.reasoning == []
  {
    hide Feed, Concat;
    FeedIs(m, ReasoningEnd);
  }

  /** What is shown as thought is everything reasoned since it began, joined, and it begins anew afterwards. */
  lemma {:induction false} ThoughtShowsAll(m: Mapper, es: seq<Event>)
    requires forall k :: 0 <= k < |es| ==> !es[k].ReasoningStart? && !es[k].ReasoningEnd?
    requires !Run(Feed(m, ReasoningStart).0, es).broke
    ensures Feed(m, ReasoningStart).1 == Ok(InFront(m, ReasoningStart))
    ensures
      var end := Run(Feed(m, ReasoningStart).0, es).end;
      var r := Feed(end, ReasoningEnd);
      && r.1 == Ok(InFront(end, ReasoningEnd) + if Thoughts(es) == "" then [] else [Thinking(Thoughts(es))])
      && r.0.reasoning == []
  {
    hide Feed, Run, InFront, Concat;
    ThoughtBegins(m);
    var n := Feed(m, ReasoningStart).0;
    ThoughtsAccumulate(n, es);
    assert "" + Thoughts(es) == Thoughts(es);
    ThoughtEnds(Run(n, es).end);
  }

  // -- runs, results and failures -----------------------------------------------------------------------------

  /** Results, starts and failures are passed on as they come; a failure's text is cut at a thousand characters. */
  lemma PassedOn(m: Mapper, e: Event)
    ensures e.ToolResult? && !Missing(e.id) && e.content.Some? ==>
      Feed(m, e).1 == Ok(InFront(m, e) + [ToolAnswer(e.id.value, e.content.value)])
    ensures e.RunStarted? && !Missing(e.thread) ==> Feed(m, e).1 == Ok(InFront(m, e) + [System(e.thread.value)])
    ensures e.RunError? ==>
      var text := if Missing(e.message) then "AG-UI agent run failed" else e.message.value;
      Feed(m, e).1 == Ok(InFront(m, e) + [Failed(if |text| <= 1000 then text else text[..1000])])
    ensures e.Ignored? ==> Feed(m, e).1 == Ok(InFront(m, e))
    ensures e.TextStart? || e.ToolStart? || e.ToolArgs? || e.ReasoningStart? || e.ReasoningContent? ==>
      Feed(m, e).1.Err? || Feed(m, e).1 == Ok(InFront(m, e))
  {
    hide Feed;
    FeedIs(m, e);
    assert InFront(m, e) + [] == InFront(m, e);
    if e.RunError? {
      var text := if Missing(e.message) then "AG-UI agent run failed" else e.message.value;
      assert |text| <= 1000 ==> text[..|text|] == text;
    }
  }

  lemma OnlyStartsName(m: Mapper, e: Event)
    requires !e.RunStarted?
    ensures Feed(m, e).0.thread == m.thread
  {
    hide Concat;
  }

  lemma {:induction false} ThreadStays(m: Mapper, es: seq<Event>)
    requires forall k :: 0 <= k < |es| ==> !es[k].RunStarted?
    ensures Run(m, es).end.thread == m.thread
    decreases es
  {
    hide Feed;
    if es != [] {
      OnlyStartsName(m, es[0]);
      ThreadStays(Feed(m, es[0]).0, es[1..]);
    }
  }

  /** A run that finishes without naming its thread belongs to the thread that was started last. */
  lemma {:induction false} FinishesItsThread(m: Mapper, thread: string, es: seq<Event>, named: Option<string>, interrupt: bool)
    requires thread != "" && forall k :: 0 <= k < |es| ==> !es[k].RunStarted?
    ensures
      var end := Run(Feed(m, RunStarted(Some(thread))).0, es).end;
      var finish := RunFinished(named, interrupt);
      Feed(end, finish).1 == Ok(InFront(end, finish) + [Finished(Some(if Missing(named) then thread else named.value), interrupt)])
  {
    hide Feed, Run;
    FeedIs(m, RunStarted(Some(thread)));
    FeedIs(Run(Feed(m, RunStarted(Some(thread))).0, es).end, RunFinished(named, interrupt));
    ThreadStays(Feed(m, RunStarted(Some(thread))).0, es);
  }

  // -- messages ----------------------------------------------------------------------------------------------------

  /** A started message is empty, and open for showing exactly when it is the assistant's, as it is when nobody says. */
  lemma MessageBegins(m: Mapper, id: string, role: Option<string>)
    requires id != ""
    ensures var n := Feed(m, TextStart(Some(id), role)).0;
      && id in n.texts && n.texts[id] == "" && (IsOpen(n, id) <==> Missing(role) || role.value == "assistant")
  {
  }

  /** Somebody else's message shows nothing of its own. */
  lemma OthersAreNotShown(m: Mapper, e: Event, id: string)
    requires id != "" && id in m.roles && m.roles[id] != "assistant" && id in m.texts
    requires (e.TextContent? || e.TextEnd? || e.TextChunk?) && e.id == Some(id)
    ensures Feed(m, e).1 == Ok(InFront(m, e))
  {
    hide Feed;
    FeedIs(m, e);
    assert InFront(m, e) + [] == InFront(m, e);
  }

  /** The end of a message closes it, and shows all of it or nothing. */
  lemma MessageEnds(m: Mapper, id: string)
    requires IsOpen(m, id)
    ensures
      var r := Feed(m, TextEnd(Some(id)));
      && r.1 == Ok(InFront(m, TextEnd(Some(id))) + if m.texts[id] == "" then [] else [Whole(m.texts[id])])
      && id !in r.0.texts && id !in r.0.roles
  {
    hide Feed;
    FeedIs(m, TextEnd(Some(id)));
  }

  /** A piece of an open message shows the text so far, nothing when the piece is empty. */
  lemma PieceShows(m: Mapper, e: Event, id: string)
    requires IsOpen(m, id) && (e.TextContent? || e.TextChunk?) && e.id == Some(id) && e.delta.Some?
    ensures Feed(m, e).1 == Ok(InFront(m, e) + if e.delta.value == "" then [] else [Partial(m.texts[id] + e.delta.value)])
  {
    hide Feed;
    FeedIs(m, e);
  }

  /** Content nobody started a message for is shown as the assistant's, and the text is held for its end. */
  lemma UnstartedContentShows(m: Mapper, id: string, delta: string)
    requires id != "" && id !in m.texts && id !in m.roles && delta != ""
    ensures
      var e := TextContent(Some(id), Some(delta));
      var n := Feed(m, e).0;
      && Feed(m, e).1 == Ok(InFront(m, e) + [Partial(delta)])
      && Feed(n, TextEnd(Some(id))).1 == Ok([Whole(delta)])
  {
    hide Feed;
    var e := TextContent(Some(id), Some(delta));
    FeedIs(m, e);
    assert "" + delta == delta;
    FeedIs(Feed(m, e).0, TextEnd(Some(id)));
    assert [] + [Whole(delta)] == [Whole(delta)];
  }

  /** A chunk without an id is a message of its own, shown when it is the assistant's and says something. */
  lemma LooseChunkShows(m: Mapper, e: Event)
    requires e.TextChunk? && Missing(e.id) && e.made !in m.texts
    ensures Feed(m, e).1 == Ok(InFront(m, e) +
      if (Missing(e.role) || e.role.value == "assistant") && !Missing(e.delta) then [Partial(e.delta.value)] else [])
  {
    hide Feed;
    FeedIs(m, e);
    assert !Missing(e.delta) ==> "" + e.delta.value == e.delta.value;
    assert InFront(m, e) + [] == InFront(m, e);
  }
}
