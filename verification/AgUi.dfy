/**
 * The stateful translation of agent events into relay events, and why its compact chunk
 * forms mean the same as the start/content/end events they stand for.
 */
module AgUi {
  import opened Common

  /** A decoded event; a field that is missing or not a string is None. */
  datatype Event =
    | NoType
    | Ignored
    | RunStarted(thread: Option<string>)
    | RunFinished(thread: Option<string>, interrupt: bool)
    | RunError(message: Option<string>)
    | TextStart(id: Option<string>, role: Option<string>)
    | TextContent(id: Option<string>, delta: Option<string>)
    | TextEnd(id: Option<string>)
    | TextChunk(id: Option<string>, role: Option<string>, delta: Option<string>, made: string)
    | ToolStart(id: Option<string>, name: Option<string>)
    | ToolArgs(id: Option<string>, delta: Option<string>)
    | ToolEnd(id: Option<string>)
    | ToolResult(id: Option<string>, content: Option<string>)
    | ToolChunk(id: Option<string>, name: Option<string>, delta: Option<string>)
    | ReasoningStart
    | ReasoningContent(delta: Option<string>)
    | ReasoningEnd

  /** What the relay shows; a tool call carries its arguments as raw text. */
  datatype Out =
    | System(thread: string)
    | Finished(session: Option<string>, interrupted: bool)
    | Failed(message: string)
    | Partial(text: string)
    | Whole(text: string)
    | ToolUse(id: string, name: string, args: string)
    | ToolAnswer(id: string, content: string)
    | Thinking(text: string)

  datatype Problem = Protocol | MissingRole

  datatype Chunk = Chunk(id: string, name: string, args: string)

  datatype Mapper = Mapper(
    thread: Option<string>, texts: map<string, string>, roles: map<string, string>,
    names: map<string, string>, args: map<string, string>, chunk: Option<Chunk>, reasoning: seq<string>)

  const FRESH := Mapper(None, map[], map[], map[], map[], None, [])
  const ASSISTANT := "assistant"
  const MAX_ERROR_CHARS := 1_000

  type Reply = Result<seq<Out>, Problem>

  /** A field that must be a non-empty string. */
  predicate Given(field: Option<string>) {
    field.Some? && field.value != ""
  }

  /** A field, or the other value when it is missing or empty. */
  function OrElse(field: Option<string>, other: string): string {
    if Given(field) then field.value else other
  }

  function Get(m: map<string, string>, k: string, other: string): string {
    if k in m then m[k] else other
  }

  function Concat(parts: seq<string>): string {
    if parts == [] then "" else Concat(parts[..|parts| - 1]) + parts[|parts| - 1]
  }

  function FinishChunk(c: Chunk): Out {
    ToolUse(c.id, c.name, c.args)
  }

  // -- one event ---------------------------------------------------------------------

  function FeedText(m: Mapper, e: Event): (Mapper, Reply)
    requires e.TextStart? || e.TextContent? || e.TextEnd? || e.TextChunk?
  {
    if !e.TextChunk? && !Given(e.id) then (m, Err(Protocol))
    else
      match e
      case TextStart(id, role) =>
        (m.(texts := m.texts[id.value := ""], roles := m.roles[id.value := OrElse(role, ASSISTANT)]), Ok([]))
      case TextContent(id, delta) =>
        if Get(m.roles, id.value, ASSISTANT) != ASSISTANT then (m, Ok([]))
        else if delta.None? then (m, Err(Protocol))
        else
          var text := Get(m.texts, id.value, "") + delta.value;
          (m.(texts := m.texts[id.value := text]), Ok(if delta.value == "" then [] else [Partial(text)]))
      case TextEnd(id) =>
        var text := Get(m.texts, id.value, "");
        (m.(texts := m.texts - {id.value}, roles := m.roles - {id.value}),
         Ok(if Get(m.roles, id.value, ASSISTANT) != ASSISTANT || text == "" then [] else [Whole(text)]))
      case TextChunk(_, role, delta, made) =>
        var id := OrElse(e.id, made);
        var n := if id in m.texts then m
          else m.(texts := m.texts[id := ""], roles := m.roles[id := OrElse(role, ASSISTANT)]);
        if id !in n.roles then (n, Err(MissingRole))
        else if n.roles[id] != ASSISTANT || !Given(delta) then (n, Ok([]))
        else
          var text := n.texts[id] + delta.value;
          (n.(texts := n.texts[id := text]), Ok([Partial(text)]))
  }

  function FeedTool(m: Mapper, e: Event): (Mapper, Reply)
    requires e.ToolStart? || e.ToolArgs? || e.ToolEnd? || e.ToolResult?
  {
    if !Given(e.id) then (m, Err(Protocol))
    else
      match e
      case ToolStart(id, name) =>
        if !Given(name) then (m, Err(Protocol))
        else (m.(names := m.names[id.value := name.value], args := m.args[id.value := ""]), Ok([]))
      case ToolArgs(id, delta) =>
        if delta.None? then (m, Err(Protocol))
        else (m.(args := m.args[id.value := Get(m.args, id.value, "") + delta.value]), Ok([]))
      case ToolEnd(id) =>
        (m.(names := m.names - {id.value}, args := m.args - {id.value}),
         Ok([ToolUse(id.value, Get(m.names, id.value, "unknown"), Get(m.args, id.value, ""))]))
      case ToolResult(id, content) =>
        if content.None? then (m, Err(Protocol)) else (m, Ok([ToolAnswer(id.value, content.value)]))
  }

  function FeedToolChunk(m: Mapper, e: Event): (Mapper, Reply)
    requires e.ToolChunk?
  {
    var other := m.chunk.Some? && e.id.Some? && e.id.value != m.chunk.value.id;
    var done := if other then [FinishChunk(m.chunk.value)] else [];
    var n := if other then m.(chunk := None) else m;
    if n.chunk.None? && (e.id.None? || e.name.None?) then (n, Err(Protocol))
    else
      var c := if n.chunk.None? then Chunk(e.id.value, e.name.value, "") else n.chunk.value;
      var grown := if Given(e.delta) then c.(args := c.args + e.delta.value) else c;
      (n.(chunk := Some(grown)), Ok(done))
  }

  /** An event while no compact tool call is open, or another piece of the open one. */
  function FeedOpen(m: Mapper, e: Event): (Mapper, Reply) {
    match e
    case NoType => (m, Err(Protocol))
    case Ignored => (m, Ok([]))
    case RunStarted(thread) =>
      if Given(thread) then (m.(thread := Some(thread.value)), Ok([System(thread.value)])) else (m, Err(Protocol))
    case RunFinished(thread, interrupt) => (m, Ok([Finished(if Given(thread) then thread else m.thread, interrupt)]))
    case RunError(message) =>
      var text := OrElse(message, "AG-UI agent run failed");
      (m, Ok([Failed(text[..Min(|text|, MAX_ERROR_CHARS)])]))
    case TextStart(_, _) => FeedText(m, e)
    case TextContent(_, _) => FeedText(m, e)
    case TextEnd(_) => FeedText(m, e)
    case TextChunk(_, _, _, _) => FeedText(m, e)
    case ToolStart(_, _) => FeedTool(m, e)
    case ToolArgs(_, _) => FeedTool(m, e)
    case ToolEnd(_) => FeedTool(m, e)
    case ToolResult(_, _) => FeedTool(m, e)
    case ToolChunk(_, _, _) => FeedToolChunk(m, e)
    case ReasoningStart => (m.(reasoning := []), Ok([]))
    case ReasoningContent(delta) =>
      if delta.None? then (m, Err(Protocol))
      else (if delta.value == "" then m else m.(reasoning := m.reasoning + [delta.value]), Ok([]))
    case ReasoningEnd =>
      var thought := Concat(m.reasoning);
      (m.(reasoning := []), Ok(if thought == "" then [] else [Thinking(thought)]))
  }

  /** An open compact tool call ends at the next event of another kind. */
  predicate Closes(m: Mapper, e: Event) {
    m.chunk.Some? && !e.NoType? && !e.ToolChunk?
  }

  function Feed(m: Mapper, e: Event): (Mapper, Reply) {
    if Closes(m, e) then
      var r := FeedOpen(m.(chunk := None), e);
      (r.0, if r.1.Ok? then Ok([FinishChunk(m.chunk.value)] + r.1.value) else r.1)
    else FeedOpen(m, e)
  }

  // -- a whole stream ---------------------------------------------------------------------

  /** How a stream went: where the mapper stands, what it put out, and whether it broke off. */
  datatype Outcome = Outcome(end: Mapper, outs: seq<Out>, broke: bool)

  function Run(m: Mapper, es: seq<Event>): Outcome
    decreases es
  {
    if es == [] then Outcome(m, [], false)
    else
      var (n, r) := Feed(m, es[0]);
      if r.Err? then Outcome(n, [], true)
      else
        var rest := Run(n, es[1..]);
        rest.(outs := r.value + rest.outs)
  }

  lemma {:induction false} RunJoins(m: Mapper, a: seq<Event>, b: seq<Event>)
    requires !Run(m, a).broke
    ensures var first := Run(m, a); var second := Run(first.end, b);
      Run(m, a + b) == second.(outs := first.outs + second.outs)
    decreases a
  {
    hide Feed;
    if a == [] {
      assert a + b == b;
    } else {
      assert (a + b)[1..] == a[1..] + b;
      RunJoins(Feed(m, a[0]).0, a[1..], b);
    }
  }

  lemma {:induction false} RunBreaks(m: Mapper, a: seq<Event>, b: seq<Event>)
    requires Run(m, a).broke
    ensures Run(m, a + b) == Run(m, a)
    decreases a
  {
    hide Feed;
    assert (a + b)[1..] == a[1..] + b;
    if Feed(m, a[0]).1.Ok? {
      RunBreaks(Feed(m, a[0]).0, a[1..], b);
    }
  }

  // -- the compact forms written out ----------------------------------------------------------

  /** An event as start/content/end events, for a mapper that stands at m. */
  function Expand(m: Mapper, e: Event): seq<Event> {
    if e.ToolChunk? then
      var other := m.chunk.Some? && e.id.Some? && e.id.value != m.chunk.value.id;
      var opens := other || m.chunk.None?;
      var id := if opens then e.id else Some(m.chunk.value.id);
      (if other then [ToolEnd(Some(m.chunk.value.id))] else [])
      + (if opens then [ToolStart(e.id, e.name)] else [])
      + (if Given(e.delta) then [ToolArgs(id, e.delta)] else [])
    else
      (if Closes(m, e) then [ToolEnd(Some(m.chunk.value.id))] else [])
      + if e.TextChunk? && Given(e.id) then
          (if e.id.value in m.texts then [] else [TextStart(e.id, e.role)])
          + [TextContent(e.id, if e.delta.Some? then e.delta else Some(""))]
        else [e]
  }

  function ExpandAll(m: Mapper, es: seq<Event>): seq<Event>
    decreases es
  {
    if es == [] then [] else Expand(m, es[0]) + ExpandAll(Feed(m, es[0]).0, es[1..])
  }

  /**
   * A compact event may appear: a tool chunk that opens a call names it, with an id no explicit
   * call is using; a text chunk continues only a message that was started.
   */
  predicate MayChunk(m: Mapper, e: Event) {
    && (e.ToolChunk? && (m.chunk.None? || (e.id.Some? && e.id.value != m.chunk.value.id)) ==>
      Given(e.id) && Given(e.name) && e.id.value !in m.names && e.id.value !in m.args)
    && (e.TextChunk? && Given(e.id) && e.id.value in m.texts ==> e.id.value in m.roles)
  }

  predicate WellFormed(m: Mapper, es: seq<Event>)
    decreases es
  {
    es == [] || (MayChunk(m, es[0]) && WellFormed(Feed(m, es[0]).0, es[1..]))
  }

  /** The mapper of the written-out stream: the open compact call is an ordinary open call there. */
  function Written(m: Mapper): Mapper {
    if m.chunk.None? then m
    else
      var c := m.chunk.value;
      m.(chunk := None, names := m.names[c.id := c.name], args := m.args[c.id := c.args])
  }

  /** The id of the open compact call is its own. */
  predicate OwnId(m: Mapper) {
    m.chunk.Some? ==> Given(Some(m.chunk.value.id)) && m.chunk.value.id !in m.names && m.chunk.value.id !in m.args
  }

  lemma {:induction false} RunOne(m: Mapper, e: Event)
    ensures var (n, r) := Feed(m, e);
      Run(m, [e]) == if r.Err? then Outcome(n, [], true) else Outcome(n, r.value, false)
  {
  }

  lemma {:induction false} RunNothing(m: Mapper)
    ensures Run(m, []) == Outcome(m, [], false)
  {
  }

  lemma {:induction false} RunFirst(m: Mapper, e: Event, es: seq<Event>)
    requires Feed(m, e).1.Ok?
    ensures var (n, r) := Feed(m, e); var rest := Run(n, es);
      Run(m, [e] + es) == rest.(outs := r.value + rest.outs)
  {
  }

  /** Written out, the end of the open call puts out exactly what the compact form does on closing. */
  lemma EndCloses(m: Mapper)
    requires OwnId(m) && m.chunk.Some?
    ensures Feed(Written(m), ToolEnd(Some(m.chunk.value.id))) == (m.(chunk := None), Ok([FinishChunk(m.chunk.value)]))
  {
    var c := m.chunk.value;
    assert m.names[c.id := c.name] - {c.id} == m.names;
    assert m.args[c.id := c.args] - {c.id} == m.args;
  }

  lemma GoOn(m: Mapper, e: Event)
    requires m.chunk.None? && e.TextChunk? && Given(e.id) && e.id.value in m.texts && e.id.value in m.roles
    ensures Feed(m, e) == Feed(m, TextContent(e.id, if e.delta.Some? then e.delta else Some("")))
    ensures Feed(m, e).1.Ok? && Feed(m, e).0.chunk.None?
  {
    var id := e.id.value;
    if !Given(e.delta) && m.roles[id] == ASSISTANT {
      assert m.texts[id] + "" == m.texts[id];
      assert m.texts[id := m.texts[id]] == m.texts;
    }
  }

  lemma BeginAndGoOn(m: Mapper, e: Event)
    requires m.chunk.None? && e.TextChunk? && Given(e.id) && e.id.value !in m.texts
    ensures var n := Feed(m, TextStart(e.id, e.role)).0;
      && n.chunk.None? && e.id.value in n.texts && e.id.value in n.roles
      && Feed(m, TextStart(e.id, e.role)) == (n, Ok([])) && Feed(m, e) == Feed(n, e)
  {
  }

  lemma {:induction false} OpenMatchesText(m: Mapper, e: Event)
    requires m.chunk.None? && MayChunk(m, e) && e.TextChunk? && Given(e.id)
    ensures Feed(m, e).1.Ok? && Feed(m, e).0.chunk.None?
    ensures Run(m, Expand(m, e)) == Outcome(Feed(m, e).0, Feed(m, e).1.value, false)
  {
    hide Feed, Run;
    var content := TextContent(e.id, if e.delta.Some? then e.delta else Some(""));
    if e.id.value in m.texts {
      assert Expand(m, e) == [content];
      GoOn(m, e);
      RunOne(m, content);
    } else {
      var start := TextStart(e.id, e.role);
      assert Expand(m, e) == [start] + [content];
      BeginAndGoOn(m, e);
      GoOn(Feed(m, start).0, e);
      RunFirst(m, start, [content]);
      RunOne(Feed(m, start).0, content);
    }
  }

  lemma {:induction false} OpenMatches(m: Mapper, e: Event)
    requires m.chunk.None? && MayChunk(m, e) && !e.ToolChunk?
    ensures var (n, r) := Feed(m, e); var o := Run(m, Expand(m, e));
      && n.chunk.None? && o.broke == r.Err?
      && (if r.Ok? then o.outs == r.value && o.end == n else o.outs == [])
  {
    if e.TextChunk? && Given(e.id) {
      OpenMatchesText(m, e);
    } else {
      assert Expand(m, e) == [e];
      RunOne(m, e);
      assert Feed(m, e).0.chunk.None?;
    }
  }

  lemma ToolChunkMatches(m: Mapper, e: Event)
    requires OwnId(m) && MayChunk(m, e) && e.ToolChunk?
    ensures var (n, r) := Feed(m, e); var o := Run(Written(m), Expand(m, e));
      r.Ok? && OwnId(n) && o == Outcome(Written(n), r.value, false)
  {
    hide FeedText, FeedTool, Concat, OrElse, Run;
    var other := m.chunk.Some? && e.id.Some? && e.id.value != m.chunk.value.id;
    if other {
      EndCloses(m);
      var closed := m.(chunk := None);
      RunFirst(Written(m), ToolEnd(Some(m.chunk.value.id)), Expand(closed, e));
      assert Expand(m, e) == [ToolEnd(Some(m.chunk.value.id))] + Expand(closed, e);
      CallOpens(closed, e);
    } else if m.chunk.None? {
      CallOpens(m, e);
    } else {
      CallGrows(m, e);
    }
  }

  lemma {:induction false} CallOpens(m: Mapper, e: Event)
    requires m.chunk.None? && MayChunk(m, e) && e.ToolChunk?
    ensures var (n, r) := Feed(m, e); r == Ok([]) && OwnId(n) && Run(m, Expand(m, e)) == Outcome(Written(n), [], false)
  {
    hide FeedText, Concat, OrElse, Run;
    RunNothing(Feed(m, ToolStart(e.id, e.name)).0);
    var id := e.id.value;
    var start := ToolStart(e.id, e.name);
    var begun := Feed(m, start).0;
    var args := if Given(e.delta) then [ToolArgs(e.id, e.delta)] else [];
    assert Expand(m, e) == [start] + args;
    RunFirst(m, start, args);
    if Given(e.delta) {
      RunOne(begun, args[0]);
      assert m.args[id := ""][id := "" + e.delta.value] == m.args[id := "" + e.delta.value];
    }
  }

  lemma CallGrows(m: Mapper, e: Event)
    requires OwnId(m) && m.chunk.Some? && e.ToolChunk? && (e.id.None? || e.id.value == m.chunk.value.id)
    ensures var (n, r) := Feed(m, e);
      r == Ok([]) && OwnId(n) && Run(Written(m), Expand(m, e)) == Outcome(Written(n), [], false)
  {
    hide FeedText, Concat, OrElse, Run;
    RunNothing(Written(m));
    var c := m.chunk.value;
    if Given(e.delta) {
      var more := ToolArgs(Some(c.id), e.delta);
      assert Expand(m, e) == [more];
      RunOne(Written(m), more);
      assert m.args[c.id := c.args][c.id := c.args + e.delta.value] == m.args[c.id := c.args + e.delta.value];
    } else {
      assert Expand(m, e) == [];
    }
  }

  /** What the explicit end of the open call has already put out when the event behind it turns out faulty. */
  function Owed(m: Mapper, e: Event): seq<Out> {
    if Closes(m, e) then [FinishChunk(m.chunk.value)] else []
  }

  /**
   * One event and its written-out form do the same, whatever compact call is open; a faulty event takes
   * with it the output of the compact call it would have closed.
   */
  lemma StepMatches(m: Mapper, e: Event)
    requires OwnId(m) && MayChunk(m, e)
    ensures var (n, r) := Feed(m, e); var o := Run(Written(m), Expand(m, e));
      && o.broke == r.Err?
      && (if r.Ok? then OwnId(n) && o.outs == r.value && o.end == Written(n) else o.outs == Owed(m, e))
  {
    if e.ToolChunk? {
      ToolChunkMatches(m, e);
    } else if Closes(m, e) {
      var closed := m.(chunk := None);
      EndCloses(m);
      OpenMatches(closed, e);
      assert Expand(m, e) == [ToolEnd(Some(m.chunk.value.id))] + Expand(closed, e);
      RunFirst(Written(m), ToolEnd(Some(m.chunk.value.id)), Expand(closed, e));
    } else if m.chunk.None? {
      OpenMatches(m, e);
    } else {
      RunOne(Written(m), e);
    }
  }

  /** The output a fault takes with it: none, unless a compact call is open in front of the faulty event. */
  function Swallowed(m: Mapper, es: seq<Event>): seq<Out>
    decreases es
  {
    if es == [] then []
    else
      var (n, r) := Feed(m, es[0]);
      if r.Err? then Owed(m, es[0]) else Swallowed(n, es[1..])
  }

  /**
   * Rewriting every compact tool call and every identified text chunk into start, content and end
   * leaves what the relay shows unchanged, and the two streams break off at the same event. On a break
   * the written-out stream shows one thing more exactly when a compact call was open: that call.
   */
  lemma {:induction false} CompactMeansTheSame(m: Mapper, es: seq<Event>)
    requires OwnId(m) && WellFormed(m, es)
    ensures var o := Run(m, es); var written := Run(Written(m), ExpandAll(m, es));
      && written.broke == o.broke && written.outs == o.outs + Swallowed(m, es)
      && (!o.broke ==> Swallowed(m, es) == [] && written.end == Written(o.end) && OwnId(o.end))
    decreases es
  {
    hide Feed, Expand, MayChunk, OwnId, Written, Owed;
    if es != [] {
      var e := es[0];
      var (n, r) := Feed(m, e);
      StepMatches(m, e);
      var rest := ExpandAll(n, es[1..]);
      if r.Err? {
        RunBreaks(Written(m), Expand(m, e), rest);
      } else {
        CompactMeansTheSame(n, es[1..]);
        RunJoins(Written(m), Expand(m, e), rest);
      }
    }
  }

  /** Where a stream breaks off, and what was open there. */
  lemma {:induction false} FaultAt(m: Mapper, es: seq<Event>) returns (k: nat)
    requires Run(m, es).broke
    ensures k < |es| && !Run(m, es[..k]).broke && Feed(Run(m, es[..k]).end, es[k]).1.Err?
    ensures Swallowed(m, es) == Owed(Run(m, es[..k]).end, es[k])
    decreases es
  {
    hide Feed, Owed;
    if Feed(m, es[0]).1.Err? {
      k := 0;
      assert es[..0] == [];
    } else {
      var n := Feed(m, es[0]).0;
      var j := FaultAt(n, es[1..]);
      k := j + 1;
      RunHead(m, es, k);
    }
  }

  lemma {:induction false} RunHead(m: Mapper, es: seq<Event>, k: nat)
    requires 0 < k <= |es| && Feed(m, es[0]).1.Ok?
    ensures Run(m, es[..k]).broke == Run(Feed(m, es[0]).0, es[1..][..k - 1]).broke
    ensures Run(m, es[..k]).end == Run(Feed(m, es[0]).0, es[1..][..k - 1]).end
  {
    hide Feed;
    assert es[..k][1..] == es[1..][..k - 1];
  }

  /** A compact call left open by the end of the stream is the only thing its end event would add. */
  lemma {:induction false} OnlyTheLastCallIsOpen(m: Mapper, es: seq<Event>)
    requires OwnId(m) && WellFormed(m, es) && !Run(m, es).broke && Run(m, es).end.chunk.Some?
    ensures var last := Run(m, es).end.chunk.value;
      Run(Written(m), ExpandAll(m, es) + [ToolEnd(Some(last.id))]).outs == Run(m, es).outs + [FinishChunk(last)]
  {
    hide Feed, Written, OwnId, ExpandAll, Run;
    var last := Run(m, es).end.chunk.value;
    CompactMeansTheSame(m, es);
    EndCloses(Run(m, es).end);
    RunJoins(Written(m), ExpandAll(m, es), [ToolEnd(Some(last.id))]);
    RunOne(Written(Run(m, es).end), ToolEnd(Some(last.id)));
  }

  // -- the text of a message ---------------------------------------------------------------------

  /** What the event adds to message `id`. */
  function DeltaOf(e: Event, id: string): string {
    if (e.TextContent? || e.TextChunk?) && e.id == Some(id) && e.delta.Some? then e.delta.value else ""
  }

  function Deltas(es: seq<Event>, id: string): string
    decreases es
  {
    if es == [] then "" else DeltaOf(es[0], id) + Deltas(es[1..], id)
  }

  /** The event neither starts nor ends message `id`, and a made-up id is not that one. */
  predicate LeavesOpen(e: Event, id: string) {
    && !((e.TextStart? || e.TextEnd?) && e.id == Some(id))
    && !(e.TextChunk? && !Given(e.id) && e.made == id)
  }

  predicate IsOpen(m: Mapper, id: string) {
    id != "" && id in m.texts && id in m.roles && m.roles[id] == ASSISTANT
  }

  /** Only events of a message touch the messages. */
  lemma OthersKeepTexts(m: Mapper, e: Event)
    requires !e.TextStart? && !e.TextContent? && !e.TextEnd? && !e.TextChunk?
    ensures FeedOpen(m, e).0.texts == m.texts && FeedOpen(m, e).0.roles == m.roles
  {
    hide Concat, Get, OrElse;
  }

  /** Message `id` grew by `delta`, and the reply ends with its text so far when that is not empty. */
  ghost predicate Grew(m: Mapper, n: Mapper, r: Reply, id: string, delta: string) {
    && IsOpen(m, id) && IsOpen(n, id) && n.texts[id] == m.texts[id] + delta
    && (delta != "" ==> r.Ok? && r.value != [] && r.value[|r.value| - 1] == Partial(n.texts[id]))
  }

  lemma ContentGrows(m: Mapper, e: Event, id: string)
    requires IsOpen(m, id) && e.TextContent? && FeedText(m, e).1.Ok?
    ensures Grew(m, FeedText(m, e).0, FeedText(m, e).1, id, DeltaOf(e, id))
  {
  }

  lemma ChunkGrows(m: Mapper, e: Event, id: string)
    requires IsOpen(m, id) && e.TextChunk? && LeavesOpen(e, id) && FeedText(m, e).1.Ok?
    ensures Grew(m, FeedText(m, e).0, FeedText(m, e).1, id, DeltaOf(e, id))
  {
    assert m.texts[id] + "" == m.texts[id];
  }

  lemma FrameTextGrows(m: Mapper, e: Event, id: string)
    requires IsOpen(m, id) && (e.TextStart? || e.TextEnd?) && LeavesOpen(e, id) && FeedText(m, e).1.Ok?
    ensures Grew(m, FeedText(m, e).0, FeedText(m, e).1, id, DeltaOf(e, id))
  {
  }

  lemma TextGrows(m: Mapper, e: Event, id: string)
    requires IsOpen(m, id) && LeavesOpen(e, id) && Feed(m, e).1.Ok?
    ensures Grew(m, Feed(m, e).0, Feed(m, e).1, id, DeltaOf(e, id))
  {
    hide FeedText, FeedTool, FeedToolChunk, FinishChunk, LeavesOpen;
    var n := if Closes(m, e) then m.(chunk := None) else m;
    assert m.texts[id] + "" == m.texts[id];
    match e
    case TextStart(_, _) => FrameTextGrows(n, e, id);
    case TextEnd(_) => FrameTextGrows(n, e, id);
    case TextContent(_, _) => ContentGrows(n, e, id);
    case TextChunk(_, _, _, _) => ChunkGrows(n, e, id);
    case _ => OthersKeepTexts(n, e);
  }

  /**
   * Whatever else is interleaved, an open assistant message holds exactly the deltas sent for it
   * so far, and every piece shown of it is the text up to then: each extends the one before.
   */
  lemma {:induction false} TextAccumulates(m: Mapper, es: seq<Event>, id: string)
    requires IsOpen(m, id) && !Run(m, es).broke && forall k :: 0 <= k < |es| ==> LeavesOpen(es[k], id)
    ensures IsOpen(Run(m, es).end, id)
    ensures Run(m, es).end.texts[id] == m.texts[id] + Deltas(es, id)
    decreases es
  {
    hide Feed, LeavesOpen, DeltaOf;
    if es == [] {
      assert m.texts[id] + "" == m.texts[id];
    } else {
      TextGrows(m, es[0], id);
      var n := Feed(m, es[0]).0;
      TextAccumulates(n, es[1..], id);
      Associates(m.texts[id], DeltaOf(es[0], id), Deltas(es[1..], id));
    }
  }

  /** The piece shown at event k is the message as sent so far; what its end shows is all of it. */
  lemma {:induction false} ShownIsSent(m: Mapper, es: seq<Event>, k: nat, id: string)
    requires IsOpen(m, id) && k < |es| && !Run(m, es[..k]).broke && Feed(Run(m, es[..k]).end, es[k]).1.Ok?
    requires forall j :: 0 <= j <= k ==> LeavesOpen(es[j], id)
    ensures DeltaOf(es[k], id) != "" ==> var r := Feed(Run(m, es[..k]).end, es[k]).1.value;
      r != [] && r[|r| - 1] == Partial(m.texts[id] + Deltas(es[..k], id) + DeltaOf(es[k], id))
  {
    hide Feed, LeavesOpen, DeltaOf, Run, Deltas, IsOpen;
    TextAccumulates(m, es[..k], id);
    TextGrows(Run(m, es[..k]).end, es[k], id);
  }

  lemma {:induction false} EndShowsAll(m: Mapper, es: seq<Event>, id: string)
    requires IsOpen(m, id) && !Run(m, es).broke && forall k :: 0 <= k < |es| ==> LeavesOpen(es[k], id)
    ensures var r := Feed(Run(m, es).end, TextEnd(Some(id))).1; var text := m.texts[id] + Deltas(es, id);
      r.Ok? && (text != "" ==> r.value != [] && r.value[|r.value| - 1] == Whole(text))
  {
    hide Run, LeavesOpen, Deltas;
    TextAccumulates(m, es, id);
  }

  // -- where the forms differ ------------------------------------------------------------------------

  /** A text chunk breaks the stream exactly when its message has text but was never started. */
  lemma ChunkNeedsARole(m: Mapper, e: Event)
    requires e.TextChunk?
    ensures var id := OrElse(e.id, e.made);
      Feed(m, e).1.Err? <==> id in m.texts && id !in m.roles
  {
  }

  /** Content without a start, then a chunk of the same message: the content form is accepted, the chunk is not. */
  lemma ContentThenChunk(delta: string)
    requires delta != ""
    ensures Run(FRESH, [TextContent(Some("m"), Some(delta)), TextContent(Some("m"), Some(delta))]).broke == false
    ensures Run(FRESH, [TextContent(Some("m"), Some(delta)), TextChunk(Some("m"), None, Some(delta), "")]).broke
  {
    var first := TextContent(Some("m"), Some(delta));
    var n := Feed(FRESH, first).0;
    assert "m" != "";
    assert n.texts == map["m" := "" + delta] && n.roles == map[];
    assert Feed(FRESH, first).1.Ok?;
    RunFirst(FRESH, first, [first]);
    RunOne(n, first);
    var chunk := TextChunk(Some("m"), None, Some(delta), "");
    RunFirst(FRESH, first, [chunk]);
    RunOne(n, chunk);
    ChunkNeedsARole(n, chunk);
    assert [first] + [first] == [first, first] && [first] + [chunk] == [first, chunk];
  }

  /** A compact call, then an event without a type's fields: the call is lost, its explicit end would have shown it. */
  lemma FaultSwallowsTheCall(id: string, name: string)
    requires id != "" && name != ""
    ensures var es := [ToolChunk(Some(id), Some(name), None), ToolResult(None, None)];
      && WellFormed(FRESH, es) && Run(FRESH, es).broke && Run(FRESH, es).outs == []
      && Run(FRESH, ExpandAll(FRESH, es)).outs == [ToolUse(id, name, "")]
  {
    var chunk, fault := ToolChunk(Some(id), Some(name), None), ToolResult(None, None);
    var es := [chunk, fault];
    var n := FRESH.(chunk := Some(Chunk(id, name, "")));
    assert Feed(FRESH, chunk) == (n, Ok([]));
    assert Feed(n, fault).1 == Err(Protocol);
    assert es == [chunk] + [fault] && es[1..] == [fault] && [fault][1..] == [];
    RunFirst(FRESH, chunk, [fault]);
    RunOne(n, fault);
    assert Swallowed(n, [fault]) == [ToolUse(id, name, "")];
    assert WellFormed(n, [fault]) && WellFormed(FRESH, es) && Written(FRESH) == FRESH;
    CompactMeansTheSame(FRESH, es);
  }

  // -- the mapper object --------------------------------------------------------------------------------

  class AgUiEventMapper {
    var thread: Option<string>
    var texts: map<string, string>
    var roles: map<string, string>
    var names: map<string, string>
    var args: map<string, string>
    var chunkId: Option<string>
    var chunkName: Option<string>
    var chunkArgs: string
    var reasoning: seq<string>

    /** An open compact call always has its name. */
    ghost predicate Valid()
      reads this
    {
      chunkId.Some? == chunkName.Some? && (chunkId.None? ==> chunkArgs == "")
    }

    ghost function State(): Mapper
      requires Valid()
      reads this
    {
      Mapper(thread, texts, roles, names, args,
        if chunkId.None? then None else Some(Chunk(chunkId.value, chunkName.value, chunkArgs)), reasoning)
    }

    constructor ()
      ensures Valid() && State() == FRESH
    {
      thread, texts, roles, names, args := None, map[], map[], map[], map[];
      chunkId, chunkName, chunkArgs, reasoning := None, None, "", [];
    }

    method FinishToolChunk() returns (out: Out)
      requires Valid() && chunkId.Some?
      modifies this
      ensures Valid() && State() == old(State()).(chunk := None)
      ensures out == FinishChunk(old(State()).chunk.value)
    {
      out := ToolUse(chunkId.value, chunkName.value, chunkArgs);
      chunkId, chunkName, chunkArgs := None, None, "";
    }

    /** Maps one event: the mapper moves, and replies, as the specification says. */
    method FeedEvent(e: Event) returns (r: Reply)
      requires Valid()
      modifies this
      ensures Valid() && (State(), r) == Feed(old(State()), e)
      decreases if chunkId.Some? then 1 else 0
    {
      hide FeedOpen, FinishChunk;
      if !e.NoType? && !e.ToolChunk? && chunkId.Some? {
        var pending := FinishToolChunk();
        var rest := FeedEvent(e);
        return if rest.Ok? then Ok([pending] + rest.value) else rest;
      }
      r := FeedNow(e);
    }

    method FeedNow(e: Event) returns (r: Reply)
      requires Valid()
      modifies this
      ensures Valid() && (State(), r) == FeedOpen(old(State()), e)
    {
      hide FeedText, FeedTool, FeedToolChunk, Concat, OrElse, Get;
      if e.TextStart? || e.TextContent? || e.TextEnd? || e.TextChunk? {
        r := FeedTexts(e);
      } else if e.ToolStart? || e.ToolArgs? || e.ToolEnd? || e.ToolResult? {
        r := FeedTools(e);
      } else if e.ToolChunk? {
        r := FeedChunk(e);
      } else {
        r := FeedOther(e);
      }
    }

    method FeedOther(e: Event) returns (r: Reply)
      requires Valid() && !e.TextStart? && !e.TextContent? && !e.TextEnd? && !e.TextChunk?
      requires !e.ToolStart? && !e.ToolArgs? && !e.ToolEnd? && !e.ToolResult? && !e.ToolChunk?
      modifies this
      ensures Valid() && (State(), r) == FeedOpen(old(State()), e)
    {
      hide Concat, OrElse;
      match e
      case NoType => r := Err(Protocol);
      case Ignored => r := Ok([]);
      case RunStarted(t) =>
        if !Given(t) { return Err(Protocol); }
        thread := Some(t.value);
        r := Ok([System(t.value)]);
      case RunFinished(t, interrupt) => r := Ok([Finished(if Given(t) then t else thread, interrupt)]);
      case RunError(message) =>
        var text := OrElse(message, "AG-UI agent run failed");
        r := Ok([Failed(text[..Min(|text|, MAX_ERROR_CHARS)])]);
      case ReasoningStart => reasoning := []; r := Ok([]);
      case ReasoningContent(delta) =>
        if delta.None? { return Err(Protocol); }
        if delta.value != "" { reasoning := reasoning + [delta.value]; }
        r := Ok([]);
      case ReasoningEnd =>
        var thought := Concat(reasoning);
        reasoning := [];
        r := Ok(if thought == "" then [] else [Thinking(thought)]);
    }

    method FeedTexts(e: Event) returns (r: Reply)
      requires Valid() && (e.TextStart? || e.TextContent? || e.TextEnd? || e.TextChunk?)
      modifies this
      ensures Valid() && (State(), r) == FeedText(old(State()), e)
    {
      if !e.TextChunk? && !Given(e.id) { return Err(Protocol); }
      match e
      case TextStart(id, role) =>
        texts, roles := texts[id.value := ""], roles[id.value := OrElse(role, ASSISTANT)];
        r := Ok([]);
      case TextContent(id, delta) =>
        if Get(roles, id.value, ASSISTANT) != ASSISTANT { return Ok([]); }
        if delta.None? { return Err(Protocol); }
        var text := Get(texts, id.value, "") + delta.value;
        texts := texts[id.value := text];
        r := Ok(if delta.value == "" then [] else [Partial(text)]);
      case TextEnd(id) =>
        var role, text := Get(roles, id.value, ASSISTANT), Get(texts, id.value, "");
        roles, texts := roles - {id.value}, texts - {id.value};
        r := Ok(if role != ASSISTANT || text == "" then [] else [Whole(text)]);
      case TextChunk(_, role, delta, made) =>
        var id := OrElse(e.id, made);
        if id !in texts {
          texts, roles := texts[id := ""], roles[id := OrElse(role, ASSISTANT)];
        }
        if id !in roles { return Err(MissingRole); }
        if roles[id] != ASSISTANT || !Given(delta) { return Ok([]); }
        var text := texts[id] + delta.value;
        texts := texts[id := text];
        r := Ok([Partial(text)]);
    }

    method FeedTools(e: Event) returns (r: Reply)
      requires Valid() && (e.ToolStart? || e.ToolArgs? || e.ToolEnd? || e.ToolResult?)
      modifies this
      ensures Valid() && (State(), r) == FeedTool(old(State()), e)
    {
      if !Given(e.id) { return Err(Protocol); }
      match e
      case ToolStart(id, name) =>
        if !Given(name) { return Err(Protocol); }
        names, args := names[id.value := name.value], args[id.value := ""];
        r := Ok([]);
      case ToolArgs(id, delta) =>
        if delta.None? { return Err(Protocol); }
        args := args[id.value := Get(args, id.value, "") + delta.value];
        r := Ok([]);
      case ToolEnd(id) =>
        var name, raw := Get(names, id.value, "unknown"), Get(args, id.value, "");
        names, args := names - {id.value}, args - {id.value};
        r := Ok([ToolUse(id.value, name, raw)]);
      case ToolResult(id, content) =>
        if content.None? { return Err(Protocol); }
        r := Ok([ToolAnswer(id.value, content.value)]);
    }

    method FeedChunk(e: Event) returns (r: Reply)
      requires Valid() && e.ToolChunk?
      modifies this
      ensures Valid() && (State(), r) == FeedToolChunk(old(State()), e)
    {
      var completed: seq<Out> := [];
      if chunkId.Some? && e.id.Some? && e.id != chunkId {
        var out := FinishToolChunk();
        completed := [out];
      }
      if chunkId.None? {
        if e.id.None? || e.name.None? { return Err(Protocol); }
        chunkId, chunkName, chunkArgs := e.id, e.name, "";
      }
      if Given(e.delta) {
        chunkArgs := chunkArgs + e.delta.value;
      }
      r := Ok(completed);
    }
  }
}
