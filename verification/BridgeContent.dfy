/**
 * What a response tells: its text, its visible thinking and raw reasoning, its tool calls and its web
 * searches. All five are defined here on the event list alone, in the words of the protocol, and both
 * the stream and the batch are proved to tell exactly them, for every event list.
 */
module BridgeContent {
  import opened Prelude
  import opened BridgeTypes
  import opened BridgeCore
  import Freeform
  import B = BridgeBatch
  import Frames = BridgeFrames
  import R = BridgeRedacted

  /** A search as the client reads it; `several` says that the action lists its queries. */
  datatype Search = Search(status: SearchStatus, queries: seq<Str>, several: bool, sources: seq<Source>)

  /** Calls are items without their identifier. */
  datatype Tale = Tale(text: Str, thinking: Str, raw: Str, calls: seq<Item>, searches: seq<Search>) {
    function Plus(more: Tale): Tale {
      Tale(text + more.text, thinking + more.thinking, raw + more.raw, calls + more.calls, searches + more.searches)
    }
  }

  const NOTHING := Tale([], [], [], [], [])

  // ---------------------------------------------------------------------------
  // What the events call for
  // ---------------------------------------------------------------------------

  /** A call as the model makes it, under the name the provider knows. */
  datatype Call = Call(id: Str, name: Str, args: Str)

  /** The event ends the call whose arguments are arriving. */
  predicate EndsCall(side: Side, hidden: bool, e: Event) {
    || e.TextDelta? || e.ToolStart? || e.ToolEnd? || e.Boundary?
    || (side.Streamed? && (e.SearchBegin? || (!hidden && (e.ThinkingDelta? || e.RawDelta?))))
    || (side.Batched? && (e.SearchEnd? || e.ThinkingDelta? || e.RawDelta?))
  }

  /** The call open after one more event; the batch takes a call with an empty id for none. */
  function NextCall(side: Side, hidden: bool, open: Option<Call>, e: Event): Option<Call> {
    if e.ToolStart? then
      if side.Batched? && e.id == [] then None else Some(Call(e.id, e.name, []))
    else if EndsCall(side, hidden, e) then None
    else if e.ToolDelta? && open.Some? then Some(open.value.(args := open.value.args + e.arguments))
    else open
  }

  function OpenCall(side: Side, hidden: bool, es: seq<Event>): Option<Call> {
    if es == [] then None else NextCall(side, hidden, OpenCall(side, hidden, es[..|es| - 1]), es[|es| - 1])
  }

  /** The finished call: under the client's name and namespace, in the form its tool asks for. */
  function AskedBy(cfg: Config, call: Option<Call>): seq<Item> {
    if call.None? then []
    else
      var c := call.value;
      var aliased := c.name in cfg.aliases;
      var name := if aliased then cfg.aliases[c.name].name else c.name;
      if name in cfg.toolSearch then [ToolSearch(0, c.id, c.args)]
      else if name in cfg.freeform then
        [CustomCall(0, c.id, name, if cfg.parse(c.args) == None then c.args else cfg.parse(c.args).value)]
      else
        [FunctionCall(0, c.id, name, if c.args == [] then [123, 125] else c.args,
                      if aliased && cfg.aliases[c.name].namespace != [] then Some(cfg.aliases[c.name].namespace) else None)]
  }

  /** The search running after one more event; only the stream shows one that runs. */
  function NextSearch(side: Side, running: Option<Str>, e: Event): Option<Str> {
    if side.Batched? || e.SearchEnd? then None
    else if e.SearchBegin? then Some(e.id)
    else running
  }

  function OpenSearchIn(side: Side, es: seq<Event>): Option<Str> {
    if es == [] then None else NextSearch(side, OpenSearchIn(side, es[..|es| - 1]), es[|es| - 1])
  }

  function Abandoned(search: Option<Str>, status: SearchStatus): seq<Search> {
    if search.None? then [] else [Search(status, [[]], false, [])]
  }

  /** What a finished search reports: without a query, an empty one. */
  function Found(e: Event): Search
    requires e.SearchEnd?
  {
    Search(if e.status.Some? then e.status.value else SearchCompleted,
           if e.queries == [] then [[]] else e.queries, |e.queries| > 1,
           if e.sources.Some? then e.sources.value else [])
  }

  function SearchesBy(running: Option<Str>, e: Event): seq<Search> {
    if e.SearchBegin? then Abandoned(running, SearchCompleted)
    else if e.SearchEnd? then (if running == Some(e.id) then [] else Abandoned(running, SearchCompleted)) + [Found(e)]
    else []
  }

  /** What one event adds. Hidden reasoning is not told, nor the text of a compaction turn. */
  function Adds(side: Side, cfg: Config, call: Option<Call>, running: Option<Str>, e: Event): Tale {
    Tale(if e.TextDelta? && !cfg.compaction then e.text else [],
         if e.ThinkingDelta? && !cfg.hide then e.thinking else [],
         if e.RawDelta? && !cfg.hide then e.text else [],
         if EndsCall(side, cfg.hide, e) then AskedBy(cfg, call) else [],
         SearchesBy(running, e))
  }

  function TaleIn(side: Side, cfg: Config, es: seq<Event>): Tale {
    if es == [] then NOTHING
    else
      var before, last := es[..|es| - 1], es[|es| - 1];
      TaleIn(side, cfg, before).Plus(Adds(side, cfg, OpenCall(side, cfg.hide, before), OpenSearchIn(side, before), last))
  }

  lemma LastEvent(side: Side, cfg: Config, before: seq<Event>, e: Event)
    ensures var es, call, running := before + [e], OpenCall(side, cfg.hide, before), OpenSearchIn(side, before);
      && OpenCall(side, cfg.hide, es) == NextCall(side, cfg.hide, call, e)
      && OpenSearchIn(side, es) == NextSearch(side, running, e)
      && TaleIn(side, cfg, es) == TaleIn(side, cfg, before).Plus(Adds(side, cfg, call, running, e))
  {
    assert (before + [e])[..|before|] == before;
    hide NextCall, NextSearch, Adds;
  }

  // ---------------------------------------------------------------------------
  // What the items tell
  // ---------------------------------------------------------------------------

  function QueriesOf(action: Option<Action>): seq<Str> {
    match action
    case None => []
    case Some(SingleQuery(query)) => [query]
    case Some(ManyQueries(queries)) => queries
  }

  function Bit(item: Item): Tale {
    match item
    case Message(_, text, _, _) => NOTHING.(text := text)
    case Reasoning(_, summary, content, _) =>
      NOTHING.(thinking := Flatten(summary), raw := if content.Some? then Flatten(content.value) else [])
    case WebSearch(_, status, action, sources) =>
      NOTHING.(searches := [Search(status, QueriesOf(action), action.Some? && action.value.ManyQueries?, sources)])
    case FunctionCall(_, callId, name, arguments, ns) => NOTHING.(calls := [FunctionCall(0, callId, name, arguments, ns)])
    case CustomCall(_, callId, name, input) => NOTHING.(calls := [CustomCall(0, callId, name, input)])
    case ToolSearch(_, callId, parsedFrom) => NOTHING.(calls := [ToolSearch(0, callId, parsedFrom)])
    case Compaction(_, _) => NOTHING
  }

  function TaleOf(items: seq<Item>): Tale {
    if items == [] then NOTHING else TaleOf(items[..|items| - 1]).Plus(Bit(items[|items| - 1]))
  }

  lemma TaleSnoc(items: seq<Item>, item: Item)
    ensures TaleOf(items + [item]) == TaleOf(items).Plus(Bit(item))
  {
    assert (items + [item])[..|items|] == items;
  }

  lemma FlattenOne(text: Str)
    ensures Flatten([text]) == text
  {
    assert [text][1..] == [];
    assert Flatten([text]) == text + [];
  }

  // ---------------------------------------------------------------------------
  // The stream
  // ---------------------------------------------------------------------------

  function OpenedText(open: Option<OpenText>): Str {
    if open.Some? then open.value.text else []
  }

  /** Told by finished items, and by the open text, thinking and raw reasoning. */
  function Told(c: Core): Tale {
    var so := TaleOf(c.finished);
    so.(text := so.text + (if c.msg.Some? then c.msg.value.text else []),
        thinking := so.thinking + OpenedText(c.reasoning), raw := so.raw + OpenedText(c.raw))
  }

  /** From `c` to `d`, nothing else was told. */
  predicate More(c: Core, d: Core, calls: seq<Item>, searches: seq<Search>) {
    Told(d) == Told(c).(calls := Told(c).calls + calls, searches := Told(c).searches + searches)
  }

  lemma NoMore(c: Core, d: Core)
    requires Told(c) == Told(d)
    ensures More(c, d, [], [])
  {
    hide Told;
  }

  lemma MoreBoth(c: Core, d: Core, e: Core, calls: seq<Item>, searches: seq<Search>, calls': seq<Item>, searches': seq<Search>)
    requires More(c, d, calls, searches) && More(d, e, calls', searches')
    ensures More(c, e, calls + calls', searches + searches')
  {
    hide Told;
    assert Told(c).calls + (calls + calls') == Told(c).calls + calls + calls';
    assert Told(c).searches + (searches + searches') == Told(c).searches + searches + searches';
  }

  lemma CloseMessageTold(c: Core, inferred: Option<Phase>)
    ensures Told(CloseMessage(c, inferred)) == Told(c)
  {
    hide TaleOf, Citations;
    if c.msg.Some? {
      var m := c.msg.value;
      TaleSnoc(c.finished, Message(m.id, m.text, Citations(c.sources), if m.phase.Some? then m.phase else inferred));
    }
  }

  lemma CloseReasoningTold(c: Core)
    ensures Told(CloseReasoning(c)) == Told(c)
  {
    hide TaleOf;
    if c.reasoning.Some? {
      var r := c.reasoning.value;
      FlattenOne(r.text);
      TaleSnoc(c.finished, Reasoning(r.id, [r.text], None, PendingEnvelope(c, None)));
    }
  }

  lemma CloseRawTold(c: Core)
    ensures Told(CloseRaw(c)) == Told(c)
  {
    hide TaleOf;
    if c.raw.Some? {
      var r := c.raw.value;
      FlattenOne(r.text);
      TaleSnoc(c.finished, Reasoning(r.id, [], Some([r.text]), None));
    }
  }

  lemma FlushEnvelopeTold(c: Core)
    ensures Told(FlushEnvelope(c)) == Told(c)
  {
    hide TaleOf;
    if HasEnvelope(c) {
      TaleSnoc(c.finished, Reasoning(c.nextId, [], None, PendingEnvelope(c, Truthy(Some(c.hiddenThinking)))));
    }
  }

  lemma FlushHiddenRawTold(c: Core)
    ensures Told(FlushHiddenRaw(c)) == Told(c)
  {
    hide TaleOf;
    if c.hiddenRaw != [] {
      TaleSnoc(c.finished, Reasoning(c.nextId, [], None, Some(Envelope(None, [], Some(c.hiddenRaw)))));
    }
  }

  /** The open tool call is the one the events opened. */
  predicate CallFits(cfg: Config, tool: Option<OpenTool>, call: Option<Call>) {
    && (tool.Some? <==> call.Some?)
    && (tool.Some? ==>
          var t, c := tool.value, call.value;
          && t.callId == c.id && t.args == c.args
          && t.name == RealName(cfg, c.name) && t.namespace == NamespaceOf(cfg, c.name) && t.kind == KindOf(cfg, t.name))
  }

  /** A finished tool item is what the call asks for. */
  lemma ToolItemAsks(cfg: Config, id: nat, call: Call)
    ensures var name := RealName(cfg, call.name);
      Bit(ToolItem(cfg, id, KindOf(cfg, name), call.id, name, call.args, NamespaceOf(cfg, call.name)))
        == NOTHING.(calls := AskedBy(cfg, Some(call)))
  {
  }

  lemma CloseToolTold(cfg: Config, c: Core, call: Option<Call>)
    requires CallFits(cfg, c.tool, call)
    ensures More(c, CloseTool(cfg, c), AskedBy(cfg, call), [])
  {
    hide TaleOf, AskedBy, ToolItem, RealName, KindOf, NamespaceOf, Bit;
    if c.tool.Some? {
      var t := c.tool.value;
      ToolItemAsks(cfg, t.id, call.value);
      TaleSnoc(c.finished, ToolItem(cfg, t.id, t.kind, t.callId, t.name, t.args, t.namespace));
    } else {
      AskedByNone(cfg);
    }
  }

  lemma AskedByNone(cfg: Config)
    ensures AskedBy(cfg, None) == []
  {
  }

  /** The open search is the one the events opened. */
  predicate SearchFits(search: Option<OpenSearch>, id: Option<Str>) {
    (search.Some? <==> id.Some?) && (search.Some? ==> search.value.eventId == id.value)
  }

  lemma SearchItemTells(id: nat, status: SearchStatus, queries: seq<Str>, sources: Option<seq<Source>>)
    ensures Bit(WebSearch(id, status, Some(SearchAction(queries)), SourcesOf(sources))) == NOTHING.(searches :=
      [Search(status, if queries == [] then [[]] else queries, |queries| > 1, if sources.Some? then sources.value else [])])
  {
    if |queries| == 1 { assert queries == [queries[0]]; }
  }

  lemma CloseSearchTold(c: Core, status: SearchStatus, queries: seq<Str>, sources: Option<seq<Source>>)
    ensures More(c, CloseSearch(c, status, queries, sources), [],
                 if c.search.None? then []
                 else [Search(status, if queries == [] then [[]] else queries, |queries| > 1, if sources.Some? then sources.value else [])])
  {
    hide TaleOf, Bit, SearchAction, SourcesOf;
    if c.search.Some? {
      SearchItemTells(c.search.value.id, status, queries, sources);
      TaleSnoc(c.finished, WebSearch(c.search.value.id, status, Some(SearchAction(queries)), SourcesOf(sources)));
    }
  }

  lemma CloseVisibleTold(cfg: Config, c: Core, inferred: Option<Phase>, call: Option<Call>)
    requires CallFits(cfg, c.tool, call)
    ensures More(c, CloseVisible(cfg, c, inferred), AskedBy(cfg, call), [])
    ensures CloseVisible(cfg, c, inferred).tool.None? && CloseVisible(cfg, c, inferred).search == c.search
  {
    hide Told, AskedBy, CallFits, CloseMessage, CloseReasoning, CloseRaw, FlushHiddenRaw, CloseTool;
    var c1 := CloseReasoning(CloseMessage(c, inferred));
    var c2 := FlushHiddenRaw(CloseRaw(c1));
    CloseMessageTold(c, inferred);
    CloseReasoningTold(CloseMessage(c, inferred));
    CloseRawTold(c1);
    FlushHiddenRawTold(CloseRaw(c1));
    CloseToolTold(cfg, c2, call);
  }

  lemma ContentTold(cfg: Config, c: Core, call: Option<Call>)
    requires CallFits(cfg, c.tool, call)
    ensures More(c, CloseContent(cfg, c), AskedBy(cfg, call), [])
    ensures CloseContent(cfg, c).tool.None? && CloseContent(cfg, c).search == c.search
  {
    hide More, AskedBy, CallFits, CloseVisible;
    CloseVisibleTold(cfg, c, Some(Commentary), call);
  }

  /** One event of the stream: `call` was open, and what it adds to the text, the thinking and the raw reasoning is `said`. */
  predicate Tells(c: Core, d: Core, said: Tale) {
    Told(d) == Told(c).Plus(said)
  }

  lemma MoreTells(c: Core, d: Core, calls: seq<Item>, searches: seq<Search>)
    requires More(c, d, calls, searches)
    ensures Tells(c, d, NOTHING.(calls := calls, searches := searches))
  {
    hide Told;
  }

  lemma MoreThenTells(c: Core, d: Core, e: Core, calls: seq<Item>, said: Tale)
    requires More(c, d, calls, []) && Tells(d, e, said) && said.calls == []
    ensures Tells(c, e, said.(calls := calls))
  {
    hide Told;
  }

  lemma TextTells(cfg: Config, c: Core, text: Str, phase: Option<Phase>, call: Option<Call>)
    requires CallFits(cfg, c.tool, call)
    ensures Tells(c, OnText(cfg, c, text, phase), NOTHING.(text := text, calls := AskedBy(cfg, call)))
    ensures OnText(cfg, c, text, phase).tool.None? && OnText(cfg, c, text, phase).search == c.search
  {
    hide More, Tells, AskedBy, CallFits, CloseReasoning, CloseRaw, FlushHiddenRaw, CloseTool, MessageFor, AppendText;
    var c1 := FlushHiddenRaw(CloseRaw(CloseReasoning(c)));
    var c2 := CloseTool(cfg, c1);
    FlushesBefore(c);
    CloseToolTold(cfg, c1, call);
    SameToldMore(c, c1, c2, AskedBy(cfg, call));
    AppendTextTells(c2, phase, text);
    MoreThenTells(c, c2, OnText(cfg, c, text, phase), AskedBy(cfg, call), NOTHING.(text := text));
  }

  lemma SameToldMore(c: Core, d: Core, e: Core, calls: seq<Item>)
    requires Told(c) == Told(d) && More(d, e, calls, [])
    ensures More(c, e, calls, [])
  {
    hide Told;
  }

  lemma FlushesBefore(c: Core)
    ensures Told(FlushHiddenRaw(CloseRaw(CloseReasoning(c)))) == Told(c)
  {
    hide Told, CloseReasoning, CloseRaw, FlushHiddenRaw;
    CloseReasoningTold(c);
    CloseRawTold(CloseReasoning(c));
    FlushHiddenRawTold(CloseRaw(CloseReasoning(c)));
  }

  lemma AppendTextTells(c: Core, phase: Option<Phase>, text: Str)
    ensures var d := AppendText(MessageFor(c, phase), text);
      Tells(c, d, NOTHING.(text := text)) && d.tool == c.tool && d.search == c.search
  {
    hide TaleOf, CloseMessage;
    CloseMessageTold(c, Some(Commentary));
  }

  lemma ThinkingTells(cfg: Config, c: Core, text: Str, call: Option<Call>)
    requires CallFits(cfg, c.tool, call) && !cfg.hide
    ensures Tells(c, OnThinking(cfg, c, text), NOTHING.(thinking := text, calls := AskedBy(cfg, call)))
    ensures OnThinking(cfg, c, text).tool.None? && OnThinking(cfg, c, text).search == c.search
  {
    hide More, Tells, AskedBy, CallFits, Told, CloseMessage, CloseRaw, FlushHiddenRaw, CloseTool, StartReasoning, AppendThinking;
    var c0 := CloseMessage(c, Some(Commentary));
    var c1 := FlushHiddenRaw(CloseRaw(c0));
    var c2 := CloseTool(cfg, c1);
    CloseMessageTold(c, Some(Commentary));
    CloseRawTold(c0);
    FlushHiddenRawTold(CloseRaw(c0));
    CloseToolTold(cfg, c1, call);
    SameToldMore(c, c1, c2, AskedBy(cfg, call));
    AppendThinkingTells(c2, text);
    MoreThenTells(c, c2, OnThinking(cfg, c, text), AskedBy(cfg, call), NOTHING.(thinking := text));
  }

  lemma AppendThinkingTells(c: Core, text: Str)
    ensures var d := AppendThinking(if c.reasoning.None? then StartReasoning(c) else c, text);
      Tells(c, d, NOTHING.(thinking := text)) && d.tool == c.tool && d.search == c.search
  {
    hide TaleOf;
  }

  lemma RawTells(cfg: Config, c: Core, text: Str, call: Option<Call>)
    requires CallFits(cfg, c.tool, call) && !cfg.hide
    ensures Tells(c, OnRaw(cfg, c, text), NOTHING.(raw := text, calls := AskedBy(cfg, call)))
    ensures OnRaw(cfg, c, text).tool.None? && OnRaw(cfg, c, text).search == c.search
  {
    hide More, Tells, AskedBy, CallFits, Told, CloseMessage, CloseReasoning, CloseTool, StartRaw, AppendRaw;
    var c0 := CloseMessage(c, Some(Commentary));
    var c1 := CloseReasoning(c0);
    var c2 := CloseTool(cfg, c1);
    CloseMessageTold(c, Some(Commentary));
    CloseReasoningTold(c0);
    CloseToolTold(cfg, c1, call);
    SameToldMore(c, c1, c2, AskedBy(cfg, call));
    AppendRawTells(c2, text);
    MoreThenTells(c, c2, OnRaw(cfg, c, text), AskedBy(cfg, call), NOTHING.(raw := text));
  }

  lemma AppendRawTells(c: Core, text: Str)
    ensures var d := AppendRaw(if c.raw.None? then StartRaw(c) else c, text);
      Tells(c, d, NOTHING.(raw := text)) && d.tool == c.tool && d.search == c.search
  {
    hide TaleOf;
  }

  lemma ToolStartTells(cfg: Config, c: Core, id: Str, name: Str, call: Option<Call>)
    requires CallFits(cfg, c.tool, call)
    ensures var d := StartTool(cfg, CloseContent(cfg, c), id, name);
      && More(c, d, AskedBy(cfg, call), []) && d.search == c.search
      && CallFits(cfg, d.tool, Some(Call(id, name, [])))
  {
    hide More, AskedBy, CloseContent, RealName, KindOf, NamespaceOf;
    ContentTold(cfg, c, call);
    SameFinished(c, CloseContent(cfg, c), StartTool(cfg, CloseContent(cfg, c), id, name), AskedBy(cfg, call), []);
  }

  /** Only the log and slots that tell nothing changed. */
  lemma SameFinished(c: Core, d: Core, e: Core, calls: seq<Item>, searches: seq<Search>)
    requires More(c, d, calls, searches)
    requires d.finished == e.finished && d.msg == e.msg && d.reasoning == e.reasoning && d.raw == e.raw
    ensures More(c, e, calls, searches)
  {
    hide TaleOf;
  }

  lemma ToolDeltaTells(cfg: Config, c: Core, more: Str, call: Option<Call>)
    requires CallFits(cfg, c.tool, call)
    ensures var d := OnToolDelta(c, more);
      && Told(d) == Told(c) && d.search == c.search
      && CallFits(cfg, d.tool, if call.Some? then Some(call.value.(args := call.value.args + more)) else None)
  {
    ToolDeltaKeeps(c, more);
    hide Told, OnToolDelta, RealName, KindOf, NamespaceOf;
  }

  /** A delta reaches the open call's arguments and nothing else. */
  lemma ToolDeltaKeeps(c: Core, more: Str)
    ensures var d := OnToolDelta(c, more);
      && d.finished == c.finished && d.msg == c.msg && d.reasoning == c.reasoning && d.raw == c.raw && d.search == c.search
      && Told(d) == Told(c)
      && (c.tool.Some? <==> d.tool.Some?)
      && (c.tool.Some? ==> d.tool.value.(inputEmitted := []) == c.tool.value.(args := c.tool.value.args + more, inputEmitted := []))
  {
    hide TaleOf, Freeform.NextDelta, Freeform.Partial;
  }

  lemma SearchBeginTells(cfg: Config, c: Core, id: Str, call: Option<Call>, running: Option<Str>)
    requires CallFits(cfg, c.tool, call) && SearchFits(c.search, running)
    ensures var d := OnSearchBegin(cfg, c, id);
      && More(c, d, AskedBy(cfg, call), Abandoned(running, SearchCompleted))
      && d.tool.None? && SearchFits(d.search, Some(id))
  {
    hide More, AskedBy, CallFits, CloseContent, CloseSearch;
    var c1 := CloseContent(cfg, c);
    var c2 := CloseSearch(c1, SearchCompleted, [], None);
    ContentTold(cfg, c, call);
    CloseSearchTold(c1, SearchCompleted, [], None);
    MoreBoth(c, c1, c2, AskedBy(cfg, call), [], [], Abandoned(running, SearchCompleted));
    assert [] + Abandoned(running, SearchCompleted) == Abandoned(running, SearchCompleted);
    assert AskedBy(cfg, call) + [] == AskedBy(cfg, call);
    SameFinished(c, c2, OnSearchBegin(cfg, c, id), AskedBy(cfg, call), Abandoned(running, SearchCompleted));
  }

  lemma SearchEndTells(c: Core, e: Event, running: Option<Str>)
    requires e.SearchEnd? && SearchFits(c.search, running)
    ensures var d := OnSearchEnd(c, e.id, e.queries, e.status, e.sources);
      && More(c, d, [], (if running == Some(e.id) then [] else Abandoned(running, SearchCompleted)) + [Found(e)])
      && d.tool == c.tool && d.search.None?
  {
    hide More, CloseSearch, MergeSources;
    var none: seq<Item> := [];
    assert none + none == none;
    var same := running == Some(e.id);
    var c0 := if same then c else CloseSearch(c, SearchCompleted, [], None);
    var c1 := if same then c else StartSearch(c0, e.id);
    var final := if e.status.Some? then e.status.value else SearchCompleted;
    var c2 := CloseSearch(c1, final, e.queries, e.sources);
    var left := if same then [] else Abandoned(running, SearchCompleted);
    CloseSearchTold(c, SearchCompleted, [], None);
    NoMore(c, c);
    SameFinished(c, c0, c1, none, left);
    CloseSearchTold(c1, final, e.queries, e.sources);
    MoreBoth(c, c1, c2, none, left, none, [Found(e)]);
    SameFinished(c, c2, OnSearchEnd(c, e.id, e.queries, e.status, e.sources), none, left + [Found(e)]);
  }

  /** One event: it adds to the tale, the open call and the running search as the events say. */
  predicate Takes(cfg: Config, c: Core, d: Core, e: Event, call: Option<Call>, running: Option<Str>) {
    && Tells(c, d, Adds(Streamed, cfg, call, running, e))
    && CallFits(cfg, d.tool, NextCall(Streamed, cfg.hide, call, e))
    && SearchFits(d.search, NextSearch(Streamed, running, e))
  }

  lemma SayingTakes(cfg: Config, c: Core, e: Event, call: Option<Call>, running: Option<Str>)
    requires !cfg.compaction && CallFits(cfg, c.tool, call) && SearchFits(c.search, running)
    requires e.TextDelta? || (!cfg.hide && (e.ThinkingDelta? || e.RawDelta?))
    ensures Takes(cfg, c, Handle(cfg, c, e), e, call, running)
  {
    hide Tells, AskedBy, OnText, OnThinking, OnRaw, RealName, KindOf, NamespaceOf;
    match e {
      case TextDelta(text, phase) => TextTells(cfg, c, text, phase, call);
      case ThinkingDelta(text) => ThinkingTells(cfg, c, text, call);
      case RawDelta(text) => RawTells(cfg, c, text, call);
    }
  }

  lemma SearchTakes(cfg: Config, c: Core, e: Event, call: Option<Call>, running: Option<Str>)
    requires !cfg.compaction && CallFits(cfg, c.tool, call) && SearchFits(c.search, running)
    requires e.SearchBegin? || e.SearchEnd?
    ensures Takes(cfg, c, Handle(cfg, c, e), e, call, running)
  {
    hide Tells, More, AskedBy, OnSearchBegin, OnSearchEnd, Found, Abandoned, RealName, KindOf, NamespaceOf;
    if e.SearchBegin? {
      SearchBeginTells(cfg, c, e.id, call, running);
    } else {
      SearchEndTells(c, e, running);
    }
    MoreTells(c, Handle(cfg, c, e), if e.SearchBegin? then AskedBy(cfg, call) else [], SearchesBy(running, e));
  }

  /** Tool calls and boundaries. */
  lemma CallTakes(cfg: Config, c: Core, e: Event, call: Option<Call>, running: Option<Str>)
    requires !cfg.compaction && CallFits(cfg, c.tool, call) && SearchFits(c.search, running)
    requires e.ToolStart? || e.ToolEnd? || e.Boundary?
    ensures Takes(cfg, c, Handle(cfg, c, e), e, call, running)
  {
    hide Tells, More, CallFits, AskedBy, StartTool, CloseContent, CloseTool, FlushEnvelope;
    NoCallFits(cfg);
    match e {
      case ToolStart(id, name) => ToolStartTells(cfg, c, id, name, call);
      case ToolEnd => CloseToolTold(cfg, c, call);
      case Boundary =>
        ContentTold(cfg, c, call);
        FlushEnvelopeTold(CloseContent(cfg, c));
        ThenSame(c, CloseContent(cfg, c), OnBoundary(cfg, c), AskedBy(cfg, call), []);
    }
    MoreTells(c, Handle(cfg, c, e), AskedBy(cfg, call), []);
  }

  lemma NoCallFits(cfg: Config)
    ensures CallFits(cfg, None, None)
  {
  }

  lemma ThenSame(c: Core, d: Core, e: Core, calls: seq<Item>, searches: seq<Search>)
    requires More(c, d, calls, searches) && Told(d) == Told(e)
    ensures More(c, e, calls, searches)
  {
    hide Told;
  }

  /** Events that tell nothing. */
  lemma QuietTakes(cfg: Config, c: Core, e: Event, call: Option<Call>, running: Option<Str>)
    requires !cfg.compaction && CallFits(cfg, c.tool, call) && SearchFits(c.search, running)
    requires e.Heartbeat? || e.ThinkingSignature? || e.RedactedThinking? || e.ToolDelta? || (cfg.hide && (e.ThinkingDelta? || e.RawDelta?))
    ensures Takes(cfg, c, Handle(cfg, c, e), e, call, running)
  {
    hide TaleOf, More, CallFits, AskedBy, OnToolDelta, FlushEnvelope;
    if e.ToolDelta? { ToolDeltaTells(cfg, c, e.arguments, call); NoCallFits(cfg); }
    if e.ThinkingSignature? { FlushEnvelopeTold(c.(signature := Some(e.sig))); }
    assert Told(Handle(cfg, c, e)) == Told(c);
    NoMore(c, Handle(cfg, c, e));
    MoreTells(c, Handle(cfg, c, e), [], []);
  }

  lemma EventTakes(cfg: Config, c: Core, e: Event, call: Option<Call>, running: Option<Str>)
    requires !cfg.compaction && !e.IsTerminal() && CallFits(cfg, c.tool, call) && SearchFits(c.search, running)
    ensures Takes(cfg, c, Handle(cfg, c, e), e, call, running)
  {
    hide Takes, CallFits, SearchFits, Handle;
    if e.TextDelta? || (!cfg.hide && (e.ThinkingDelta? || e.RawDelta?)) {
      SayingTakes(cfg, c, e, call, running);
    } else if e.SearchBegin? || e.SearchEnd? {
      SearchTakes(cfg, c, e, call, running);
    } else if e.ToolStart? || e.ToolEnd? || e.Boundary? {
      CallTakes(cfg, c, e, call, running);
    } else {
      QuietTakes(cfg, c, e, call, running);
    }
  }

  /** A run of the stream against its events. */
  predicate Follows(cfg: Config, c: Core, es: seq<Event>) {
    && Told(c) == TaleIn(Streamed, cfg, es)
    && CallFits(cfg, c.tool, OpenCall(Streamed, cfg.hide, es))
    && SearchFits(c.search, OpenSearchIn(Streamed, es))
  }

  lemma NothingFollows(cfg: Config)
    ensures Follows(cfg, Run(cfg, EventInputs([])), [])
  {
    assert EventInputs([]) == [];
  }

  lemma {:induction false} StreamFollows(cfg: Config, es: seq<Event>)
    requires !cfg.compaction && forall k :: 0 <= k < |es| ==> !es[k].IsTerminal()
    ensures Follows(cfg, Run(cfg, EventInputs(es)), es)
  {
    hide Handle, Run, Told, CallFits, SearchFits, TaleIn, OpenCall, OpenSearchIn, NextCall, NextSearch, Adds;
    if es == [] {
      NothingFollows(cfg);
    } else {
      var before, last := es[..|es| - 1], es[|es| - 1];
      StreamFollows(cfg, before);
      RunEvents(cfg, es);
      assert before + [last] == es;
      EventTakes(cfg, Run(cfg, EventInputs(before)), last, OpenCall(Streamed, cfg.hide, before), OpenSearchIn(Streamed, before));
      LastEvent(Streamed, cfg, before, last);
    }
  }

  /** What the closing of a response adds: the open call, and a search nobody finished. */
  function AtEnd(cfg: Config, es: seq<Event>, i: Input): Tale {
    NOTHING.(calls := AskedBy(cfg, OpenCall(Streamed, cfg.hide, es)),
             searches := Abandoned(OpenSearchIn(Streamed, es), if i.Next? && i.event.Done? then SearchCompleted else SearchFailed))
  }

  lemma CloseAllTold(cfg: Config, c: Core, inferred: Option<Phase>, status: SearchStatus, call: Option<Call>, running: Option<Str>)
    requires CallFits(cfg, c.tool, call) && SearchFits(c.search, running)
    ensures var d := CloseAll(cfg, c, inferred, status);
      && More(c, d, AskedBy(cfg, call), Abandoned(running, status))
      && TaleOf(d.finished) == Told(d) && FlushEnvelope(d).reasoning == d.reasoning
  {
    hide More, CallFits, AskedBy, TaleOf, CloseSearch;
    var c1 := CloseVisible(cfg, c, inferred);
    NothingStaysOpen(cfg, c, inferred);
    hide CloseVisible;
    CloseVisibleTold(cfg, c, inferred, call);
    CloseSearchTold(c1, status, [], None);
    MoreBoth(c, c1, CloseSearch(c1, status, [], None), AskedBy(cfg, call), [], [], Abandoned(running, status));
    assert AskedBy(cfg, call) + [] == AskedBy(cfg, call) && [] + Abandoned(running, status) == Abandoned(running, status);
  }

  lemma NothingStaysOpen(cfg: Config, c: Core, inferred: Option<Phase>)
    ensures var d := CloseVisible(cfg, c, inferred);
      d.msg.None? && d.reasoning.None? && d.raw.None?
  {
    hide CloseMessage, CloseReasoning, CloseRaw, CloseTool, FlushHiddenRaw;
  }

  /** A throw closes the search only: what stood open stays open, and the response does not have it. */
  lemma ThrowTold(cfg: Config, c: Core, running: Option<Str>)
    requires SearchFits(c.search, running)
    ensures More(c, OnThrow(c), [], Abandoned(running, SearchFailed))
  {
    hide More, CloseSearch, FlushHiddenRaw;
    var c1 := FlushHiddenRaw(c);
    FlushHiddenRawTold(c);
    CloseSearchTold(c1, SearchFailed, [], None);
    SameToldSearched(c, c1, CloseSearch(c1, SearchFailed, [], None), Abandoned(running, SearchFailed));
    SameFinished(c, CloseSearch(c1, SearchFailed, [], None), OnThrow(c), [], Abandoned(running, SearchFailed));
  }

  lemma SameToldSearched(c: Core, d: Core, e: Core, searches: seq<Search>)
    requires Told(c) == Told(d) && More(d, e, [], searches)
    ensures More(c, e, [], searches)
  {
    hide Told;
  }

  lemma EndingTold(cfg: Config, c: Core, es: seq<Event>, i: Input)
    requires !cfg.compaction && Ends(i) && !i.Throw? && Follows(cfg, c, es)
    ensures TaleOf(Advance(cfg, c, i).finished) == TaleIn(Streamed, cfg, es).Plus(AtEnd(cfg, es, i))
  {
    hide TaleOf, TaleIn, CallFits, SearchFits, AskedBy, Abandoned, OpenCall, OpenSearchIn, CloseAll, FlushEnvelope, Advance;
    var done := i.Next? && i.event.Done?;
    var inferred, status := if done then InferredFinal(i.event.stop) else None, if done then SearchCompleted else SearchFailed;
    var d := CloseAll(cfg, c, inferred, status);
    CloseAllTold(cfg, c, inferred, status, OpenCall(Streamed, cfg.hide, es), OpenSearchIn(Streamed, es));
    MoreTells(c, d, AskedBy(cfg, OpenCall(Streamed, cfg.hide, es)), Abandoned(OpenSearchIn(Streamed, es), status));
    FlushTale(d);
    R.EndingIs(cfg, c, i);
  }

  lemma FlushTale(d: Core)
    ensures TaleOf(FlushEnvelope(d).finished) == TaleOf(d.finished)
  {
    hide TaleOf;
    if HasEnvelope(d) {
      TaleSnoc(d.finished, Reasoning(d.nextId, [], None, PendingEnvelope(d, Truthy(Some(d.hiddenThinking)))));
    }
  }

  /**
   * The stream, for every event list and every ending: its items tell exactly what the events say. After a
   * throw, the message, the reasoning and the call that stood open are missing from the items.
   */
  lemma StreamTellsAll(cfg: Config, es: seq<Event>, i: Input)
    requires !cfg.compaction && Ends(i) && forall k :: 0 <= k < |es| ==> !es[k].IsTerminal()
    ensures var d := Run(cfg, EventInputs(es) + [i]);
      && (!i.Throw? ==> TaleOf(d.finished) == TaleIn(Streamed, cfg, es).Plus(AtEnd(cfg, es, i)))
      && (i.Throw? ==> Told(d) == TaleIn(Streamed, cfg, es).Plus(NOTHING.(searches := AtEnd(cfg, es, i).searches)))
  {
    StreamFollows(cfg, es);
    assert (EventInputs(es) + [i])[..|es|] == EventInputs(es);
    hide Told, TaleOf, TaleIn, CallFits, SearchFits, OpenCall, OpenSearchIn, AskedBy, Abandoned, OnThrow;
    var c := Run(cfg, EventInputs(es));
    if i.Throw? {
      ThrowTold(cfg, c, OpenSearchIn(Streamed, es));
      MoreTells(c, OnThrow(c), [], Abandoned(OpenSearchIn(Streamed, es), SearchFailed));
    } else {
      EndingTold(cfg, c, es, i);
    }
  }

  // ---------------------------------------------------------------------------
  // The batch
  // ---------------------------------------------------------------------------

  /** Told by the output, and by what the accumulators show. */
  function ToldInBatch(cfg: Config, b: B.Batch): Tale {
    var so := TaleOf(b.output);
    so.(text := so.text + b.text,
        thinking := so.thinking + (if cfg.hide then [] else b.summary), raw := so.raw + (if cfg.hide then [] else b.raw))
  }

  predicate CallHeld(b: B.Batch, call: Option<Call>) {
    if call.None? then b.callId == []
    else b.callId != [] && b.callId == call.value.id && b.callName == call.value.name && b.callArgs == call.value.args
  }

  lemma FlushTextTold(cfg: Config, b: B.Batch, inferred: Option<Phase>)
    ensures ToldInBatch(cfg, B.FlushText(b, inferred)) == ToldInBatch(cfg, b)
  {
    hide TaleOf, Citations;
    TaleSnoc(b.output, Message(b.nextId, b.text, Citations(b.sources), if b.textPhase.Some? then b.textPhase else inferred));
  }

  lemma FlushSummaryTold(cfg: Config, b: B.Batch)
    ensures ToldInBatch(cfg, B.FlushSummary(cfg, b)) == ToldInBatch(cfg, b)
    ensures ToldInBatch(cfg, B.FlushOpenSummary(cfg, b)) == ToldInBatch(cfg, b)
  {
    hide TaleOf;
    var d := B.FlushSummary(cfg, b);
    FlattenOne(b.summary);
    if |d.output| > |b.output| {
      TaleSnoc(b.output, d.output[|b.output|]);
    }
  }

  lemma FlushRawTold(cfg: Config, b: B.Batch)
    ensures ToldInBatch(cfg, B.FlushRaw(cfg, b)) == ToldInBatch(cfg, b)
  {
    hide TaleOf;
    var d := B.FlushRaw(cfg, b);
    FlattenOne(b.raw);
    if |d.output| > |b.output| {
      TaleSnoc(b.output, d.output[|b.output|]);
    }
  }

  lemma FlushCallTold(cfg: Config, b: B.Batch, call: Option<Call>)
    requires CallHeld(b, call)
    ensures ToldInBatch(cfg, B.FlushCall(cfg, b)) == ToldInBatch(cfg, b).Plus(NOTHING.(calls := AskedBy(cfg, call)))
    ensures CallHeld(B.FlushCall(cfg, b), None)
  {
    hide TaleOf, AskedBy, ToolItem, Bit, RealName, NamespaceOf, KindOf;
    if call.None? {
      AskedByNone(cfg);
    } else {
      var target := RealName(cfg, b.callName);
      ToolItemAsks(cfg, b.nextId, call.value);
      TaleSnoc(b.output, ToolItem(cfg, b.nextId, KindOf(cfg, target), b.callId, target, b.callArgs, NamespaceOf(cfg, b.callName)));
    }
  }

  /** The flush that text, tool calls and search results share. */
  lemma OthersTold(cfg: Config, b: B.Batch, call: Option<Call>)
    requires CallHeld(b, call)
    ensures var d := B.FlushCall(cfg, B.FlushRaw(cfg, B.FlushOpenSummary(cfg, b)));
      && ToldInBatch(cfg, d) == ToldInBatch(cfg, b).Plus(NOTHING.(calls := AskedBy(cfg, call)))
      && CallHeld(d, None) && d.text == b.text
  {
    hide ToldInBatch, B.FlushOpenSummary, B.FlushRaw, B.FlushCall, AskedBy;
    var b1 := B.FlushOpenSummary(cfg, b);
    FlushSummaryTold(cfg, b);
    FlushRawTold(cfg, b1);
    FlushCallTold(cfg, B.FlushRaw(cfg, b1), call);
  }

  lemma SettleTold(cfg: Config, b: B.Batch, call: Option<Call>)
    requires CallHeld(b, call)
    ensures ToldInBatch(cfg, B.Settle(cfg, b)) == ToldInBatch(cfg, b).Plus(NOTHING.(calls := AskedBy(cfg, call)))
    ensures CallHeld(B.Settle(cfg, b), None)
  {
    hide ToldInBatch, B.FlushText, B.FlushOpenSummary, B.FlushRaw, B.FlushCall, AskedBy;
    FlushTextTold(cfg, b, Some(Commentary));
    OthersTold(cfg, B.FlushText(b, Some(Commentary)), call);
  }

  /** Boundaries and the end of the list. */
  lemma EverythingTold(cfg: Config, b: B.Batch, inferred: Option<Phase>, call: Option<Call>)
    requires CallHeld(b, call)
    ensures var d := B.FlushCall(cfg, B.FlushRaw(cfg, B.FlushSummary(cfg, B.FlushText(b, inferred))));
      && ToldInBatch(cfg, d) == ToldInBatch(cfg, b).Plus(NOTHING.(calls := AskedBy(cfg, call)))
      && CallHeld(d, None) && d.text == [] && d.summary == [] && d.raw == []
  {
    hide ToldInBatch, B.FlushText, B.FlushSummary, B.FlushRaw, B.FlushCall, AskedBy;
    var b1 := B.FlushText(b, inferred);
    var b2 := B.FlushSummary(cfg, b1);
    FlushTextTold(cfg, b, inferred);
    FlushSummaryTold(cfg, b1);
    FlushRawTold(cfg, b2);
    FlushCallTold(cfg, B.FlushRaw(cfg, b2), call);
  }

  /** Nothing is left to tell but the output. */
  lemma ToldByOutput(cfg: Config, b: B.Batch)
    requires b.text == [] && b.summary == [] && b.raw == []
    ensures ToldInBatch(cfg, b) == TaleOf(b.output)
  {
    hide TaleOf;
  }

  /** First a call, then what the event itself says. */
  lemma CallThenSaid(so: Tale, calls: seq<Item>, said: Tale)
    requires said.calls == []
    ensures so.Plus(NOTHING.(calls := calls)).Plus(said) == so.Plus(said.(calls := calls))
  {
  }

  /** One event of the batch. */
  predicate TakesInBatch(cfg: Config, b: B.Batch, d: B.Batch, e: Event, call: Option<Call>) {
    && ToldInBatch(cfg, d) == ToldInBatch(cfg, b).Plus(Adds(Batched, cfg, call, None, e))
    && CallHeld(d, NextCall(Batched, cfg.hide, call, e))
  }

  lemma SayText(cfg: Config, b: B.Batch, text: Str, phase: Option<Phase>)
    ensures ToldInBatch(cfg, b.(text := b.text + text, textPhase := phase)) == ToldInBatch(cfg, b).Plus(NOTHING.(text := text))
    ensures ToldInBatch(cfg, b.(compactionText := b.compactionText + text)) == ToldInBatch(cfg, b)
  {
    hide TaleOf;
  }

  lemma TextTakes(cfg: Config, b: B.Batch, e: Event, call: Option<Call>)
    requires CallHeld(b, call) && e.TextDelta?
    ensures TakesInBatch(cfg, b, B.Take(cfg, b, e), e, call)
  {
    hide ToldInBatch, AskedBy, B.FlushText, B.FlushOpenSummary, B.FlushRaw, B.FlushCall;
    var b2 := TextFlushed(cfg, b, e, call);
    SayText(cfg, b2, e.text, if e.phase.Some? then e.phase else b2.textPhase);
    CallThenSaid(ToldInBatch(cfg, b), AskedBy(cfg, call), NOTHING.(text := e.text));
  }

  lemma TextFlushed(cfg: Config, b: B.Batch, e: Event, call: Option<Call>) returns (d: B.Batch)
    requires CallHeld(b, call) && e.TextDelta?
    ensures CallHeld(d, None)
    ensures ToldInBatch(cfg, d) == ToldInBatch(cfg, b).Plus(NOTHING.(calls := AskedBy(cfg, call)))
    ensures B.Take(cfg, b, e) == (if cfg.compaction then d.(compactionText := d.compactionText + e.text)
                                  else d.(textPhase := if e.phase.Some? then e.phase else d.textPhase, text := d.text + e.text))
  {
    hide ToldInBatch, AskedBy, B.FlushText, B.FlushOpenSummary, B.FlushRaw, B.FlushCall;
    var b1 := if b.text != [] && e.phase.Some? && b.textPhase != e.phase then B.FlushText(b, Some(Commentary)) else b;
    d := B.FlushCall(cfg, B.FlushRaw(cfg, B.FlushOpenSummary(cfg, b1)));
    FlushTextTold(cfg, b, Some(Commentary));
    OthersTold(cfg, b1, call);
  }

  lemma SayThinking(cfg: Config, b: B.Batch, text: Str)
    ensures ToldInBatch(cfg, b.(summary := b.summary + text)) ==
      ToldInBatch(cfg, b).Plus(NOTHING.(thinking := if cfg.hide then [] else text))
    ensures ToldInBatch(cfg, b.(raw := b.raw + text)) == ToldInBatch(cfg, b).Plus(NOTHING.(raw := if cfg.hide then [] else text))
  {
    hide TaleOf;
  }

  lemma ThinkingTakes(cfg: Config, b: B.Batch, e: Event, call: Option<Call>)
    requires CallHeld(b, call) && e.ThinkingDelta?
    ensures TakesInBatch(cfg, b, B.Take(cfg, b, e), e, call)
  {
    hide ToldInBatch, AskedBy, B.FlushText, B.FlushRaw, B.FlushCall;
    var b1 := B.FlushText(b, Some(Commentary));
    FlushTextTold(cfg, b, Some(Commentary));
    FlushRawTold(cfg, b1);
    FlushCallTold(cfg, B.FlushRaw(cfg, b1), call);
    SayThinking(cfg, B.FlushCall(cfg, B.FlushRaw(cfg, b1)), e.thinking);
    CallThenSaid(ToldInBatch(cfg, b), AskedBy(cfg, call), NOTHING.(thinking := if cfg.hide then [] else e.thinking));
  }

  lemma RawTakes(cfg: Config, b: B.Batch, e: Event, call: Option<Call>)
    requires CallHeld(b, call) && e.RawDelta?
    ensures TakesInBatch(cfg, b, B.Take(cfg, b, e), e, call)
  {
    hide ToldInBatch, AskedBy, B.FlushText, B.FlushSummary, B.FlushOpenSummary, B.FlushCall;
    var b1 := B.FlushText(b, Some(Commentary));
    FlushTextTold(cfg, b, Some(Commentary));
    FlushSummaryTold(cfg, b1);
    FlushCallTold(cfg, B.FlushOpenSummary(cfg, b1), call);
    SayThinking(cfg, B.FlushCall(cfg, B.FlushOpenSummary(cfg, b1)), e.text);
    CallThenSaid(ToldInBatch(cfg, b), AskedBy(cfg, call), NOTHING.(raw := if cfg.hide then [] else e.text));
  }

  lemma SaySearch(cfg: Config, b: B.Batch, e: Event, sources: seq<Source>)
    requires e.SearchEnd?
    ensures var final := if e.status.Some? then e.status.value else SearchCompleted;
      ToldInBatch(cfg, B.Push(b, WebSearch(b.nextId, final, Some(SearchAction(e.queries)), SourcesOf(e.sources))).(sources := sources))
        == ToldInBatch(cfg, b).Plus(NOTHING.(searches := SearchesBy(None, e)))
  {
    hide TaleOf, Bit, SearchAction, SourcesOf;
    var final := if e.status.Some? then e.status.value else SearchCompleted;
    SearchItemTells(b.nextId, final, e.queries, e.sources);
    TaleSnoc(b.output, WebSearch(b.nextId, final, Some(SearchAction(e.queries)), SourcesOf(e.sources)));
    assert SearchesBy(None, e) == [Found(e)];
  }

  lemma SearchEndTakes(cfg: Config, b: B.Batch, e: Event, call: Option<Call>)
    requires CallHeld(b, call) && e.SearchEnd?
    ensures TakesInBatch(cfg, b, B.Take(cfg, b, e), e, call)
  {
    hide ToldInBatch, AskedBy, SearchesBy, B.Settle, MergeSources, SearchAction, SourcesOf;
    var b1 := B.Settle(cfg, b);
    SettleTold(cfg, b, call);
    SaySearch(cfg, b1, e, MergeSources(b1.sources, SourcesOf(e.sources)));
    CallThenSaid(ToldInBatch(cfg, b), AskedBy(cfg, call), NOTHING.(searches := SearchesBy(None, e)));
  }

  /** Tool calls and boundaries. */
  lemma CallTakesInBatch(cfg: Config, b: B.Batch, e: Event, call: Option<Call>)
    requires CallHeld(b, call)
    requires e.ToolStart? || e.ToolEnd? || e.Boundary?
    ensures TakesInBatch(cfg, b, B.Take(cfg, b, e), e, call)
  {
    hide TaleOf, AskedBy, B.Settle, B.FlushText, B.FlushSummary, B.FlushRaw, B.FlushCall;
    match e {
      case ToolStart(_, _) => SettleTold(cfg, b, call);
      case ToolEnd => FlushCallTold(cfg, b, call);
      case Boundary => EverythingTold(cfg, b, Some(Commentary), call);
    }
  }

  lemma QuietTakesInBatch(cfg: Config, b: B.Batch, e: Event, call: Option<Call>)
    requires CallHeld(b, call)
    requires e.Heartbeat? || e.ThinkingSignature? || e.RedactedThinking? || e.ToolDelta? || e.SearchBegin? || e.IsTerminal()
    ensures TakesInBatch(cfg, b, B.Take(cfg, b, e), e, call)
  {
    SilentTake(cfg, b, e);
    hide ToldInBatch, AskedBy, B.FlushSummary, B.TakeDone;
    assert Adds(Batched, cfg, call, None, e) == NOTHING;
    PlusNothing(ToldInBatch(cfg, b));
    QuietCall(cfg, b, e, call);
  }

  lemma PlusNothing(so: Tale)
    ensures so.Plus(NOTHING) == so
  {
  }

  lemma QuietCall(cfg: Config, b: B.Batch, e: Event, call: Option<Call>)
    requires CallHeld(b, call)
    requires e.Heartbeat? || e.ThinkingSignature? || e.RedactedThinking? || e.ToolDelta? || e.SearchBegin? || e.IsTerminal()
    ensures CallHeld(B.Take(cfg, b, e), NextCall(Batched, cfg.hide, call, e))
  {
    hide B.FlushSummary;
  }

  lemma SilentTake(cfg: Config, b: B.Batch, e: Event)
    requires e.Heartbeat? || e.ThinkingSignature? || e.RedactedThinking? || e.ToolDelta? || e.SearchBegin? || e.IsTerminal()
    ensures ToldInBatch(cfg, B.Take(cfg, b, e)) == ToldInBatch(cfg, b)
  {
    hide TaleOf, B.FlushSummary;
    if e.ThinkingSignature? { FlushSummaryTold(cfg, b.(signature := Some(e.sig))); }
  }

  lemma TakeTakes(cfg: Config, b: B.Batch, e: Event, call: Option<Call>)
    requires CallHeld(b, call)
    ensures TakesInBatch(cfg, b, B.Take(cfg, b, e), e, call)
  {
    hide TakesInBatch, CallHeld, B.Take;
    match e {
      case TextDelta(_, _) => TextTakes(cfg, b, e, call);
      case ThinkingDelta(_) => ThinkingTakes(cfg, b, e, call);
      case RawDelta(_) => RawTakes(cfg, b, e, call);
      case SearchEnd(_, _, _, _) => SearchEndTakes(cfg, b, e, call);
      case ToolStart(_, _) => CallTakesInBatch(cfg, b, e, call);
      case ToolEnd => CallTakesInBatch(cfg, b, e, call);
      case Boundary => CallTakesInBatch(cfg, b, e, call);
      case _ => QuietTakesInBatch(cfg, b, e, call);
    }
  }

  predicate FollowsInBatch(cfg: Config, b: B.Batch, es: seq<Event>) {
    ToldInBatch(cfg, b) == TaleIn(Batched, cfg, es) && CallHeld(b, OpenCall(Batched, cfg.hide, es))
  }

  lemma NothingFollowsInBatch(cfg: Config)
    ensures FollowsInBatch(cfg, B.Start(), [])
  {
  }

  /** No search runs in the batch. */
  lemma {:induction false} NoneRuns(es: seq<Event>)
    ensures OpenSearchIn(Batched, es) == None
  {
  }

  lemma {:induction false} BatchFollows(cfg: Config, es: seq<Event>)
    ensures FollowsInBatch(cfg, B.TakeAll(cfg, es), es)
  {
    if es == [] {
      NothingFollowsInBatch(cfg);
    } else {
      hide B.Take, ToldInBatch, CallHeld, TaleIn, OpenCall, OpenSearchIn, NextCall, NextSearch, Adds;
      var before, last := es[..|es| - 1], es[|es| - 1];
      BatchFollows(cfg, before);
      assert before + [last] == es;
      TakeTakes(cfg, B.TakeAll(cfg, before), last, OpenCall(Batched, cfg.hide, before));
      LastEvent(Batched, cfg, before, last);
      NoneRuns(before);
    }
  }

  /** A compaction item tells nothing. */
  lemma RespondTold(cfg: Config, b: B.Batch)
    ensures TaleOf(B.Respond(cfg, b).output) == TaleOf(B.FlushRest(cfg, b).output)
  {
    hide TaleOf, B.FlushRest, B.FailureOf, B.DetailsOf;
    var b1 := B.FlushRest(cfg, b);
    TaleSnoc(b1.output, Compaction(b1.nextId, b1.compactionText));
    PlusNothing(TaleOf(b1.output));
  }

  lemma RestTold(cfg: Config, b: B.Batch, call: Option<Call>)
    requires CallHeld(b, call)
    ensures TaleOf(B.FlushRest(cfg, b).output) == ToldInBatch(cfg, b).Plus(NOTHING.(calls := AskedBy(cfg, call)))
  {
    hide TaleOf, ToldInBatch, AskedBy, CallHeld, B.FlushText, B.FlushSummary, B.FlushRaw, B.FlushCall;
    EverythingTold(cfg, b, if b.cleanDone && b.failed.None? && b.cut.None? then Some(FinalAnswer) else None, call);
    ToldByOutput(cfg, B.FlushRest(cfg, b));
  }

  /** The batch, for every event list and all options: its items tell exactly what the events say. */
  lemma BatchTellsAll(cfg: Config, es: seq<Event>)
    ensures TaleOf(B.BuildResponse(cfg, es).output) ==
      TaleIn(Batched, cfg, es).Plus(NOTHING.(calls := AskedBy(cfg, OpenCall(Batched, cfg.hide, es))))
  {
    hide TaleOf, TaleIn, AskedBy, OpenCall, CallHeld, ToldInBatch, B.TakeAll, B.FlushRest, B.Respond;
    BatchFollows(cfg, es);
    RestTold(cfg, B.TakeAll(cfg, es), OpenCall(Batched, cfg.hide, es));
    RespondTold(cfg, B.TakeAll(cfg, es));
  }

  // ---------------------------------------------------------------------------
  // How the batch reports the end
  // ---------------------------------------------------------------------------

  /** The last failure, the last cut and the last truncated finish among the events. */
  function LastError(es: seq<Event>): Option<Event> {
    if es == [] then None else if es[|es| - 1].Error? then Some(es[|es| - 1]) else LastError(es[..|es| - 1])
  }

  function LastCut(es: seq<Event>): Option<Event> {
    if es == [] then None else if es[|es| - 1].Incomplete? then Some(es[|es| - 1]) else LastCut(es[..|es| - 1])
  }

  function LastTruncation(es: seq<Event>): Option<Stop> {
    if es == [] then None
    else
      var last := es[|es| - 1];
      if last.Done? && Frames.Truncated(last.stop) then last.stop else LastTruncation(es[..|es| - 1])
  }

  /** `endTurn` comes with the last event that ends the turn. */
  function LastTurn(es: seq<Event>): Option<bool> {
    if es == [] then None
    else
      var last := es[|es| - 1];
      if last.Done? then last.endTurn else if last.Incomplete? then last.endTurn else LastTurn(es[..|es| - 1])
  }

  predicate Noted(b: B.Batch, es: seq<Event>) {
    b.failed == LastError(es) && b.cut == LastCut(es) && b.stop == LastTruncation(es) && b.endTurn == LastTurn(es)
  }

  lemma TakeNotes(cfg: Config, b: B.Batch, before: seq<Event>, e: Event)
    requires Noted(b, before)
    ensures Noted(B.Take(cfg, b, e), before + [e])
  {
    assert (before + [e])[..|before|] == before;
    if e.IsTerminal() {
      hide B.Settle, B.TakeText, B.TakeSearchEnd, B.FlushText, B.FlushSummary, B.FlushOpenSummary, B.FlushRaw, B.FlushCall;
    } else {
      QuietNotes(cfg, b, e);
      hide B.Take;
    }
  }

  lemma QuietNotes(cfg: Config, b: B.Batch, e: Event)
    requires !e.IsTerminal()
    ensures var d := B.Take(cfg, b, e);
      d.failed == b.failed && d.cut == b.cut && d.stop == b.stop && d.endTurn == b.endTurn
  {
    hide B.FlushText, B.FlushSummary, B.FlushOpenSummary, B.FlushRaw, B.FlushCall, MergeSources;
  }

  lemma {:induction false} TakeAllNotes(cfg: Config, es: seq<Event>)
    ensures Noted(B.TakeAll(cfg, es), es)
    ensures LastError(es).Some? ==> LastError(es).value.Error?
    ensures LastCut(es).Some? ==> LastCut(es).value.Incomplete?
  {
    if es != [] {
      var before, last := es[..|es| - 1], es[|es| - 1];
      TakeAllNotes(cfg, before);
      assert before + [last] == es;
      hide B.Take;
      TakeNotes(cfg, B.TakeAll(cfg, before), before, last);
    }
  }

  /**
   * For every event list: the batch fails with the last error if there was one; else it is incomplete with the
   * last cut, or the last truncated finish, if there was one; else it is completed.
   */
  lemma BatchReports(cfg: Config, es: seq<Event>)
    ensures var r, failed, cut, stop := B.BuildResponse(cfg, es), LastError(es), LastCut(es), LastTruncation(es);
      && (failed.Some? ==> failed.value.Error? && r.failure == FailedWith(failed.value.failure, failed.value.retryable))
      && (failed.None? ==> r.failure == NoDetail)
      && (cut.Some? ==> cut.value.Incomplete? && r.details == Frames.EndDetail(Next(cut.value)))
      && (cut.None? ==> r.details == (match stop case Some(MaxTokens) => MaxOutputTokens case Some(Filtered) => ContentFilter case _ => NoDetail))
      && r.status == (if failed.Some? then Failed else if cut.Some? || stop.Some? then IncompleteStatus else Completed)
      && r.endTurn == LastTurn(es)
  {
    hide B.FlushRest, B.TakeAll;
    TakeAllNotes(cfg, es);
    StopTruncates(es);
  }

  lemma {:induction false} StopTruncates(es: seq<Event>)
    ensures LastTruncation(es).Some? ==> Frames.Truncated(LastTruncation(es))
  {
    if es != [] { StopTruncates(es[..|es| - 1]); }
  }
}
