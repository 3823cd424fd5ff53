/**
 * The item bookkeeping of `bridgeToResponsesSSE` as functions: which item is open, what is
 * finished, and every frame handed to `emit`. Whether a frame still reaches the client is
 * the business of module BridgeProtocol.
 */
module BridgeCore {
  import opened Prelude
  import opened BridgeTypes
  import Freeform

  datatype OpenMessage = OpenMessage(id: nat, index: nat, text: Str, phase: Option<Phase>)
  datatype OpenText = OpenText(id: nat, index: nat, text: Str)
  datatype OpenTool = OpenTool(id: nat, index: nat, callId: Str, name: Str, args: Str,
                               namespace: Option<Str>, kind: ToolKind, inputEmitted: Str)
  datatype OpenSearch = OpenSearch(id: nat, eventId: Str, index: nat)

  datatype Core = Core(
    msg: Option<OpenMessage>, reasoning: Option<OpenText>, raw: Option<OpenText>,
    tool: Option<OpenTool>, search: Option<OpenSearch>,
    signature: Option<Str>, redacted: seq<Str>, hiddenThinking: Str, hiddenRaw: Str,
    sources: seq<Source>, compactionText: Str,
    outputIndex: nat, finished: seq<Item>, nextId: nat, log: seq<Frame>)

  function Init(): Core {
    Core(None, None, None, None, None, None, [], [], [], [], [], 0, [], 0, [Created])
  }

  function Emit(c: Core, f: Frame): (r: Core)
    ensures c.log <= r.log
  {
    c.(log := c.log + [f])
  }

  function Finish(c: Core, index: nat, item: Item): (r: Core)
    ensures c.log <= r.log
  {
    Emit(c, ItemDone(index, item)).(finished := c.finished + [item], outputIndex := c.outputIndex + 1)
  }

  // ---------------------------------------------------------------------------
  // Closing an open item
  // ---------------------------------------------------------------------------

  function CloseMessage(c: Core, inferred: Option<Phase>): (r: Core)
    ensures c.log <= r.log
    ensures c.finished <= r.finished
    ensures r == c.(msg := None, sources := r.sources, outputIndex := r.outputIndex, finished := r.finished, log := r.log)
    ensures c.msg.None? ==> r == c
  {
    if c.msg.None? then c
    else
      var m := c.msg.value;
      var phase := if m.phase.Some? then m.phase else inferred;
      var annotations := Citations(c.sources);
      var c1 := Emit(c.(sources := []), TextDone(m.id, m.index, OutputText, m.text));
      var c2 := Emit(c1, PartDone(m.id, m.index, m.text, annotations));
      Finish(c2, m.index, Message(m.id, m.text, annotations, phase)).(msg := None)
  }

  predicate HasEnvelope(c: Core) {
    Truthy(c.signature).Some? || c.redacted != []
  }

  function PendingEnvelope(c: Core, hidden: Option<Str>): Option<Envelope> {
    if HasEnvelope(c) then Some(Envelope(Truthy(c.signature), c.redacted, hidden)) else None
  }

  function DropEnvelope(c: Core): (r: Core)
    ensures c.log <= r.log
  {
    if HasEnvelope(c) then c.(signature := None, redacted := []) else c
  }

  function CloseReasoning(c: Core): (r: Core)
    ensures c.log <= r.log
    ensures c.finished <= r.finished
    ensures r == c.(reasoning := None, signature := r.signature, redacted := r.redacted, outputIndex := r.outputIndex, finished := r.finished, log := r.log)
    ensures HasEnvelope(r) ==> HasEnvelope(c)
    ensures c.reasoning.None? ==> r == c
  {
    if c.reasoning.None? then c
    else
      var r := c.reasoning.value;
      var c1 := Emit(c, TextDone(r.id, r.index, SummaryText, r.text));
      var c2 := Emit(c1, PartDone(r.id, r.index, r.text, []));
      Finish(DropEnvelope(c2), r.index, Reasoning(r.id, [r.text], None, PendingEnvelope(c, None))).(reasoning := None)
  }

  function CloseRaw(c: Core): (r: Core)
    ensures c.log <= r.log
    ensures c.finished <= r.finished
    ensures r == c.(raw := None, outputIndex := r.outputIndex, finished := r.finished, log := r.log)
    ensures c.raw.None? ==> r == c
  {
    if c.raw.None? then c
    else
      var r := c.raw.value;
      Finish(c, r.index, Reasoning(r.id, [], Some([r.text]), None)).(raw := None)
  }

  function CloseTool(cfg: Config, c: Core): (r: Core)
    ensures c.log <= r.log
    ensures c.finished <= r.finished
    ensures r == c.(tool := None, outputIndex := r.outputIndex, finished := r.finished, log := r.log)
    ensures c.tool.None? ==> r == c
  {
    if c.tool.None? then c
    else
      var t := c.tool.value;
      var c1 := match t.kind
        case PlainTool => Emit(c, TextDone(t.id, t.index, CallArguments, ArgumentsOrEmpty(t.args)))
        case FreeformTool => Emit(c, TextDone(t.id, t.index, CustomInput, FreeformInput(cfg, t.args)))
        case SearchTool => c;
      Finish(c1, t.index, ToolItem(cfg, t.id, t.kind, t.callId, t.name, t.args, t.namespace)).(tool := None)
  }

  function CloseSearch(c: Core, status: SearchStatus, queries: seq<Str>, sources: Option<seq<Source>>): (r: Core)
    ensures c.log <= r.log
    ensures c.finished <= r.finished
    ensures r == c.(search := None, outputIndex := r.outputIndex, finished := r.finished, log := r.log)
    ensures c.search.None? ==> r == c
  {
    if c.search.None? then c
    else
      var s := c.search.value;
      Finish(c, s.index, WebSearch(s.id, status, Some(SearchAction(queries)), SourcesOf(sources))).(search := None)
  }

  /** Adds and finishes an envelope-only reasoning item in one go. */
  function WholeReasoning(c: Core, envelope: Envelope): (r: Core)
    ensures c.log <= r.log
    ensures c.finished <= r.finished
    ensures r == c.(nextId := r.nextId, outputIndex := r.outputIndex, finished := r.finished, log := r.log)
  {
    var item := Reasoning(c.nextId, [], None, Some(envelope));
    Finish(Emit(c.(nextId := c.nextId + 1), ItemAdded(c.outputIndex, item)), c.outputIndex, item)
  }

  function FlushEnvelope(c: Core): (r: Core)
    ensures c.log <= r.log
    ensures c.finished <= r.finished
    ensures r == c.(signature := r.signature, redacted := r.redacted, hiddenThinking := [], nextId := r.nextId, outputIndex := r.outputIndex, finished := r.finished, log := r.log)
  {
    var envelope := PendingEnvelope(c, Truthy(Some(c.hiddenThinking)));
    var c1 := DropEnvelope(c).(hiddenThinking := []);
    if envelope.None? then c1 else WholeReasoning(c1, envelope.value)
  }

  function FlushHiddenRaw(c: Core): (r: Core)
    ensures c.log <= r.log
    ensures c.finished <= r.finished
    ensures r == c.(hiddenRaw := [], nextId := r.nextId, outputIndex := r.outputIndex, finished := r.finished, log := r.log)
    ensures c.hiddenRaw == [] ==> r == c
  {
    if c.hiddenRaw == [] then c
    else WholeReasoning(c.(hiddenRaw := []), Envelope(None, [], Some(c.hiddenRaw)))
  }

  // ---------------------------------------------------------------------------
  // One adapter event
  // ---------------------------------------------------------------------------

  function StartMessage(c: Core, phase: Option<Phase>): (r: Core)
    ensures c.log <= r.log
    ensures r.msg.Some? && r == c.(msg := r.msg, nextId := r.nextId, log := r.log)
  {
    var c1 := Emit(c.(nextId := c.nextId + 1), ItemAdded(c.outputIndex, Message(c.nextId, [], [], phase)));
    Emit(c1, PartAdded(c.nextId, c.outputIndex)).(msg := Some(OpenMessage(c.nextId, c.outputIndex, [], phase)))
  }

  /** An explicit, different phase ends the open message; then there is one to append to. */
  function MessageFor(c: Core, phase: Option<Phase>): (r: Core)
    ensures c.log <= r.log
    ensures r.msg.Some?
  {
    var c1 := if c.msg.Some? && phase.Some? && c.msg.value.phase != phase
              then CloseMessage(c, Some(Commentary)) else c;
    if c1.msg.None? then StartMessage(c1, phase) else c1
  }

  function OnText(cfg: Config, c: Core, text: Str, phase: Option<Phase>): (r: Core)
    ensures c.log <= r.log
  {
    AppendText(MessageFor(CloseTool(cfg, FlushHiddenRaw(CloseRaw(CloseReasoning(c)))), phase), text)
  }

  function AppendText(c: Core, text: Str): (r: Core)
    requires c.msg.Some?
    ensures c.log <= r.log
    ensures r.msg.Some? && r == c.(msg := r.msg, log := r.log)
  {
    var m := c.msg.value;
    Emit(c, Delta(m.id, m.index, OutputText, text)).(msg := Some(m.(text := m.text + text)))
  }

  function StartReasoning(c: Core): (r: Core)
    ensures c.log <= r.log
    ensures r.reasoning.Some? && r == c.(reasoning := r.reasoning, nextId := r.nextId, log := r.log)
  {
    var c1 := Emit(c.(nextId := c.nextId + 1), ItemAdded(c.outputIndex, Reasoning(c.nextId, [], None, None)));
    Emit(c1, PartAdded(c.nextId, c.outputIndex)).(reasoning := Some(OpenText(c.nextId, c.outputIndex, [])))
  }

  function AppendThinking(c: Core, text: Str): (r: Core)
    requires c.reasoning.Some?
    ensures c.log <= r.log
    ensures r.reasoning.Some? && r == c.(reasoning := r.reasoning, log := r.log)
  {
    var r := c.reasoning.value;
    Emit(c, Delta(r.id, r.index, SummaryText, text)).(reasoning := Some(r.(text := r.text + text)))
  }

  function OnThinking(cfg: Config, c: Core, text: Str): (r: Core)
    ensures c.log <= r.log
  {
    if cfg.hide then c.(hiddenThinking := c.hiddenThinking + text)
    else
      var c1 := CloseTool(cfg, FlushHiddenRaw(CloseRaw(CloseMessage(c, Some(Commentary)))));
      AppendThinking(if c1.reasoning.None? then StartReasoning(c1) else c1, text)
  }

  function OnSignature(c: Core, sig: Str): (r: Core)
    ensures c.log <= r.log
  {
    var c1 := c.(signature := Some(sig));
    if c1.reasoning.None? then FlushEnvelope(c1) else c1
  }

  function StartRaw(c: Core): (r: Core)
    ensures c.log <= r.log
    ensures r.raw.Some? && r == c.(raw := r.raw, nextId := r.nextId, log := r.log)
  {
    Emit(c.(nextId := c.nextId + 1), ItemAdded(c.outputIndex, Reasoning(c.nextId, [], Some([]), None)))
      .(raw := Some(OpenText(c.nextId, c.outputIndex, [])))
  }

  function AppendRaw(c: Core, text: Str): (r: Core)
    requires c.raw.Some?
    ensures c.log <= r.log
    ensures r.raw.Some? && r == c.(raw := r.raw, log := r.log)
  {
    var r := c.raw.value;
    Emit(c, Delta(r.id, r.index, ReasoningText, text)).(raw := Some(r.(text := r.text + text)))
  }

  function OnRaw(cfg: Config, c: Core, text: Str): (r: Core)
    ensures c.log <= r.log
  {
    if cfg.hide then c.(hiddenRaw := c.hiddenRaw + text)
    else
      var c1 := CloseTool(cfg, CloseReasoning(CloseMessage(c, Some(Commentary))));
      AppendRaw(if c1.raw.None? then StartRaw(c1) else c1, text)
  }

  /** Message, reasoning, raw reasoning, hidden raw reasoning, tool call: always in this order. */
  function CloseVisible(cfg: Config, c: Core, inferred: Option<Phase>): (r: Core)
    ensures c.log <= r.log
    ensures c.finished <= r.finished
    ensures r.search == c.search
  {
    CloseTool(cfg, FlushHiddenRaw(CloseRaw(CloseReasoning(CloseMessage(c, inferred)))))
  }

  /** The closers that run before a tool call or a search begins. */
  function CloseContent(cfg: Config, c: Core): (r: Core)
    ensures c.log <= r.log
    ensures c.finished <= r.finished
    ensures r.search == c.search
  {
    CloseVisible(cfg, c, Some(Commentary))
  }

  function EmptyToolItem(id: nat, kind: ToolKind, callId: Str, name: Str, ns: Option<Str>): Item {
    match kind
    case SearchTool => ToolSearch(id, callId, [])
    case FreeformTool => CustomCall(id, callId, name, [])
    case PlainTool => FunctionCall(id, callId, name, [], Truthy(ns))
  }

  function StartTool(cfg: Config, c: Core, callId: Str, name: Str): (r: Core)
    ensures c.log <= r.log
    ensures r.tool.Some? && r == c.(tool := r.tool, nextId := r.nextId, log := r.log)
  {
    var target, ns := RealName(cfg, name), NamespaceOf(cfg, name);
    var kind := KindOf(cfg, target);
    Emit(c.(nextId := c.nextId + 1), ItemAdded(c.outputIndex, EmptyToolItem(c.nextId, kind, callId, target, ns)))
      .(tool := Some(OpenTool(c.nextId, c.outputIndex, callId, target, [], ns, kind, [])))
  }

  function OnToolDelta(c: Core, more: Str): (r: Core)
    ensures c.log <= r.log
  {
    if c.tool.None? then c
    else
      var t := c.tool.value.(args := c.tool.value.args + more);
      match t.kind
      case SearchTool => c.(tool := Some(t))
      case PlainTool => Emit(c, Delta(t.id, t.index, CallArguments, more)).(tool := Some(t))
      case FreeformTool =>
        var next := Freeform.NextDelta(t.args, t.inputEmitted);
        if next.None? then c.(tool := Some(t))
        else Emit(c, Delta(t.id, t.index, CustomInput, next.value))
               .(tool := Some(t.(inputEmitted := Freeform.Partial(t.args))))
  }

  function StartSearch(c: Core, eventId: Str): (r: Core)
    ensures c.log <= r.log
    ensures r.search.Some? && r == c.(search := r.search, nextId := r.nextId, log := r.log)
  {
    Emit(c.(nextId := c.nextId + 1), ItemAdded(c.outputIndex, WebSearch(c.nextId, InProgress, None, [])))
      .(search := Some(OpenSearch(c.nextId, eventId, c.outputIndex)))
  }

  function OnSearchEnd(c: Core, eventId: Str, queries: seq<Str>, status: Option<SearchStatus>, sources: Option<seq<Source>>): (r: Core)
    ensures c.log <= r.log
  {
    var c1 := if c.search.Some? && c.search.value.eventId == eventId then c
              else StartSearch(CloseSearch(c, SearchCompleted, [], None), eventId);
    var c2 := CloseSearch(c1, if status.Some? then status.value else SearchCompleted, queries, sources);
    c2.(sources := MergeSources(c2.sources, SourcesOf(sources)))
  }

  /** The closers every ending shares; only the inferred phase and the search status vary. */
  function CloseAll(cfg: Config, c: Core, inferred: Option<Phase>, search: SearchStatus): (r: Core)
    ensures c.log <= r.log
    ensures c.finished <= r.finished
  {
    CloseSearch(CloseVisible(cfg, c, inferred), search, [], None)
  }

  function End(c: Core, status: Status, detail: Detail, endTurn: Option<bool>): (r: Core)
    ensures c.log <= r.log
    ensures r == c.(log := r.log)
  {
    Emit(c, Terminal(status, detail, endTurn, c.finished))
  }

  /** `event.stopReason ? undefined : "final_answer"`: an empty stop reason counts as none. */
  function InferredFinal(stop: Option<Stop>): Option<Phase> {
    if stop.None? || stop == Some(OtherStop([])) then Some(FinalAnswer) else None
  }

  function CompactionItem(c: Core): (r: Core)
    ensures c.log <= r.log
  {
    Finish(c.(nextId := c.nextId + 1), c.outputIndex, Compaction(c.nextId, c.compactionText))
  }

  function OnDone(cfg: Config, c: Core, stop: Option<Stop>, endTurn: Option<bool>): (r: Core)
    ensures c.log <= r.log
  {
    var c1 := FlushEnvelope(CloseAll(cfg, c, InferredFinal(stop), SearchCompleted));
    var c2 := if cfg.compaction then CompactionItem(c1) else c1;
    End(c2, StatusOf(stop), DetailOf(stop), endTurn)
  }

  function OnBoundary(cfg: Config, c: Core): (r: Core)
    ensures c.log <= r.log
  {
    FlushEnvelope(CloseContent(cfg, c))
  }

  function OnSearchBegin(cfg: Config, c: Core, eventId: Str): (r: Core)
    ensures c.log <= r.log
  {
    StartSearch(CloseSearch(CloseContent(cfg, c), SearchCompleted, [], None), eventId)
  }

  function Handle(cfg: Config, c: Core, e: Event): (r: Core)
    ensures c.log <= r.log
  {
    if cfg.compaction && e.TextDelta? then c.(compactionText := c.compactionText + e.text)
    else if cfg.compaction && !e.IsTerminal() then c
    else
      match e
      case Heartbeat => c
      case TextDelta(text, phase) => OnText(cfg, c, text, phase)
      case ThinkingDelta(text) => OnThinking(cfg, c, text)
      case ThinkingSignature(sig) => OnSignature(c, sig)
      case RedactedThinking(data) => c.(redacted := c.redacted + [data])
      case RawDelta(text) => OnRaw(cfg, c, text)
      case ToolStart(id, name) => StartTool(cfg, CloseContent(cfg, c), id, name)
      case ToolDelta(more) => OnToolDelta(c, more)
      case ToolEnd => CloseTool(cfg, c)
      case Boundary => OnBoundary(cfg, c)
      case SearchBegin(id) => OnSearchBegin(cfg, c, id)
      case SearchEnd(id, queries, status, sources) => OnSearchEnd(c, id, queries, status, sources)
      case Done(stop, endTurn) => OnDone(cfg, c, stop, endTurn)
      case Incomplete(reason, message, retryable, endTurn) =>
        End(FlushEnvelope(CloseAll(cfg, c, None, SearchFailed)), IncompleteStatus,
            Reported(reason, Truthy(message), retryable), endTurn)
      case Error(failure, retryable) =>
        End(CloseAll(cfg, c, None, SearchFailed), Failed, FailedWith(failure, retryable), None)
  }

  // ---------------------------------------------------------------------------
  // The endings the adapter does not announce
  // ---------------------------------------------------------------------------

  function OnEof(cfg: Config, c: Core): (r: Core)
    ensures c.log <= r.log
  {
    End(CloseAll(cfg, c, None, SearchFailed), IncompleteStatus, AdapterEof, None)
  }

  function OnStall(cfg: Config, c: Core): (r: Core)
    ensures c.log <= r.log
  {
    End(CloseAll(cfg, c, None, SearchFailed), IncompleteStatus, StallTimeout, None)
  }

  function OnThrow(c: Core): (r: Core)
    ensures c.log <= r.log
  {
    End(CloseSearch(FlushHiddenRaw(c), SearchFailed, [], None), Failed, ProxyError, None)
  }

  /** Everything that can drive the bookkeeping forward. */
  datatype Input = Next(event: Event) | Eof | Throw | Stall

  /** After this input the response is over. */
  predicate Ends(i: Input) {
    i.Next? ==> i.event.IsTerminal()
  }

  function Advance(cfg: Config, c: Core, i: Input): (r: Core)
    ensures c.log <= r.log
  {
    match i
    case Next(e) => Handle(cfg, c, e)
    case Eof => OnEof(cfg, c)
    case Throw => OnThrow(c)
    case Stall => OnStall(cfg, c)
  }

  function Run(cfg: Config, inputs: seq<Input>): Core {
    if inputs == [] then Init()
    else Advance(cfg, Run(cfg, inputs[..|inputs| - 1]), inputs[|inputs| - 1])
  }

  function EventInputs(es: seq<Event>): (r: seq<Input>)
    ensures |r| == |es| && forall i :: 0 <= i < |es| ==> r[i] == Next(es[i])
  {
    seq(|es|, i requires 0 <= i < |es| => Next(es[i]))
  }

  lemma RunEvents(cfg: Config, es: seq<Event>)
    requires es != []
    ensures Run(cfg, EventInputs(es)) == Handle(cfg, Run(cfg, EventInputs(es[..|es| - 1])), es[|es| - 1])
  {
    hide Handle;
    assert EventInputs(es)[..|es| - 1] == EventInputs(es[..|es| - 1]);
  }
}
