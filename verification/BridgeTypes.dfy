/** What goes into the Responses bridge and what comes out of it (src/types.ts, src/bridge.ts). */
module BridgeTypes {
  import opened Prelude

  datatype Phase = Commentary | FinalAnswer
  datatype Source = Source(url: Str, title: Option<Str>)
  datatype SearchStatus = InProgress | SearchCompleted | SearchFailed
  datatype Stop = MaxTokens | Filtered | OtherStop(text: Str)

  datatype Event =
    | Heartbeat
    | TextDelta(text: Str, phase: Option<Phase>)
    | ThinkingDelta(thinking: Str)
    | ThinkingSignature(sig: Str)
    | RedactedThinking(data: Str)
    | RawDelta(text: Str)
    | ToolStart(id: Str, name: Str)
    | ToolDelta(arguments: Str)
    | ToolEnd
    | Boundary
    | SearchBegin(id: Str)
    | SearchEnd(id: Str, queries: seq<Str>, status: Option<SearchStatus>, sources: Option<seq<Source>>)
    | Done(stop: Option<Stop>, endTurn: Option<bool>)
    | Incomplete(reason: Str, message: Option<Str>, retryable: Option<bool>, endTurn: Option<bool>)
    | Error(failure: Str, retryable: Option<bool>)
  {
    predicate IsTerminal() { Done? || Incomplete? || Error? }
  }

  /** The opaque, injectively encoded block that lets signed or hidden thinking round-trip. */
  datatype Envelope = Envelope(sig: Option<Str>, redacted: seq<Str>, text: Option<Str>)

  datatype Action = SingleQuery(query: Str) | ManyQueries(queries: seq<Str>)

  /** An output item; `id` is the number of the fresh identifier drawn for it. */
  datatype Item =
    | Message(id: nat, text: Str, annotations: seq<Source>, phase: Option<Phase>)
    | Reasoning(id: nat, summary: seq<Str>, content: Option<seq<Str>>, envelope: Option<Envelope>)
    | FunctionCall(id: nat, callId: Str, name: Str, arguments: Str, namespace: Option<Str>)
    | CustomCall(id: nat, callId: Str, name: Str, input: Str)
    | ToolSearch(id: nat, callId: Str, parsedFrom: Str)
    | WebSearch(id: nat, status: SearchStatus, action: Option<Action>, sources: seq<Source>)
    | Compaction(id: nat, summaryText: Str)

  datatype Status = Completed | Failed | IncompleteStatus

  /** Why a response did not simply complete. */
  datatype Detail =
    | NoDetail
    | MaxOutputTokens
    | ContentFilter
    | AdapterEof
    | StallTimeout
    | Reported(reason: Str, message: Option<Str>, retryable: Option<bool>)
    | FailedWith(failure: Str, retryable: Option<bool>)
    | ProxyError

  datatype Channel = OutputText | SummaryText | ReasoningText | CallArguments | CustomInput

  datatype Frame =
    | Created
    | ItemAdded(index: nat, item: Item)
    | PartAdded(itemId: nat, index: nat)
    | Delta(itemId: nat, index: nat, channel: Channel, delta: Str)
    | TextDone(itemId: nat, index: nat, channel: Channel, text: Str)
    | PartDone(itemId: nat, index: nat, text: Str, annotations: seq<Source>)
    | ItemDone(index: nat, item: Item)
    | Terminal(status: Status, detail: Detail, endTurn: Option<bool>, output: seq<Item>)

  datatype ToolKind = PlainTool | FreeformTool | SearchTool

  datatype Alias = Alias(namespace: Str, name: Str)

  /** The request-wide options of the bridge; `parse` is the `input` string JSON.parse finds, if any. */
  datatype Config = Config(hide: bool, compaction: bool, aliases: map<Str, Alias>,
                           freeform: set<Str>, toolSearch: set<Str>,
                           parse: Str -> Option<Str>, maxStallTicks: nat)

  /** The two ways to build a response: frame by frame, or from the whole event list. */
  datatype Side = Streamed | Batched

  function Count(b: bool): nat { if b then 1 else 0 }

  /** JavaScript drops an empty string under `x ? { x } : {}`. */
  function Truthy(s: Option<Str>): Option<Str> {
    if s.Some? && s.value != [] then s else None
  }

  function RealName(cfg: Config, name: Str): Str {
    if name in cfg.aliases then cfg.aliases[name].name else name
  }

  function NamespaceOf(cfg: Config, name: Str): Option<Str> {
    if name in cfg.aliases then Some(cfg.aliases[name].namespace) else None
  }

  function KindOf(cfg: Config, realName: Str): ToolKind {
    if realName in cfg.toolSearch then SearchTool
    else if realName in cfg.freeform then FreeformTool
    else PlainTool
  }

  /** The string a finished freeform call carries: its parsed `input`, or the raw buffer. */
  function FreeformInput(cfg: Config, args: Str): Str {
    var parsed := cfg.parse(args);
    if parsed.Some? then parsed.value else args
  }

  const EMPTY_OBJECT: Str := [123, 125]

  function ArgumentsOrEmpty(args: Str): Str {
    if args == [] then EMPTY_OBJECT else args
  }

  /** A finished tool call, as both the streaming and the batch side build it. */
  function ToolItem(cfg: Config, id: nat, kind: ToolKind, callId: Str, name: Str, args: Str, ns: Option<Str>): Item {
    match kind
    case SearchTool => ToolSearch(id, callId, args)
    case FreeformTool => CustomCall(id, callId, name, FreeformInput(cfg, args))
    case PlainTool => FunctionCall(id, callId, name, ArgumentsOrEmpty(args), Truthy(ns))
  }

  function SearchAction(queries: seq<Str>): Action {
    if |queries| > 1 then ManyQueries(queries)
    else SingleQuery(if queries == [] then [] else queries[0])
  }

  /** New sources appended to the pending ones, one per URL. */
  function MergeSources(pending: seq<Source>, more: seq<Source>): seq<Source>
    decreases |more|
  {
    if more == [] then pending
    else
      var known := exists i :: 0 <= i < |pending| && pending[i].url == more[0].url;
      MergeSources(if known then pending else pending + [more[0]], more[1..])
  }

  function Citations(sources: seq<Source>): (r: seq<Source>)
    ensures |r| == |sources|
  {
    seq(|sources|, i requires 0 <= i < |sources| => Source(sources[i].url, Truthy(sources[i].title)))
  }

  function SourcesOf(sources: Option<seq<Source>>): seq<Source> {
    if sources.Some? then sources.value else []
  }

  function StatusOf(stop: Option<Stop>): Status {
    if stop == Some(MaxTokens) || stop == Some(Filtered) then IncompleteStatus else Completed
  }

  function DetailOf(stop: Option<Stop>): Detail {
    if stop == Some(MaxTokens) then MaxOutputTokens
    else if stop == Some(Filtered) then ContentFilter
    else NoDetail
  }
}
