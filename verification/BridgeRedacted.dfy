/**
 * Redacted thinking blocks must come back to the provider unaltered. Both responses carry them in
 * the envelopes of reasoning items; the batch loses none, the stream loses exactly those that wait
 * when the upstream fails, ends early or stalls.
 */
module BridgeRedacted {
  import opened Prelude
  import opened BridgeTypes
  import opened BridgeCore
  import B = BridgeBatch

  function BlocksOf(item: Item): seq<Str> {
    if item.Reasoning? && item.envelope.Some? then item.envelope.value.redacted else []
  }

  /** The blocks all items carry, in order. */
  function Carried(items: seq<Item>): seq<Str> {
    if items == [] then [] else Carried(items[..|items| - 1]) + BlocksOf(items[|items| - 1])
  }

  /** The blocks among the events. */
  function RedactedIn(es: seq<Event>): seq<Str> {
    if es == [] then []
    else
      var last := es[|es| - 1];
      RedactedIn(es[..|es| - 1]) + (if last.RedactedThinking? then [last.data] else [])
  }

  lemma CarriedSnoc(items: seq<Item>, item: Item)
    ensures Carried(items + [item]) == Carried(items) + BlocksOf(item)
  {
    assert (items + [item])[..|items|] == items;
  }

  // ---------------------------------------------------------------------------
  // The stream
  // ---------------------------------------------------------------------------

  /** The blocks taken in so far: finished ones, then the waiting ones. */
  function Kept(c: Core): seq<Str> {
    Carried(c.finished) + c.redacted
  }

  lemma CloseMessageKept(c: Core, inferred: Option<Phase>)
    ensures Kept(CloseMessage(c, inferred)) == Kept(c)
  {
    hide Carried;
    if c.msg.Some? {
      var m := c.msg.value;
      CarriedSnoc(c.finished, Message(m.id, m.text, Citations(c.sources), if m.phase.Some? then m.phase else inferred));
    }
  }

  lemma CloseReasoningKept(c: Core)
    ensures Kept(CloseReasoning(c)) == Kept(c)
    ensures c.reasoning.Some? ==> CloseReasoning(c).redacted == []
  {
    hide Carried;
    if c.reasoning.Some? {
      CarriedSnoc(c.finished, Reasoning(c.reasoning.value.id, [c.reasoning.value.text], None, PendingEnvelope(c, None)));
    }
  }

  lemma CloseRawKept(c: Core)
    ensures Kept(CloseRaw(c)) == Kept(c)
  {
    hide Carried;
    if c.raw.Some? {
      CarriedSnoc(c.finished, Reasoning(c.raw.value.id, [], Some([c.raw.value.text]), None));
    }
  }

  lemma CloseToolKept(cfg: Config, c: Core)
    ensures Kept(CloseTool(cfg, c)) == Kept(c)
  {
    hide Carried;
    if c.tool.Some? {
      var t := c.tool.value;
      CarriedSnoc(c.finished, ToolItem(cfg, t.id, t.kind, t.callId, t.name, t.args, t.namespace));
    }
  }

  lemma CloseSearchKept(c: Core, status: SearchStatus, queries: seq<Str>, sources: Option<seq<Source>>)
    ensures Kept(CloseSearch(c, status, queries, sources)) == Kept(c)
  {
    hide Carried;
    if c.search.Some? {
      CarriedSnoc(c.finished, WebSearch(c.search.value.id, status, Some(SearchAction(queries)), SourcesOf(sources)));
    }
  }

  lemma FlushEnvelopeKept(c: Core)
    ensures Kept(FlushEnvelope(c)) == Kept(c) && FlushEnvelope(c).redacted == []
  {
    hide Carried;
    if HasEnvelope(c) {
      CarriedSnoc(c.finished, Reasoning(c.nextId, [], None, PendingEnvelope(c, Truthy(Some(c.hiddenThinking)))));
    }
  }

  lemma FlushHiddenRawKept(c: Core)
    ensures Kept(FlushHiddenRaw(c)) == Kept(c)
  {
    hide Carried;
    if c.hiddenRaw != [] {
      CarriedSnoc(c.finished, Reasoning(c.nextId, [], None, Some(Envelope(None, [], Some(c.hiddenRaw)))));
    }
  }

  lemma CloseVisibleKept(cfg: Config, c: Core, inferred: Option<Phase>)
    ensures Kept(CloseVisible(cfg, c, inferred)) == Kept(c)
    ensures CloseVisible(cfg, c, inferred).redacted == (if c.reasoning.Some? then [] else c.redacted)
  {
    hide Carried, Kept, CloseMessage, CloseReasoning, CloseRaw, FlushHiddenRaw, CloseTool;
    var c1 := CloseMessage(c, inferred);
    var c2 := CloseReasoning(c1);
    CloseMessageKept(c, inferred);
    CloseReasoningKept(c1);
    CloseRawKept(c2);
    FlushHiddenRawKept(CloseRaw(c2));
    CloseToolKept(cfg, FlushHiddenRaw(CloseRaw(c2)));
  }

  lemma CloseAllKept(cfg: Config, c: Core, inferred: Option<Phase>, search: SearchStatus)
    ensures Kept(CloseAll(cfg, c, inferred, search)) == Kept(c)
    ensures CloseAll(cfg, c, inferred, search).redacted == (if c.reasoning.Some? then [] else c.redacted)
  {
    hide Kept, CloseVisible, CloseSearch;
    CloseVisibleKept(cfg, c, inferred);
    CloseSearchKept(CloseVisible(cfg, c, inferred), search, [], None);
  }

  lemma TextKept(cfg: Config, c: Core, text: Str, phase: Option<Phase>)
    ensures Kept(OnText(cfg, c, text, phase)) == Kept(c)
  {
    hide Carried, CloseMessage, CloseReasoning, CloseRaw, FlushHiddenRaw, CloseTool, StartMessage, AppendText;
    var c2 := CloseRaw(CloseReasoning(c));
    CloseReasoningKept(c);
    CloseRawKept(CloseReasoning(c));
    FlushHiddenRawKept(c2);
    CloseToolKept(cfg, FlushHiddenRaw(c2));
    CloseMessageKept(CloseTool(cfg, FlushHiddenRaw(c2)), Some(Commentary));
  }

  lemma ThinkingKept(cfg: Config, c: Core, text: Str)
    ensures Kept(OnThinking(cfg, c, text)) == Kept(c)
  {
    hide Carried, CloseMessage, CloseRaw, FlushHiddenRaw, CloseTool, StartReasoning, AppendThinking;
    var c1 := CloseMessage(c, Some(Commentary));
    CloseMessageKept(c, Some(Commentary));
    CloseRawKept(c1);
    FlushHiddenRawKept(CloseRaw(c1));
    CloseToolKept(cfg, FlushHiddenRaw(CloseRaw(c1)));
  }

  lemma RawKept(cfg: Config, c: Core, text: Str)
    ensures Kept(OnRaw(cfg, c, text)) == Kept(c)
  {
    hide Carried, CloseMessage, CloseReasoning, CloseTool, StartRaw, AppendRaw;
    CloseMessageKept(c, Some(Commentary));
    CloseReasoningKept(CloseMessage(c, Some(Commentary)));
    CloseToolKept(cfg, CloseReasoning(CloseMessage(c, Some(Commentary))));
  }

  lemma SearchKept(cfg: Config, c: Core, e: Event)
    requires e.SearchBegin? || e.SearchEnd?
    requires !cfg.compaction
    ensures Kept(Handle(cfg, c, e)) == Kept(c)
  {
    hide Carried, CloseVisible, CloseSearch, MergeSources, SearchAction;
    if e.SearchBegin? {
      CloseVisibleKept(cfg, c, Some(Commentary));
      CloseSearchKept(CloseContent(cfg, c), SearchCompleted, [], None);
    } else {
      CloseSearchKept(c, SearchCompleted, [], None);
      var c1 := if c.search.Some? && c.search.value.eventId == e.id then c
                else StartSearch(CloseSearch(c, SearchCompleted, [], None), e.id);
      CloseSearchKept(c1, if e.status.Some? then e.status.value else SearchCompleted, e.queries, e.sources);
    }
  }

  lemma ToolDeltaKept(c: Core, more: Str)
    ensures Kept(OnToolDelta(c, more)) == Kept(c)
  {
    hide Carried;
  }

  /** An event adds its own block and loses none. */
  lemma EventKept(cfg: Config, c: Core, e: Event)
    requires !cfg.compaction && !e.IsTerminal()
    ensures Kept(Handle(cfg, c, e)) == Kept(c) + (if e.RedactedThinking? then [e.data] else [])
  {
    hide Carried, OnText, OnThinking, OnRaw, OnToolDelta, OnSearchBegin, OnSearchEnd, CloseVisible, CloseTool, FlushEnvelope;
    match e {
      case TextDelta(text, phase) => TextKept(cfg, c, text, phase);
      case ThinkingDelta(text) => ThinkingKept(cfg, c, text);
      case ThinkingSignature(sig) => FlushEnvelopeKept(c.(signature := Some(sig)));
      case RawDelta(text) => RawKept(cfg, c, text);
      case ToolStart(_, _) => CloseVisibleKept(cfg, c, Some(Commentary));
      case ToolDelta(more) => ToolDeltaKept(c, more);
      case ToolEnd => CloseToolKept(cfg, c);
      case Boundary =>
        CloseVisibleKept(cfg, c, Some(Commentary));
        FlushEnvelopeKept(CloseContent(cfg, c));
      case SearchBegin(_) => SearchKept(cfg, c, e);
      case SearchEnd(_, _, _, _) => SearchKept(cfg, c, e);
      case _ =>
    }
  }

  /** The waiting blocks an ending leaves unwritten. */
  function Lost(c: Core, i: Input): seq<Str> {
    match i
    case Throw => c.redacted
    case Eof => if c.reasoning.Some? then [] else c.redacted
    case Stall => if c.reasoning.Some? then [] else c.redacted
    case Next(Error(_, _)) => if c.reasoning.Some? then [] else c.redacted
    case Next(_) => []
  }

  lemma EndingKept(cfg: Config, c: Core, i: Input)
    requires Ends(i) && !cfg.compaction
    ensures Carried(Advance(cfg, c, i).finished) + Lost(c, i) == Kept(c)
  {
    hide Carried, CloseAll, CloseSearch, FlushHiddenRaw, FlushEnvelope;
    if i.Throw? {
      FlushHiddenRawKept(c);
      CloseSearchKept(FlushHiddenRaw(c), SearchFailed, [], None);
    } else {
      var inferred := if i.Next? && i.event.Done? then InferredFinal(i.event.stop) else None;
      var search := if i.Next? && i.event.Done? then SearchCompleted else SearchFailed;
      CloseAllKept(cfg, c, inferred, search);
      FlushEnvelopeKept(CloseAll(cfg, c, inferred, search));
      EndingIs(cfg, c, i);
    }
  }

  /** Done and incomplete flush the envelope; the other endings, a throw aside, just close everything. */
  lemma EndingIs(cfg: Config, c: Core, i: Input)
    requires Ends(i) && !i.Throw? && !cfg.compaction
    ensures var done := i.Next? && i.event.Done?;
      var closed := CloseAll(cfg, c, if done then InferredFinal(i.event.stop) else None, if done then SearchCompleted else SearchFailed);
      Advance(cfg, c, i).finished == (if i.Next? && !i.event.Error? then FlushEnvelope(closed) else closed).finished
  {
    hide CloseAll, FlushEnvelope;
  }

  // ---------------------------------------------------------------------------
  // The batch
  // ---------------------------------------------------------------------------

  function KeptInBatch(b: B.Batch): seq<Str> {
    Carried(b.output) + b.redacted
  }

  lemma FlushTextKept(b: B.Batch, inferred: Option<Phase>)
    ensures KeptInBatch(B.FlushText(b, inferred)) == KeptInBatch(b)
  {
    hide Carried, Citations;
    CarriedSnoc(b.output, Message(b.nextId, b.text, Citations(b.sources), if b.textPhase.Some? then b.textPhase else inferred));
  }

  lemma FlushSummaryKept(cfg: Config, b: B.Batch)
    ensures KeptInBatch(B.FlushSummary(cfg, b)) == KeptInBatch(b) && B.FlushSummary(cfg, b).redacted == []
    ensures KeptInBatch(B.FlushOpenSummary(cfg, b)) == KeptInBatch(b)
  {
    hide Carried;
    var d := B.FlushSummary(cfg, b);
    if |d.output| > |b.output| {
      CarriedSnoc(b.output, d.output[|b.output|]);
    }
  }

  lemma FlushRawKept(cfg: Config, b: B.Batch)
    ensures KeptInBatch(B.FlushRaw(cfg, b)) == KeptInBatch(b)
  {
    hide Carried;
    var d := B.FlushRaw(cfg, b);
    if |d.output| > |b.output| {
      CarriedSnoc(b.output, d.output[|b.output|]);
    }
  }

  lemma FlushCallKept(cfg: Config, b: B.Batch)
    ensures KeptInBatch(B.FlushCall(cfg, b)) == KeptInBatch(b)
  {
    hide Carried, RealName, NamespaceOf, KindOf;
    var d := B.FlushCall(cfg, b);
    if |d.output| > |b.output| {
      CarriedSnoc(b.output, d.output[|b.output|]);
    }
  }

  lemma OthersKept(cfg: Config, b: B.Batch)
    ensures KeptInBatch(B.FlushCall(cfg, B.FlushRaw(cfg, B.FlushOpenSummary(cfg, b)))) == KeptInBatch(b)
  {
    hide KeptInBatch, B.FlushOpenSummary, B.FlushSummary, B.FlushRaw, B.FlushCall;
    FlushSummaryKept(cfg, b);
    FlushRawKept(cfg, B.FlushOpenSummary(cfg, b));
    FlushCallKept(cfg, B.FlushRaw(cfg, B.FlushOpenSummary(cfg, b)));
  }

  /** Text, everything else, and the waiting blocks: a boundary and the end of the list. */
  lemma AllKept(cfg: Config, b: B.Batch, inferred: Option<Phase>)
    ensures var d := B.FlushCall(cfg, B.FlushRaw(cfg, B.FlushSummary(cfg, B.FlushText(b, inferred))));
      KeptInBatch(d) == KeptInBatch(b) && d.redacted == []
  {
    hide KeptInBatch, B.FlushText, B.FlushSummary, B.FlushRaw, B.FlushCall;
    var b1 := B.FlushText(b, inferred);
    FlushTextKept(b, inferred);
    FlushSummaryKept(cfg, b1);
    FlushRawKept(cfg, B.FlushSummary(cfg, b1));
    FlushCallKept(cfg, B.FlushRaw(cfg, B.FlushSummary(cfg, b1)));
  }

  lemma TakeTextKept(cfg: Config, b: B.Batch, text: Str, phase: Option<Phase>)
    ensures KeptInBatch(B.TakeText(cfg, b, text, phase)) == KeptInBatch(b)
  {
    hide Carried, B.FlushText, B.FlushOpenSummary, B.FlushRaw, B.FlushCall;
    FlushTextKept(b, Some(Commentary));
    OthersKept(cfg, if b.text != [] && phase.Some? && b.textPhase != phase then B.FlushText(b, Some(Commentary)) else b);
  }

  lemma SettleKept(cfg: Config, b: B.Batch)
    ensures KeptInBatch(B.Settle(cfg, b)) == KeptInBatch(b)
  {
    hide KeptInBatch, B.FlushText, B.FlushOpenSummary, B.FlushRaw, B.FlushCall;
    FlushTextKept(b, Some(Commentary));
    OthersKept(cfg, B.FlushText(b, Some(Commentary)));
  }

  lemma SearchEndKept(cfg: Config, b: B.Batch, queries: seq<Str>, status: Option<SearchStatus>, sources: Option<seq<Source>>)
    ensures KeptInBatch(B.TakeSearchEnd(cfg, b, queries, status, sources)) == KeptInBatch(b)
  {
    hide Carried, B.Settle, MergeSources, SearchAction;
    SettleKept(cfg, b);
    var b1 := B.Settle(cfg, b);
    var final := if status.Some? then status.value else SearchCompleted;
    CarriedSnoc(b1.output, WebSearch(b1.nextId, final, Some(SearchAction(queries)), SourcesOf(sources)));
  }

  lemma TakeKept(cfg: Config, b: B.Batch, e: Event)
    ensures KeptInBatch(B.Take(cfg, b, e)) == KeptInBatch(b) + (if e.RedactedThinking? then [e.data] else [])
  {
    hide Carried, B.FlushText, B.FlushSummary, B.FlushOpenSummary, B.FlushRaw, B.FlushCall, B.Settle, B.TakeText, B.TakeSearchEnd;
    match e {
      case Boundary => AllKept(cfg, b, Some(Commentary));
      case TextDelta(text, phase) => TakeTextKept(cfg, b, text, phase);
      case ThinkingDelta(_) =>
        var b1 := B.FlushText(b, Some(Commentary));
        FlushTextKept(b, Some(Commentary));
        FlushRawKept(cfg, b1);
        FlushCallKept(cfg, B.FlushRaw(cfg, b1));
      case ThinkingSignature(sig) => FlushSummaryKept(cfg, b.(signature := Some(sig)));
      case RawDelta(_) =>
        var b1 := B.FlushText(b, Some(Commentary));
        FlushTextKept(b, Some(Commentary));
        FlushSummaryKept(cfg, b1);
        FlushCallKept(cfg, B.FlushOpenSummary(cfg, b1));
      case ToolStart(_, _) => SettleKept(cfg, b);
      case ToolEnd => FlushCallKept(cfg, b);
      case SearchEnd(_, queries, status, sources) => SearchEndKept(cfg, b, queries, status, sources);
      case _ =>
    }
  }

  lemma RespondKept(cfg: Config, b: B.Batch)
    ensures Carried(B.Respond(cfg, b).output) == KeptInBatch(b)
  {
    hide Carried, B.FlushText, B.FlushSummary, B.FlushRaw, B.FlushCall;
    var final := if b.cleanDone && b.failed.None? && b.cut.None? then Some(FinalAnswer) else None;
    AllKept(cfg, b, final);
    var b1 := B.FlushRest(cfg, b);
    CarriedSnoc(b1.output, Compaction(b1.nextId, b1.compactionText));
  }

  // ---------------------------------------------------------------------------
  // Whole runs
  // ---------------------------------------------------------------------------

  lemma {:induction false} StreamKeeps(cfg: Config, es: seq<Event>)
    requires !cfg.compaction && forall k :: 0 <= k < |es| ==> !es[k].IsTerminal()
    ensures Kept(Run(cfg, EventInputs(es))) == RedactedIn(es)
  {
    hide Kept, Handle, Run;
    if es == [] {
      NothingKept(cfg);
    } else {
      var before, last := es[..|es| - 1], es[|es| - 1];
      StreamKeeps(cfg, before);
      RunEvents(cfg, es);
      EventKept(cfg, Run(cfg, EventInputs(before)), last);
    }
  }

  lemma NothingKept(cfg: Config)
    ensures Kept(Run(cfg, EventInputs([]))) == []
  {
    assert EventInputs([]) == [];
  }

  lemma {:induction false} BatchKeeps(cfg: Config, es: seq<Event>)
    ensures KeptInBatch(B.TakeAll(cfg, es)) == RedactedIn(es)
  {
    if es != [] {
      var before, last := es[..|es| - 1], es[|es| - 1];
      BatchKeeps(cfg, before);
      hide KeptInBatch, B.Take;
      TakeKept(cfg, B.TakeAll(cfg, before), last);
    }
  }

  /** For every event list and all options: the batch response carries every redacted block, in order. */
  lemma BatchLosesNone(cfg: Config, es: seq<Event>)
    ensures Carried(B.BuildResponse(cfg, es).output) == RedactedIn(es)
  {
    hide KeptInBatch, B.Respond;
    BatchKeeps(cfg, es);
    RespondKept(cfg, B.TakeAll(cfg, es));
  }

  /** For every event list and every ending: the stream carries every block but the lost ones, which come last. */
  lemma StreamLosesOnly(cfg: Config, es: seq<Event>, i: Input)
    requires !cfg.compaction && Ends(i) && forall k :: 0 <= k < |es| ==> !es[k].IsTerminal()
    ensures Carried(Run(cfg, EventInputs(es) + [i]).finished) + Lost(Run(cfg, EventInputs(es)), i) == RedactedIn(es)
  {
    hide Kept, Advance, Carried, Lost;
    StreamKeeps(cfg, es);
    assert (EventInputs(es) + [i])[..|es|] == EventInputs(es);
    EndingKept(cfg, Run(cfg, EventInputs(es)), i);
  }
}
