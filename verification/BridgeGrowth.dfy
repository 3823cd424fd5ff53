/**
 * What an event can add on each side: both lists of items only grow, searches and signed items are
 * counted event by event, and the next item the batch writes is one it could write before.
 */
module BridgeGrowth {
  import opened Prelude
  import opened BridgeTypes
  import opened BridgeCore
  import opened BridgeRefinement
  import B = BridgeBatch

  // ---------------------------------------------------------------------------
  // Both sides only ever add items
  // ---------------------------------------------------------------------------

  lemma TextGrows(cfg: Config, c: Core, text: Str, phase: Option<Phase>)
    ensures c.finished <= OnText(cfg, c, text, phase).finished
  {
    hide CloseMessage, CloseReasoning, CloseRaw, CloseTool, FlushHiddenRaw, StartMessage, AppendText;
  }

  lemma StreamGrows(cfg: Config, c: Core, e: Event)
    ensures c.finished <= Handle(cfg, c, e).finished
  {
    hide CloseMessage, CloseReasoning, CloseRaw, CloseTool, FlushHiddenRaw, FlushEnvelope, CloseSearch, CloseAll, CloseContent,
         StartReasoning, StartRaw, StartTool, StartSearch, AppendThinking, AppendRaw, End, OnText, MergeSources;
    match e {
      case TextDelta(text, phase) => TextGrows(cfg, c, text, phase);
      case _ =>
    }
  }

  lemma FlushesGrow(cfg: Config, b: B.Batch, inferred: Option<Phase>)
    ensures b.output <= B.FlushText(b, inferred).output && b.output <= B.FlushSummary(cfg, b).output
    ensures b.output <= B.FlushOpenSummary(cfg, b).output
    ensures b.output <= B.FlushRaw(cfg, b).output && b.output <= B.FlushCall(cfg, b).output
  {
  }

  lemma SettleGrows(cfg: Config, b: B.Batch)
    ensures b.output <= B.Settle(cfg, b).output
  {
    hide B.FlushText, B.FlushOpenSummary, B.FlushRaw, B.FlushCall, B.FlushSummary;
    var b1 := B.FlushText(b, Some(Commentary));
    FlushesGrow(cfg, b, Some(Commentary));
    FlushesGrow(cfg, b1, None);
    FlushesGrow(cfg, B.FlushOpenSummary(cfg, b1), None);
    FlushesGrow(cfg, B.FlushRaw(cfg, B.FlushOpenSummary(cfg, b1)), None);
  }

  // ---------------------------------------------------------------------------
  // A difference at an index stays
  // ---------------------------------------------------------------------------

  predicate Diverged(left: seq<Item>, right: seq<Item>) {
    exists n :: 0 <= n < |left| && n < |right| && Strip(left[n]) != Strip(right[n])
  }

  lemma DivergedStays(left: seq<Item>, right: seq<Item>, left2: seq<Item>, right2: seq<Item>)
    requires Diverged(left, right) && left <= left2 && right <= right2
    ensures Diverged(left2, right2)
  {
    var n :| 0 <= n < |left| && n < |right| && Strip(left[n]) != Strip(right[n]);
    assert left2[n] == left[n] && right2[n] == right[n];
  }

  lemma DivergedDiffers(left: seq<Item>, right: seq<Item>)
    requires Diverged(left, right)
    ensures StripAll(left) != StripAll(right)
  {
    var n :| 0 <= n < |left| && n < |right| && Strip(left[n]) != Strip(right[n]);
    assert StripAll(left)[n] == Strip(left[n]) && StripAll(right)[n] == Strip(right[n]);
  }

  // ---------------------------------------------------------------------------
  // Counting searches and signed items
  // ---------------------------------------------------------------------------

  predicate IsSigned(item: Item) {
    item.Reasoning? && item.envelope.Some? && item.envelope.value.sig.Some?
  }

  function Searches(items: seq<Item>): nat {
    if items == [] then 0 else Searches(items[..|items| - 1]) + Count(items[|items| - 1].WebSearch?)
  }

  function Signed(items: seq<Item>): nat {
    if items == [] then 0 else Signed(items[..|items| - 1]) + Count(IsSigned(items[|items| - 1]))
  }

  lemma TallySnoc(items: seq<Item>, item: Item)
    ensures Searches(items + [item]) == Searches(items) + Count(item.WebSearch?)
    ensures Signed(items + [item]) == Signed(items) + Count(IsSigned(item))
  {
    assert (items + [item])[..|items|] == items;
  }

  lemma {:induction false} TallyStripped(items: seq<Item>)
    ensures Searches(StripAll(items)) == Searches(items) && Signed(StripAll(items)) == Signed(items)
  {
    if items != [] {
      var n := |items| - 1;
      TallyStripped(items[..n]);
      assert items == items[..n] + [items[n]];
      StripSnoc(items[..n], items[n]);
      TallySnoc(StripAll(items[..n]), Strip(items[n]));
      TallySnoc(items[..n], items[n]);
    }
  }

  /** A signature the stream has yet to write. */
  function Pending(c: Core): nat {
    Count(Truthy(c.signature).Some?)
  }

  predicate SameTally(c: Core, d: Core) {
    Searches(d.finished) == Searches(c.finished) && Signed(d.finished) + Pending(d) == Signed(c.finished) + Pending(c)
  }

  lemma CloseMessageTally(c: Core, inferred: Option<Phase>)
    ensures SameTally(c, CloseMessage(c, inferred))
  {
    hide Searches, Signed;
    if c.msg.Some? {
      var m := c.msg.value;
      TallySnoc(c.finished, Message(m.id, m.text, Citations(c.sources), if m.phase.Some? then m.phase else inferred));
    }
  }

  lemma CloseReasoningTally(c: Core)
    ensures SameTally(c, CloseReasoning(c))
  {
    hide Searches, Signed;
    if c.reasoning.Some? {
      TallySnoc(c.finished, Reasoning(c.reasoning.value.id, [c.reasoning.value.text], None, PendingEnvelope(c, None)));
    }
  }

  lemma CloseRawTally(c: Core)
    ensures SameTally(c, CloseRaw(c))
  {
    hide Searches, Signed;
    if c.raw.Some? {
      TallySnoc(c.finished, Reasoning(c.raw.value.id, [], Some([c.raw.value.text]), None));
    }
  }

  lemma CloseToolTally(cfg: Config, c: Core)
    ensures SameTally(c, CloseTool(cfg, c))
  {
    hide Searches, Signed;
    if c.tool.Some? {
      var t := c.tool.value;
      TallySnoc(c.finished, ToolItem(cfg, t.id, t.kind, t.callId, t.name, t.args, t.namespace));
    }
  }

  lemma FlushHiddenRawTally(c: Core)
    ensures SameTally(c, FlushHiddenRaw(c))
  {
    hide Searches, Signed;
    if c.hiddenRaw != [] {
      TallySnoc(c.finished, Reasoning(c.nextId, [], None, Some(Envelope(None, [], Some(c.hiddenRaw)))));
    }
  }

  lemma FlushEnvelopeTally(c: Core)
    ensures SameTally(c, FlushEnvelope(c))
  {
    hide Searches, Signed;
    TallySnoc(c.finished, Reasoning(c.nextId, [], None, PendingEnvelope(c, Truthy(Some(c.hiddenThinking)))));
  }

  lemma CloseSearchTally(c: Core, status: SearchStatus, queries: seq<Str>, sources: Option<seq<Source>>)
    ensures var d := CloseSearch(c, status, queries, sources);
      && Searches(d.finished) == Searches(c.finished) + Count(c.search.Some?)
      && Signed(d.finished) + Pending(d) == Signed(c.finished) + Pending(c)
  {
    hide Searches, Signed;
    if c.search.Some? {
      TallySnoc(c.finished, WebSearch(c.search.value.id, status, Some(SearchAction(queries)), SourcesOf(sources)));
    }
  }

  lemma CloseVisibleTally(cfg: Config, c: Core, inferred: Option<Phase>)
    ensures SameTally(c, CloseVisible(cfg, c, inferred))
  {
    hide Searches, Signed, CloseMessage, CloseReasoning, CloseRaw, CloseTool, FlushHiddenRaw, Truthy;
    var c1 := CloseMessage(c, inferred);
    var c2 := CloseReasoning(c1);
    var c3 := CloseRaw(c2);
    CloseMessageTally(c, inferred);
    CloseReasoningTally(c1);
    CloseRawTally(c2);
    FlushHiddenRawTally(c3);
    CloseToolTally(cfg, FlushHiddenRaw(c3));
  }

  lemma TextTally(cfg: Config, c: Core, text: Str, phase: Option<Phase>)
    ensures SameTally(c, OnText(cfg, c, text, phase))
  {
    hide Searches, Signed, CloseMessage, CloseReasoning, CloseRaw, CloseTool, FlushHiddenRaw, Truthy, StartMessage, AppendText;
    var c1 := CloseReasoning(c);
    var c2 := CloseRaw(c1);
    var c3 := FlushHiddenRaw(c2);
    CloseReasoningTally(c);
    CloseRawTally(c1);
    FlushHiddenRawTally(c2);
    CloseToolTally(cfg, c3);
    CloseMessageTally(CloseTool(cfg, c3), Some(Commentary));
  }

  lemma ThinkingTally(cfg: Config, c: Core, text: Str)
    ensures SameTally(c, OnThinking(cfg, c, text))
  {
    hide Searches, Signed, CloseMessage, CloseReasoning, CloseRaw, CloseTool, FlushHiddenRaw, Truthy, StartReasoning, AppendThinking;
    var c1 := CloseMessage(c, Some(Commentary));
    var c2 := CloseRaw(c1);
    CloseMessageTally(c, Some(Commentary));
    CloseRawTally(c1);
    FlushHiddenRawTally(c2);
    CloseToolTally(cfg, FlushHiddenRaw(c2));
  }

  lemma RawTally(cfg: Config, c: Core, text: Str)
    ensures SameTally(c, OnRaw(cfg, c, text))
  {
    hide Searches, Signed, CloseMessage, CloseReasoning, CloseRaw, CloseTool, FlushHiddenRaw, Truthy, StartRaw, AppendRaw;
    var c1 := CloseMessage(c, Some(Commentary));
    CloseMessageTally(c, Some(Commentary));
    CloseReasoningTally(c1);
    CloseToolTally(cfg, CloseReasoning(c1));
  }

  /** Searches the stream writes at an event beyond those the batch writes. */
  function Unpaired(c: Core, e: Event): nat {
    if e.SearchBegin? || e.IsTerminal() then Count(c.search.Some?)
    else if e.SearchEnd? then Count(c.search.Some? && c.search.value.eventId != e.id)
    else 0
  }

  /** What each event adds to the stream's searches and signed items. */
  lemma StreamTally(cfg: Config, c: Core, e: Event)
    requires !cfg.compaction
    ensures var d := Handle(cfg, c, e);
      && Searches(d.finished) == Searches(c.finished) + Count(e.SearchEnd?) + Unpaired(c, e)
      && Signed(d.finished) + Pending(d) <= Signed(c.finished) + Pending(c) + Count(e.ThinkingSignature? && e.sig != [])
  {
    hide Searches, Signed, CloseMessage, CloseReasoning, CloseRaw, CloseTool, FlushHiddenRaw, FlushEnvelope, CloseSearch,
         CloseVisible, OnText, OnThinking, OnRaw, StartTool, StartSearch, MergeSources, SearchAction, End, OnToolDelta;
    match e {
      case TextDelta(text, phase) => TextTally(cfg, c, text, phase);
      case ThinkingDelta(text) => ThinkingTally(cfg, c, text);
      case RawDelta(text) => RawTally(cfg, c, text);
      case ThinkingSignature(sig) => FlushEnvelopeTally(c.(signature := Some(sig)));
      case ToolStart(_, _) => CloseVisibleTally(cfg, c, Some(Commentary));
      case ToolDelta(more) => ToolDeltaTally(c, more);
      case ToolEnd => CloseToolTally(cfg, c);
      case Boundary =>
        CloseVisibleTally(cfg, c, Some(Commentary));
        FlushEnvelopeTally(CloseContent(cfg, c));
      case SearchBegin(_) =>
        CloseVisibleTally(cfg, c, Some(Commentary));
        CloseSearchTally(CloseContent(cfg, c), SearchCompleted, [], None);
      case SearchEnd(id, queries, status, sources) => SearchEndTally(cfg, c, e);
      case _ => if e.IsTerminal() { hide Handle, CloseAll; TerminalTally(cfg, c, e); }
    }
  }

  lemma TerminalTally(cfg: Config, c: Core, e: Event)
    requires e.IsTerminal() && !cfg.compaction
    ensures var d := Handle(cfg, c, e);
      && Searches(d.finished) == Searches(c.finished) + Count(c.search.Some?)
      && Signed(d.finished) + Pending(d) == Signed(c.finished) + Pending(c)
  {
    hide Searches, Signed, CloseAll, FlushEnvelope, End, Truthy;
    match e {
      case Done(stop, _) =>
        CloseAllTally(cfg, c, InferredFinal(stop), SearchCompleted);
        FlushEnvelopeTally(CloseAll(cfg, c, InferredFinal(stop), SearchCompleted));
      case Incomplete(_, _, _, _) =>
        CloseAllTally(cfg, c, None, SearchFailed);
        FlushEnvelopeTally(CloseAll(cfg, c, None, SearchFailed));
      case Error(_, _) => CloseAllTally(cfg, c, None, SearchFailed);
    }
  }

  lemma ToolDeltaTally(c: Core, more: Str)
    ensures SameTally(c, OnToolDelta(c, more))
  {
    hide Searches, Signed, Truthy, Freeform.NextDelta;
  }

  lemma CloseAllTally(cfg: Config, c: Core, inferred: Option<Phase>, search: SearchStatus)
    ensures var d := CloseAll(cfg, c, inferred, search);
      && Searches(d.finished) == Searches(c.finished) + Count(c.search.Some?)
      && Signed(d.finished) + Pending(d) == Signed(c.finished) + Pending(c)
  {
    hide Searches, Signed, CloseVisible, CloseSearch, Truthy;
    CloseVisibleTally(cfg, c, inferred);
    CloseSearchTally(CloseVisible(cfg, c, inferred), search, [], None);
  }

  lemma SearchEndTally(cfg: Config, c: Core, e: Event)
    requires e.SearchEnd?
    ensures var d := OnSearchEnd(c, e.id, e.queries, e.status, e.sources);
      && Searches(d.finished) == Searches(c.finished) + 1 + Unpaired(c, e)
      && Signed(d.finished) + Pending(d) == Signed(c.finished) + Pending(c)
  {
    hide Searches, Signed, CloseSearch, MergeSources, SearchAction, Truthy, StartSearch;
    var paired := c.search.Some? && c.search.value.eventId == e.id;
    if !paired { CloseSearchTally(c, SearchCompleted, [], None); }
    var c1 := if paired then c else StartSearch(CloseSearch(c, SearchCompleted, [], None), e.id);
    CloseSearchTally(c1, if e.status.Some? then e.status.value else SearchCompleted, e.queries, e.sources);
  }

  /** A flush adds no search, and a signed item only for a pending signature. */
  predicate FlushTally(b: B.Batch, d: B.Batch) {
    && Searches(d.output) == Searches(b.output)
    && (Truthy(b.signature).None? ==> Signed(d.output) == Signed(b.output) && Truthy(d.signature).None?)
  }

  lemma FlushTextTally(b: B.Batch, inferred: Option<Phase>)
    ensures FlushTally(b, B.FlushText(b, inferred))
  {
    hide Searches, Signed, Citations;
    TallySnoc(b.output, Message(b.nextId, b.text, Citations(b.sources), if b.textPhase.Some? then b.textPhase else inferred));
  }

  lemma FlushSummaryTally(cfg: Config, b: B.Batch)
    requires !cfg.hide
    ensures FlushTally(b, B.FlushSummary(cfg, b)) && FlushTally(b, B.FlushOpenSummary(cfg, b))
    ensures Truthy(b.signature).Some? ==> Signed(B.FlushSummary(cfg, b).output) == Signed(b.output) + 1
    ensures Truthy(b.signature).Some? ==> Truthy(B.FlushSummary(cfg, b).signature).None?
  {
    hide Searches, Signed;
    var envelope := if B.HasEnvelope(b) then Some(Envelope(Truthy(b.signature), b.redacted, None)) else None;
    TallySnoc(b.output, Reasoning(b.nextId, if b.summary != [] then [b.summary] else [], None, envelope));
  }

  lemma FlushRawTally(cfg: Config, b: B.Batch)
    requires !cfg.hide
    ensures FlushTally(b, B.FlushRaw(cfg, b))
  {
    hide Searches, Signed;
    TallySnoc(b.output, Reasoning(b.nextId, [], Some([b.raw]), None));
  }

  lemma FlushCallTally(cfg: Config, b: B.Batch)
    ensures FlushTally(b, B.FlushCall(cfg, b))
  {
    hide Searches, Signed, RealName, NamespaceOf, KindOf;
    var target := RealName(cfg, b.callName);
    TallySnoc(b.output, ToolItem(cfg, b.nextId, KindOf(cfg, target), b.callId, target, b.callArgs, NamespaceOf(cfg, b.callName)));
  }

  lemma SettleTally(cfg: Config, b: B.Batch)
    requires !cfg.hide
    ensures FlushTally(b, B.Settle(cfg, b))
  {
    hide Searches, Signed, Truthy, B.FlushText, B.FlushOpenSummary, B.FlushSummary, B.FlushRaw, B.FlushCall;
    var b1 := B.FlushText(b, Some(Commentary));
    var b2 := B.FlushOpenSummary(cfg, b1);
    FlushTextTally(b, Some(Commentary));
    FlushSummaryTally(cfg, b1);
    FlushRawTally(cfg, b2);
    FlushCallTally(cfg, B.FlushRaw(cfg, b2));
  }

  /** Text, then everything else with the envelope: a boundary and the end of the list. */
  function FlushAll(cfg: Config, b: B.Batch, inferred: Option<Phase>): B.Batch {
    B.FlushCall(cfg, B.FlushRaw(cfg, B.FlushSummary(cfg, B.FlushText(b, inferred))))
  }

  lemma FlushAllTally(cfg: Config, b: B.Batch, inferred: Option<Phase>)
    requires !cfg.hide
    ensures FlushTally(b, FlushAll(cfg, b, inferred)) && b.output <= FlushAll(cfg, b, inferred).output
  {
    hide Searches, Signed, Truthy, B.FlushText, B.FlushOpenSummary, B.FlushSummary, B.FlushRaw, B.FlushCall;
    var b1 := B.FlushText(b, inferred);
    var b2 := B.FlushSummary(cfg, b1);
    FlushTextTally(b, inferred);
    FlushesGrow(cfg, b, inferred);
    FlushSummaryTally(cfg, b1);
    FlushesGrow(cfg, b1, inferred);
    FlushRawTally(cfg, b2);
    FlushesGrow(cfg, b2, inferred);
    FlushCallTally(cfg, B.FlushRaw(cfg, b2));
    FlushesGrow(cfg, B.FlushRaw(cfg, b2), inferred);
  }

  /** What each event adds to the batch's searches and signed items. */
  lemma BatchTally(cfg: Config, b: B.Batch, e: Event)
    requires !cfg.hide && !cfg.compaction && Truthy(b.signature).None?
    ensures var d := B.Take(cfg, b, e);
      && Searches(d.output) == Searches(b.output) + Count(e.SearchEnd?)
      && Signed(d.output) == Signed(b.output) + Count(e.ThinkingSignature? && e.sig != [])
      && Truthy(d.signature).None?
  {
    hide Searches, Signed, B.FlushText, B.FlushOpenSummary, B.FlushSummary, B.FlushRaw, B.FlushCall, B.Settle, B.TakeText, B.TakeSearchEnd, MergeSources, SearchAction;
    match e {
      case TextDelta(text, phase) => TakeTextTally(cfg, b, text, phase);
      case ThinkingDelta(_) =>
        FlushTextTally(b, Some(Commentary));
        FlushRawTally(cfg, B.FlushText(b, Some(Commentary)));
        FlushCallTally(cfg, B.FlushRaw(cfg, B.FlushText(b, Some(Commentary))));
      case RawDelta(_) =>
        FlushTextTally(b, Some(Commentary));
        FlushSummaryTally(cfg, B.FlushText(b, Some(Commentary)));
        FlushCallTally(cfg, B.FlushOpenSummary(cfg, B.FlushText(b, Some(Commentary))));
      case ThinkingSignature(sig) => FlushSummaryTally(cfg, b.(signature := Some(sig)));
      case ToolStart(_, _) => SettleTally(cfg, b);
      case ToolEnd => FlushCallTally(cfg, b);
      case Boundary => FlushAllTally(cfg, b, Some(Commentary));
      case SearchEnd(_, queries, status, sources) => TakeSearchEndTally(cfg, b, e);
      case _ =>
    }
  }

  lemma TakeTextTally(cfg: Config, b: B.Batch, text: Str, phase: Option<Phase>)
    requires !cfg.hide && !cfg.compaction
    ensures FlushTally(b, B.TakeText(cfg, b, text, phase))
  {
    hide Searches, Signed, Truthy, B.FlushText, B.FlushOpenSummary, B.FlushSummary, B.FlushRaw, B.FlushCall;
    var b1 := if b.text != [] && phase.Some? && b.textPhase != phase then B.FlushText(b, Some(Commentary)) else b;
    var b2 := B.FlushOpenSummary(cfg, b1);
    FlushTextTally(b, Some(Commentary));
    FlushSummaryTally(cfg, b1);
    FlushRawTally(cfg, b2);
    FlushCallTally(cfg, B.FlushRaw(cfg, b2));
  }

  lemma TakeSearchEndTally(cfg: Config, b: B.Batch, e: Event)
    requires !cfg.hide && e.SearchEnd? && Truthy(b.signature).None?
    ensures var d := B.TakeSearchEnd(cfg, b, e.queries, e.status, e.sources);
      && Searches(d.output) == Searches(b.output) + 1 && Signed(d.output) == Signed(b.output) && Truthy(d.signature).None?
  {
    hide Searches, Signed, B.Settle, MergeSources, SearchAction, Truthy;
    SettleTally(cfg, b);
    var b1 := B.Settle(cfg, b);
    var final := if e.status.Some? then e.status.value else SearchCompleted;
    TallySnoc(b1.output, WebSearch(b1.nextId, final, Some(SearchAction(e.queries)), SourcesOf(e.sources)));
  }

  lemma BatchGrows(cfg: Config, b: B.Batch, e: Event)
    ensures b.output <= B.Take(cfg, b, e).output
  {
    hide B.FlushText, B.FlushOpenSummary, B.FlushSummary, B.FlushRaw, B.FlushCall, B.Settle, B.TakeText, MergeSources, SearchAction;
    match e {
      case TextDelta(text, phase) => TakeTextGrows(cfg, b, text, phase);
      case ThinkingDelta(_) => ReasoningGrows(cfg, b);
      case RawDelta(_) => ReasoningGrows(cfg, b);
      case ThinkingSignature(sig) => FlushesGrow(cfg, b.(signature := Some(sig)), None);
      case ToolStart(_, _) => SettleGrows(cfg, b);
      case ToolEnd => FlushesGrow(cfg, b, None);
      case Boundary => FlushAllGrows(cfg, b, Some(Commentary));
      case SearchEnd(_, _, _, _) => SettleGrows(cfg, b);
      case _ =>
    }
  }

  /** The flushes before thinking and before raw reasoning. */
  lemma ReasoningGrows(cfg: Config, b: B.Batch)
    ensures b.output <= B.FlushCall(cfg, B.FlushRaw(cfg, B.FlushText(b, Some(Commentary)))).output
    ensures b.output <= B.FlushCall(cfg, B.FlushOpenSummary(cfg, B.FlushText(b, Some(Commentary)))).output
  {
    hide B.FlushText, B.FlushOpenSummary, B.FlushSummary, B.FlushRaw, B.FlushCall;
    var b1 := B.FlushText(b, Some(Commentary));
    FlushesGrow(cfg, b, Some(Commentary));
    FlushesGrow(cfg, b1, None);
    FlushesGrow(cfg, B.FlushRaw(cfg, b1), None);
    FlushesGrow(cfg, B.FlushOpenSummary(cfg, b1), None);
  }

  lemma FlushAllGrows(cfg: Config, b: B.Batch, inferred: Option<Phase>)
    ensures b.output <= FlushAll(cfg, b, inferred).output
  {
    hide B.FlushText, B.FlushSummary, B.FlushRaw, B.FlushCall;
    var b1 := B.FlushText(b, inferred);
    var b2 := B.FlushSummary(cfg, b1);
    FlushesGrow(cfg, b, inferred);
    FlushesGrow(cfg, b1, inferred);
    FlushesGrow(cfg, b2, inferred);
    FlushesGrow(cfg, B.FlushRaw(cfg, b2), inferred);
  }

  lemma TakeTextGrows(cfg: Config, b: B.Batch, text: Str, phase: Option<Phase>)
    ensures b.output <= B.TakeText(cfg, b, text, phase).output
  {
    hide B.FlushText, B.FlushOpenSummary, B.FlushSummary, B.FlushRaw, B.FlushCall;
    var b1 := if b.text != [] && phase.Some? && b.textPhase != phase then B.FlushText(b, Some(Commentary)) else b;
    var b2 := B.FlushOpenSummary(cfg, b1);
    FlushesGrow(cfg, b, Some(Commentary));
    FlushesGrow(cfg, b1, None);
    FlushesGrow(cfg, b2, None);
    FlushesGrow(cfg, B.FlushRaw(cfg, b2), None);
  }

  // ---------------------------------------------------------------------------
  // What the batch can write next
  // ---------------------------------------------------------------------------

  /** How many redacted blocks an item carries. */
  function Blocks(item: Item): nat {
    if item.Reasoning? && item.envelope.Some? then |item.envelope.value.redacted| else 0
  }

  /** The item can be the next one this batch writes. */
  predicate CanWrite(b: B.Batch, item: Item) {
    match item
    case Message(_, text, _, _) => text == b.text
    case Reasoning(_, summary, None, _) => summary == (if b.summary == [] then [] else [b.summary]) && Blocks(item) == |b.redacted|
    case Reasoning(_, _, Some(content), _) => content == [b.raw]
    case _ => true
  }

  /** No item the batch can write, now or after taking in more, equals this one. */
  predicate Unlike(b: B.Batch, item: Item) {
    match item
    case Message(_, text, _, _) => |b.text| > |text|
    case Reasoning(_, summary, None, _) =>
      b.summary != [] && |summary| == 1 && (|b.summary| > |summary[0]| || |b.redacted| > Blocks(item))
    case Reasoning(_, _, Some(content), _) => |content| == 1 && |b.raw| > |content[0]|
    case _ => false
  }

  lemma UnlikeDiffers(b: B.Batch, item: Item, written: Item)
    requires Unlike(b, item) && CanWrite(b, written)
    ensures Strip(item) != Strip(written)
  {
  }

  /** The batch wrote nothing and kept all it held, or its first new item is one it could write. */
  predicate FirstWrite(b: B.Batch, d: B.Batch) {
    && b.output <= d.output
    && (if |d.output| == |b.output| then
          |b.text| <= |d.text| && |b.summary| <= |d.summary| && |b.raw| <= |d.raw| && |b.redacted| <= |d.redacted|
        else CanWrite(b, d.output[|b.output|]))
  }

  /** A flush that wrote nothing changed nothing. */
  predicate Flushed(b: B.Batch, d: B.Batch) {
    FirstWrite(b, d) && (|d.output| == |b.output| ==> d == b)
  }

  lemma FlushedChain(b: B.Batch, d: B.Batch, e: B.Batch)
    requires Flushed(b, d) && Flushed(d, e)
    ensures Flushed(b, e)
  {
    hide CanWrite;
  }

  lemma FlushedThen(b: B.Batch, d: B.Batch, e: B.Batch)
    requires Flushed(b, d) && FirstWrite(d, e)
    ensures FirstWrite(b, e)
  {
    hide CanWrite;
  }

  lemma FlushTextWrites(b: B.Batch, inferred: Option<Phase>)
    ensures Flushed(b, B.FlushText(b, inferred))
  {
    hide Citations;
  }

  lemma FlushSummaryWrites(cfg: Config, b: B.Batch)
    requires !cfg.hide
    ensures Flushed(b, B.FlushSummary(cfg, b)) && Flushed(b, B.FlushOpenSummary(cfg, b))
  {
  }

  lemma FlushRawWrites(cfg: Config, b: B.Batch)
    requires !cfg.hide
    ensures Flushed(b, B.FlushRaw(cfg, b))
  {
  }

  lemma FlushCallWrites(cfg: Config, b: B.Batch)
    ensures Flushed(b, B.FlushCall(cfg, b))
  {
    hide RealName, NamespaceOf, KindOf;
  }

  lemma SettleWrites(cfg: Config, b: B.Batch)
    requires !cfg.hide
    ensures Flushed(b, B.Settle(cfg, b))
  {
    hide Flushed, B.FlushText, B.FlushOpenSummary, B.FlushRaw, B.FlushCall;
    var b1 := B.FlushText(b, Some(Commentary));
    var b2 := B.FlushOpenSummary(cfg, b1);
    var b3 := B.FlushRaw(cfg, b2);
    FlushTextWrites(b, Some(Commentary));
    FlushSummaryWrites(cfg, b1);
    FlushRawWrites(cfg, b2);
    FlushCallWrites(cfg, b3);
    FlushedChain(b, b1, b2);
    FlushedChain(b, b2, b3);
    FlushedChain(b, b3, B.FlushCall(cfg, b3));
  }

  lemma FlushAllWrites(cfg: Config, b: B.Batch, inferred: Option<Phase>)
    requires !cfg.hide
    ensures Flushed(b, FlushAll(cfg, b, inferred))
  {
    hide Flushed, B.FlushText, B.FlushSummary, B.FlushRaw, B.FlushCall;
    var b1 := B.FlushText(b, inferred);
    var b2 := B.FlushSummary(cfg, b1);
    var b3 := B.FlushRaw(cfg, b2);
    FlushTextWrites(b, inferred);
    FlushSummaryWrites(cfg, b1);
    FlushRawWrites(cfg, b2);
    FlushCallWrites(cfg, b3);
    FlushedChain(b, b1, b2);
    FlushedChain(b, b2, b3);
    FlushedChain(b, b3, B.FlushCall(cfg, b3));
  }

  lemma TakeTextWrites(cfg: Config, b: B.Batch, text: Str, phase: Option<Phase>)
    requires !cfg.hide && !cfg.compaction
    ensures FirstWrite(b, B.TakeText(cfg, b, text, phase))
  {
    hide Flushed, FirstWrite, B.FlushText, B.FlushOpenSummary, B.FlushSummary, B.FlushRaw, B.FlushCall;
    var b1 := if b.text != [] && phase.Some? && b.textPhase != phase then B.FlushText(b, Some(Commentary)) else b;
    var b2 := B.FlushOpenSummary(cfg, b1);
    var b3 := B.FlushRaw(cfg, b2);
    var b4 := B.FlushCall(cfg, b3);
    FlushTextWrites(b, Some(Commentary));
    assert Flushed(b, b) by { NothingFlushed(b); }
    FlushSummaryWrites(cfg, b1);
    FlushRawWrites(cfg, b2);
    FlushCallWrites(cfg, b3);
    FlushedChain(b, b1, b2);
    FlushedChain(b, b2, b3);
    FlushedChain(b, b3, b4);
    AddsText(b4, B.TakeText(cfg, b, text, phase));
    FlushedThen(b, b4, B.TakeText(cfg, b, text, phase));
  }

  lemma NothingFlushed(b: B.Batch)
    ensures Flushed(b, b)
  {
  }

  /** Taking in more without writing. */
  lemma AddsText(b: B.Batch, d: B.Batch)
    requires d.output == b.output && |b.text| <= |d.text| && |b.summary| <= |d.summary| && |b.raw| <= |d.raw| && |b.redacted| <= |d.redacted|
    ensures FirstWrite(b, d)
  {
  }

  /** Whatever the event: the first item the batch writes is one it could write before. */
  lemma TakeWrites(cfg: Config, b: B.Batch, e: Event)
    requires !cfg.hide && !cfg.compaction && !e.IsTerminal()
    ensures FirstWrite(b, B.Take(cfg, b, e))
  {
    hide Flushed, FirstWrite, B.FlushText, B.FlushOpenSummary, B.FlushSummary, B.FlushRaw, B.FlushCall, B.Settle, B.TakeText, MergeSources, SearchAction;
    var r := B.Take(cfg, b, e);
    assert Flushed(b, b) by { NothingFlushed(b); }
    match e {
      case TextDelta(text, phase) => TakeTextWrites(cfg, b, text, phase);
      case ThinkingDelta(_) =>
        var b1 := B.FlushText(b, Some(Commentary));
        var b2 := B.FlushRaw(cfg, b1);
        FlushTextWrites(b, Some(Commentary));
        FlushRawWrites(cfg, b1);
        FlushCallWrites(cfg, b2);
        FlushedChain(b, b1, b2);
        FlushedChain(b, b2, B.FlushCall(cfg, b2));
        AddsText(B.FlushCall(cfg, b2), r);
        FlushedThen(b, B.FlushCall(cfg, b2), r);
      case RawDelta(_) =>
        var b1 := B.FlushText(b, Some(Commentary));
        var b2 := B.FlushOpenSummary(cfg, b1);
        FlushTextWrites(b, Some(Commentary));
        FlushSummaryWrites(cfg, b1);
        FlushCallWrites(cfg, b2);
        FlushedChain(b, b1, b2);
        FlushedChain(b, b2, B.FlushCall(cfg, b2));
        AddsText(B.FlushCall(cfg, b2), r);
        FlushedThen(b, B.FlushCall(cfg, b2), r);
      case ThinkingSignature(sig) => SignatureWrites(cfg, b, sig);
      case ToolStart(_, _) =>
        SettleWrites(cfg, b);
        AddsText(B.Settle(cfg, b), r);
        FlushedThen(b, B.Settle(cfg, b), r);
      case ToolEnd =>
        FlushCallWrites(cfg, b);
        AddsText(r, r);
        FlushedThen(b, r, r);
      case Boundary =>
        FlushAllWrites(cfg, b, Some(Commentary));
        AddsText(r, r);
        FlushedThen(b, r, r);
      case SearchEnd(_, _, _, _) => SearchEndWrites(cfg, b, e);
      case _ => AddsText(b, r);
    }
  }

  lemma SignatureWrites(cfg: Config, b: B.Batch, sig: Str)
    requires !cfg.hide
    ensures FirstWrite(b, B.FlushSummary(cfg, b.(signature := Some(sig))))
  {
  }

  lemma SearchEndWrites(cfg: Config, b: B.Batch, e: Event)
    requires !cfg.hide && e.SearchEnd?
    ensures FirstWrite(b, B.TakeSearchEnd(cfg, b, e.queries, e.status, e.sources))
  {
    SettleWrites(cfg, b);
    hide B.Settle, MergeSources, SearchAction;
  }

  // ---------------------------------------------------------------------------
  // Items that hold nothing
  // ---------------------------------------------------------------------------

  /** An item the batch never writes: no text in it, or a call without an id. */
  predicate Hollow(item: Item) {
    match item
    case Message(_, text, _, _) => text == []
    case Reasoning(_, summary, content, _) => summary == [[]] || content == Some([[]])
    case FunctionCall(_, callId, _, _, _) => callId == []
    case CustomCall(_, callId, _, _) => callId == []
    case ToolSearch(_, callId, _) => callId == []
    case _ => false
  }

  predicate NoneHollow(items: seq<Item>) {
    forall n :: 0 <= n < |items| ==> !Hollow(items[n])
  }

  lemma SolidSnoc(items: seq<Item>, item: Item)
    requires NoneHollow(items) && !Hollow(item)
    ensures NoneHollow(items + [item])
  {
    hide Hollow;
  }

  lemma FlushTextSolid(b: B.Batch, inferred: Option<Phase>)
    requires NoneHollow(b.output)
    ensures NoneHollow(B.FlushText(b, inferred).output)
  {
    hide NoneHollow, Citations;
    if b.text != [] {
      SolidSnoc(b.output, Message(b.nextId, b.text, Citations(b.sources), if b.textPhase.Some? then b.textPhase else inferred));
    }
  }

  lemma FlushSummarySolid(cfg: Config, b: B.Batch)
    requires NoneHollow(b.output)
    ensures NoneHollow(B.FlushSummary(cfg, b).output) && NoneHollow(B.FlushOpenSummary(cfg, b).output)
  {
    hide NoneHollow;
    var d := B.FlushSummary(cfg, b);
    if |d.output| > |b.output| { SolidSnoc(b.output, d.output[|b.output|]); }
  }

  lemma FlushRawSolid(cfg: Config, b: B.Batch)
    requires NoneHollow(b.output)
    ensures NoneHollow(B.FlushRaw(cfg, b).output)
  {
    hide NoneHollow;
    var d := B.FlushRaw(cfg, b);
    if |d.output| > |b.output| { SolidSnoc(b.output, d.output[|b.output|]); }
  }

  lemma FlushCallSolid(cfg: Config, b: B.Batch)
    requires NoneHollow(b.output)
    ensures NoneHollow(B.FlushCall(cfg, b).output)
  {
    hide NoneHollow, RealName, NamespaceOf, KindOf;
    var d := B.FlushCall(cfg, b);
    if |d.output| > |b.output| { SolidSnoc(b.output, d.output[|b.output|]); }
  }

  lemma FlushesSolid(cfg: Config, b: B.Batch, inferred: Option<Phase>)
    requires NoneHollow(b.output)
    ensures NoneHollow(B.FlushText(b, inferred).output)
    ensures NoneHollow(B.FlushSummary(cfg, b).output) && NoneHollow(B.FlushOpenSummary(cfg, b).output)
    ensures NoneHollow(B.FlushRaw(cfg, b).output) && NoneHollow(B.FlushCall(cfg, b).output)
  {
    hide NoneHollow, B.FlushText, B.FlushOpenSummary, B.FlushSummary, B.FlushRaw, B.FlushCall;
    FlushTextSolid(b, inferred);
    FlushSummarySolid(cfg, b);
    FlushRawSolid(cfg, b);
    FlushCallSolid(cfg, b);
  }

  lemma OthersSolid(cfg: Config, b: B.Batch)
    requires NoneHollow(b.output)
    ensures NoneHollow(B.FlushCall(cfg, B.FlushRaw(cfg, B.FlushOpenSummary(cfg, b))).output)
    ensures NoneHollow(B.FlushCall(cfg, B.FlushRaw(cfg, B.FlushSummary(cfg, b))).output)
    ensures NoneHollow(B.FlushCall(cfg, B.FlushRaw(cfg, b)).output)
    ensures NoneHollow(B.FlushCall(cfg, B.FlushOpenSummary(cfg, b)).output)
  {
    hide NoneHollow, B.FlushText, B.FlushOpenSummary, B.FlushSummary, B.FlushRaw, B.FlushCall;
    FlushesSolid(cfg, b, None);
    FlushesSolid(cfg, B.FlushOpenSummary(cfg, b), None);
    FlushesSolid(cfg, B.FlushSummary(cfg, b), None);
    FlushesSolid(cfg, B.FlushRaw(cfg, b), None);
    FlushesSolid(cfg, B.FlushRaw(cfg, B.FlushOpenSummary(cfg, b)), None);
    FlushesSolid(cfg, B.FlushRaw(cfg, B.FlushSummary(cfg, b)), None);
  }

  lemma TakeSolid(cfg: Config, b: B.Batch, e: Event)
    requires NoneHollow(b.output)
    ensures NoneHollow(B.Take(cfg, b, e).output)
  {
    hide B.FlushText, B.FlushOpenSummary, B.FlushSummary, B.FlushRaw, B.FlushCall, MergeSources, SearchAction;
    FlushesSolid(cfg, b, Some(Commentary));
    OthersSolid(cfg, b);
    OthersSolid(cfg, B.FlushText(b, Some(Commentary)));
    if e.ThinkingSignature? { FlushesSolid(cfg, b.(signature := Some(e.sig)), None); }
    SearchSolid(B.Settle(cfg, b), e);
    hide NoneHollow;
  }

  lemma SearchSolid(b: B.Batch, e: Event)
    requires NoneHollow(b.output)
    ensures e.SearchEnd? ==>
      NoneHollow(B.Push(b, WebSearch(b.nextId, if e.status.Some? then e.status.value else SearchCompleted,
                                     Some(SearchAction(e.queries)), SourcesOf(e.sources))).output)
  {
    hide SearchAction;
  }

  lemma RespondSolid(cfg: Config, b: B.Batch)
    requires NoneHollow(b.output)
    ensures NoneHollow(B.Respond(cfg, b).output)
  {
    hide B.FlushText, B.FlushSummary, B.FlushRaw, B.FlushCall;
    var final := if b.cleanDone && b.failed.None? && b.cut.None? then Some(FinalAnswer) else None;
    FlushesSolid(cfg, b, final);
    OthersSolid(cfg, B.FlushText(b, final));
  }

  /** For every event list and all options: the batch response holds no hollow item. */
  lemma {:induction false} BatchIsSolid(cfg: Config, es: seq<Event>)
    ensures NoneHollow(B.TakeAll(cfg, es).output) && NoneHollow(B.BuildResponse(cfg, es).output)
  {
    if es != [] {
      BatchIsSolid(cfg, es[..|es| - 1]);
      hide B.Take, B.Respond, NoneHollow;
      TakeSolid(cfg, B.TakeAll(cfg, es[..|es| - 1]), es[|es| - 1]);
      RespondSolid(cfg, B.TakeAll(cfg, es));
    } else {
      RespondSolid(cfg, B.TakeAll(cfg, es));
    }
  }

  /** Text, then everything else with the envelope. */
  lemma FlushAllSolid(cfg: Config, b: B.Batch, inferred: Option<Phase>)
    requires NoneHollow(b.output)
    ensures NoneHollow(FlushAll(cfg, b, inferred).output)
  {
    hide NoneHollow, B.FlushText, B.FlushSummary, B.FlushRaw, B.FlushCall;
    FlushesSolid(cfg, b, inferred);
    OthersSolid(cfg, B.FlushText(b, inferred));
  }

  lemma StripHollow(item: Item)
    ensures Hollow(Strip(item)) <==> Hollow(item)
  {
  }

  /** A hollow item on one side only: the lists differ. */
  lemma HollowDiffers(left: seq<Item>, right: seq<Item>)
    requires !NoneHollow(left) && NoneHollow(right)
    ensures StripAll(left) != StripAll(right)
  {
    var n :| 0 <= n < |left| && Hollow(left[n]);
    if StripAll(left) == StripAll(right) {
      assert StripAll(left)[n] == StripAll(right)[n];
      StripHollow(left[n]);
      StripHollow(right[n]);
    }
  }

  lemma HollowGrows(left: seq<Item>, more: seq<Item>)
    requires !NoneHollow(left) && left <= more
    ensures !NoneHollow(more)
  {
    var n :| 0 <= n < |left| && Hollow(left[n]);
    assert more[n] == left[n];
  }

  // ---------------------------------------------------------------------------
  // Hollow items on the stream's side
  // ---------------------------------------------------------------------------

  /** A hollow item is finished, or a call without an id is open and will be. */
  predicate HasHollow(c: Core) {
    !NoneHollow(c.finished) || (c.tool.Some? && c.tool.value.callId == [])
  }

  lemma CloseToolHollow(cfg: Config, c: Core)
    requires HasHollow(c)
    ensures !NoneHollow(CloseTool(cfg, c).finished)
  {
    var d := CloseTool(cfg, c);
    if !NoneHollow(c.finished) {
      HollowGrows(c.finished, d.finished);
    } else {
      assert Hollow(d.finished[|c.finished|]);
    }
  }

  lemma HollowKept(c: Core, d: Core)
    requires HasHollow(c) && c.finished <= d.finished && d.tool == c.tool
    ensures HasHollow(d)
  {
    if !NoneHollow(c.finished) { HollowGrows(c.finished, d.finished); }
  }

  lemma CloseVisibleHollow(cfg: Config, c: Core, inferred: Option<Phase>)
    requires HasHollow(c)
    ensures !NoneHollow(CloseVisible(cfg, c, inferred).finished)
  {
    hide HasHollow, NoneHollow, CloseMessage, CloseReasoning, CloseRaw, FlushHiddenRaw, CloseTool;
    var d := FlushHiddenRaw(CloseRaw(CloseReasoning(CloseMessage(c, inferred))));
    HollowKept(c, d);
    CloseToolHollow(cfg, d);
  }

  /** The closers before a text, thinking or raw delta end an open call. */
  lemma DeltaHollow(cfg: Config, c: Core, e: Event)
    requires HasHollow(c) && (e.TextDelta? || e.ThinkingDelta? || e.RawDelta?) && !cfg.hide && !cfg.compaction
    ensures HasHollow(Handle(cfg, c, e))
  {
    hide HasHollow, NoneHollow, CloseMessage, CloseReasoning, CloseRaw, FlushHiddenRaw, CloseTool,
         StartMessage, AppendText, StartReasoning, AppendThinking, StartRaw, AppendRaw;
    var d := match e
      case TextDelta(_, _) => FlushHiddenRaw(CloseRaw(CloseReasoning(c)))
      case ThinkingDelta(_) => FlushHiddenRaw(CloseRaw(CloseMessage(c, Some(Commentary))))
      case _ => CloseReasoning(CloseMessage(c, Some(Commentary)));
    HollowKept(c, d);
    CloseToolHollow(cfg, d);
    assert CloseTool(cfg, d).finished <= Handle(cfg, c, e).finished;
    HollowFinished(CloseTool(cfg, d), Handle(cfg, c, e));
  }

  lemma HollowFinished(c: Core, d: Core)
    requires !NoneHollow(c.finished) && c.finished <= d.finished
    ensures HasHollow(d)
  {
    HollowGrows(c.finished, d.finished);
  }

  /** Hollow for good, whatever follows. */
  lemma HollowStays(cfg: Config, c: Core, e: Event)
    requires HasHollow(c) && !cfg.hide && !cfg.compaction && !e.IsTerminal()
    ensures HasHollow(Handle(cfg, c, e))
  {
    StreamGrows(cfg, c, e);
    var d := Handle(cfg, c, e);
    if e.TextDelta? || e.ThinkingDelta? || e.RawDelta? {
      DeltaHollow(cfg, c, e);
    } else if e.ToolStart? || e.Boundary? || e.SearchBegin? {
      CloseVisibleHollow(cfg, c, Some(Commentary));
      hide HasHollow, NoneHollow, CloseVisible, FlushEnvelope, CloseSearch;
      HollowFinished(CloseVisible(cfg, c, Some(Commentary)), d);
    } else if e.ToolEnd? {
      CloseToolHollow(cfg, c);
    } else {
      CallStays(cfg, c, e);
    }
  }

  lemma CallStays(cfg: Config, c: Core, e: Event)
    requires HasHollow(c) && !cfg.compaction
    requires e.Heartbeat? || e.RedactedThinking? || e.ToolDelta? || e.ThinkingSignature? || e.SearchEnd?
    ensures HasHollow(Handle(cfg, c, e))
  {
    StreamGrows(cfg, c, e);
    hide FlushEnvelope, MergeSources, SearchAction, NoneHollow;
    if !NoneHollow(c.finished) { HollowGrows(c.finished, Handle(cfg, c, e).finished); }
  }

  lemma HollowEnds(cfg: Config, c: Core, e: Event)
    requires HasHollow(c) && e.IsTerminal() && !cfg.compaction
    ensures !NoneHollow(Handle(cfg, c, e).finished)
  {
    var inferred := if e.Done? then InferredFinal(e.stop) else None;
    CloseVisibleHollow(cfg, c, inferred);
    EndClosesFirst(cfg, c, e);
    hide CloseVisible, Handle;
    HollowGrows(CloseVisible(cfg, c, inferred).finished, Handle(cfg, c, e).finished);
  }

  lemma EndClosesFirst(cfg: Config, c: Core, e: Event)
    requires e.IsTerminal() && !cfg.compaction
    ensures CloseVisible(cfg, c, if e.Done? then InferredFinal(e.stop) else None).finished <= Handle(cfg, c, e).finished
  {
    hide CloseVisible, CloseSearch, FlushEnvelope;
  }

  // ---------------------------------------------------------------------------
  // Closing an item that got only empty deltas
  // ---------------------------------------------------------------------------

  lemma CloseHollow(c: Core, inferred: Option<Phase>)
    requires HollowOpen(c)
    ensures !NoneHollow(CloseRaw(CloseReasoning(CloseMessage(c, inferred))).finished)
  {
    var c1 := CloseMessage(c, inferred);
    var c2 := CloseReasoning(c1);
    var c3 := CloseRaw(c2);
    if c.msg.Some? && c.msg.value.text == [] {
      assert Hollow(c1.finished[|c.finished|]);
      HollowGrows(c1.finished, c3.finished);
    } else if c.reasoning.Some? && c.reasoning.value.text == [] {
      assert Hollow(c2.finished[|c1.finished|]);
      HollowGrows(c2.finished, c3.finished);
    } else {
      assert Hollow(c3.finished[|c2.finished|]);
    }
  }

  lemma CloseVisibleOpening(cfg: Config, c: Core, inferred: Option<Phase>)
    requires HollowOpen(c)
    ensures !NoneHollow(CloseVisible(cfg, c, inferred).finished)
  {
    CloseHollow(c, inferred);
    hide NoneHollow, CloseMessage, CloseReasoning, CloseRaw, FlushHiddenRaw, CloseTool;
    HollowGrows(CloseRaw(CloseReasoning(CloseMessage(c, inferred))).finished, CloseVisible(cfg, c, inferred).finished);
  }

  /** A delta of another kind or phase closes the empty item first. */
  lemma DeltaOpening(cfg: Config, c: Core, b: B.Batch, e: Event)
    requires Opening(cfg, c, b) && (e.TextDelta? || e.ThinkingDelta? || e.RawDelta?) && !Continues(c, e) && !cfg.hide && !cfg.compaction
    ensures !NoneHollow(Handle(cfg, c, e).finished)
  {
    var inferred := Some(Commentary);
    CloseHollow(c, inferred);
    assert c.hiddenRaw == [] && c.tool.None?;
    hide Aligned, NoneHollow, StartMessage, AppendText, StartReasoning, AppendThinking, StartRaw, AppendRaw, CloseMessage, CloseReasoning, CloseRaw, CloseTool;
    assert CloseRaw(CloseReasoning(CloseMessage(c, inferred))).finished <= Handle(cfg, c, e).finished;
    HollowGrows(CloseRaw(CloseReasoning(CloseMessage(c, inferred))).finished, Handle(cfg, c, e).finished);
  }

  /** Whatever else does not leave the empty item open finishes it as it is. */
  lemma OpeningCloses(cfg: Config, c: Core, b: B.Batch, e: Event)
    requires Opening(cfg, c, b) && !Continues(c, e) && !e.ThinkingSignature? && !cfg.hide && !cfg.compaction
    ensures !NoneHollow(Handle(cfg, c, e).finished)
  {
    if e.TextDelta? || e.ThinkingDelta? || e.RawDelta? {
      DeltaOpening(cfg, c, b, e);
    } else {
      var inferred := if e.Done? then InferredFinal(e.stop) else if e.IsTerminal() then None else Some(Commentary);
      CloseVisibleOpening(cfg, c, inferred);
      if e.IsTerminal() { EndClosesFirst(cfg, c, e); }
      hide NoneHollow, CloseVisible, CloseSearch, FlushEnvelope, OnDone, CloseAll;
      HollowGrows(CloseVisible(cfg, c, inferred).finished, Handle(cfg, c, e).finished);
    }
  }
}
