/**
 * The stream and the batch response agree.
 *
 * Both sides read the same events. On the guard `Matched` the items the stream finishes are
 * the items of the batch response, up to the fresh identifiers, with the same status, reason
 * and end-of-turn flag.
 */
module BridgeRefinement {
  import opened Prelude
  import opened BridgeTypes
  import opened BridgeCore
  import B = BridgeBatch

  function Strip(item: Item): Item {
    item.(id := 0)
  }

  function StripAll(items: seq<Item>): (r: seq<Item>)
    ensures |r| == |items|
  {
    seq(|items|, i requires 0 <= i < |items| => Strip(items[i]))
  }

  lemma StripSnoc(items: seq<Item>, item: Item)
    ensures StripAll(items + [item]) == StripAll(items) + [Strip(item)]
  {
  }

  // ---------------------------------------------------------------------------
  // The simulation relation
  // ---------------------------------------------------------------------------

  predicate SameCall(cfg: Config, t: OpenTool, b: B.Batch) {
    && b.callId == t.callId && b.callId != []
    && RealName(cfg, b.callName) == t.name && NamespaceOf(cfg, b.callName) == t.namespace
    && KindOf(cfg, t.name) == t.kind && b.callArgs == t.args
  }

  /** At most one of message, reasoning, raw reasoning and tool call is open, on both sides. */
  predicate SameOpen(cfg: Config, c: Core, b: B.Batch) {
    && Count(c.msg.Some?) + Count(c.reasoning.Some?) + Count(c.raw.Some?) + Count(c.tool.Some?) <= 1
    && (if c.msg.Some? then b.text != [] && b.text == c.msg.value.text && b.textPhase == c.msg.value.phase
        else b.text == [] && b.textPhase.None?)
    && (if c.reasoning.Some? then b.summary != [] && b.summary == c.reasoning.value.text else b.summary == [])
    && (if c.raw.Some? then b.raw != [] && b.raw == c.raw.value.text else b.raw == [])
    && (if c.tool.Some? then SameCall(cfg, c.tool.value, b) else b.callId == [])
  }

  predicate SamePending(c: Core, b: B.Batch) {
    && c.sources == b.sources && c.redacted == b.redacted
    && c.signature.None? && b.signature.None?
    && c.hiddenRaw == [] && c.hiddenThinking == []
  }

  predicate Aligned(cfg: Config, c: Core, b: B.Batch) {
    && StripAll(c.finished) == StripAll(b.output)
    && SameOpen(cfg, c, b) && SamePending(c, b)
  }

  /** The stream has no message, reasoning, raw reasoning or tool call open. */
  predicate Idle(c: Core) {
    c.msg.None? && c.reasoning.None? && c.raw.None? && c.tool.None?
  }

  /** The batch still holds content it has not written out. */
  predicate Holding(b: B.Batch) {
    b.text != [] || b.summary != [] || b.raw != [] || b.callId != []
  }

  predicate HoldsOne(b: B.Batch) {
    && Count(b.text != []) + Count(b.summary != []) + Count(b.raw != []) + Count(b.callId != []) == 1
    && (b.text == [] ==> b.textPhase.None?)
    && b.signature.None?
  }

  /** A signature arrived for the open reasoning: the batch side has already written it out. */
  predicate Sealed(c: Core) {
    c.signature.Some?
  }

  predicate SealedPair(cfg: Config, c: Core, b: B.Batch) {
    && c.reasoning.Some? && c.reasoning.value.text != [] && c.msg.None? && c.raw.None? && c.tool.None?
    && Truthy(c.signature).Some? && Aligned(cfg, CloseReasoning(c), b)
  }

  /** A search began: the stream closed what was open, the batch will do so later. */
  predicate Lagging(cfg: Config, c: Core, b: B.Batch) {
    c.search.Some? && Idle(c) && HoldsOne(b) && Aligned(cfg, c, B.Settle(cfg, b))
  }

  /** A message, reasoning or raw reasoning is open that got only empty deltas so far. */
  predicate HollowOpen(c: Core) {
    || (c.msg.Some? && c.msg.value.text == [])
    || (c.reasoning.Some? && c.reasoning.value.text == [])
    || (c.raw.Some? && c.raw.value.text == [])
  }

  /** The stream without the item that is still empty. */
  function Unopened(c: Core): Core {
    c.(msg := None, reasoning := None, raw := None)
  }

  /** An empty delta opened an item in the stream; the batch holds nothing, but knows a message's phase. */
  predicate Opening(cfg: Config, c: Core, b: B.Batch) {
    && HollowOpen(c) && Count(c.msg.Some?) + Count(c.reasoning.Some?) + Count(c.raw.Some?) == 1 && c.tool.None?
    && b.textPhase == (if c.msg.Some? then c.msg.value.phase else None)
    && Aligned(cfg, Unopened(c), b.(textPhase := None))
  }

  predicate Related(cfg: Config, c: Core, b: B.Batch) {
    Aligned(cfg, c, b) || SealedPair(cfg, c, b) || Lagging(cfg, c, b) || Opening(cfg, c, b)
  }

  /** Redacted blocks are not waiting behind raw reasoning or a call, which the batch writes after them. */
  predicate RedactedInOrder(b: B.Batch) {
    b.redacted == [] || (b.raw == [] && b.callId == [])
  }

  /** The batch holds content the stream has closed. */
  predicate Behind(c: Core, b: B.Batch) {
    Idle(c) && Holding(b)
  }

  /** The event leaves an item that is still empty open: it extends it or does not concern it. */
  predicate Continues(c: Core, e: Event) {
    match e
    case TextDelta(_, phase) => c.msg.Some? && (phase.None? || phase == c.msg.value.phase)
    case ThinkingDelta(_) => c.reasoning.Some?
    case RawDelta(_) => c.raw.Some?
    case ThinkingSignature(_) => c.reasoning.None?
    case Heartbeat => true
    case RedactedThinking(_) => true
    case ToolDelta(_) => true
    case ToolEnd => true
    case SearchEnd(_, _, _, _) => true
    case _ => false
  }

  /**
   * The guard, event by event: a search is ended by its own end, with nothing open, before another
   * begins or the response ends; a signed thinking block is not continued, signed again or given
   * redacted blocks; content the batch still holds is not continued; redacted blocks do not wait
   * behind raw reasoning or a call; an upstream error finds none waiting; an empty stop reason
   * finds no unclassified message; a call has an id; and an item that got only empty deltas is not
   * closed or signed as it is.
   */
  predicate Matched(c: Core, b: B.Batch, e: Event) {
    InOrder(c, b, e) && (HollowOpen(c) ==> Continues(c, e))
  }

  predicate InOrder(c: Core, b: B.Batch, e: Event) {
    match e
    case TextDelta(_, phase) => !(Behind(c, b) && b.text != [] && (phase.None? || phase == b.textPhase))
    case ThinkingDelta(text) => (!Sealed(c) || text == []) && !(Behind(c, b) && b.summary != [])
    case ThinkingSignature(_) => !Sealed(c) && !Behind(c, b)
    case RedactedThinking(_) => !Sealed(c) && !(Behind(c, b) && b.summary != [])
    case RawDelta(_) => !(Behind(c, b) && b.raw != [])
    case ToolStart(id, _) => id != []
    case Boundary => RedactedInOrder(b)
    case SearchBegin(_) => c.search.None?
    case SearchEnd(id, _, _, _) => (Idle(c) || HollowOpen(c)) && (c.search.None? || c.search.value.eventId == id)
    case Done(stop, _) => c.search.None? && RedactedInOrder(b) &&
      (stop == Some(OtherStop([])) ==> c.msg.None? || c.msg.value.phase.Some?)
    case Incomplete(_, _, _, _) => c.search.None? && RedactedInOrder(b)
    case Error(_, _) => c.search.None? && (c.redacted == [] || c.reasoning.Some?)
    case _ => true
  }

  /** The delta has text, or goes to an open item of its own kind and phase. */
  predicate Extends(c: Core, e: Event) {
    match e
    case TextDelta(text, _) => text != [] || Continues(c, e)
    case ThinkingDelta(text) => text != [] || Continues(c, e)
    case RawDelta(text) => text != [] || Continues(c, e)
    case _ => true
  }

  /**
   * What an adapter must keep to: signatures are not empty; and inside a running search no empty
   * delta opens an item and no arguments arrive without an open call.
   */
  predicate Disciplined(c: Core, e: Event) {
    match e
    case ThinkingSignature(sig) => sig != []
    case ToolDelta(_) => c.tool.Some? || c.search.None?
    case _ => c.search.None? || Extends(c, e)
  }

  // ---------------------------------------------------------------------------
  // Closers against flushes
  // ---------------------------------------------------------------------------

  lemma CloseMessageAligned(cfg: Config, c: Core, b: B.Batch, inferred: Option<Phase>)
    requires Aligned(cfg, c, b)
    ensures Aligned(cfg, CloseMessage(c, inferred), B.FlushText(b, inferred))
  {
    hide StripAll;
    if c.msg.Some? {
      var m := c.msg.value;
      var phase := if m.phase.Some? then m.phase else inferred;
      StripSnoc(c.finished, Message(m.id, m.text, Citations(c.sources), phase));
      StripSnoc(b.output, Message(b.nextId, b.text, Citations(b.sources), phase));
    }
  }

  lemma CloseReasoningAligned(cfg: Config, c: Core, b: B.Batch)
    requires Aligned(cfg, c, b) && !cfg.hide
    ensures Aligned(cfg, CloseReasoning(c), B.FlushOpenSummary(cfg, b))
  {
    hide StripAll;
    if c.reasoning.Some? {
      var r := c.reasoning.value;
      StripSnoc(c.finished, Reasoning(r.id, [r.text], None, PendingEnvelope(c, None)));
      StripSnoc(b.output, Reasoning(b.nextId, [r.text], None, PendingEnvelope(c, None)));
    }
  }

  lemma CloseRawAligned(cfg: Config, c: Core, b: B.Batch)
    requires Aligned(cfg, c, b) && !cfg.hide
    ensures Aligned(cfg, CloseRaw(c), B.FlushRaw(cfg, b))
  {
    hide StripAll;
    if c.raw.Some? {
      StripSnoc(c.finished, Reasoning(c.raw.value.id, [], Some([c.raw.value.text]), None));
      StripSnoc(b.output, Reasoning(b.nextId, [], Some([b.raw]), None));
    }
  }

  lemma CloseToolAligned(cfg: Config, c: Core, b: B.Batch)
    requires Aligned(cfg, c, b)
    ensures Aligned(cfg, CloseTool(cfg, c), B.FlushCall(cfg, b))
  {
    hide StripAll, RealName, NamespaceOf, KindOf;
    if c.tool.Some? {
      var t := c.tool.value;
      StripSnoc(c.finished, ToolItem(cfg, t.id, t.kind, t.callId, t.name, t.args, t.namespace));
      StripSnoc(b.output, ToolItem(cfg, b.nextId, t.kind, t.callId, t.name, t.args, t.namespace));
    }
  }

  /** With no thinking open, both sides write a waiting envelope as an item of its own. */
  lemma FlushEnvelopeAligned(cfg: Config, c: Core, b: B.Batch)
    requires Aligned(cfg, c, b) && !cfg.hide && c.reasoning.None?
    ensures Aligned(cfg, FlushEnvelope(c), B.FlushSummary(cfg, b))
  {
    hide StripAll;
    if HasEnvelope(c) {
      var envelope := PendingEnvelope(c, None);
      StripSnoc(c.finished, Reasoning(c.nextId, [], None, envelope));
      StripSnoc(b.output, Reasoning(b.nextId, [], None, envelope));
    }
  }

  lemma CloseContentAligned(cfg: Config, c: Core, b: B.Batch)
    requires Aligned(cfg, c, b) && !cfg.hide
    ensures Aligned(cfg, CloseContent(cfg, c), B.Settle(cfg, b))
    ensures var d := CloseContent(cfg, c);
      d.msg.None? && d.reasoning.None? && d.raw.None? && d.tool.None?
  {
    hide StripAll, SameCall, CloseMessage, CloseReasoning, CloseRaw, CloseTool,
         B.FlushText, B.FlushOpenSummary, B.FlushRaw, B.FlushCall;
    CloseMessageAligned(cfg, c, b, Some(Commentary));
    var c1, b1 := CloseMessage(c, Some(Commentary)), B.FlushText(b, Some(Commentary));
    CloseReasoningAligned(cfg, c1, b1);
    var c2, b2 := CloseReasoning(c1), B.FlushOpenSummary(cfg, b1);
    CloseRawAligned(cfg, c2, b2);
    CloseToolAligned(cfg, CloseRaw(c2), B.FlushRaw(cfg, b2));
  }

  // ---------------------------------------------------------------------------
  // One event, nothing sealed and no search open
  // ---------------------------------------------------------------------------

  lemma TextAligned(cfg: Config, c: Core, b: B.Batch, text: Str, phase: Option<Phase>)
    requires Aligned(cfg, c, b) && !cfg.hide && !cfg.compaction && Extends(c, TextDelta(text, phase))
    ensures Aligned(cfg, OnText(cfg, c, text, phase), B.TakeText(cfg, b, text, phase))
  {
    hide Aligned, CloseReasoning, CloseRaw, CloseTool, FlushHiddenRaw, B.FlushOpenSummary, B.FlushRaw, B.FlushCall, B.FlushText, MessageFor, AppendText;
    if c.msg.Some? {
      MoreText(cfg, c, b, text, phase);
    } else {
      FirstText(cfg, c, b, text, phase);
    }
  }

  lemma MoreText(cfg: Config, c: Core, b: B.Batch, text: Str, phase: Option<Phase>)
    requires Aligned(cfg, c, b) && !cfg.hide && !cfg.compaction && Extends(c, TextDelta(text, phase)) && c.msg.Some?
    ensures Aligned(cfg, OnText(cfg, c, text, phase), B.TakeText(cfg, b, text, phase))
  {
    hide StripAll, SameCall, CloseReasoning, CloseRaw, CloseTool, CloseMessage,
         B.FlushOpenSummary, B.FlushRaw, B.FlushCall, B.FlushText;
    CloseMessageAligned(cfg, c, b, Some(Commentary));
  }

  lemma FirstText(cfg: Config, c: Core, b: B.Batch, text: Str, phase: Option<Phase>)
    requires Aligned(cfg, c, b) && !cfg.hide && !cfg.compaction && text != [] && c.msg.None?
    ensures Aligned(cfg, OnText(cfg, c, text, phase), B.TakeText(cfg, b, text, phase))
  {
    hide StripAll, SameCall, CloseReasoning, CloseRaw, CloseTool, CloseMessage,
         B.FlushOpenSummary, B.FlushRaw, B.FlushCall, B.FlushText;
    CloseReasoningAligned(cfg, c, b);
    CloseRawAligned(cfg, CloseReasoning(c), B.FlushOpenSummary(cfg, b));
    CloseToolAligned(cfg, CloseRaw(CloseReasoning(c)), B.FlushRaw(cfg, B.FlushOpenSummary(cfg, b)));
  }

  /** An empty delta that opens an item: everything else is closed on both sides. */
  lemma OpeningBegins(cfg: Config, c: Core, b: B.Batch, e: Event)
    requires Aligned(cfg, c, b) && !cfg.hide && !cfg.compaction && !Extends(c, e)
    ensures Opening(cfg, Handle(cfg, c, e), B.Take(cfg, b, e))
  {
    hide StripAll, SameCall, CloseReasoning, CloseRaw, CloseTool, CloseMessage, B.FlushSummary,
         B.FlushOpenSummary, B.FlushRaw, B.FlushCall, B.FlushText, B.TakeSearchEnd;
    CloseMessageAligned(cfg, c, b, Some(Commentary));
    var c1, b1 := CloseMessage(c, Some(Commentary)), B.FlushText(b, Some(Commentary));
    match e {
      case TextDelta(_, _) => OpeningText(cfg, c, b, e.phase);
      case ThinkingDelta(_) =>
        CloseRawAligned(cfg, c1, b1);
        CloseToolAligned(cfg, CloseRaw(c1), B.FlushRaw(cfg, b1));
      case RawDelta(_) =>
        CloseReasoningAligned(cfg, c1, b1);
        CloseToolAligned(cfg, CloseReasoning(c1), B.FlushOpenSummary(cfg, b1));
    }
  }

  lemma OpeningText(cfg: Config, c: Core, b: B.Batch, phase: Option<Phase>)
    requires Aligned(cfg, c, b) && !cfg.hide && !cfg.compaction && !Continues(c, TextDelta([], phase))
    ensures Opening(cfg, OnText(cfg, c, [], phase), B.TakeText(cfg, b, [], phase))
  {
    hide Aligned, Opening, OnText, B.TakeText;
    if c.msg.Some? { NextMessage(cfg, c, b, phase); } else { FirstMessage(cfg, c, b, phase); }
  }

  /** The open message has another phase: it is closed first. */
  lemma NextMessage(cfg: Config, c: Core, b: B.Batch, phase: Option<Phase>)
    requires Aligned(cfg, c, b) && !cfg.hide && !cfg.compaction && c.msg.Some? && !Continues(c, TextDelta([], phase))
    ensures Opening(cfg, OnText(cfg, c, [], phase), B.TakeText(cfg, b, [], phase))
  {
    hide StripAll, SameCall, CloseReasoning, CloseRaw, CloseTool, CloseMessage,
         B.FlushOpenSummary, B.FlushRaw, B.FlushCall, B.FlushText;
    CloseMessageAligned(cfg, c, b, Some(Commentary));
  }

  lemma FirstMessage(cfg: Config, c: Core, b: B.Batch, phase: Option<Phase>)
    requires Aligned(cfg, c, b) && !cfg.hide && !cfg.compaction && c.msg.None?
    ensures Opening(cfg, OnText(cfg, c, [], phase), B.TakeText(cfg, b, [], phase))
  {
    hide StripAll, SameCall, CloseReasoning, CloseRaw, CloseTool, CloseMessage,
         B.FlushOpenSummary, B.FlushRaw, B.FlushCall, B.FlushText;
    CloseReasoningAligned(cfg, c, b);
    CloseRawAligned(cfg, CloseReasoning(c), B.FlushOpenSummary(cfg, b));
    CloseToolAligned(cfg, CloseRaw(CloseReasoning(c)), B.FlushRaw(cfg, B.FlushOpenSummary(cfg, b)));
  }

  /** An item that is still empty goes on: it stays empty, or both sides have its first text. */
  lemma OpeningStep(cfg: Config, c: Core, b: B.Batch, e: Event)
    requires Opening(cfg, c, b) && Disciplined(c, e) && Matched(c, b, e) && !cfg.hide && !cfg.compaction
    ensures Aligned(cfg, Handle(cfg, c, e), B.Take(cfg, b, e)) || Opening(cfg, Handle(cfg, c, e), B.Take(cfg, b, e))
  {
    assert HollowOpen(c);
    hide Opening, Aligned, OnSearchEnd, FlushEnvelope, OnText, OnThinking, OnRaw, OnToolDelta, CloseTool, B.TakeSearchEnd, B.TakeText,
         B.FlushSummary, B.FlushOpenSummary, B.FlushRaw, B.FlushCall, B.FlushText;
    match e {
      case SearchEnd(_, _, _, _) => OpeningSearchEnd(cfg, c, b, e);
      case ThinkingSignature(sig) => OpeningSignature(cfg, c, b, sig);
      case TextDelta(_, _) => OpeningExtends(cfg, c, b, e);
      case ThinkingDelta(_) => OpeningExtends(cfg, c, b, e);
      case RawDelta(_) => OpeningExtends(cfg, c, b, e);
      case _ => OpeningWaits(cfg, c, b, e);
    }
  }

  lemma OpeningExtends(cfg: Config, c: Core, b: B.Batch, e: Event)
    requires Opening(cfg, c, b) && (e.TextDelta? || e.ThinkingDelta? || e.RawDelta?) && Continues(c, e) && !cfg.hide && !cfg.compaction
    ensures Aligned(cfg, Handle(cfg, c, e), B.Take(cfg, b, e)) || Opening(cfg, Handle(cfg, c, e), B.Take(cfg, b, e))
  {
    hide StripAll, SameCall, B.FlushSummary, MergeSources, SearchAction, B.TakeSearchEnd, OnSearchEnd, FlushEnvelope;
  }

  lemma OpeningWaits(cfg: Config, c: Core, b: B.Batch, e: Event)
    requires Opening(cfg, c, b) && (e.Heartbeat? || e.RedactedThinking? || e.ToolDelta? || e.ToolEnd?) && !cfg.compaction
    ensures Opening(cfg, Handle(cfg, c, e), B.Take(cfg, b, e))
  {
    hide StripAll, SameCall, B.Settle, B.TakeText, B.FlushSummary, MergeSources, SearchAction, B.TakeSearchEnd, OnSearchEnd, FlushEnvelope;
  }

  lemma SearchEndApart(c: Core, e: Event)
    requires e.SearchEnd?
    ensures var d := OnSearchEnd(c, e.id, e.queries, e.status, e.sources);
      OnSearchEnd(Unopened(c), e.id, e.queries, e.status, e.sources) == Unopened(d)
      && d.msg == c.msg && d.reasoning == c.reasoning && d.raw == c.raw && d.tool == c.tool
  {
    hide MergeSources, SearchAction;
  }

  lemma SearchEndPhase(cfg: Config, b: B.Batch, e: Event)
    requires e.SearchEnd? && b.text == [] && b.summary == [] && b.raw == [] && b.callId == []
    ensures var d := B.TakeSearchEnd(cfg, b, e.queries, e.status, e.sources);
      B.TakeSearchEnd(cfg, b.(textPhase := None), e.queries, e.status, e.sources) == d.(textPhase := None) && d.textPhase == b.textPhase
  {
    hide B.FlushText, B.FlushSummary, B.FlushRaw, B.FlushCall, MergeSources, SearchAction;
  }

  lemma NothingHeld(cfg: Config, c: Core, b: B.Batch)
    requires Opening(cfg, c, b)
    ensures b.text == [] && b.summary == [] && b.raw == [] && b.callId == [] && Idle(Unopened(c))
    ensures Aligned(cfg, Unopened(c), b.(textPhase := None))
  {
    hide StripAll, SameCall;
  }

  lemma OpeningSearchEnd(cfg: Config, c: Core, b: B.Batch, e: Event)
    requires Opening(cfg, c, b) && e.SearchEnd? && Matched(c, b, e) && !cfg.hide && !cfg.compaction
    ensures Opening(cfg, Handle(cfg, c, e), B.Take(cfg, b, e))
  {
    hide Aligned, OnSearchEnd, B.TakeSearchEnd, B.Settle;
    NothingHeld(cfg, c, b);
    SearchEndApart(c, e);
    SearchEndPhase(cfg, b, e);
    var c0, b0 := Unopened(c), b.(textPhase := None);
    SettleIdle(cfg, c0, b0);
    SearchEndAligned(cfg, c0, b0, e);
  }

  lemma OpeningSignature(cfg: Config, c: Core, b: B.Batch, sig: Str)
    requires Opening(cfg, c, b) && c.reasoning.None? && sig != [] && !cfg.hide
    ensures Opening(cfg, OnSignature(c, sig), B.FlushSummary(cfg, b.(signature := Some(sig))))
  {
    hide StripAll, SameCall;
    var envelope := Some(Envelope(Some(sig), c.redacted, None));
    StripSnoc(c.finished, Reasoning(c.nextId, [], None, envelope));
    StripSnoc(b.output, Reasoning(b.nextId, [], None, envelope));
    var c1 := c.(signature := Some(sig));
    assert PendingEnvelope(c1, Truthy(Some(c1.hiddenThinking))) == envelope;
    assert FlushEnvelope(c1).finished == c.finished + [Reasoning(c.nextId, [], None, envelope)];
  }

  lemma ThinkingAligned(cfg: Config, c: Core, b: B.Batch, text: Str)
    requires Aligned(cfg, c, b) && !cfg.hide && (text != [] || c.reasoning.Some?)
    ensures Aligned(cfg, OnThinking(cfg, c, text), B.Take(cfg, b, ThinkingDelta(text)))
  {
    hide StripAll, SameCall, CloseReasoning, CloseRaw, CloseTool, CloseMessage, B.FlushSummary,
         B.FlushOpenSummary, B.FlushRaw, B.FlushCall, B.FlushText, B.TakeText, B.TakeSearchEnd;
    CloseMessageAligned(cfg, c, b, Some(Commentary));
    var c1, b1 := CloseMessage(c, Some(Commentary)), B.FlushText(b, Some(Commentary));
    CloseRawAligned(cfg, c1, b1);
    CloseToolAligned(cfg, CloseRaw(c1), B.FlushRaw(cfg, b1));
  }

  lemma RawAligned(cfg: Config, c: Core, b: B.Batch, text: Str)
    requires Aligned(cfg, c, b) && !cfg.hide && (text != [] || c.raw.Some?)
    ensures Aligned(cfg, OnRaw(cfg, c, text), B.Take(cfg, b, RawDelta(text)))
  {
    hide StripAll, SameCall, CloseReasoning, CloseRaw, CloseTool, CloseMessage, B.FlushSummary,
         B.FlushOpenSummary, B.FlushRaw, B.FlushCall, B.FlushText, B.TakeText, B.TakeSearchEnd;
    CloseMessageAligned(cfg, c, b, Some(Commentary));
    var c1, b1 := CloseMessage(c, Some(Commentary)), B.FlushText(b, Some(Commentary));
    CloseReasoningAligned(cfg, c1, b1);
    CloseToolAligned(cfg, CloseReasoning(c1), B.FlushOpenSummary(cfg, b1));
  }

  lemma ToolStartAligned(cfg: Config, c: Core, b: B.Batch, id: Str, name: Str)
    requires Aligned(cfg, c, b) && !cfg.hide && id != []
    ensures Aligned(cfg, StartTool(cfg, CloseContent(cfg, c), id, name), B.Take(cfg, b, ToolStart(id, name)))
  {
    hide StripAll, CloseContent, B.Settle, B.FlushSummary,
         B.FlushOpenSummary, B.FlushRaw, B.FlushCall, B.FlushText, B.TakeText, B.TakeSearchEnd;
    CloseContentAligned(cfg, c, b);
  }

  lemma ToolDeltaAligned(cfg: Config, c: Core, b: B.Batch, more: Str)
    requires Aligned(cfg, c, b)
    ensures Aligned(cfg, OnToolDelta(c, more), b.(callArgs := b.callArgs + more))
  {
    hide StripAll;
  }

  /** Message, reasoning, raw and tool, then the envelope: equal when redacted blocks are in order. */
  lemma BoundaryAligned(cfg: Config, c: Core, b: B.Batch, inferred: Option<Phase>)
    requires Aligned(cfg, c, b) && !cfg.hide && RedactedInOrder(b)
    ensures var closed := CloseTool(cfg, FlushHiddenRaw(CloseRaw(CloseReasoning(CloseMessage(c, inferred)))));
      var flushed := B.FlushCall(cfg, B.FlushRaw(cfg, B.FlushSummary(cfg, B.FlushText(b, inferred))));
      Aligned(cfg, FlushEnvelope(closed), flushed)
  {
    hide StripAll, SameCall, CloseReasoning, CloseRaw, CloseTool, CloseMessage, FlushEnvelope,
         B.FlushRaw, B.FlushCall, B.FlushText, B.FlushSummary;
    CloseMessageAligned(cfg, c, b, inferred);
    var c1, b1 := CloseMessage(c, inferred), B.FlushText(b, inferred);
    HeldTogether(cfg, c, b);
    if c.reasoning.Some? {
      CloseReasoningAligned(cfg, c1, b1);
      DroppedEnvelope(c1);
      FlushEnvelopeAligned(cfg, CloseReasoning(c1), B.FlushSummary(cfg, b1));
    } else if c.redacted != [] {
      FlushEnvelopeAligned(cfg, c1, b1);
    } else {
      CloseRawAligned(cfg, c1, b1);
      CloseToolAligned(cfg, CloseRaw(c1), B.FlushRaw(cfg, b1));
      FlushEnvelopeAligned(cfg, CloseTool(cfg, CloseRaw(c1)), B.FlushCall(cfg, B.FlushRaw(cfg, b1)));
    }
  }

  /** What is open on one side is held on the other. */
  lemma HeldTogether(cfg: Config, c: Core, b: B.Batch)
    requires Aligned(cfg, c, b)
    ensures (c.raw.Some? <==> b.raw != []) && (c.tool.Some? <==> b.callId != []) && c.redacted == b.redacted
    ensures if Idle(c) then !Holding(b) else HoldsOne(b)
  {
    hide StripAll, RealName, NamespaceOf, KindOf;
  }

  lemma DroppedEnvelope(c: Core)
    requires c.reasoning.Some? && c.signature.None?
    ensures !HasEnvelope(CloseReasoning(c))
  {
  }

  /** With nothing open in the stream, the end of a search finds both sides settled. */
  lemma SearchEndAligned(cfg: Config, c: Core, b: B.Batch, e: Event)
    requires e.SearchEnd? && !cfg.hide && !cfg.compaction && Idle(c)
    requires Aligned(cfg, c, B.Settle(cfg, b)) && Matched(c, b, e)
    ensures Aligned(cfg, Handle(cfg, c, e), B.Take(cfg, b, e))
  {
    hide StripAll, SameCall, B.Settle, B.FlushSummary, B.FlushOpenSummary, B.FlushRaw, B.FlushCall, B.FlushText,
         B.TakeText, SearchAction, MergeSources;
    var b1 := B.Settle(cfg, b);
    var final := if e.status.Some? then e.status.value else SearchCompleted;
    var id := if c.search.Some? then c.search.value.id else c.nextId;
    StripSnoc(c.finished, WebSearch(id, final, Some(SearchAction(e.queries)), SourcesOf(e.sources)));
    StripSnoc(b1.output, WebSearch(b1.nextId, final, Some(SearchAction(e.queries)), SourcesOf(e.sources)));
  }

  lemma SettleIdle(cfg: Config, c: Core, b: B.Batch)
    requires Aligned(cfg, c, b) && Idle(c)
    ensures B.Settle(cfg, b) == b && !Holding(b)
  {
    hide StripAll, SameCall;
  }

  lemma SearchBeginRelated(cfg: Config, c: Core, b: B.Batch, id: Str)
    requires Aligned(cfg, c, b) && !cfg.hide && c.search.None?
    ensures Related(cfg, OnSearchBegin(cfg, c, id), b)
  {
    hide StripAll, SameCall, CloseContent, B.Settle, HoldsOne;
    CloseContentAligned(cfg, c, b);
    HeldTogether(cfg, c, b);
    if Idle(c) { SettleIdle(cfg, c, b); }
  }

  lemma SignatureRelated(cfg: Config, c: Core, b: B.Batch, sig: Str)
    requires Aligned(cfg, c, b) && !cfg.hide && sig != []
    ensures Related(cfg, OnSignature(c, sig), B.FlushSummary(cfg, b.(signature := Some(sig))))
  {
    hide StripAll, RealName, NamespaceOf, KindOf;
    var envelope := Some(Envelope(Some(sig), c.redacted, None));
    if c.reasoning.Some? {
      var r := c.reasoning.value;
      StripSnoc(c.finished, Reasoning(r.id, [r.text], None, envelope));
      StripSnoc(b.output, Reasoning(b.nextId, [r.text], None, envelope));
    } else {
      StripSnoc(c.finished, Reasoning(c.nextId, [], None, envelope));
      StripSnoc(b.output, Reasoning(b.nextId, [], None, envelope));
      var c1 := c.(signature := Some(sig));
      assert PendingEnvelope(c1, Truthy(Some(c1.hiddenThinking))) == envelope;
      assert FlushEnvelope(c1).finished == c.finished + [Reasoning(c.nextId, [], None, envelope)];
      assert Aligned(cfg, FlushEnvelope(c1), B.FlushSummary(cfg, b.(signature := Some(sig))));
    }
  }

  // ---------------------------------------------------------------------------
  // One event, in general
  // ---------------------------------------------------------------------------

  /** These events leave an open reasoning item open, or need it closed first. */
  predicate KeepsOpen(e: Event) {
    e.Heartbeat? || e.ToolDelta? || e.ToolEnd? || e.ThinkingDelta? || e.ThinkingSignature? || e.RedactedThinking? || e.SearchEnd?
  }

  /** Any other event closes an open reasoning item before anything else. */
  lemma SealedStep(cfg: Config, c: Core, e: Event)
    requires c.reasoning.Some? && c.msg.None? && c.raw.None? && c.tool.None? && !cfg.hide && !cfg.compaction
    requires !KeepsOpen(e)
    ensures Handle(cfg, c, e) == Handle(cfg, CloseReasoning(c), e)
  {
    hide CloseReasoning, FlushEnvelope, FlushHiddenRaw, MessageFor, AppendText, StartTool, StartSearch, StartRaw, AppendRaw, End, CloseSearch;
    assert CloseReasoning(CloseReasoning(c)) == CloseReasoning(c);
  }

  lemma StepRelated(cfg: Config, c: Core, b: B.Batch, e: Event)
    requires Related(cfg, c, b) && Disciplined(c, e) && Matched(c, b, e) && !e.IsTerminal() && !cfg.hide && !cfg.compaction
    ensures Related(cfg, Handle(cfg, c, e), B.Take(cfg, b, e))
  {
    hide Handle, B.Take, Aligned, SealedPair, Lagging, Opening, Disciplined, Matched;
    if Aligned(cfg, c, b) {
      PlainStep(cfg, c, b, e);
    } else if SealedPair(cfg, c, b) {
      SealedPairStep(cfg, c, b, e);
    } else if Opening(cfg, c, b) {
      OpeningStep(cfg, c, b, e);
    } else {
      LaggingStep(cfg, c, b, e);
    }
  }

  lemma SealedPairStep(cfg: Config, c: Core, b: B.Batch, e: Event)
    requires SealedPair(cfg, c, b) && Disciplined(c, e) && Matched(c, b, e) && !e.IsTerminal() && !cfg.hide && !cfg.compaction
    ensures Related(cfg, Handle(cfg, c, e), B.Take(cfg, b, e))
  {
    if KeepsOpen(e) {
      SealedIdle(cfg, c, b, e);
    } else {
      hide Handle, Aligned, B.Take, CloseReasoning;
      SealedStep(cfg, c, e);
      SealedReduces(cfg, c, b, e);
      PlainStep(cfg, CloseReasoning(c), b, e);
    }
  }

  lemma SealedIdle(cfg: Config, c: Core, b: B.Batch, e: Event)
    requires SealedPair(cfg, c, b) && KeepsOpen(e) && Matched(c, b, e) && !cfg.compaction && !cfg.hide
    ensures SealedPair(cfg, Handle(cfg, c, e), B.Take(cfg, b, e))
  {
    if e.ThinkingDelta? {
      SealedThinking(cfg, c, b);
    } else {
      hide StripAll, SameOpen, CloseReasoning, CloseTool, B.FlushCall, B.FlushRaw, B.FlushText, B.FlushSummary, B.TakeText;
      NoCallHeld(cfg, c, b);
      if e.ToolDelta? { MoreArguments(cfg, CloseReasoning(c), b, e.arguments); }
    }
  }

  lemma NoCallHeld(cfg: Config, c: Core, b: B.Batch)
    requires SealedPair(cfg, c, b)
    ensures b.callId == [] && b.text == [] && b.raw == [] && b.summary == []
  {
    hide StripAll, SameCall;
  }

  lemma MoreArguments(cfg: Config, c: Core, b: B.Batch, more: Str)
    requires Aligned(cfg, c, b) && b.callId == []
    ensures Aligned(cfg, c, b.(callArgs := b.callArgs + more))
  {
    hide StripAll;
  }

  /** An empty delta after the signature changes nothing on either side. */
  lemma SealedThinking(cfg: Config, c: Core, b: B.Batch)
    requires SealedPair(cfg, c, b) && !cfg.hide && !cfg.compaction
    ensures SealedPair(cfg, Handle(cfg, c, ThinkingDelta([])), B.Take(cfg, b, ThinkingDelta([])))
  {
    NoCallHeld(cfg, c, b);
    hide StripAll, SameOpen, CloseReasoning, CloseTool, CloseRaw, CloseMessage, FlushHiddenRaw, B.FlushCall, B.FlushRaw, B.FlushText;
    assert c.reasoning.value.text + [] == c.reasoning.value.text;
    var r := Handle(cfg, c, ThinkingDelta([]));
    assert c.hiddenRaw == [];
    assert r == c.(log := r.log);
    LogApart(c, r.log);
  }

  lemma LogApart(c: Core, log: seq<Frame>)
    ensures var d := CloseReasoning(c.(log := log)); d == CloseReasoning(c).(log := d.log)
  {
  }

  /** Closing the sealed item first leaves an aligned pair on which discipline and guard still hold. */
  lemma SealedReduces(cfg: Config, c: Core, b: B.Batch, e: Event)
    requires SealedPair(cfg, c, b) && Disciplined(c, e) && !KeepsOpen(e) && !cfg.hide
    ensures var d := CloseReasoning(c);
      && Aligned(cfg, d, b) && Disciplined(d, e) && (Matched(d, b, e) <==> Matched(c, b, e))
  {
    var d := CloseReasoning(c);
    assert Idle(d) && d.redacted == [] && d.search == c.search;
    HeldTogether(cfg, d, b);
    hide StripAll, SameOpen, CloseReasoning, Holding;
  }

  /** The events before which the batch writes out what it holds, exactly as at the end of a search. */
  predicate Releases(b: B.Batch, e: Event) {
    match e
    case TextDelta(_, phase) => b.text == [] || (phase.Some? && phase != b.textPhase)
    case ThinkingDelta(_) => b.summary == []
    case RawDelta(_) => b.raw == []
    case ToolStart(_, _) => true
    case ToolEnd => b.callId != []
    case Boundary => RedactedInOrder(b)
    case _ => false
  }

  lemma ReleaseSettles(cfg: Config, b: B.Batch, e: Event)
    requires HoldsOne(b) && Releases(b, e) && !cfg.hide
    ensures B.Take(cfg, b, e) == B.Take(cfg, B.Settle(cfg, b), e)
  {
    hide B.Settle, B.Take;
    if b.text != [] { ReleaseText(cfg, b, e); }
    else if b.summary != [] { ReleaseSummary(cfg, b, e); }
    else if b.raw != [] { ReleaseRaw(cfg, b, e); }
    else { ReleaseCall(cfg, b, e); }
  }

  lemma ReleaseText(cfg: Config, b: B.Batch, e: Event)
    requires HoldsOne(b) && Releases(b, e) && b.text != []
    ensures B.Take(cfg, b, e) == B.Take(cfg, B.Settle(cfg, b), e)
  {
    hide B.FlushText, B.FlushSummary, B.FlushRaw, B.FlushCall, B.TakeSearchEnd, B.TakeDone, B.HasEnvelope;
    assert B.Settle(cfg, b) == B.FlushText(b, Some(Commentary));
    hide B.Settle;
  }

  lemma ReleaseSummary(cfg: Config, b: B.Batch, e: Event)
    requires HoldsOne(b) && Releases(b, e) && b.summary != []
    ensures B.Take(cfg, b, e) == B.Take(cfg, B.Settle(cfg, b), e)
  {
    hide B.FlushText, B.FlushSummary, B.FlushRaw, B.FlushCall, B.TakeSearchEnd, B.TakeDone, B.HasEnvelope;
    assert B.Settle(cfg, b) == B.FlushSummary(cfg, b);
  }

  lemma ReleaseRaw(cfg: Config, b: B.Batch, e: Event)
    requires HoldsOne(b) && Releases(b, e) && b.raw != []
    ensures B.Take(cfg, b, e) == B.Take(cfg, B.Settle(cfg, b), e)
  {
    hide B.FlushText, B.FlushSummary, B.FlushRaw, B.FlushCall, B.TakeSearchEnd, B.TakeDone;
    assert B.Settle(cfg, b) == B.FlushRaw(cfg, b);
  }

  lemma ReleaseCall(cfg: Config, b: B.Batch, e: Event)
    requires HoldsOne(b) && Releases(b, e) && b.callId != []
    ensures B.Take(cfg, b, e) == B.Take(cfg, B.Settle(cfg, b), e)
  {
    hide B.FlushText, B.FlushSummary, B.FlushRaw, B.FlushCall, B.TakeSearchEnd, B.TakeDone;
    assert B.Settle(cfg, b) == B.FlushCall(cfg, b);
  }

  lemma LaggingStep(cfg: Config, c: Core, b: B.Batch, e: Event)
    requires Lagging(cfg, c, b) && Disciplined(c, e) && Matched(c, b, e) && !e.IsTerminal() && !cfg.hide && !cfg.compaction
    ensures Related(cfg, Handle(cfg, c, e), B.Take(cfg, b, e))
  {
    hide Aligned, B.Settle;
    var settled := B.Settle(cfg, b);
    if Releases(b, e) {
      hide Handle, B.Take;
      ReleaseSettles(cfg, b, e);
      SettledMatched(cfg, c, b, e);
      PlainStep(cfg, c, settled, e);
    } else if e.SearchEnd? {
      hide Handle, B.Take;
      SearchEndAligned(cfg, c, b, e);
    } else {
      LaggingStays(cfg, c, b, e);
    }
  }

  lemma SettledMatched(cfg: Config, c: Core, b: B.Batch, e: Event)
    requires Lagging(cfg, c, b) && Matched(c, b, e) && Releases(b, e)
    ensures Matched(c, B.Settle(cfg, b), e)
  {
    hide StripAll, SameCall, B.Settle;
  }

  /** Nothing the batch writes out: the lag stays as it is. */
  lemma LaggingStays(cfg: Config, c: Core, b: B.Batch, e: Event)
    requires Lagging(cfg, c, b) && Matched(c, b, e) && Disciplined(c, e) && !cfg.hide && !cfg.compaction
    requires !Releases(b, e) && !e.SearchEnd? && !e.IsTerminal()
    ensures Lagging(cfg, Handle(cfg, c, e), B.Take(cfg, b, e))
  {
    hide StripAll, SameCall, RealName, NamespaceOf, KindOf, ToolItem, Citations;
  }

  lemma PlainStep(cfg: Config, c: Core, b: B.Batch, e: Event)
    requires Aligned(cfg, c, b) && Disciplined(c, e) && Matched(c, b, e) && !e.IsTerminal() && !cfg.hide && !cfg.compaction
    ensures Related(cfg, Handle(cfg, c, e), B.Take(cfg, b, e))
  {
    hide StripAll, SameOpen, OnText, OnThinking, OnRaw, OnSignature, OnToolDelta, OnSearchBegin, OnSearchEnd,
         StartTool, CloseContent, CloseTool, FlushEnvelope, OnDone, CloseAll, CloseReasoning,
         B.Settle, B.FlushSummary, B.FlushOpenSummary, B.FlushRaw, B.FlushCall, B.FlushText, B.TakeText, B.TakeSearchEnd;
    if !Extends(c, e) {
      OpeningBegins(cfg, c, b, e);
      return;
    }
    match e {
      case Heartbeat =>
      case TextDelta(text, phase) => TextAligned(cfg, c, b, text, phase);
      case ThinkingDelta(text) => ThinkingAligned(cfg, c, b, text);
      case ThinkingSignature(sig) => SignatureRelated(cfg, c, b, sig);
      case RedactedThinking(data) => RedactedAligned(cfg, c, b, data);
      case RawDelta(text) => RawAligned(cfg, c, b, text);
      case ToolStart(id, name) => ToolStartAligned(cfg, c, b, id, name);
      case ToolDelta(more) => ToolDeltaAligned(cfg, c, b, more);
      case ToolEnd => CloseToolAligned(cfg, c, b);
      case Boundary => BoundaryStep(cfg, c, b);
      case SearchBegin(id) => SearchBeginRelated(cfg, c, b, id);
      case SearchEnd(_, _, _, _) =>
        AlignedFilled(cfg, c, b);
        SettleIdle(cfg, c, b);
        SearchEndAligned(cfg, c, b, e);
    }
  }

  lemma AlignedFilled(cfg: Config, c: Core, b: B.Batch)
    requires Aligned(cfg, c, b) || SealedPair(cfg, c, b) || Lagging(cfg, c, b)
    ensures !HollowOpen(c) && !Opening(cfg, c, b)
  {
    hide StripAll, SameCall, B.Settle, CloseReasoning;
  }

  lemma RedactedAligned(cfg: Config, c: Core, b: B.Batch, data: Str)
    requires Aligned(cfg, c, b)
    ensures Aligned(cfg, c.(redacted := c.redacted + [data]), b.(redacted := b.redacted + [data]))
  {
    hide StripAll;
  }

  lemma BoundaryStep(cfg: Config, c: Core, b: B.Batch)
    requires Aligned(cfg, c, b) && !cfg.hide && RedactedInOrder(b)
    ensures Aligned(cfg, OnBoundary(cfg, c), B.Take(cfg, b, Boundary))
  {
    hide Aligned, CloseReasoning, CloseRaw, CloseTool, CloseMessage, FlushEnvelope, FlushHiddenRaw,
         B.FlushRaw, B.FlushCall, B.FlushText, B.FlushSummary, B.FlushOpenSummary, B.TakeText, B.TakeSearchEnd;
    BoundaryAligned(cfg, c, b, Some(Commentary));
  }

  // ---------------------------------------------------------------------------
  // The terminal event and whole runs
  // ---------------------------------------------------------------------------

  /** No terminal event has been taken yet. */
  predicate NoEnding(b: B.Batch) {
    b.failed.None? && b.cut.None? && b.endTurn.None? && b.stop.None? && !b.cleanDone
  }

  predicate SameResponse(c: Core, r: B.Response) {
    && c.log != []
    && (var last := c.log[|c.log| - 1];
        && last.Terminal? && last.output == c.finished
        && last.status == r.status && last.endTurn == r.endTurn
        && last.detail == (if r.status.Failed? then r.failure else r.details))
    && StripAll(c.finished) == StripAll(r.output)
  }

  lemma SameClosing(c: Core, b: B.Batch, x: Option<Phase>, y: Option<Phase>)
    requires x == y || c.msg.None? || c.msg.value.phase.Some?
    ensures CloseMessage(c, x) == CloseMessage(c, y)
  {
  }

  lemma DoneMatches(cfg: Config, c: Core, b: B.Batch, stop: Option<Stop>, endTurn: Option<bool>)
    requires Aligned(cfg, c, b) && NoEnding(b) && Matched(c, b, Done(stop, endTurn)) && !cfg.hide && !cfg.compaction
    ensures SameResponse(OnDone(cfg, c, stop, endTurn), B.Respond(cfg, B.Take(cfg, b, Done(stop, endTurn))))
  {
    hide StripAll, SameOpen, CloseReasoning, CloseRaw, CloseTool, CloseMessage, FlushEnvelope, FlushHiddenRaw,
         B.FlushRaw, B.FlushCall, B.FlushText, B.FlushSummary, B.FlushOpenSummary, B.TakeText, B.TakeSearchEnd;
    var d := B.Take(cfg, b, Done(stop, endTurn));
    var final := if d.cleanDone then Some(FinalAnswer) else None;
    AlignedEnding(cfg, c, b, d);
    BoundaryAligned(cfg, c, d, final);
    SameClosing(c, d, final, InferredFinal(stop));
  }

  lemma AlignedEnding(cfg: Config, c: Core, b: B.Batch, d: B.Batch)
    requires Aligned(cfg, c, b)
    requires d == b.(failed := d.failed, cut := d.cut, endTurn := d.endTurn, cleanDone := d.cleanDone, stop := d.stop)
    ensures Aligned(cfg, c, d)
  {
    hide StripAll;
  }

  lemma CutMatches(cfg: Config, c: Core, b: B.Batch, e: Event)
    requires Aligned(cfg, c, b) && NoEnding(b) && Matched(c, b, e) && e.Incomplete? && !cfg.hide && !cfg.compaction
    ensures SameResponse(Handle(cfg, c, e), B.Respond(cfg, B.Take(cfg, b, e)))
  {
    hide StripAll, SameOpen, CloseReasoning, CloseRaw, CloseTool, CloseMessage, FlushEnvelope, FlushHiddenRaw,
         B.FlushRaw, B.FlushCall, B.FlushText, B.FlushSummary, B.FlushOpenSummary, B.TakeText, B.TakeSearchEnd;
    var d := B.Take(cfg, b, e);
    AlignedEnding(cfg, c, b, d);
    BoundaryAligned(cfg, c, d, None);
  }

  lemma NoEnvelopeLeft(cfg: Config, c: Core)
    requires c.signature.None? && (c.redacted == [] || c.reasoning.Some?) && c.hiddenRaw == []
    ensures !HasEnvelope(CloseTool(cfg, FlushHiddenRaw(CloseRaw(CloseReasoning(CloseMessage(c, None))))))
  {
    hide CloseMessage, CloseRaw, CloseTool;
  }

  lemma ErrorMatches(cfg: Config, c: Core, b: B.Batch, e: Event)
    requires Aligned(cfg, c, b) && NoEnding(b) && Matched(c, b, e) && e.Error? && !cfg.hide && !cfg.compaction
    ensures SameResponse(Handle(cfg, c, e), B.Respond(cfg, B.Take(cfg, b, e)))
  {
    hide StripAll, CloseReasoning, CloseRaw, CloseTool, CloseMessage, FlushHiddenRaw,
         B.FlushRaw, B.FlushCall, B.FlushText, B.FlushSummary, B.FlushOpenSummary, B.TakeText, B.TakeSearchEnd;
    var d := B.Take(cfg, b, e);
    AlignedEnding(cfg, c, b, d);
    BoundaryAligned(cfg, c, d, None);
    NoEnvelopeLeft(cfg, c);
  }

  lemma TerminalMatches(cfg: Config, c: Core, b: B.Batch, e: Event)
    requires Related(cfg, c, b) && NoEnding(b) && Matched(c, b, e) && e.IsTerminal() && !cfg.hide && !cfg.compaction
    ensures SameResponse(Handle(cfg, c, e), B.Respond(cfg, B.Take(cfg, b, e)))
  {
    hide Aligned, SameResponse, B.Take, B.Respond, CloseReasoning, OnDone, CloseAll, FlushEnvelope, Disciplined;
    if Aligned(cfg, c, b) {
      AlignedTerminal(cfg, c, b, e);
    } else {
      assert Disciplined(c, e) by { AlwaysDisciplined(c, e); }
      SealedStep(cfg, c, e);
      SealedReduces(cfg, c, b, e);
      AlignedTerminal(cfg, CloseReasoning(c), b, e);
    }
  }

  lemma AlwaysDisciplined(c: Core, e: Event)
    requires e.IsTerminal()
    ensures Disciplined(c, e)
  {
  }

  lemma AlignedTerminal(cfg: Config, c: Core, b: B.Batch, e: Event)
    requires Aligned(cfg, c, b) && NoEnding(b) && Matched(c, b, e) && e.IsTerminal() && !cfg.hide && !cfg.compaction
    ensures SameResponse(Handle(cfg, c, e), B.Respond(cfg, B.Take(cfg, b, e)))
  {
    hide Aligned, SameResponse, B.Take, B.Respond, OnDone, CloseAll, FlushEnvelope;
    match e {
      case Done(stop, endTurn) => DoneMatches(cfg, c, b, stop, endTurn);
      case Incomplete(_, _, _, _) => CutMatches(cfg, c, b, e);
      case Error(_, _) => ErrorMatches(cfg, c, b, e);
    }
  }

  /** Every event of the list found both sides in a state that met the guard. */
  predicate AllMatched(cfg: Config, es: seq<Event>) {
    es == [] ||
    (var before, last := es[..|es| - 1], es[|es| - 1];
     AllMatched(cfg, before) && Matched(Run(cfg, EventInputs(before)), B.TakeAll(cfg, before), last))
  }

  predicate AllDisciplined(cfg: Config, es: seq<Event>) {
    es == [] ||
    (var before, last := es[..|es| - 1], es[|es| - 1];
     AllDisciplined(cfg, before) && Disciplined(Run(cfg, EventInputs(before)), last))
  }

  lemma {:induction false} RunsRelated(cfg: Config, es: seq<Event>)
    requires AllMatched(cfg, es) && AllDisciplined(cfg, es) && (forall k :: 0 <= k < |es| ==> !es[k].IsTerminal())
    requires !cfg.hide && !cfg.compaction
    ensures Related(cfg, Run(cfg, EventInputs(es)), B.TakeAll(cfg, es)) && NoEnding(B.TakeAll(cfg, es))
  {
    if es != [] {
      var before, last := es[..|es| - 1], es[|es| - 1];
      RunsRelated(cfg, before);
      RunEvents(cfg, es);
      hide Handle, Run, B.Take, Related, Matched, Disciplined;
      StepRelated(cfg, Run(cfg, EventInputs(before)), B.TakeAll(cfg, before), last);
      TakeKeepsOpen(cfg, B.TakeAll(cfg, before), last);
    }
  }

  lemma TakeKeepsOpen(cfg: Config, b: B.Batch, e: Event)
    requires NoEnding(b) && !e.IsTerminal()
    ensures NoEnding(B.Take(cfg, b, e))
  {
    hide B.FlushRaw, B.FlushCall, B.FlushText, B.FlushSummary, B.FlushOpenSummary, MergeSources, SearchAction;
  }

  /**
   * Streaming refines batch. For every event list that ends in its only terminal event and meets
   * the guard at each step, the terminal frame carries the status, reason and end-of-turn flag of
   * the batch response, and the same items with the same phases, citations, arguments and
   * envelopes, up to fresh identifiers.
   */
  lemma StreamRefinesBatch(cfg: Config, es: seq<Event>)
    requires es != [] && es[|es| - 1].IsTerminal()
    requires forall k :: 0 <= k < |es| - 1 ==> !es[k].IsTerminal()
    requires AllMatched(cfg, es) && AllDisciplined(cfg, es) && !cfg.hide && !cfg.compaction
    ensures SameResponse(Run(cfg, EventInputs(es)), B.BuildResponse(cfg, es))
  {
    hide Handle, Run, B.Take, Related, Matched, Disciplined, B.Respond, SameResponse;
    var before, last := es[..|es| - 1], es[|es| - 1];
    RunsRelated(cfg, before);
    RunEvents(cfg, es);
    TerminalMatches(cfg, Run(cfg, EventInputs(before)), B.TakeAll(cfg, before), last);
  }
}
