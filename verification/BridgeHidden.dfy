/**
 * Thinking the client is not shown. With `hideThinkingSummary` no reasoning is visible, yet it must
 * reach the provider again, inside envelopes. What the envelopes of a response hold is defined here on
 * the event list alone; the stream and the batch cut the text at different events, and for each of them
 * the envelopes of every response are proved to be exactly those.
 */
module BridgeHidden {
  import opened Prelude
  import opened BridgeTypes
  import opened BridgeCore
  import B = BridgeBatch
  import R = BridgeRedacted

  // ---------------------------------------------------------------------------
  // What the envelopes hold, read off the events
  // ---------------------------------------------------------------------------

  /** The event ends the hidden thinking gathered so far: it is written into an envelope now or dropped. */
  predicate Seals(side: Side, e: Event, thinking: Str) {
    || e.ThinkingSignature?
    || e.Boundary?
    || (side.Batched? && (e.TextDelta? || e.RawDelta? || e.ToolStart? || e.SearchEnd?) && thinking != [])
  }

  /** All thinking since the last event that ended it. */
  function ThinkingSince(side: Side, es: seq<Event>): Str {
    if es == [] then []
    else
      var so, last := ThinkingSince(side, es[..|es| - 1]), es[|es| - 1];
      if Seals(side, last, so) then [] else so + (if last.ThinkingDelta? then last.thinking else [])
  }

  /** The redacted blocks since then. */
  function BlocksSince(side: Side, es: seq<Event>): seq<Str> {
    if es == [] then []
    else
      var before, last := es[..|es| - 1], es[|es| - 1];
      if Seals(side, last, ThinkingSince(side, before)) then []
      else BlocksSince(side, before) + (if last.RedactedThinking? then [last.data] else [])
  }

  /** Thinking is kept only under a signature or beside a redacted block. */
  function SealedUnder(sig: Option<Str>, blocks: seq<Str>, thinking: Str): seq<Envelope> {
    if sig == None && blocks == [] then []
    else [Envelope(sig, blocks, if thinking == [] then None else Some(thinking))]
  }

  function SignatureOf(e: Event): Option<Str> {
    if e.ThinkingSignature? && e.sig != [] then Some(e.sig) else None
  }

  function ThinkingSealed(side: Side, before: seq<Event>, e: Event): seq<Envelope> {
    if Seals(side, e, ThinkingSince(side, before)) then SealedUnder(SignatureOf(e), BlocksSince(side, before), ThinkingSince(side, before)) else []
  }

  /** The event ends the raw reasoning gathered so far. */
  predicate SealsRaw(side: Side, e: Event) {
    || e.TextDelta?
    || e.ToolStart?
    || e.Boundary?
    || (side.Streamed? && e.SearchBegin?)
    || (side.Batched? && (e.SearchEnd? || e.ThinkingDelta?))
  }

  function RawSince(side: Side, es: seq<Event>): Str {
    if es == [] then []
    else
      var before, last := es[..|es| - 1], es[|es| - 1];
      if SealsRaw(side, last) then [] else RawSince(side, before) + RawOf(last)
  }

  function RawOf(e: Event): Str {
    if e.RawDelta? then e.text else []
  }

  function RawEnvelope(text: Str): seq<Envelope> {
    if text == [] then [] else [Envelope(None, [], Some(text))]
  }

  function RawSealed(side: Side, before: seq<Event>, e: Event): seq<Envelope> {
    if SealsRaw(side, e) then RawEnvelope(RawSince(side, before)) else []
  }

  /** The stream writes raw reasoning first, the batch thinking. */
  function Written(side: Side, before: seq<Event>, e: Event): seq<Envelope> {
    var thinking, raw := ThinkingSealed(side, before, e), RawSealed(side, before, e);
    if side.Streamed? then raw + thinking else thinking + raw
  }

  /** The envelopes the events call for, in order. */
  function Sealed(side: Side, es: seq<Event>): seq<Envelope> {
    if es == [] then []
    else Sealed(side, es[..|es| - 1]) + Written(side, es[..|es| - 1], es[|es| - 1])
  }

  // ---------------------------------------------------------------------------
  // What the items hold
  // ---------------------------------------------------------------------------

  function EnvelopeOf(item: Item): seq<Envelope> {
    if item.Reasoning? && item.envelope.Some? then [item.envelope.value] else []
  }

  /** The envelopes of all reasoning items, in order. */
  function Envelopes(items: seq<Item>): seq<Envelope> {
    if items == [] then [] else Envelopes(items[..|items| - 1]) + EnvelopeOf(items[|items| - 1])
  }

  /** A reasoning item that shows nothing: an envelope and no text. */
  predicate Veiled(item: Item) {
    item.Reasoning? ==> item.summary == [] && item.content == None && item.envelope.Some?
  }

  predicate AllVeiled(items: seq<Item>) {
    forall i :: 0 <= i < |items| ==> Veiled(items[i])
  }

  lemma EnvelopesSnoc(items: seq<Item>, item: Item)
    ensures Envelopes(items + [item]) == Envelopes(items) + EnvelopeOf(item)
    ensures AllVeiled(items) && Veiled(item) ==> AllVeiled(items + [item])
  {
    assert (items + [item])[..|items|] == items;
  }

  // ---------------------------------------------------------------------------
  // The stream
  // ---------------------------------------------------------------------------

  /** From `c` to `d` the items gained exactly the envelopes `more` and show nothing. */
  predicate Gained(c: Core, d: Core, more: seq<Envelope>) {
    Envelopes(d.finished) == Envelopes(c.finished) + more && (AllVeiled(c.finished) ==> AllVeiled(d.finished))
  }

  lemma GainedBoth(c: Core, d: Core, e: Core, first: seq<Envelope>, second: seq<Envelope>)
    requires Gained(c, d, first) && Gained(d, e, second)
    ensures Gained(c, e, first + second)
  {
    hide Envelopes, AllVeiled;
    assert Envelopes(c.finished) + (first + second) == Envelopes(c.finished) + first + second;
  }

  /** What waits, none of it visible. */
  predicate Waits(c: Core, thinking: Str, blocks: seq<Str>, raw: Str) {
    && c.reasoning.None? && c.raw.None?
    && Truthy(c.signature).None?
    && c.hiddenThinking == thinking && c.redacted == blocks && c.hiddenRaw == raw
  }

  lemma CloseMessageHides(c: Core, inferred: Option<Phase>)
    ensures Gained(c, CloseMessage(c, inferred), [])
  {
    hide Envelopes, AllVeiled;
    if c.msg.Some? {
      var m := c.msg.value;
      EnvelopesSnoc(c.finished, Message(m.id, m.text, Citations(c.sources), if m.phase.Some? then m.phase else inferred));
    }
  }

  lemma CloseToolHides(cfg: Config, c: Core)
    ensures Gained(c, CloseTool(cfg, c), [])
  {
    hide Envelopes, AllVeiled;
    if c.tool.Some? {
      var t := c.tool.value;
      EnvelopesSnoc(c.finished, ToolItem(cfg, t.id, t.kind, t.callId, t.name, t.args, t.namespace));
    }
  }

  lemma CloseSearchHides(c: Core, status: SearchStatus, queries: seq<Str>, sources: Option<seq<Source>>)
    ensures Gained(c, CloseSearch(c, status, queries, sources), [])
  {
    hide Envelopes, AllVeiled, SearchAction;
    if c.search.Some? {
      EnvelopesSnoc(c.finished, WebSearch(c.search.value.id, status, Some(SearchAction(queries)), SourcesOf(sources)));
    }
  }

  lemma FlushEnvelopeHides(c: Core)
    ensures Gained(c, FlushEnvelope(c), SealedUnder(Truthy(c.signature), c.redacted, c.hiddenThinking))
    ensures FlushEnvelope(c).redacted == [] && Truthy(FlushEnvelope(c).signature).None?
  {
    hide Envelopes, AllVeiled;
    if HasEnvelope(c) {
      EnvelopesSnoc(c.finished, Reasoning(c.nextId, [], None, PendingEnvelope(c, Truthy(Some(c.hiddenThinking)))));
    }
  }

  lemma FlushHiddenRawHides(c: Core)
    ensures Gained(c, FlushHiddenRaw(c), RawEnvelope(c.hiddenRaw))
  {
    hide Envelopes, AllVeiled;
    if c.hiddenRaw != [] {
      EnvelopesSnoc(c.finished, Reasoning(c.nextId, [], None, Some(Envelope(None, [], Some(c.hiddenRaw)))));
    }
  }

  /** The closers in their order: all they write is the waiting raw reasoning. */
  lemma CloseVisibleHides(cfg: Config, c: Core, inferred: Option<Phase>, thinking: Str, blocks: seq<Str>, raw: Str)
    requires Waits(c, thinking, blocks, raw)
    ensures Waits(CloseVisible(cfg, c, inferred), thinking, blocks, [])
    ensures Gained(c, CloseVisible(cfg, c, inferred), RawEnvelope(raw))
    ensures CloseVisible(cfg, c, inferred).signature == c.signature
  {
    var c1 := CloseMessage(c, inferred);
    assert CloseRaw(CloseReasoning(c1)) == c1;
    CloseMessageHides(c, inferred);
    FlushHiddenRawHides(c1);
    CloseToolHides(cfg, FlushHiddenRaw(c1));
    hide Gained, CloseMessage, FlushHiddenRaw, CloseTool, RawEnvelope;
    GainedBoth(c, c1, FlushHiddenRaw(c1), [], RawEnvelope(raw));
    GainedBoth(c, FlushHiddenRaw(c1), CloseVisible(cfg, c, inferred), [] + RawEnvelope(raw), []);
    assert [] + RawEnvelope(raw) + [] == RawEnvelope(raw);
  }

  lemma CloseAllHides(cfg: Config, c: Core, inferred: Option<Phase>, search: SearchStatus, thinking: Str, blocks: seq<Str>, raw: Str)
    requires Waits(c, thinking, blocks, raw)
    ensures Waits(CloseAll(cfg, c, inferred, search), thinking, blocks, [])
    ensures Gained(c, CloseAll(cfg, c, inferred, search), RawEnvelope(raw))
  {
    hide Gained, CloseVisible, CloseSearch, RawEnvelope;
    CloseVisibleHides(cfg, c, inferred, thinking, blocks, raw);
    CloseSearchHides(CloseVisible(cfg, c, inferred), search, [], None);
    GainedBoth(c, CloseVisible(cfg, c, inferred), CloseAll(cfg, c, inferred, search), RawEnvelope(raw), []);
    assert RawEnvelope(raw) + [] == RawEnvelope(raw);
  }

  lemma TextHides(cfg: Config, c: Core, text: Str, phase: Option<Phase>, thinking: Str, blocks: seq<Str>, raw: Str)
    requires Waits(c, thinking, blocks, raw)
    ensures Waits(OnText(cfg, c, text, phase), thinking, blocks, [])
    ensures Gained(c, OnText(cfg, c, text, phase), RawEnvelope(raw))
  {
    assert CloseRaw(CloseReasoning(c)) == c;
    var c1 := FlushHiddenRaw(c);
    var c2 := CloseTool(cfg, c1);
    FlushHiddenRawHides(c);
    CloseToolHides(cfg, c1);
    MessageForHides(c2, phase, text);
    hide Gained, FlushHiddenRaw, CloseTool, MessageFor, AppendText, RawEnvelope;
    GainedBoth(c, c1, c2, RawEnvelope(raw), []);
    GainedBoth(c, c2, OnText(cfg, c, text, phase), RawEnvelope(raw) + [], []);
    assert RawEnvelope(raw) + [] + [] == RawEnvelope(raw);
    MessageForWaits(c2, phase, text, thinking, blocks, []);
  }

  lemma MessageForHides(c: Core, phase: Option<Phase>, text: Str)
    ensures Gained(c, AppendText(MessageFor(c, phase), text), [])
  {
    hide Envelopes, AllVeiled, CloseMessage;
    CloseMessageHides(c, Some(Commentary));
  }

  lemma MessageForWaits(c: Core, phase: Option<Phase>, text: Str, thinking: Str, blocks: seq<Str>, raw: Str)
    requires Waits(c, thinking, blocks, raw)
    ensures Waits(AppendText(MessageFor(c, phase), text), thinking, blocks, raw)
  {
    hide CloseMessage;
  }

  lemma SearchBeginHides(cfg: Config, c: Core, id: Str, thinking: Str, blocks: seq<Str>, raw: Str)
    requires Waits(c, thinking, blocks, raw)
    ensures Waits(OnSearchBegin(cfg, c, id), thinking, blocks, [])
    ensures Gained(c, OnSearchBegin(cfg, c, id), RawEnvelope(raw))
  {
    hide Gained, CloseContent, CloseSearch, RawEnvelope;
    var c1 := CloseContent(cfg, c);
    ContentHides(cfg, c, thinking, blocks, raw);
    CloseSearchHides(c1, SearchCompleted, [], None);
    GainedBoth(c, c1, CloseSearch(c1, SearchCompleted, [], None), RawEnvelope(raw), []);
    assert RawEnvelope(raw) + [] == RawEnvelope(raw);
    SameItemsGained(c, CloseSearch(c1, SearchCompleted, [], None), OnSearchBegin(cfg, c, id), RawEnvelope(raw));
  }

  lemma ContentHides(cfg: Config, c: Core, thinking: Str, blocks: seq<Str>, raw: Str)
    requires Waits(c, thinking, blocks, raw)
    ensures Waits(CloseContent(cfg, c), thinking, blocks, [])
    ensures Gained(c, CloseContent(cfg, c), RawEnvelope(raw))
    ensures CloseContent(cfg, c).signature == c.signature
  {
    hide Gained, Waits, CloseVisible, RawEnvelope;
    CloseVisibleHides(cfg, c, Some(Commentary), thinking, blocks, raw);
  }

  lemma SearchEndHides(c: Core, e: Event, thinking: Str, blocks: seq<Str>, raw: Str)
    requires Waits(c, thinking, blocks, raw) && e.SearchEnd?
    ensures Waits(OnSearchEnd(c, e.id, e.queries, e.status, e.sources), thinking, blocks, raw)
    ensures Gained(c, OnSearchEnd(c, e.id, e.queries, e.status, e.sources), [])
  {
    hide Gained, CloseSearch, MergeSources;
    var none: seq<Envelope> := [];
    assert none + none == none;
    var abandoned := CloseSearch(c, SearchCompleted, [], None);
    CloseSearchHides(c, SearchCompleted, [], None);
    var c1 := if c.search.Some? && c.search.value.eventId == e.id then c else StartSearch(abandoned, e.id);
    NothingGained(c);
    SameItemsGained(c, if c.search.Some? && c.search.value.eventId == e.id then c else abandoned, c1, []);
    var final := if e.status.Some? then e.status.value else SearchCompleted;
    CloseSearchHides(c1, final, e.queries, e.sources);
    GainedBoth(c, c1, CloseSearch(c1, final, e.queries, e.sources), none, none);
    SameItemsGained(c, CloseSearch(c1, final, e.queries, e.sources), OnSearchEnd(c, e.id, e.queries, e.status, e.sources), none);
  }

  lemma NothingGained(c: Core)
    ensures Gained(c, c, [])
  {
    hide Envelopes;
  }

  lemma SameItemsGained(c: Core, d: Core, e: Core, more: seq<Envelope>)
    requires Gained(c, d, more) && d.finished == e.finished
    ensures Gained(c, e, more)
  {
    hide Envelopes, AllVeiled;
  }

  lemma ToolDeltaHides(c: Core, more: Str, thinking: Str, blocks: seq<Str>, raw: Str)
    requires Waits(c, thinking, blocks, raw)
    ensures Waits(OnToolDelta(c, more), thinking, blocks, raw)
    ensures Gained(c, OnToolDelta(c, more), [])
  {
    hide Envelopes, AllVeiled;
  }

  lemma BoundaryHides(cfg: Config, c: Core, thinking: Str, blocks: seq<Str>, raw: Str)
    requires Waits(c, thinking, blocks, raw)
    ensures Waits(OnBoundary(cfg, c), [], [], [])
    ensures Gained(c, OnBoundary(cfg, c), RawEnvelope(raw) + SealedUnder(None, blocks, thinking))
  {
    var c1 := CloseContent(cfg, c);
    CloseVisibleHides(cfg, c, Some(Commentary), thinking, blocks, raw);
    FlushEnvelopeHides(c1);
    hide Gained, CloseVisible, FlushEnvelope, RawEnvelope, SealedUnder;
    GainedBoth(c, c1, FlushEnvelope(c1), RawEnvelope(raw), SealedUnder(None, blocks, thinking));
  }

  lemma SignatureHides(c: Core, sig: Str, thinking: Str, blocks: seq<Str>, raw: Str)
    requires Waits(c, thinking, blocks, raw)
    ensures Waits(OnSignature(c, sig), [], [], raw)
    ensures Gained(c, OnSignature(c, sig), SealedUnder(Truthy(Some(sig)), blocks, thinking))
  {
    FlushEnvelopeHides(c.(signature := Some(sig)));
    hide Envelopes, AllVeiled, FlushEnvelope;
  }

  lemma ToolStartHides(cfg: Config, c: Core, id: Str, name: Str, thinking: Str, blocks: seq<Str>, raw: Str)
    requires Waits(c, thinking, blocks, raw)
    ensures var d := StartTool(cfg, CloseContent(cfg, c), id, name);
      Waits(d, thinking, blocks, []) && Gained(c, d, RawEnvelope(raw))
  {
    CloseVisibleHides(cfg, c, Some(Commentary), thinking, blocks, raw);
    hide Envelopes, AllVeiled, CloseVisible, RawEnvelope, KindOf, RealName, NamespaceOf;
  }

  /** What an event does to what waits in the stream. */
  lemma SinceInStream(before: seq<Event>, e: Event)
    ensures var es := before + [e];
      && ThinkingSince(Streamed, es) == (if e.ThinkingSignature? || e.Boundary? then []
                                         else ThinkingSince(Streamed, before) + (if e.ThinkingDelta? then e.thinking else []))
      && BlocksSince(Streamed, es) == (if e.ThinkingSignature? || e.Boundary? then []
                                       else BlocksSince(Streamed, before) + (if e.RedactedThinking? then [e.data] else []))
      && RawSince(Streamed, es) == (if e.TextDelta? || e.ToolStart? || e.Boundary? || e.SearchBegin? then []
                                    else RawSince(Streamed, before) + RawOf(e))
  {
    assert (before + [e])[..|before|] == before;
  }

  /** Thinking, redacted blocks, raw reasoning, heartbeats and the end of a call write no envelope. */
  lemma QuietEventHides(cfg: Config, c: Core, e: Event, thinking: Str, blocks: seq<Str>, raw: Str)
    requires cfg.hide && !cfg.compaction
    requires Waits(c, thinking, blocks, raw)
    requires e.Heartbeat? || e.ThinkingDelta? || e.RedactedThinking? || e.RawDelta? || e.ToolDelta? || e.ToolEnd?
    ensures Gained(c, Handle(cfg, c, e), [])
    ensures Waits(Handle(cfg, c, e), thinking + (if e.ThinkingDelta? then e.thinking else []),
                  blocks + (if e.RedactedThinking? then [e.data] else []), raw + RawOf(e))
  {
    hide OnToolDelta, CloseTool, Envelopes, AllVeiled;
    if e.ToolDelta? { ToolDeltaHides(c, e.arguments, thinking, blocks, raw); }
    if e.ToolEnd? { CloseToolHides(cfg, c); }
  }

  /** The other events. */
  lemma LoudEventHides(cfg: Config, c: Core, e: Event, thinking: Str, blocks: seq<Str>, raw: Str)
    requires cfg.hide && !cfg.compaction
    requires Waits(c, thinking, blocks, raw)
    requires e.TextDelta? || e.ThinkingSignature? || e.ToolStart? || e.Boundary? || e.SearchBegin? || e.SearchEnd?
    ensures var seals, sealsRaw := e.ThinkingSignature? || e.Boundary?, !e.ThinkingSignature? && !e.SearchEnd?;
      && Gained(c, Handle(cfg, c, e), (if sealsRaw then RawEnvelope(raw) else []) +
                                      (if seals then SealedUnder(SignatureOf(e), blocks, thinking) else []))
      && Waits(Handle(cfg, c, e), if seals then [] else thinking, if seals then [] else blocks, if sealsRaw then [] else raw)
  {
    hide Gained, Waits, RawEnvelope, SealedUnder, OnText, OnSignature, StartTool, CloseContent, OnBoundary, OnSearchBegin, OnSearchEnd;
    var none: seq<Envelope> := [];
    assert none + none == none && RawEnvelope(raw) + none == RawEnvelope(raw);
    match e {
      case TextDelta(text, phase) => TextHides(cfg, c, text, phase, thinking, blocks, raw);
      case ThinkingSignature(sig) =>
        SignatureHides(c, sig, thinking, blocks, raw);
        assert none + SealedUnder(SignatureOf(e), blocks, thinking) == SealedUnder(SignatureOf(e), blocks, thinking);
      case ToolStart(id, name) => ToolStartHides(cfg, c, id, name, thinking, blocks, raw);
      case Boundary => BoundaryHides(cfg, c, thinking, blocks, raw);
      case SearchBegin(id) => SearchBeginHides(cfg, c, id, thinking, blocks, raw);
      case SearchEnd(_, _, _, _) => SearchEndHides(c, e, thinking, blocks, raw);
    }
  }

  /** One event: it writes the envelopes it calls for, and the rest goes on waiting. */
  lemma EventHides(cfg: Config, c: Core, before: seq<Event>, e: Event)
    requires cfg.hide && !cfg.compaction && !e.IsTerminal()
    requires Waits(c, ThinkingSince(Streamed, before), BlocksSince(Streamed, before), RawSince(Streamed, before))
    ensures var es, d := before + [e], Handle(cfg, c, e);
      Waits(d, ThinkingSince(Streamed, es), BlocksSince(Streamed, es), RawSince(Streamed, es))
    ensures Gained(c, Handle(cfg, c, e), RawSealed(Streamed, before, e) + ThinkingSealed(Streamed, before, e))
  {
    hide Gained, Waits, Handle, RawEnvelope, SealedUnder, ThinkingSince, BlocksSince, RawSince;
    var thinking, blocks, raw := ThinkingSince(Streamed, before), BlocksSince(Streamed, before), RawSince(Streamed, before);
    SinceInStream(before, e);
    assert thinking + [] == thinking && blocks + [] == blocks && raw + [] == raw;
    if e.TextDelta? || e.ThinkingSignature? || e.ToolStart? || e.Boundary? || e.SearchBegin? || e.SearchEnd? {
      LoudEventHides(cfg, c, e, thinking, blocks, raw);
    } else {
      QuietEventHides(cfg, c, e, thinking, blocks, raw);
      assert RawSealed(Streamed, before, e) + ThinkingSealed(Streamed, before, e) == [];
    }
  }

  /** What a run of the stream leaves, compared with what the events say. */
  predicate Follows(c: Core, es: seq<Event>) {
    && Waits(c, ThinkingSince(Streamed, es), BlocksSince(Streamed, es), RawSince(Streamed, es))
    && Envelopes(c.finished) == Sealed(Streamed, es)
    && AllVeiled(c.finished)
  }

  lemma NothingHidden(cfg: Config)
    ensures Follows(Run(cfg, EventInputs([])), [])
  {
    assert EventInputs([]) == [];
  }

  lemma SealedSnoc(before: seq<Event>, e: Event)
    ensures Sealed(Streamed, before + [e]) ==
      Sealed(Streamed, before) + (RawSealed(Streamed, before, e) + ThinkingSealed(Streamed, before, e))
  {
    assert (before + [e])[..|before|] == before;
    hide RawSealed, ThinkingSealed;
  }

  /** Every run with hiding on: what waits and what is written is what the events say. */
  lemma {:induction false} StreamHides(cfg: Config, es: seq<Event>)
    requires cfg.hide && !cfg.compaction && forall k :: 0 <= k < |es| ==> !es[k].IsTerminal()
    ensures Follows(Run(cfg, EventInputs(es)), es)
  {
    hide Handle, Run, Waits, Envelopes, AllVeiled, Sealed, ThinkingSealed, RawSealed, ThinkingSince, BlocksSince, RawSince;
    if es == [] {
      NothingHidden(cfg);
    } else {
      var before, last := es[..|es| - 1], es[|es| - 1];
      StreamHides(cfg, before);
      RunEvents(cfg, es);
      assert before + [last] == es;
      EventHides(cfg, Run(cfg, EventInputs(before)), before, last);
      SealedSnoc(before, last);
    }
  }

  /** What an ending still writes: the raw reasoning always, the thinking only when the upstream said so. */
  function SealedAtEnd(es: seq<Event>, i: Input): seq<Envelope> {
    RawEnvelope(RawSince(Streamed, es)) +
    (if i.Next? && !i.event.Error? then SealedUnder(None, BlocksSince(Streamed, es), ThinkingSince(Streamed, es)) else [])
  }

  lemma EndingHides(cfg: Config, c: Core, es: seq<Event>, i: Input)
    requires cfg.hide && !cfg.compaction && Ends(i)
    requires Waits(c, ThinkingSince(Streamed, es), BlocksSince(Streamed, es), RawSince(Streamed, es))
    ensures Gained(c, Advance(cfg, c, i), SealedAtEnd(es, i))
  {
    hide Gained, Waits, RawEnvelope, SealedUnder, ThinkingSince, BlocksSince, RawSince, CloseAll, FlushEnvelope;
    var thinking, blocks, raw := ThinkingSince(Streamed, es), BlocksSince(Streamed, es), RawSince(Streamed, es);
    assert RawEnvelope(raw) + [] == RawEnvelope(raw);
    if i.Throw? {
      ThrowHides(c, thinking, blocks, raw);
    } else {
      var inferred := if i.Next? && i.event.Done? then InferredFinal(i.event.stop) else None;
      var search := if i.Next? && i.event.Done? then SearchCompleted else SearchFailed;
      CloseAllHides(cfg, c, inferred, search, thinking, blocks, raw);
      LastFlushHides(cfg, c, inferred, search, thinking, blocks, raw);
      R.EndingIs(cfg, c, i);
      SameItemsGained(c, if i.Next? && !i.event.Error? then FlushEnvelope(CloseAll(cfg, c, inferred, search)) else CloseAll(cfg, c, inferred, search),
                      Advance(cfg, c, i), SealedAtEnd(es, i));
    }
  }

  lemma ThrowHides(c: Core, thinking: Str, blocks: seq<Str>, raw: Str)
    requires Waits(c, thinking, blocks, raw)
    ensures Gained(c, OnThrow(c), RawEnvelope(raw))
  {
    hide Envelopes, AllVeiled, FlushHiddenRaw, CloseSearch, RawEnvelope;
    FlushHiddenRawHides(c);
    CloseSearchHides(FlushHiddenRaw(c), SearchFailed, [], None);
  }

  lemma LastFlushHides(cfg: Config, c: Core, inferred: Option<Phase>, search: SearchStatus, thinking: Str, blocks: seq<Str>, raw: Str)
    requires Waits(c, thinking, blocks, raw)
    ensures Gained(c, FlushEnvelope(CloseAll(cfg, c, inferred, search)), RawEnvelope(raw) + SealedUnder(None, blocks, thinking))
  {
    hide Gained, RawEnvelope, SealedUnder, CloseAll, FlushEnvelope;
    var c1 := CloseAll(cfg, c, inferred, search);
    CloseAllHides(cfg, c, inferred, search, thinking, blocks, raw);
    FlushEnvelopeHides(c1);
    GainedBoth(c, c1, FlushEnvelope(c1), RawEnvelope(raw), SealedUnder(None, blocks, thinking));
  }

  /**
   * The stream under `hideThinkingSummary`, for every event list and every ending: its reasoning items
   * show nothing, and their envelopes are exactly those the events call for.
   */
  lemma StreamedThinkingReturns(cfg: Config, es: seq<Event>, i: Input)
    requires cfg.hide && !cfg.compaction && Ends(i) && forall k :: 0 <= k < |es| ==> !es[k].IsTerminal()
    ensures var items := Run(cfg, EventInputs(es) + [i]).finished;
      AllVeiled(items) && Envelopes(items) == Sealed(Streamed, es) + SealedAtEnd(es, i)
  {
    StreamHides(cfg, es);
    assert (EventInputs(es) + [i])[..|es|] == EventInputs(es);
    hide Sealed, Waits, Advance, Envelopes, AllVeiled, SealedAtEnd;
    EndingHides(cfg, Run(cfg, EventInputs(es)), es, i);
  }

  // ---------------------------------------------------------------------------
  // The batch
  // ---------------------------------------------------------------------------

  predicate GainedInBatch(b: B.Batch, d: B.Batch, more: seq<Envelope>) {
    Envelopes(d.output) == Envelopes(b.output) + more && (AllVeiled(b.output) ==> AllVeiled(d.output))
  }

  lemma GainedBothInBatch(b: B.Batch, c: B.Batch, d: B.Batch, first: seq<Envelope>, second: seq<Envelope>)
    requires GainedInBatch(b, c, first) && GainedInBatch(c, d, second)
    ensures GainedInBatch(b, d, first + second)
  {
    hide Envelopes, AllVeiled;
    assert Envelopes(b.output) + (first + second) == Envelopes(b.output) + first + second;
  }

  predicate WaitsInBatch(b: B.Batch, thinking: Str, blocks: seq<Str>, raw: Str) {
    b.summary == thinking && b.redacted == blocks && b.raw == raw && Truthy(b.signature).None?
  }

  lemma FlushTextHides(b: B.Batch, inferred: Option<Phase>)
    ensures GainedInBatch(b, B.FlushText(b, inferred), [])
  {
    hide Envelopes, AllVeiled, Citations;
    EnvelopesSnoc(b.output, Message(b.nextId, b.text, Citations(b.sources), if b.textPhase.Some? then b.textPhase else inferred));
  }

  lemma FlushCallHides(cfg: Config, b: B.Batch)
    ensures GainedInBatch(b, B.FlushCall(cfg, b), [])
  {
    hide Envelopes, AllVeiled, RealName, NamespaceOf, KindOf;
    var target := RealName(cfg, b.callName);
    EnvelopesSnoc(b.output, ToolItem(cfg, b.nextId, KindOf(cfg, target), b.callId, target, b.callArgs, NamespaceOf(cfg, b.callName)));
  }

  lemma FlushSummaryHides(cfg: Config, b: B.Batch)
    requires cfg.hide
    ensures GainedInBatch(b, B.FlushSummary(cfg, b), SealedUnder(Truthy(b.signature), b.redacted, b.summary))
    ensures B.FlushSummary(cfg, b).redacted == []
  {
    hide Envelopes, AllVeiled;
    var d := B.FlushSummary(cfg, b);
    if |d.output| > |b.output| {
      EnvelopesSnoc(b.output, d.output[|b.output|]);
    }
  }

  lemma FlushRawHides(cfg: Config, b: B.Batch)
    requires cfg.hide
    ensures GainedInBatch(b, B.FlushRaw(cfg, b), RawEnvelope(b.raw))
  {
    hide Envelopes, AllVeiled;
    if b.raw != [] {
      EnvelopesSnoc(b.output, Reasoning(b.nextId, [], None, Some(Envelope(None, [], Some(b.raw)))));
    }
  }

  /** What waited is written when there was thinking. */
  lemma FlushOpenSummaryHides(cfg: Config, b: B.Batch, thinking: Str, blocks: seq<Str>, raw: Str)
    requires cfg.hide && WaitsInBatch(b, thinking, blocks, raw)
    ensures GainedInBatch(b, B.FlushOpenSummary(cfg, b), if thinking != [] then SealedUnder(None, blocks, thinking) else [])
    ensures WaitsInBatch(B.FlushOpenSummary(cfg, b), [], if thinking != [] then [] else blocks, raw)
  {
    hide Envelopes, AllVeiled, B.FlushSummary, SealedUnder;
    if thinking != [] { FlushSummaryHides(cfg, b); }
  }

  lemma FlushAllSummaryHides(cfg: Config, b: B.Batch, thinking: Str, blocks: seq<Str>, raw: Str)
    requires cfg.hide && WaitsInBatch(b, thinking, blocks, raw)
    ensures GainedInBatch(b, B.FlushSummary(cfg, b), SealedUnder(None, blocks, thinking))
    ensures WaitsInBatch(B.FlushSummary(cfg, b), [], [], raw)
  {
    FlushSummaryHides(cfg, b);
    hide GainedInBatch, SealedUnder;
  }

  /** Raw reasoning, then the tool call. */
  lemma FlushTailHides(cfg: Config, b: B.Batch, thinking: Str, blocks: seq<Str>, raw: Str)
    requires cfg.hide && WaitsInBatch(b, thinking, blocks, raw)
    ensures var d := B.FlushCall(cfg, B.FlushRaw(cfg, b));
      GainedInBatch(b, d, RawEnvelope(raw)) && WaitsInBatch(d, thinking, blocks, [])
  {
    hide GainedInBatch, RawEnvelope, B.FlushRaw, B.FlushCall;
    var b1 := B.FlushRaw(cfg, b);
    FlushRawHides(cfg, b);
    FlushCallHides(cfg, b1);
    GainedBothInBatch(b, b1, B.FlushCall(cfg, b1), RawEnvelope(raw), []);
    assert RawEnvelope(raw) + [] == RawEnvelope(raw);
  }

  /** The envelopes of the flush that text, a tool call and a search result share. */
  function OpenSealed(blocks: seq<Str>, thinking: Str): seq<Envelope> {
    if thinking != [] then SealedUnder(None, blocks, thinking) else []
  }

  lemma OthersHide(cfg: Config, b: B.Batch, thinking: Str, blocks: seq<Str>, raw: Str)
    requires cfg.hide && WaitsInBatch(b, thinking, blocks, raw)
    ensures var d := B.FlushCall(cfg, B.FlushRaw(cfg, B.FlushOpenSummary(cfg, b)));
      && GainedInBatch(b, d, OpenSealed(blocks, thinking) + RawEnvelope(raw))
      && WaitsInBatch(d, [], if thinking != [] then [] else blocks, [])
  {
    hide GainedInBatch, WaitsInBatch, RawEnvelope, SealedUnder, B.FlushOpenSummary, B.FlushRaw, B.FlushCall;
    var b1 := B.FlushOpenSummary(cfg, b);
    FlushOpenSummaryHides(cfg, b, thinking, blocks, raw);
    FlushTailHides(cfg, b1, [], if thinking != [] then [] else blocks, raw);
    GainedBothInBatch(b, b1, B.FlushCall(cfg, B.FlushRaw(cfg, b1)), OpenSealed(blocks, thinking), RawEnvelope(raw));
  }

  /** Text first, then the others. */
  lemma SettleHides(cfg: Config, b: B.Batch, thinking: Str, blocks: seq<Str>, raw: Str)
    requires cfg.hide && WaitsInBatch(b, thinking, blocks, raw)
    ensures GainedInBatch(b, B.Settle(cfg, b), OpenSealed(blocks, thinking) + RawEnvelope(raw))
    ensures WaitsInBatch(B.Settle(cfg, b), [], if thinking != [] then [] else blocks, [])
  {
    hide GainedInBatch, RawEnvelope, OpenSealed, B.FlushOpenSummary, B.FlushRaw, B.FlushCall, B.FlushText;
    var b1 := B.FlushText(b, Some(Commentary));
    FlushTextHides(b, Some(Commentary));
    OthersHide(cfg, b1, thinking, blocks, raw);
    var more := OpenSealed(blocks, thinking) + RawEnvelope(raw);
    GainedBothInBatch(b, b1, B.Settle(cfg, b), [], more);
    assert [] + more == more;
  }

  lemma TakeTextHides(cfg: Config, b: B.Batch, text: Str, phase: Option<Phase>, thinking: Str, blocks: seq<Str>, raw: Str)
    requires cfg.hide && WaitsInBatch(b, thinking, blocks, raw)
    ensures GainedInBatch(b, B.TakeText(cfg, b, text, phase), OpenSealed(blocks, thinking) + RawEnvelope(raw))
    ensures WaitsInBatch(B.TakeText(cfg, b, text, phase), [], if thinking != [] then [] else blocks, [])
  {
    hide Envelopes, AllVeiled, RawEnvelope, OpenSealed, B.FlushOpenSummary, B.FlushRaw, B.FlushCall, B.FlushText;
    FlushTextHides(b, Some(Commentary));
    OthersHide(cfg, if b.text != [] && phase.Some? && b.textPhase != phase then B.FlushText(b, Some(Commentary)) else b,
               thinking, blocks, raw);
  }

  lemma TakeSearchEndHides(cfg: Config, b: B.Batch, e: Event, thinking: Str, blocks: seq<Str>, raw: Str)
    requires cfg.hide && WaitsInBatch(b, thinking, blocks, raw) && e.SearchEnd?
    ensures var d := B.TakeSearchEnd(cfg, b, e.queries, e.status, e.sources);
      && GainedInBatch(b, d, OpenSealed(blocks, thinking) + RawEnvelope(raw))
      && WaitsInBatch(d, [], if thinking != [] then [] else blocks, [])
  {
    hide Envelopes, AllVeiled, RawEnvelope, OpenSealed, B.Settle, MergeSources, SearchAction;
    SettleHides(cfg, b, thinking, blocks, raw);
    var b1 := B.Settle(cfg, b);
    var final := if e.status.Some? then e.status.value else SearchCompleted;
    EnvelopesSnoc(b1.output, WebSearch(b1.nextId, final, Some(SearchAction(e.queries)), SourcesOf(e.sources)));
  }

  /** A boundary and the end of the list. */
  lemma FlushEverythingHides(cfg: Config, b: B.Batch, inferred: Option<Phase>, thinking: Str, blocks: seq<Str>, raw: Str)
    requires cfg.hide && WaitsInBatch(b, thinking, blocks, raw)
    ensures var d := B.FlushCall(cfg, B.FlushRaw(cfg, B.FlushSummary(cfg, B.FlushText(b, inferred))));
      && GainedInBatch(b, d, SealedUnder(None, blocks, thinking) + RawEnvelope(raw))
      && WaitsInBatch(d, [], [], [])
  {
    hide GainedInBatch, RawEnvelope, SealedUnder, B.FlushSummary, B.FlushRaw, B.FlushCall, B.FlushText;
    var b1 := B.FlushText(b, inferred);
    var b2 := B.FlushSummary(cfg, b1);
    var b3 := B.FlushCall(cfg, B.FlushRaw(cfg, b2));
    FlushTextHides(b, inferred);
    FlushAllSummaryHides(cfg, b1, thinking, blocks, raw);
    FlushTailHides(cfg, b2, [], [], raw);
    GainedBothInBatch(b, b1, b2, [], SealedUnder(None, blocks, thinking));
    assert [] + SealedUnder(None, blocks, thinking) == SealedUnder(None, blocks, thinking);
    GainedBothInBatch(b, b2, b3, SealedUnder(None, blocks, thinking), RawEnvelope(raw));
  }

  lemma TakeThinkingHides(cfg: Config, b: B.Batch, text: Str, thinking: Str, blocks: seq<Str>, raw: Str)
    requires cfg.hide && WaitsInBatch(b, thinking, blocks, raw)
    ensures var d := B.Take(cfg, b, ThinkingDelta(text));
      GainedInBatch(b, d, RawEnvelope(raw)) && WaitsInBatch(d, thinking + text, blocks, [])
  {
    hide Envelopes, AllVeiled, RawEnvelope, B.FlushRaw, B.FlushCall, B.FlushText;
    FlushTextHides(b, Some(Commentary));
    FlushTailHides(cfg, B.FlushText(b, Some(Commentary)), thinking, blocks, raw);
  }

  lemma TakeRawHides(cfg: Config, b: B.Batch, text: Str, thinking: Str, blocks: seq<Str>, raw: Str)
    requires cfg.hide && WaitsInBatch(b, thinking, blocks, raw)
    ensures var d := B.Take(cfg, b, RawDelta(text));
      && GainedInBatch(b, d, OpenSealed(blocks, thinking))
      && WaitsInBatch(d, [], if thinking != [] then [] else blocks, raw + text)
  {
    hide Envelopes, AllVeiled, SealedUnder, B.FlushOpenSummary, B.FlushCall, B.FlushText;
    var b1 := B.FlushText(b, Some(Commentary));
    FlushTextHides(b, Some(Commentary));
    FlushOpenSummaryHides(cfg, b1, thinking, blocks, raw);
    FlushCallHides(cfg, B.FlushOpenSummary(cfg, b1));
  }

  lemma TakeSignatureHides(cfg: Config, b: B.Batch, sig: Str, thinking: Str, blocks: seq<Str>, raw: Str)
    requires cfg.hide && WaitsInBatch(b, thinking, blocks, raw)
    ensures var d := B.Take(cfg, b, ThinkingSignature(sig));
      GainedInBatch(b, d, SealedUnder(Truthy(Some(sig)), blocks, thinking)) && WaitsInBatch(d, [], [], raw)
  {
    FlushSummaryHides(cfg, b.(signature := Some(sig)));
    hide Envelopes, AllVeiled, SealedUnder;
  }

  /** What an event does to what waits in the batch. */
  lemma SinceInBatch(before: seq<Event>, e: Event)
    ensures var es, thinking := before + [e], ThinkingSince(Batched, before);
      var seals := Seals(Batched, e, thinking);
      && ThinkingSince(Batched, es) == (if seals then [] else thinking + (if e.ThinkingDelta? then e.thinking else []))
      && BlocksSince(Batched, es) == (if seals then [] else BlocksSince(Batched, before) + (if e.RedactedThinking? then [e.data] else []))
      && RawSince(Batched, es) == (if SealsRaw(Batched, e) then [] else RawSince(Batched, before) + RawOf(e))
      && Sealed(Batched, es) == Sealed(Batched, before) + (ThinkingSealed(Batched, before, e) + RawSealed(Batched, before, e))
  {
    assert (before + [e])[..|before|] == before;
    hide ThinkingSealed, RawSealed;
  }

  /** The batch after the events `es`. */
  predicate FollowsInBatch(b: B.Batch, es: seq<Event>) {
    && WaitsInBatch(b, ThinkingSince(Batched, es), BlocksSince(Batched, es), RawSince(Batched, es))
    && Envelopes(b.output) == Sealed(Batched, es)
    && AllVeiled(b.output)
  }

  lemma QuietTakeHides(cfg: Config, b: B.Batch, e: Event, thinking: Str, blocks: seq<Str>, raw: Str)
    requires cfg.hide && WaitsInBatch(b, thinking, blocks, raw)
    requires e.Heartbeat? || e.RedactedThinking? || e.ToolDelta? || e.ToolEnd? || e.SearchBegin? || e.IsTerminal()
    ensures GainedInBatch(b, B.Take(cfg, b, e), [])
    ensures WaitsInBatch(B.Take(cfg, b, e), thinking, blocks + (if e.RedactedThinking? then [e.data] else []), raw)
  {
    hide Envelopes, AllVeiled, B.FlushCall;
    FlushCallHides(cfg, b);
  }

  /** What `e` makes the batch write, and what goes on waiting. */
  lemma LoudTakeHides(cfg: Config, b: B.Batch, e: Event, thinking: Str, blocks: seq<Str>, raw: Str)
    requires cfg.hide && WaitsInBatch(b, thinking, blocks, raw)
    requires e.TextDelta? || e.ThinkingDelta? || e.ThinkingSignature? || e.RawDelta? || e.ToolStart? || e.Boundary? || e.SearchEnd?
    ensures var seals, sealsRaw := Seals(Batched, e, thinking), SealsRaw(Batched, e);
      && GainedInBatch(b, B.Take(cfg, b, e), (if seals then SealedUnder(SignatureOf(e), blocks, thinking) else []) +
                                             (if sealsRaw then RawEnvelope(raw) else []))
      && WaitsInBatch(B.Take(cfg, b, e),
                      if seals then [] else thinking + (if e.ThinkingDelta? then e.thinking else []),
                      if seals then [] else blocks, if sealsRaw then [] else raw + RawOf(e))
  {
    hide GainedInBatch, WaitsInBatch, RawEnvelope, SealedUnder, B.TakeText, B.Settle, B.TakeSearchEnd;
    var none: seq<Envelope> := [];
    var under := SealedUnder(SignatureOf(e), blocks, thinking);
    assert under + none == under && none + RawEnvelope(raw) == RawEnvelope(raw) && none + none == none;
    assert thinking + [] == thinking && raw + [] == raw;
    match e {
      case TextDelta(text, phase) => TakeTextHides(cfg, b, text, phase, thinking, blocks, raw);
      case ThinkingDelta(text) => TakeThinkingHides(cfg, b, text, thinking, blocks, raw);
      case ThinkingSignature(sig) => TakeSignatureHides(cfg, b, sig, thinking, blocks, raw);
      case RawDelta(text) => TakeRawHides(cfg, b, text, thinking, blocks, raw);
      case ToolStart(_, _) => ToolStartTakeHides(cfg, b, e, thinking, blocks, raw);
      case Boundary => FlushEverythingHides(cfg, b, Some(Commentary), thinking, blocks, raw);
      case SearchEnd(_, _, _, _) => TakeSearchEndHides(cfg, b, e, thinking, blocks, raw);
    }
  }

  lemma ToolStartTakeHides(cfg: Config, b: B.Batch, e: Event, thinking: Str, blocks: seq<Str>, raw: Str)
    requires cfg.hide && WaitsInBatch(b, thinking, blocks, raw) && e.ToolStart?
    ensures GainedInBatch(b, B.Take(cfg, b, e), OpenSealed(blocks, thinking) + RawEnvelope(raw))
    ensures WaitsInBatch(B.Take(cfg, b, e), [], if thinking != [] then [] else blocks, [])
  {
    hide Envelopes, AllVeiled, RawEnvelope, OpenSealed, B.Settle;
    SettleHides(cfg, b, thinking, blocks, raw);
  }

  lemma TakeHides(cfg: Config, b: B.Batch, before: seq<Event>, e: Event)
    requires cfg.hide && FollowsInBatch(b, before)
    ensures FollowsInBatch(B.Take(cfg, b, e), before + [e])
  {
    hide Envelopes, AllVeiled, WaitsInBatch, B.Take, RawEnvelope, SealedUnder, ThinkingSince, BlocksSince, RawSince, Sealed;
    var thinking, blocks, raw := ThinkingSince(Batched, before), BlocksSince(Batched, before), RawSince(Batched, before);
    SinceInBatch(before, e);
    assert thinking + [] == thinking && blocks + [] == blocks && raw + [] == raw;
    if e.Heartbeat? || e.RedactedThinking? || e.ToolDelta? || e.ToolEnd? || e.SearchBegin? || e.IsTerminal() {
      QuietTakeHides(cfg, b, e, thinking, blocks, raw);
      assert ThinkingSealed(Batched, before, e) + RawSealed(Batched, before, e) == [];
    } else {
      LoudTakeHides(cfg, b, e, thinking, blocks, raw);
    }
  }

  lemma NothingHiddenInBatch(cfg: Config)
    ensures FollowsInBatch(B.TakeAll(cfg, []), [])
  {
  }

  lemma {:induction false} BatchHides(cfg: Config, es: seq<Event>)
    requires cfg.hide
    ensures FollowsInBatch(B.TakeAll(cfg, es), es)
  {
    hide FollowsInBatch, B.Take;
    if es == [] {
      NothingHiddenInBatch(cfg);
    } else {
      var before, last := es[..|es| - 1], es[|es| - 1];
      BatchHides(cfg, before);
      TakeHides(cfg, B.TakeAll(cfg, before), before, last);
      assert before + [last] == es;
    }
  }

  /**
   * The batch under `hideThinkingSummary`, for every event list whatsoever, compaction or not: its reasoning
   * items show nothing, and their envelopes are exactly those the events call for.
   */
  lemma BatchedThinkingReturns(cfg: Config, es: seq<Event>)
    requires cfg.hide
    ensures var items := B.BuildResponse(cfg, es).output;
      && AllVeiled(items)
      && Envelopes(items) == Sealed(Batched, es)
           + SealedUnder(None, BlocksSince(Batched, es), ThinkingSince(Batched, es)) + RawEnvelope(RawSince(Batched, es))
  {
    var b := B.TakeAll(cfg, es);
    BatchHides(cfg, es);
    RespondHides(cfg, b, ThinkingSince(Batched, es), BlocksSince(Batched, es), RawSince(Batched, es));
    hide Envelopes, AllVeiled, Sealed, SealedUnder, RawEnvelope, B.Respond, ThinkingSince, BlocksSince, RawSince;
  }

  lemma RespondHides(cfg: Config, b: B.Batch, thinking: Str, blocks: seq<Str>, raw: Str)
    requires cfg.hide && WaitsInBatch(b, thinking, blocks, raw)
    ensures Envelopes(B.Respond(cfg, b).output) == Envelopes(b.output) + SealedUnder(None, blocks, thinking) + RawEnvelope(raw)
    ensures AllVeiled(b.output) ==> AllVeiled(B.Respond(cfg, b).output)
  {
    hide Envelopes, AllVeiled, SealedUnder, RawEnvelope, B.FlushText, B.FlushSummary, B.FlushRaw, B.FlushCall;
    var final := if b.cleanDone && b.failed.None? && b.cut.None? then Some(FinalAnswer) else None;
    FlushEverythingHides(cfg, b, final, thinking, blocks, raw);
    var b1 := B.FlushRest(cfg, b);
    EnvelopesSnoc(b1.output, Compaction(b1.nextId, b1.compactionText));
    assert Envelopes(b.output) + (SealedUnder(None, blocks, thinking) + RawEnvelope(raw))
        == Envelopes(b.output) + SealedUnder(None, blocks, thinking) + RawEnvelope(raw);
  }

  // ---------------------------------------------------------------------------
  // What that means
  // ---------------------------------------------------------------------------

  /** The raw reasoning an envelope carries: one without signature and blocks is a raw one. */
  function RawText(e: Envelope): Str {
    if e.sig == None && e.redacted == [] && e.text.Some? then e.text.value else []
  }

  function RawTexts(envelopes: seq<Envelope>): Str {
    if envelopes == [] then [] else RawTexts(envelopes[..|envelopes| - 1]) + RawText(envelopes[|envelopes| - 1])
  }

  /** All raw reasoning among the events. */
  function RawIn(es: seq<Event>): Str {
    if es == [] then [] else RawIn(es[..|es| - 1]) + RawOf(es[|es| - 1])
  }

  lemma {:induction false} RawTextsAppend(a: seq<Envelope>, b: seq<Envelope>)
    ensures RawTexts(a + b) == RawTexts(a) + RawTexts(b)
  {
    hide RawText;
    if b == [] {
      assert a + b == a;
    } else {
      RawTextsAppend(a, b[..|b| - 1]);
      assert (a + b)[..|a + b| - 1] == a + b[..|b| - 1];
      assert RawTexts(a) + (RawTexts(b[..|b| - 1]) + RawText(b[|b| - 1])) == RawTexts(a) + RawTexts(b[..|b| - 1]) + RawText(b[|b| - 1]);
    }
  }

  lemma RawTextsOfOne(sig: Option<Str>, blocks: seq<Str>, text: Str)
    ensures RawTexts(SealedUnder(sig, blocks, text)) == []
    ensures RawTexts(RawEnvelope(text)) == text
  {
    var one := SealedUnder(sig, blocks, text);
    if one != [] { assert one[..0] == []; }
    if text != [] {
      assert RawEnvelope(text)[..0] == [];
      assert RawTexts(RawEnvelope(text)) == [] + text;
    }
  }

  /** Of the envelopes one event writes, only the raw one carries raw reasoning. */
  lemma RawSealedBy(side: Side, before: seq<Event>, e: Event)
    ensures RawTexts(Written(side, before, e)) == (if SealsRaw(side, e) then RawSince(side, before) else [])
  {
    hide RawTexts, SealedUnder, RawEnvelope, Seals, SealsRaw, RawSince, BlocksSince, ThinkingSince;
    var thinking, raw := ThinkingSealed(side, before, e), RawSealed(side, before, e);
    RawTextsOfOne(SignatureOf(e), BlocksSince(side, before), ThinkingSince(side, before));
    RawTextsOfOne(None, [], RawSince(side, before));
    RawOfNothing();
    RawTextsAppend(thinking, raw);
    RawTextsAppend(raw, thinking);
  }

  /** Every raw delta is in exactly one envelope, in order, or still waits. */
  lemma {:induction false} RawIsSealedOnce(side: Side, es: seq<Event>)
    ensures RawTexts(Sealed(side, es)) + RawSince(side, es) == RawIn(es)
  {
    if es == [] {
      RawOfNothing();
    } else {
      var before, last := es[..|es| - 1], es[|es| - 1];
      RawIsSealedOnce(side, before);
      LastEvent(side, es);
      hide RawTexts, RawSince, Sealed, RawIn, Written, SealsRaw, RawOf;
      RawSealedBy(side, before, last);
      RawTextsAppend(Sealed(side, before), Written(side, before, last));
      Regroup(RawTexts(Sealed(side, before)), RawSince(side, before), RawOf(last), SealsRaw(side, last));
    }
  }

  /** What was waiting moves over, or what is new joins it. */
  lemma Regroup(told: Str, waiting: Str, more: Str, over: bool)
    requires over ==> more == []
    ensures told + (if over then waiting else []) + (if over then [] else waiting + more) == told + waiting + more
  {
  }

  lemma RawOfNothing()
    ensures RawTexts([]) == []
  {
  }

  lemma LastEvent(side: Side, es: seq<Event>)
    requires es != []
    ensures var before, last := es[..|es| - 1], es[|es| - 1];
      && RawSince(side, es) == (if SealsRaw(side, last) then [] else RawSince(side, before) + RawOf(last))
      && (SealsRaw(side, last) ==> RawOf(last) == [])
      && Sealed(side, es) == Sealed(side, before) + Written(side, before, last)
      && RawIn(es) == RawIn(before) + RawOf(last)
  {
    hide Written;
  }

  /** The stream hides no raw reasoning for good: at every ending, all of it is in the envelopes, in order. */
  lemma StreamedRawReturns(cfg: Config, es: seq<Event>, i: Input)
    requires cfg.hide && !cfg.compaction && Ends(i) && forall k :: 0 <= k < |es| ==> !es[k].IsTerminal()
    ensures RawTexts(Envelopes(Run(cfg, EventInputs(es) + [i]).finished)) == RawIn(es)
  {
    hide Run, RawTexts, Envelopes, AllVeiled, Sealed, SealedUnder, RawEnvelope, RawSince, BlocksSince, ThinkingSince;
    StreamedThinkingReturns(cfg, es, i);
    RawIsSealedOnce(Streamed, es);
    RawTextsOfOne(None, BlocksSince(Streamed, es), ThinkingSince(Streamed, es));
    RawTextsOfOne(None, [], RawSince(Streamed, es));
    RawOfNothing();
    var last := if i.Next? && !i.event.Error? then SealedUnder(None, BlocksSince(Streamed, es), ThinkingSince(Streamed, es)) else [];
    RawTextsAppend(RawEnvelope(RawSince(Streamed, es)), last);
    RawTextsAppend(Sealed(Streamed, es), SealedAtEnd(es, i));
  }

  /** Nor does the batch. */
  lemma BatchedRawReturns(cfg: Config, es: seq<Event>)
    requires cfg.hide
    ensures RawTexts(Envelopes(B.BuildResponse(cfg, es).output)) == RawIn(es)
  {
    hide B.BuildResponse, RawTexts, Envelopes, AllVeiled, Sealed, SealedUnder, RawEnvelope, RawSince, BlocksSince, ThinkingSince;
    BatchedThinkingReturns(cfg, es);
    RawIsSealedOnce(Batched, es);
    var last := SealedUnder(None, BlocksSince(Batched, es), ThinkingSince(Batched, es));
    RawTextsOfOne(None, BlocksSince(Batched, es), ThinkingSince(Batched, es));
    RawTextsOfOne(None, [], RawSince(Batched, es));
    RawTextsAppend(Sealed(Batched, es), last);
    RawTextsAppend(Sealed(Batched, es) + last, RawEnvelope(RawSince(Batched, es)));
  }

  /** All thinking, and all redacted blocks, among the events. */
  function ThinkingIn(es: seq<Event>): Str {
    if es == [] then []
    else ThinkingIn(es[..|es| - 1]) + (if es[|es| - 1].ThinkingDelta? then es[|es| - 1].thinking else [])
  }

  /** Since the start or the last sealing event means: everything in the block of events after it. */
  lemma {:induction false} SinceTheLastSeal(before: seq<Event>, block: seq<Event>)
    requires before == [] || before[|before| - 1].ThinkingSignature? || before[|before| - 1].Boundary?
    requires forall k :: 0 <= k < |block| ==> !block[k].ThinkingSignature? && !block[k].Boundary?
    ensures ThinkingSince(Streamed, before + block) == ThinkingIn(block)
    ensures BlocksSince(Streamed, before + block) == R.RedactedIn(block)
  {
    if block == [] {
      assert before + block == before;
    } else {
      var shorter := block[..|block| - 1];
      SinceTheLastSeal(before, shorter);
      assert (before + block)[..|before + block| - 1] == before + shorter;
    }
  }

  /**
   * Signed thinking round-trips: a block of events with its signature, at any place in any run, adds exactly
   * one envelope, which holds the signature, the block's redacted data and all the block's thinking.
   */
  lemma SignedThinkingReturns(cfg: Config, before: seq<Event>, block: seq<Event>, sig: Str)
    requires cfg.hide && !cfg.compaction && sig != []
    requires before == [] || before[|before| - 1].ThinkingSignature? || before[|before| - 1].Boundary?
    requires forall k :: 0 <= k < |block| ==> !block[k].ThinkingSignature? && !block[k].Boundary?
    requires forall k :: 0 <= k < |before + block| ==> !(before + block)[k].IsTerminal()
    ensures var es := before + block;
      Envelopes(Run(cfg, EventInputs(es + [ThinkingSignature(sig)])).finished) == Envelopes(Run(cfg, EventInputs(es)).finished)
        + [Envelope(Some(sig), R.RedactedIn(block), if ThinkingIn(block) == [] then None else Some(ThinkingIn(block)))]
  {
    hide Run, Envelopes, Waits, AllVeiled, Sealed, BlocksSince, ThinkingSince, RawSince;
    var es, e := before + block, ThinkingSignature(sig);
    SinceTheLastSeal(before, block);
    StreamHides(cfg, es);
    StreamHides(cfg, es + [e]);
    SealedSnoc(es, e);
    assert [] + ThinkingSealed(Streamed, es, e) == ThinkingSealed(Streamed, es, e);
  }
}
