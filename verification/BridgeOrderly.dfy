/**
 * The two guards read off the event list itself, for visible thinking and no compaction: exactly
 * which lists a client can follow, and a plain kind of list on which stream and batch agree.
 */
module BridgeOrderly {
  import opened Prelude
  import opened BridgeTypes
  import opened BridgeCore
  import opened BridgeItems
  import B = BridgeBatch
  import Refinement = BridgeRefinement

  datatype Slot = Nothing | Msg | Thinking | Raw | Call | Search(id: Str)

  /** What a list has left open, whether its thinking is signed, and whether redacted blocks wait. */
  datatype Track = Track(slot: Slot, signed: bool, blocks: bool)

  const START: Track := Track(Nothing, false, false)

  /** The closers run: open thinking takes the waiting blocks with it. */
  function Closed(t: Track): Track {
    if t.slot.Search? then t else Track(Nothing, false, t.blocks && !t.slot.Thinking?)
  }

  function Follow(t: Track, e: Event): Track {
    match e
    case TextDelta(_, _) => Closed(t).(slot := Msg)
    case ThinkingDelta(_) => if t.slot.Thinking? then t else Closed(t).(slot := Thinking)
    case ThinkingSignature(sig) => if t.slot.Thinking? then t.(signed := sig != []) else t.(blocks := false)
    case RedactedThinking(_) => t.(blocks := true)
    case RawDelta(_) => Closed(t).(slot := Raw)
    case ToolStart(_, _) => Closed(t).(slot := Call)
    case ToolEnd => if t.slot.Call? then t.(slot := Nothing) else t
    case Boundary => Closed(t).(blocks := false)
    case SearchBegin(id) => (if t.slot.Search? then t else Closed(t)).(slot := Search(id))
    case SearchEnd(_, _, _, _) => t.(slot := Nothing)
    case _ => t
  }

  /**
   * A client can follow the event: nothing opens inside a search; a signature comes while thinking
   * is open or nothing is, or signs nothing; a boundary inside a search has nothing to flush; and a
   * search ends while it is open or nothing is.
   */
  predicate Orderly(t: Track, e: Event) {
    match e
    case TextDelta(_, _) => !t.slot.Search?
    case ThinkingDelta(_) => !t.slot.Search?
    case RawDelta(_) => !t.slot.Search?
    case ToolStart(_, _) => !t.slot.Search?
    case ThinkingSignature(sig) => t.slot.Thinking? || t.slot.Nothing? || (sig == [] && !t.blocks)
    case Boundary => !t.slot.Search? || !t.blocks
    case SearchEnd(_, _, _, _) => t.slot.Search? || t.slot.Nothing?
    case _ => true
  }

  function FollowAll(es: seq<Event>): Track {
    if es == [] then START else Follow(FollowAll(es[..|es| - 1]), es[|es| - 1])
  }

  predicate AllOrderly(es: seq<Event>) {
    es == [] || (AllOrderly(es[..|es| - 1]) && Orderly(FollowAll(es[..|es| - 1]), es[|es| - 1]))
  }

  // ---------------------------------------------------------------------------
  // The track follows the bridge
  // ---------------------------------------------------------------------------

  predicate SlotIs(slot: Slot, c: Core) {
    && (c.msg.Some? <==> slot.Msg?)
    && (c.reasoning.Some? <==> slot.Thinking?)
    && (c.raw.Some? <==> slot.Raw?)
    && (c.tool.Some? <==> slot.Call?)
    && (c.search.Some? <==> slot.Search?)
    && (slot.Search? ==> c.search.value.eventId == slot.id)
  }

  predicate Tracks(t: Track, c: Core) {
    && SlotIs(t.slot, c) && c.hiddenRaw == [] && c.hiddenThinking == []
    && (t.blocks <==> c.redacted != [])
    && (Truthy(c.signature).Some? <==> t.signed)
    && (t.signed ==> t.slot.Thinking?)
  }

  lemma TameIsOrderly(cfg: Config, t: Track, c: Core, e: Event)
    requires Tracks(t, c) && !cfg.hide && !cfg.compaction
    ensures Tame(cfg, c, Next(e)) <==> Orderly(t, e)
  {
  }

  /** Outside a search the closers leave nothing open. */
  lemma ClosedTracks(cfg: Config, t: Track, c: Core)
    requires Tracks(t, c)
    ensures var d := CloseVisible(cfg, c, Some(Commentary));
      Tracks(Closed(t), d) && d.search == c.search
  {
    hide CloseMessage, CloseRaw, CloseTool, Truthy;
    var c1 := CloseMessage(c, Some(Commentary));
    ReasoningCloses(c1);
    hide CloseReasoning;
  }

  lemma ReasoningCloses(c: Core)
    ensures c.reasoning.Some? ==> Truthy(CloseReasoning(c).signature).None? && CloseReasoning(c).redacted == []
  {
  }

  lemma TextTracks(cfg: Config, t: Track, c: Core, text: Str, phase: Option<Phase>)
    requires Tracks(t, c) && !t.slot.Search?
    ensures Tracks(Follow(t, TextDelta(text, phase)), OnText(cfg, c, text, phase))
  {
    hide CloseMessage, CloseRaw, CloseTool, Truthy, StartMessage, AppendText;
    ReasoningCloses(c);
    hide CloseReasoning;
  }

  lemma ThinkingTracks(cfg: Config, t: Track, c: Core, text: Str)
    requires Tracks(t, c) && !t.slot.Search? && !cfg.hide
    ensures Tracks(Follow(t, ThinkingDelta(text)), OnThinking(cfg, c, text))
  {
    hide CloseMessage, CloseRaw, CloseTool, Truthy, StartReasoning, AppendThinking;
  }

  lemma RawTracks(cfg: Config, t: Track, c: Core, text: Str)
    requires Tracks(t, c) && !t.slot.Search? && !cfg.hide
    ensures Tracks(Follow(t, RawDelta(text)), OnRaw(cfg, c, text))
  {
    hide CloseMessage, CloseTool, Truthy, StartRaw, AppendRaw;
    ReasoningCloses(CloseMessage(c, Some(Commentary)));
    hide CloseReasoning;
  }

  lemma EnvelopeTracks(t: Track, c: Core)
    requires Tracks(t, c) && !t.slot.Thinking?
    ensures Tracks(t.(blocks := false), FlushEnvelope(c)) && FlushEnvelope(c).search == c.search
  {
  }

  lemma SignatureTracks(t: Track, c: Core, sig: Str)
    requires Tracks(t, c) && Orderly(t, ThinkingSignature(sig))
    ensures Tracks(Follow(t, ThinkingSignature(sig)), OnSignature(c, sig))
  {
  }

  lemma SearchEndTracks(t: Track, c: Core, e: Event)
    requires Tracks(t, c) && e.SearchEnd? && Orderly(t, e)
    ensures Tracks(Follow(t, e), OnSearchEnd(c, e.id, e.queries, e.status, e.sources))
  {
    hide MergeSources, SearchAction;
  }

  lemma BeginTracks(cfg: Config, t: Track, c: Core, e: Event)
    requires Tracks(t, c) && Orderly(t, e) && (e.ToolStart? || e.SearchBegin? || e.Boundary?) && !cfg.compaction
    ensures Tracks(Follow(t, e), Handle(cfg, c, e))
  {
    ClosedTracks(cfg, t, c);
    var d := CloseVisible(cfg, c, Some(Commentary));
    if e.Boundary? {
      EnvelopeTracks(Closed(t), d);
      hide CloseVisible, FlushEnvelope, Tracks;
    } else {
      hide CloseVisible, Truthy;
    }
  }

  lemma FollowTracks(cfg: Config, t: Track, c: Core, e: Event)
    requires Tracks(t, c) && Orderly(t, e) && !e.IsTerminal() && !cfg.hide && !cfg.compaction
    ensures Tracks(Follow(t, e), Handle(cfg, c, e))
  {
    hide OnText, OnThinking, OnRaw, OnSignature, OnToolDelta, OnSearchBegin, OnSearchEnd, OnBoundary,
         StartTool, CloseContent, CloseVisible, FlushEnvelope, CloseTool;
    match e {
      case TextDelta(text, phase) => TextTracks(cfg, t, c, text, phase);
      case ThinkingDelta(text) => ThinkingTracks(cfg, t, c, text);
      case ThinkingSignature(sig) => SignatureTracks(t, c, sig);
      case RawDelta(text) => RawTracks(cfg, t, c, text);
      case ToolStart(_, _) => BeginTracks(cfg, t, c, e);
      case ToolDelta(more) => ToolDeltaTracks(t, c, more);
      case ToolEnd =>
      case Boundary => BeginTracks(cfg, t, c, e);
      case SearchBegin(_) => BeginTracks(cfg, t, c, e);
      case SearchEnd(_, _, _, _) => SearchEndTracks(t, c, e);
      case _ =>
    }
  }

  lemma ToolDeltaTracks(t: Track, c: Core, more: Str)
    requires Tracks(t, c)
    ensures Tracks(t, OnToolDelta(c, more))
  {
    hide Freeform.NextDelta, Freeform.Partial;
  }

  predicate OneEnding(es: seq<Event>) {
    forall k :: 0 <= k < |es| - 1 ==> !es[k].IsTerminal()
  }

  lemma {:induction false} TracksAll(cfg: Config, es: seq<Event>)
    requires OneEnding(es) && !cfg.hide && !cfg.compaction
    ensures AllTame(cfg, EventInputs(es)) <==> AllOrderly(es)
    ensures AllOrderly(es) && (es != [] ==> !es[|es| - 1].IsTerminal()) ==> Tracks(FollowAll(es), Run(cfg, EventInputs(es)))
  {
    if es != [] {
      var before, last := es[..|es| - 1], es[|es| - 1];
      TracksAll(cfg, before);
      assert EventInputs(es)[..|es| - 1] == EventInputs(before);
      if AllOrderly(before) {
        assert Tracks(FollowAll(before), Run(cfg, EventInputs(before)));
        TameIsOrderly(cfg, FollowAll(before), Run(cfg, EventInputs(before)), last);
        if Orderly(FollowAll(before), last) && !last.IsTerminal() {
          FollowTracks(cfg, FollowAll(before), Run(cfg, EventInputs(before)), last);
        }
      }
      hide Handle, Tame, Orderly, Follow, Tracks;
    }
  }

  /**
   * Bracketing, read off the list: for visible thinking and no compaction, a client accepts the
   * stream of an event list that ends in its only terminal event if and only if the list is orderly.
   */
  lemma BracketedIffOrderly(cfg: Config, es: seq<Event>)
    requires es != [] && es[|es| - 1].IsTerminal() && OneEnding(es) && !cfg.hide && !cfg.compaction
    requires forall k :: 0 <= k < |es| ==> PlausibleEvent(Next(es[k]))
    ensures !Replay(Run(cfg, EventInputs(es)).log).Broken? <==> AllOrderly(es)
  {
    hide Run, AllTame, AllOrderly, Replay, PlausibleEvent;
    TracksAll(cfg, es);
    BracketedIffTame(cfg, EventInputs(es));
  }

  /** A run that is not tame: text inside a search takes the output index the search holds. */
  lemma TextInsideSearchBreaks(cfg: Config, id: Str, text: Str, last: Event)
    requires last.IsTerminal() && !cfg.hide && !cfg.compaction
    requires PlausibleEvent(Next(SearchBegin(id))) && PlausibleEvent(Next(TextDelta(text, None))) && PlausibleEvent(Next(last))
    ensures Replay(Run(cfg, EventInputs([SearchBegin(id), TextDelta(text, None), last])).log).Broken?
  {
    hide Run, Replay, PlausibleEvent;
    var es := [SearchBegin(id), TextDelta(text, None), last];
    assert es[..2] == [SearchBegin(id), TextDelta(text, None)] && es[..2][..1] == [SearchBegin(id)] && [SearchBegin(id)][..0] == [];
    assert FollowAll([SearchBegin(id)]) == Track(Search(id), false, false);
    assert !AllOrderly(es[..2]);
    assert !AllOrderly(es);
    BracketedIffOrderly(cfg, es);
  }

  // ---------------------------------------------------------------------------
  // Lists on which stream and batch agree
  // ---------------------------------------------------------------------------

  /**
   * A plain event: deltas, call ids and signatures are not empty; nothing but its own end follows
   * the begin of a search; a signature comes once, for open thinking, which does not go on after
   * it; no redacted blocks; a stop reason is not empty.
   */
  predicate Plain(t: Track, e: Event) {
    match e
    case Heartbeat => true
    case TextDelta(text, _) => text != [] && !t.slot.Search?
    case ThinkingDelta(text) => text != [] && !t.slot.Search? && !t.signed
    case ThinkingSignature(sig) => sig != [] && t.slot.Thinking? && !t.signed
    case RedactedThinking(_) => false
    case RawDelta(text) => text != [] && !t.slot.Search?
    case ToolStart(id, _) => id != [] && !t.slot.Search?
    case ToolDelta(_) => t.slot.Call?
    case ToolEnd => !t.slot.Search?
    case Boundary => !t.slot.Search?
    case SearchBegin(_) => !t.slot.Search?
    case SearchEnd(id, _, _, _) => t.slot == Search(id) || t.slot.Nothing?
    case Done(stop, _) => !t.slot.Search? && stop != Some(OtherStop([]))
    case Incomplete(_, _, _, _) => !t.slot.Search?
    case Error(_, _) => !t.slot.Search?
  }

  predicate AllPlain(es: seq<Event>) {
    es == [] || (AllPlain(es[..|es| - 1]) && Plain(FollowAll(es[..|es| - 1]), es[|es| - 1]))
  }

  lemma PlainIsOrderly(t: Track, e: Event)
    requires Plain(t, e)
    ensures Orderly(t, e) && (Follow(t, e).blocks ==> t.blocks)
  {
  }

  /** Both sides hold no redacted blocks, and outside a search the batch is not behind. */
  predicate InStep(cfg: Config, t: Track, c: Core, b: B.Batch) {
    && Tracks(t, c) && !t.blocks && b.redacted == []
    && (t.signed <==> Refinement.Sealed(c)) && !Refinement.HollowOpen(c)
    && (!t.slot.Search? ==> !Refinement.Behind(c, b))
  }

  lemma PlainIsMatched(cfg: Config, t: Track, c: Core, b: B.Batch, e: Event)
    requires InStep(cfg, t, c, b) && Plain(t, e)
    ensures Refinement.Disciplined(c, e) && Refinement.Matched(c, b, e)
  {
    hide Truthy, Refinement.Holding;
  }

  lemma TakesNoBlocks(cfg: Config, b: B.Batch, e: Event)
    requires b.redacted == [] && !e.RedactedThinking?
    ensures B.Take(cfg, b, e).redacted == []
  {
    hide B.FlushText, B.FlushRaw, B.FlushCall, MergeSources, SearchAction;
  }

  /** Deltas with text leave nothing hollow open. */
  lemma StaysFilled(cfg: Config, t: Track, c: Core, e: Event)
    requires Plain(t, e) && !Refinement.HollowOpen(c) && !cfg.hide && !cfg.compaction && !e.IsTerminal()
    ensures !Refinement.HollowOpen(Handle(cfg, c, e))
  {
    if e.TextDelta? || e.ThinkingDelta? || e.RawDelta? {
      DeltaFills(cfg, c, e);
    } else if e.ToolStart? || e.Boundary? || e.SearchBegin? {
      ClosedFills(cfg, c);
      hide OnText, OnThinking, OnRaw, OnDone, CloseAll, CloseVisible, CloseTool, FlushEnvelope, CloseSearch, OnSearchEnd;
    } else {
      hide OnText, OnThinking, OnRaw, OnDone, CloseAll, CloseVisible, CloseTool, FlushEnvelope, CloseSearch, MergeSources;
    }
  }

  lemma ClosedFills(cfg: Config, c: Core)
    ensures var d := CloseVisible(cfg, c, Some(Commentary)); d.msg.None? && d.reasoning.None? && d.raw.None?
  {
    hide CloseMessage, CloseReasoning, CloseRaw, FlushHiddenRaw, CloseTool;
    var c1 := CloseMessage(c, Some(Commentary));
    var c2 := CloseReasoning(c1);
    assert c1.msg.None? && c2.reasoning.None? && CloseRaw(c2).raw.None?;
  }

  lemma DeltaFills(cfg: Config, c: Core, e: Event)
    requires !Refinement.HollowOpen(c) && !cfg.hide && !cfg.compaction
    requires match e case TextDelta(text, _) => text != [] case ThinkingDelta(text) => text != [] case RawDelta(text) => text != [] case _ => false
    ensures !Refinement.HollowOpen(Handle(cfg, c, e))
  {
    hide CloseMessage, CloseReasoning, CloseRaw, CloseTool, FlushHiddenRaw, OnSearchEnd, OnSearchBegin, OnToolDelta, OnDone, CloseAll, OnBoundary;
  }

  /** Whatever relates the two sides outside a search, the batch is not behind. */
  lemma NotBehind(cfg: Config, c: Core, b: B.Batch)
    requires Refinement.Related(cfg, c, b) && c.search.None?
    ensures !Refinement.Behind(c, b)
  {
    hide Refinement.StripAll, Refinement.SameOpen, Refinement.Holding, Refinement.HoldsOne, CloseReasoning;
    if Refinement.Aligned(cfg, c, b) { Refinement.HeldTogether(cfg, c, b); }
  }

  /** A kept signature is never empty. */
  lemma RelatedSigned(cfg: Config, c: Core, b: B.Batch)
    requires Refinement.Related(cfg, c, b)
    ensures Refinement.Sealed(c) <==> Truthy(c.signature).Some?
  {
    hide Refinement.StripAll, Refinement.SameOpen, Refinement.HoldsOne, CloseReasoning, B.Settle;
  }

  lemma {:induction false} PlainRuns(cfg: Config, es: seq<Event>)
    requires AllPlain(es) && OneEnding(es) && !cfg.hide && !cfg.compaction
    ensures Refinement.AllMatched(cfg, es) && Refinement.AllDisciplined(cfg, es)
    ensures (es != [] && es[|es| - 1].IsTerminal()) || InStep(cfg, FollowAll(es), Run(cfg, EventInputs(es)), B.TakeAll(cfg, es))
  {
    if es == [] {
      StartInStep(cfg);
    } else {
      var before, last := es[..|es| - 1], es[|es| - 1];
      PlainRuns(cfg, before);
      var t, c, b := FollowAll(before), Run(cfg, EventInputs(before)), B.TakeAll(cfg, before);
      assert before != [] ==> !before[|before| - 1].IsTerminal();
      hide Handle, B.Take, Plain, Follow, InStep, Orderly, Refinement.Matched, Refinement.Disciplined, Run, Refinement.Related;
      PlainIsMatched(cfg, t, c, b, last);
      if !last.IsTerminal() {
        Refinement.RunsRelated(cfg, before);
        RunEvents(cfg, es);
        PlainStep(cfg, t, c, b, last);
      }
    }
  }

  lemma StartInStep(cfg: Config)
    ensures InStep(cfg, FollowAll([]), Run(cfg, EventInputs([])), B.TakeAll(cfg, []))
  {
    assert EventInputs([]) == [];
  }

  lemma PlainStep(cfg: Config, t: Track, c: Core, b: B.Batch, e: Event)
    requires InStep(cfg, t, c, b) && Plain(t, e) && !e.IsTerminal() && !cfg.hide && !cfg.compaction && Refinement.Related(cfg, c, b)
    ensures InStep(cfg, Follow(t, e), Handle(cfg, c, e), B.Take(cfg, b, e))
  {
    PlainIsOrderly(t, e);
    PlainIsMatched(cfg, t, c, b, e);
    FollowTracks(cfg, t, c, e);
    Refinement.StepRelated(cfg, c, b, e);
    TakesNoBlocks(cfg, b, e);
    StaysFilled(cfg, t, c, e);
    hide Handle, B.Take, Refinement.HollowOpen, Refinement.Related, Refinement.Sealed, Refinement.Behind, Truthy;
    var d, r := Handle(cfg, c, e), B.Take(cfg, b, e);
    RelatedSigned(cfg, d, r);
    if d.search.None? { NotBehind(cfg, d, r); }
  }

  /**
   * For every plain event list that ends in its only terminal event: the client's terminal frame
   * and the batch response agree in status, reason, end-of-turn flag and items.
   */
  lemma PlainListsAgree(cfg: Config, es: seq<Event>)
    requires es != [] && es[|es| - 1].IsTerminal() && OneEnding(es) && AllPlain(es) && !cfg.hide && !cfg.compaction
    ensures Refinement.SameResponse(Run(cfg, EventInputs(es)), B.BuildResponse(cfg, es))
  {
    hide Run, B.BuildResponse, AllPlain, Refinement.AllMatched, Refinement.AllDisciplined;
    PlainRuns(cfg, es);
    Refinement.StreamRefinesBatch(cfg, es);
  }
}
