/**
 * The guard of the refinement is exact: once an event misses it, the stream and the batch
 * response end up with different items, whatever follows.
 */
module BridgeExactness {
  import opened Prelude
  import opened BridgeTypes
  import opened BridgeCore
  import opened BridgeRefinement
  import opened BridgeGrowth
  import B = BridgeBatch

  // ---------------------------------------------------------------------------
  // Doomed pairs of states
  // ---------------------------------------------------------------------------

  /** The batch still has to write at an index where the stream has something it cannot write. */
  predicate Stuck(c: Core, b: B.Batch) {
    |b.output| < |c.finished| && Unlike(b, c.finished[|b.output|])
  }

  /** The open reasoning has outgrown the item the batch wrote for it. */
  predicate Outran(c: Core, b: B.Batch) {
    && c.reasoning.Some? && c.msg.None? && c.raw.None? && c.tool.None? && c.hiddenRaw == []
    && |c.finished| < |b.output| && OutranItem(c, b.output[|c.finished|])
  }

  predicate OutranItem(c: Core, item: Item)
    requires c.reasoning.Some?
  {
    && item.Reasoning? && item.content.None?
    && (|item.summary| != 1 || |c.reasoning.value.text| > |item.summary[0]| || |c.redacted| > Blocks(item))
  }

  predicate MoreSearches(c: Core, b: B.Batch) {
    Searches(c.finished) > Searches(b.output)
  }

  predicate MoreSigned(c: Core, b: B.Batch) {
    Signed(b.output) > Signed(c.finished) + Pending(c)
  }

  /** Something on one side that the other cannot have any more. */
  predicate Apart(c: Core, b: B.Batch) {
    && Truthy(b.signature).None?
    && (Diverged(c.finished, b.output) || MoreSearches(c, b) || MoreSigned(c, b) || Stuck(c, b) || Outran(c, b) || HasHollow(c))
  }

  /** From here on the two sides cannot agree any more. */
  predicate Doomed(c: Core, b: B.Batch) {
    Apart(c, b) && NoneHollow(b.output)
  }

  lemma StuckStays(cfg: Config, c: Core, b: B.Batch, e: Event)
    requires Stuck(c, b) && !e.IsTerminal() && !cfg.hide && !cfg.compaction
    ensures var d, r := Handle(cfg, c, e), B.Take(cfg, b, e);
      Diverged(d.finished, r.output) || Stuck(d, r)
  {
    hide Handle, B.Take;
    TakeWrites(cfg, b, e);
    StreamGrows(cfg, c, e);
    StuckOn(c.finished, Handle(cfg, c, e), b, B.Take(cfg, b, e));
  }

  /** Whatever is written at that index differs; while nothing is, the gap only widens. */
  lemma StuckOn(before: seq<Item>, d: Core, b: B.Batch, r: B.Batch)
    requires |b.output| < |before| && Unlike(b, before[|b.output|]) && before <= d.finished && FirstWrite(b, r)
    ensures Diverged(d.finished, r.output) || Stuck(d, r)
  {
    hide Strip, CanWrite;
    var n := |b.output|;
    assert d.finished[n] == before[n];
    if |r.output| > n {
      UnlikeDiffers(b, before[n], r.output[n]);
    }
  }

  lemma OutranStays(cfg: Config, c: Core, b: B.Batch, e: Event)
    requires Outran(c, b) && !cfg.hide && !cfg.compaction
    ensures var d := Handle(cfg, c, e);
      Diverged(d.finished, b.output) || Outran(d, b)
  {
    if KeepsOpen(e) {
      OutranWaits(cfg, c, b, e);
    } else {
      SealedStep(cfg, c, e);
      OutranCloses(c, b);
      hide Handle, Outran, CloseReasoning, Diverged;
      StreamGrows(cfg, CloseReasoning(c), e);
      DivergedStays(CloseReasoning(c).finished, b.output, Handle(cfg, c, e).finished, b.output);
    }
  }

  lemma OutranCloses(c: Core, b: B.Batch)
    requires Outran(c, b)
    ensures Diverged(CloseReasoning(c).finished, b.output)
  {
    var n := |c.finished|;
    var closed := CloseReasoning(c).finished;
    assert closed[n] == Reasoning(c.reasoning.value.id, [c.reasoning.value.text], None, PendingEnvelope(c, None));
    assert Strip(closed[n]) != Strip(b.output[n]);
  }

  lemma OutranWaits(cfg: Config, c: Core, b: B.Batch, e: Event)
    requires Outran(c, b) && KeepsOpen(e) && !cfg.hide && !cfg.compaction
    ensures var d := Handle(cfg, c, e);
      Diverged(d.finished, b.output) || Outran(d, b)
  {
    hide CloseTool, CloseRaw, CloseMessage, FlushHiddenRaw, FlushEnvelope, CloseSearch, MergeSources, Diverged;
    var d := Handle(cfg, c, e);
    if e.SearchEnd? {
      SearchEndFirst(c, e);
      var n := |c.finished|;
      assert Strip(d.finished[n]) != Strip(b.output[n]);
      DivergedAt(d.finished, b.output, n);
    } else {
      assert d.finished == c.finished;
    }
  }

  lemma DivergedAt(left: seq<Item>, right: seq<Item>, n: nat)
    requires n < |left| && n < |right| && Strip(left[n]) != Strip(right[n])
    ensures Diverged(left, right)
  {
  }

  /** The end of a search writes a search first, before anything that is still open. */
  lemma SearchEndFirst(c: Core, e: Event)
    requires e.SearchEnd?
    ensures var d := OnSearchEnd(c, e.id, e.queries, e.status, e.sources).finished;
      c.finished <= d && |d| > |c.finished| && d[|c.finished|].WebSearch?
  {
    hide MergeSources, SearchAction;
  }

  lemma DoomedStays(cfg: Config, c: Core, b: B.Batch, e: Event)
    requires Doomed(c, b) && !e.IsTerminal() && !cfg.hide && !cfg.compaction
    ensures Doomed(Handle(cfg, c, e), B.Take(cfg, b, e))
  {
    hide Handle, B.Take, Searches, Signed, Pending, Stuck, Outran, Diverged, Truthy, NoneHollow, HasHollow;
    BatchTally(cfg, b, e);
    StreamTally(cfg, c, e);
    StreamGrows(cfg, c, e);
    BatchGrows(cfg, b, e);
    TakeSolid(cfg, b, e);
    var d, r := Handle(cfg, c, e), B.Take(cfg, b, e);
    if Diverged(c.finished, b.output) {
      DivergedStays(c.finished, b.output, d.finished, r.output);
    } else if Stuck(c, b) {
      StuckStays(cfg, c, b, e);
    } else if Outran(c, b) {
      OutranStays(cfg, c, b, e);
      OutranGrows(d, b, r);
    } else if HasHollow(c) {
      HollowStays(cfg, c, e);
    }
  }

  lemma OutranGrows(d: Core, b: B.Batch, r: B.Batch)
    requires b.output <= r.output && (Diverged(d.finished, b.output) || Outran(d, b))
    ensures Diverged(d.finished, r.output) || Outran(d, r)
  {
    hide Diverged, OutranItem;
    if Diverged(d.finished, b.output) { DivergedStays(d.finished, b.output, d.finished, r.output); }
  }

  // ---------------------------------------------------------------------------
  // The end of a doomed run
  // ---------------------------------------------------------------------------

  /** The batch side of a terminal event: flags, then everything is flushed. */
  lemma TerminalFlush(cfg: Config, b: B.Batch, e: Event)
    requires e.IsTerminal() && !cfg.compaction
    ensures exists inferred: Option<Phase> ::
      B.Respond(cfg, B.Take(cfg, b, e)).output == FlushAll(cfg, B.Take(cfg, b, e), inferred).output
    ensures var t := B.Take(cfg, b, e);
      t == b.(failed := t.failed, cut := t.cut, endTurn := t.endTurn, cleanDone := t.cleanDone, stop := t.stop)
  {
    hide FlushAll, B.Take, B.Respond;
    TerminalFlags(cfg, b, e);
    RespondFlushes(cfg, B.Take(cfg, b, e));
  }

  lemma TerminalFlags(cfg: Config, b: B.Batch, e: Event)
    requires e.IsTerminal()
    ensures var t := B.Take(cfg, b, e);
      t == b.(failed := t.failed, cut := t.cut, endTurn := t.endTurn, cleanDone := t.cleanDone, stop := t.stop)
  {
    hide B.Settle, B.FlushText, B.FlushSummary, B.FlushOpenSummary, B.FlushRaw, B.FlushCall, B.TakeText, B.TakeSearchEnd;
  }

  lemma RespondFlushes(cfg: Config, t: B.Batch)
    requires !cfg.compaction
    ensures exists inferred: Option<Phase> :: B.Respond(cfg, t).output == FlushAll(cfg, t, inferred).output
  {
    var final := if t.cleanDone && t.failed.None? && t.cut.None? then Some(FinalAnswer) else None;
    RestIsFlushAll(cfg, t);
    hide FlushAll, B.FlushRest;
    assert B.Respond(cfg, t).output == FlushAll(cfg, t, final).output;
  }

  lemma RestIsFlushAll(cfg: Config, t: B.Batch)
    ensures var final := if t.cleanDone && t.failed.None? && t.cut.None? then Some(FinalAnswer) else None;
      FlushAll(cfg, t, final) == B.FlushRest(cfg, t)
  {
    hide B.FlushText, B.FlushSummary, B.FlushRaw, B.FlushCall;
  }

  /** However the response ends, the items of a doomed pair differ. */
  lemma DoomedEnds(cfg: Config, c: Core, b: B.Batch, e: Event)
    requires Doomed(c, b) && e.IsTerminal() && !cfg.hide && !cfg.compaction
    ensures StripAll(Handle(cfg, c, e).finished) != StripAll(B.Respond(cfg, B.Take(cfg, b, e)).output)
  {
    hide Handle, B.Take, B.Respond, FlushAll, Searches, Signed, Pending, Stuck, Outran, Diverged, Truthy, StripAll, NoneHollow, HasHollow;
    var d, t := Handle(cfg, c, e), B.Take(cfg, b, e);
    TerminalFlush(cfg, b, e);
    var inferred: Option<Phase> :| B.Respond(cfg, t).output == FlushAll(cfg, t, inferred).output;
    var r := FlushAll(cfg, t, inferred);
    FlushAllTally(cfg, t, inferred);
    StreamTally(cfg, c, e);
    StreamGrows(cfg, c, e);
    TallyStripped(d.finished);
    TallyStripped(r.output);
    if Diverged(c.finished, b.output) {
      DivergedStays(c.finished, b.output, d.finished, r.output);
      DivergedDiffers(d.finished, r.output);
    } else if Stuck(c, b) {
      StuckFlags(c, b, t);
      StuckEnds(cfg, c, t, d.finished, inferred);
    } else if Outran(c, b) {
      OutranEnds(cfg, c, e, b);
      DivergedStays(d.finished, b.output, d.finished, r.output);
      DivergedDiffers(d.finished, r.output);
    } else if HasHollow(c) {
      HollowEnds(cfg, c, e);
      FlushAllSolid(cfg, t, inferred);
      HollowDiffers(d.finished, r.output);
    }
  }

  lemma StuckFlags(c: Core, b: B.Batch, t: B.Batch)
    requires Stuck(c, b)
    requires t == b.(failed := t.failed, cut := t.cut, endTurn := t.endTurn, cleanDone := t.cleanDone, stop := t.stop)
    ensures Stuck(c, t)
  {
  }

  lemma StuckEnds(cfg: Config, c: Core, t: B.Batch, finished: seq<Item>, inferred: Option<Phase>)
    requires Stuck(c, t) && c.finished <= finished && !cfg.hide
    ensures StripAll(finished) != StripAll(FlushAll(cfg, t, inferred).output)
  {
    var r, n := FlushAll(cfg, t, inferred), |t.output|;
    FlushAllWrites(cfg, t, inferred);
    UnlikeHolds(t, c.finished[n]);
    FlushAllEmpties(cfg, t, inferred);
    hide FlushAll, Strip, CanWrite, Unlike, StripAll;
    assert finished[n] == c.finished[n];
    UnlikeDiffers(t, c.finished[n], r.output[n]);
    DivergedAt(finished, r.output, n);
    DivergedDiffers(finished, r.output);
  }

  lemma UnlikeHolds(b: B.Batch, item: Item)
    requires Unlike(b, item)
    ensures b.text != [] || b.summary != [] || b.raw != []
  {
  }

  lemma FlushAllEmpties(cfg: Config, b: B.Batch, inferred: Option<Phase>)
    ensures var r := FlushAll(cfg, b, inferred); r.text == [] && r.summary == [] && r.raw == [] && r.callId == []
  {
    hide B.FlushText, B.FlushSummary, B.FlushRaw, B.FlushCall;
  }

  lemma OutranEnds(cfg: Config, c: Core, e: Event, b: B.Batch)
    requires Outran(c, b) && e.IsTerminal() && !cfg.hide && !cfg.compaction
    ensures Diverged(Handle(cfg, c, e).finished, b.output)
  {
    SealedStep(cfg, c, e);
    OutranCloses(c, b);
    hide Handle, Outran, CloseReasoning, Diverged;
    StreamGrows(cfg, CloseReasoning(c), e);
    DivergedStays(CloseReasoning(c).finished, b.output, Handle(cfg, c, e).finished, b.output);
  }

  // ---------------------------------------------------------------------------
  // An event off the guard dooms the run
  // ---------------------------------------------------------------------------

  lemma StrippedTallies(left: seq<Item>, right: seq<Item>)
    requires StripAll(left) == StripAll(right)
    ensures Searches(left) == Searches(right) && Signed(left) == Signed(right) && |left| == |right|
  {
    TallyStripped(left);
    TallyStripped(right);
  }

  lemma RelatedTallies(cfg: Config, c: Core, b: B.Batch)
    requires Related(cfg, c, b) && !cfg.hide
    ensures Searches(c.finished) == Searches(b.output)
    ensures Signed(b.output) == Signed(c.finished) + Pending(c) && Truthy(b.signature).None?
  {
    hide StripAll, SameOpen, Searches, Signed, CloseReasoning, B.Settle;
    if Aligned(cfg, c, b) {
      StrippedTallies(c.finished, b.output);
    } else if SealedPair(cfg, c, b) {
      CloseReasoningTally(c);
      StrippedTallies(CloseReasoning(c).finished, b.output);
    } else if Lagging(cfg, c, b) {
      SettleTally(cfg, b);
      StrippedTallies(c.finished, B.Settle(cfg, b).output);
    } else {
      StrippedTallies(c.finished, b.output);
    }
  }

  lemma StripEqual(left: seq<Item>, right: seq<Item>, n: nat)
    requires StripAll(left) == StripAll(right) && n < |left|
    ensures n < |right| && Strip(left[n]) == Strip(right[n])
  {
    assert StripAll(left)[n] == StripAll(right)[n];
  }

  /** A tool call in any of its forms. */
  predicate IsCall(item: Item) {
    item.FunctionCall? || item.CustomCall? || item.ToolSearch?
  }

  /** The item is what the batch holds. */
  predicate IsHeld(b: B.Batch, item: Item) {
    if b.text != [] then item.Message? && item.text == b.text
    else if b.summary != [] then
      item.Reasoning? && item.summary == [b.summary] && item.content.None? && Blocks(item) == |b.redacted| && !IsSigned(item)
    else if b.raw != [] then item.Reasoning? && item.content == Some([b.raw]) && item.envelope.None?
    else IsCall(item)
  }

  lemma SettleHeld(cfg: Config, b: B.Batch)
    requires HoldsOne(b) && !cfg.hide
    ensures var r := B.Settle(cfg, b).output; |r| == |b.output| + 1 && IsHeld(b, r[|b.output|])
  {
    hide Citations, RealName, NamespaceOf, KindOf;
  }

  lemma HeldStripped(b: B.Batch, item: Item, other: Item)
    requires IsHeld(b, item) && Strip(item) == Strip(other)
    ensures IsHeld(b, other)
  {
  }

  /** While the batch lags, the stream's last item is what it holds. */
  lemma LagHeld(cfg: Config, c: Core, b: B.Batch)
    requires Lagging(cfg, c, b) && !cfg.hide
    ensures |c.finished| == |b.output| + 1 && IsHeld(b, c.finished[|b.output|])
  {
    hide HoldsOne, B.Settle, StripAll, IsHeld, Strip;
    SettleHeld(cfg, b);
    var n := |b.output|;
    StripEqual(B.Settle(cfg, b).output, c.finished, n);
    HeldStripped(b, B.Settle(cfg, b).output[n], c.finished[n]);
  }

  /** The item the batch wrote for a sealed reasoning. */
  lemma SealedItem(cfg: Config, c: Core, b: B.Batch)
    requires SealedPair(cfg, c, b)
    ensures |b.output| == |c.finished| + 1
    ensures var item := b.output[|c.finished|];
      item.Reasoning? && item.content.None? && item.summary == [c.reasoning.value.text] && Blocks(item) == |c.redacted|
    ensures c.hiddenRaw == [] && Truthy(b.signature).None?
  {
    var closed, n := CloseReasoning(c).finished, |c.finished|;
    hide StripAll, SameOpen;
    assert closed[n] == Reasoning(c.reasoning.value.id, [c.reasoning.value.text], None, PendingEnvelope(c, None));
    StripEqual(closed, b.output, n);
  }

  lemma BehindLags(cfg: Config, c: Core, b: B.Batch)
    requires Related(cfg, c, b) && Behind(c, b)
    ensures Lagging(cfg, c, b)
  {
    hide Lagging, StripAll;
    if Aligned(cfg, c, b) { HeldTogether(cfg, c, b); }
  }

  lemma SealedIsPair(cfg: Config, c: Core, b: B.Batch)
    requires Related(cfg, c, b) && Sealed(c)
    ensures SealedPair(cfg, c, b) && !Idle(c)
  {
    hide StripAll, SameOpen, CloseReasoning;
  }

  /** A search ended by the next one or by a foreign end is one search more in the stream. */
  lemma UnpairedDooms(cfg: Config, c: Core, b: B.Batch, e: Event)
    requires Related(cfg, c, b) && Unpaired(c, e) > 0 && !e.IsTerminal() && !cfg.hide && !cfg.compaction
    ensures Apart(Handle(cfg, c, e), B.Take(cfg, b, e))
  {
    hide Handle, B.Take, Related, Searches, Signed, Truthy;
    RelatedTallies(cfg, c, b);
    StreamTally(cfg, c, e);
    BatchTally(cfg, b, e);
  }

  /** The end of a search while something is open: the two sides order it differently. */
  lemma OpenAtSearchEndDooms(cfg: Config, c: Core, b: B.Batch, e: Event)
    requires Related(cfg, c, b) && e.SearchEnd? && !Idle(c) && !HollowOpen(c) && !cfg.hide && !cfg.compaction
    ensures Apart(Handle(cfg, c, e), B.Take(cfg, b, e))
  {
    hide Searches, Signed, StripAll, OnSearchEnd, MergeSources, SearchAction, B.Settle, CloseReasoning, SameOpen, SamePending, HoldsOne;
    RelatedTallies(cfg, c, b);
    BatchTally(cfg, b, e);
    SearchEndFirst(c, e);
    SettleGrows(cfg, b);
    var n := |c.finished|;
    var left, right := Handle(cfg, c, e).finished, B.Take(cfg, b, e).output;
    if Aligned(cfg, c, b) {
      HeldTogether(cfg, c, b);
      SettleHeld(cfg, b);
      HeldIsNoSearch(b, B.Settle(cfg, b).output[n]);
      assert right[n] == B.Settle(cfg, b).output[n];
    } else {
      SealedItem(cfg, c, b);
      assert right[n] == b.output[n];
    }
    DivergedAt(left, right, n);
  }

  lemma HeldIsNoSearch(b: B.Batch, item: Item)
    requires IsHeld(b, item)
    ensures !item.WebSearch?
  {
  }

  /** Continuing content the stream has closed: the batch's item outgrows the stream's. */
  lemma ContinuationDooms(cfg: Config, c: Core, b: B.Batch, e: Event)
    requires Lagging(cfg, c, b) && Disciplined(c, e) && !cfg.hide && !cfg.compaction
    requires || (e.TextDelta? && b.text != [] && (e.phase.None? || e.phase == b.textPhase))
             || (e.ThinkingDelta? && b.summary != [])
             || (e.RawDelta? && b.raw != [])
             || (e.RedactedThinking? && b.summary != [])
    ensures Stuck(Handle(cfg, c, e), B.Take(cfg, b, e)) && Truthy(B.Take(cfg, b, e).signature).None?
  {
    LagHeld(cfg, c, b);
    StreamGrows(cfg, c, e);
    hide Handle, Aligned;
    Continued(cfg, b, e);
    assert Handle(cfg, c, e).finished[|b.output|] == c.finished[|b.output|];
  }

  lemma Continued(cfg: Config, b: B.Batch, e: Event)
    requires HoldsOne(b) && !cfg.hide && !cfg.compaction
    requires || (e.TextDelta? && b.text != [] && (e.phase.None? || e.phase == b.textPhase))
             || (e.ThinkingDelta? && b.summary != [])
             || (e.RawDelta? && b.raw != [])
             || (e.RedactedThinking? && b.summary != [])
    ensures var r := B.Take(cfg, b, e);
      && r.output == b.output && r.signature.None?
      && |r.text| == |b.text| + (if e.TextDelta? then |e.text| else 0)
      && |r.summary| == |b.summary| + (if e.ThinkingDelta? then |e.thinking| else 0)
      && |r.raw| == |b.raw| + (if e.RawDelta? then |e.text| else 0)
      && |r.redacted| == |b.redacted| + (if e.RedactedThinking? then 1 else 0)
  {
  }

  /** Thinking or redacted blocks after a signature go into an item the batch has already written. */
  lemma SealedDooms(cfg: Config, c: Core, b: B.Batch, e: Event)
    requires SealedPair(cfg, c, b) && !cfg.hide && !cfg.compaction
    requires (e.ThinkingDelta? && e.thinking != []) || e.RedactedThinking?
    ensures Apart(Handle(cfg, c, e), B.Take(cfg, b, e))
  {
    SealedItem(cfg, c, b);
    BatchTally(cfg, b, e);
    BatchGrows(cfg, b, e);
    hide CloseTool, CloseRaw, CloseMessage, CloseReasoning, FlushHiddenRaw, Aligned, B.Take, Diverged, Searches, Signed;
    var d, r, n := Handle(cfg, c, e), B.Take(cfg, b, e), |c.finished|;
    assert d.finished == c.finished && r.output[n] == b.output[n];
    assert Outran(d, r);
  }

  /** A second signature overwrites the first in the stream; the batch writes both. */
  lemma ResignedDooms(cfg: Config, c: Core, b: B.Batch, e: Event)
    requires SealedPair(cfg, c, b) && e.ThinkingSignature? && e.sig != [] && !cfg.hide && !cfg.compaction
    ensures Apart(Handle(cfg, c, e), B.Take(cfg, b, e))
  {
    RelatedTallies(cfg, c, b);
    BatchTally(cfg, b, e);
    hide Searches, Signed, Aligned, CloseReasoning, FlushEnvelope, B.Take, Diverged;
    assert Handle(cfg, c, e) == c.(signature := Some(e.sig));
  }

  /** A signature while the batch lags: its item goes before or into the held content. */
  lemma LateSignatureDooms(cfg: Config, c: Core, b: B.Batch, e: Event)
    requires Lagging(cfg, c, b) && e.ThinkingSignature? && e.sig != [] && !cfg.hide && !cfg.compaction
    ensures Apart(Handle(cfg, c, e), B.Take(cfg, b, e))
  {
    LagHeld(cfg, c, b);
    StreamGrows(cfg, c, e);
    BatchTally(cfg, b, e);
    hide Handle, Aligned, Searches, Signed, HoldsOne;
    var left, right, n := Handle(cfg, c, e).finished, B.Take(cfg, b, e).output, |b.output|;
    assert left[n] == c.finished[n];
    assert IsSigned(right[n]);
    HeldUnsigned(b, c.finished[n], right[n]);
    DivergedAt(left, right, n);
  }

  lemma HeldUnsigned(b: B.Batch, item: Item, written: Item)
    requires IsHeld(b, item) && IsSigned(written)
    ensures Strip(item) != Strip(written)
  {
  }

  /** Waiting redacted blocks: the batch writes them first. */
  lemma RedactedFirst(cfg: Config, b: B.Batch, inferred: Option<Phase>)
    requires b.text == [] && b.summary == [] && b.redacted != [] && !cfg.hide
    ensures var r := FlushAll(cfg, b, inferred).output;
      b.output <= r && |r| > |b.output| && r[|b.output|].Reasoning? && r[|b.output|].content.None?
  {
    hide B.FlushRaw, B.FlushCall;
    var b1 := B.FlushText(b, inferred);
    assert b1 == b;
    var b2 := B.FlushSummary(cfg, b);
    FlushesGrow(cfg, b2, None);
    FlushesGrow(cfg, B.FlushRaw(cfg, b2), None);
  }

  /** The stream closes raw reasoning or a call before anything else it writes at a boundary or an end. */
  lemma ContentFirst(cfg: Config, c: Core, inferred: Option<Phase>)
    requires c.msg.None? && c.reasoning.None? && (c.raw.Some? || c.tool.Some?) && c.hiddenRaw == []
    ensures var d := CloseVisible(cfg, c, inferred).finished;
      |d| > |c.finished| && (IsCall(d[|c.finished|]) || (d[|c.finished|].Reasoning? && d[|c.finished|].content.Some?))
  {
    hide RealName, NamespaceOf, KindOf, FreeformInput;
    if c.raw.Some? {
      var c1 := CloseRaw(c);
      assert c1.finished[|c.finished|].Reasoning?;
      assert c1.finished <= CloseVisible(cfg, c, inferred).finished by { hide CloseRaw, CloseTool; }
    }
  }

  /** Redacted blocks behind raw reasoning or a call, on the stream's side. */
  lemma OutOfOrder(cfg: Config, c: Core, b: B.Batch)
    requires Related(cfg, c, b) && !RedactedInOrder(b)
    ensures b.redacted != [] && b.text == [] && b.summary == []
    ensures Lagging(cfg, c, b) || (Aligned(cfg, c, b) && c.msg.None? && c.reasoning.None? && (c.raw.Some? || c.tool.Some?) && c.hiddenRaw == [])
  {
    hide StripAll, RealName, NamespaceOf, KindOf, B.Settle;
    if SealedPair(cfg, c, b) { hide SameOpen; SealedHasNone(cfg, c, b); }
  }

  lemma SealedHasNone(cfg: Config, c: Core, b: B.Batch)
    requires SealedPair(cfg, c, b)
    ensures b.redacted == []
  {
    hide StripAll, SameOpen;
  }

  lemma BoundaryCloses(cfg: Config, c: Core, b: B.Batch)
    requires !cfg.compaction
    ensures CloseVisible(cfg, c, Some(Commentary)).finished <= Handle(cfg, c, Boundary).finished
    ensures B.Take(cfg, b, Boundary) == FlushAll(cfg, b, Some(Commentary))
  {
    hide CloseVisible, FlushEnvelope, B.FlushText, B.FlushSummary, B.FlushRaw, B.FlushCall;
  }

  lemma BoundaryOutOfOrderDooms(cfg: Config, c: Core, b: B.Batch)
    requires Related(cfg, c, b) && !RedactedInOrder(b) && !cfg.hide && !cfg.compaction
    ensures Apart(Handle(cfg, c, Boundary), B.Take(cfg, b, Boundary))
  {
    OutOfOrder(cfg, c, b);
    hide Aligned, Lagging, Related, Searches, Signed, CloseVisible, RedactedInOrder, Diverged, Handle, B.Take, FlushAll, Strip;
    RelatedTallies(cfg, c, b);
    BatchTally(cfg, b, Boundary);
    RedactedFirst(cfg, b, Some(Commentary));
    BoundaryCloses(cfg, c, b);
    OutOfOrderItem(cfg, c, b, Some(Commentary));
    var left, right, n := Handle(cfg, c, Boundary).finished, B.Take(cfg, b, Boundary).output, |b.output|;
    ContentIsNoEnvelope(left[n], right[n]);
    DivergedAt(left, right, n);
  }

  /** At that index the stream writes, or wrote, raw reasoning or a call. */
  lemma OutOfOrderItem(cfg: Config, c: Core, b: B.Batch, inferred: Option<Phase>)
    requires Related(cfg, c, b) && !RedactedInOrder(b) && !cfg.hide
    ensures var d, n := CloseVisible(cfg, c, inferred).finished, |b.output|;
      |d| > n && (IsCall(d[n]) || (d[n].Reasoning? && d[n].content.Some?))
  {
    OutOfOrder(cfg, c, b);
    if Lagging(cfg, c, b) {
      LagHeld(cfg, c, b);
      hide Lagging, CloseVisible, Related;
      assert CloseVisible(cfg, c, inferred).finished[|b.output|] == c.finished[|b.output|];
    } else {
      ContentFirst(cfg, c, inferred);
      hide CloseVisible, Related;
    }
  }

  /** A call without an id, or an item that got only empty deltas and is closed: the batch has none. */
  lemma HollowDooms(cfg: Config, c: Core, b: B.Batch, e: Event)
    requires Related(cfg, c, b) && !e.IsTerminal() && !cfg.hide && !cfg.compaction
    requires (e.ToolStart? && e.id == []) || (Opening(cfg, c, b) && !Continues(c, e) && !e.ThinkingSignature?)
    ensures Apart(Handle(cfg, c, e), B.Take(cfg, b, e))
  {
    hide Related, Aligned, B.Take, Truthy, Searches, Signed, Diverged, Stuck, Outran, NoneHollow;
    RelatedTallies(cfg, c, b);
    BatchTally(cfg, b, e);
    if e.ToolStart? && e.id == [] {
      hide CloseVisible;
      assert HasHollow(Handle(cfg, c, e));
    } else {
      hide Handle;
      OpeningCloses(cfg, c, b, e);
    }
  }

  /** A signature for thinking that is still empty: the batch writes it without a summary. */
  lemma HollowSignatureDooms(cfg: Config, c: Core, b: B.Batch, e: Event)
    requires Opening(cfg, c, b) && e.ThinkingSignature? && e.sig != [] && c.reasoning.Some? && !cfg.hide && !cfg.compaction
    ensures Apart(Handle(cfg, c, e), B.Take(cfg, b, e))
  {
    NothingHeld(cfg, c, b);
    OpeningLengths(cfg, c, b);
    assert c.hiddenRaw == [];
    hide Aligned, FlushEnvelope, Searches, Signed, Diverged, Stuck, HasHollow;
    var d, r := Handle(cfg, c, e), B.Take(cfg, b, e);
    assert d == c.(signature := Some(e.sig));
    assert r.output == b.output + [Reasoning(b.nextId, [], None, Some(Envelope(Some(e.sig), b.redacted, None)))];
    assert OutranItem(d, r.output[|d.finished|]);
  }

  lemma OpeningLengths(cfg: Config, c: Core, b: B.Batch)
    requires Opening(cfg, c, b)
    ensures |c.finished| == |b.output|
  {
    hide SameOpen;
  }

  lemma OffGuardDooms(cfg: Config, c: Core, b: B.Batch, e: Event)
    requires Related(cfg, c, b) && NoneHollow(b.output) && Disciplined(c, e) && !Matched(c, b, e) && !e.IsTerminal() && !cfg.hide && !cfg.compaction
    ensures Doomed(Handle(cfg, c, e), B.Take(cfg, b, e))
  {
    hide Handle, B.Take, Apart, NoneHollow, Related, Aligned, SealedPair, Lagging, Opening;
    TakeSolid(cfg, b, e);
    OffGuardParts(cfg, c, b, e);
  }

  lemma OffGuardParts(cfg: Config, c: Core, b: B.Batch, e: Event)
    requires Related(cfg, c, b) && Disciplined(c, e) && !Matched(c, b, e) && !e.IsTerminal() && !cfg.hide && !cfg.compaction
    ensures Apart(Handle(cfg, c, e), B.Take(cfg, b, e))
  {
    hide Handle, B.Take, Apart, Aligned, SealedPair, Lagging, Opening;
    if HollowOpen(c) { HollowIsOpening(cfg, c, b); }
    hide Related;
    if e.ToolStart? && e.id == [] {
      HollowDooms(cfg, c, b, e);
    } else if HollowOpen(c) && !Continues(c, e) {
      if e.ThinkingSignature? { HollowSignatureDooms(cfg, c, b, e); } else { HollowDooms(cfg, c, b, e); }
    } else {
      OutOfOrderDooms(cfg, c, b, e);
    }
  }

  lemma HollowIsOpening(cfg: Config, c: Core, b: B.Batch)
    requires Related(cfg, c, b) && HollowOpen(c)
    ensures Opening(cfg, c, b)
  {
    hide Aligned, SealedPair, Lagging, Opening, HollowOpen;
    if Aligned(cfg, c, b) || SealedPair(cfg, c, b) || Lagging(cfg, c, b) { AlignedFilled(cfg, c, b); }
  }

  /** Nothing hollow is open, or it stays open: an empty item takes part in no other clause of the guard. */
  lemma OutOfOrderDooms(cfg: Config, c: Core, b: B.Batch, e: Event)
    requires Related(cfg, c, b) && Disciplined(c, e) && !InOrder(c, b, e) && !e.IsTerminal() && !cfg.hide && !cfg.compaction
    requires (e.ToolStart? ==> e.id != []) && (HollowOpen(c) ==> Continues(c, e))
    ensures Apart(Handle(cfg, c, e), B.Take(cfg, b, e))
  {
    hide Handle, B.Take, Related, Aligned, SealedPair, Lagging, Opening, Apart;
    if Sealed(c) { SealedIsPair(cfg, c, b); }
    if Behind(c, b) { BehindLags(cfg, c, b); }
    match e {
      case SearchBegin(_) => UnpairedDooms(cfg, c, b, e);
      case SearchEnd(_, _, _, _) =>
        if Idle(c) || HollowOpen(c) { UnpairedDooms(cfg, c, b, e); } else { OpenAtSearchEndDooms(cfg, c, b, e); }
      case Boundary => BoundaryOutOfOrderDooms(cfg, c, b);
      case ThinkingSignature(_) => if Sealed(c) { ResignedDooms(cfg, c, b, e); } else { LateSignatureDooms(cfg, c, b, e); }
      case _ =>
        if Behind(c, b) {
          ContinuationDooms(cfg, c, b, e);
          StuckDooms(Handle(cfg, c, e), B.Take(cfg, b, e));
        } else {
          SealedDooms(cfg, c, b, e);
        }
    }
  }

  lemma StuckDooms(c: Core, b: B.Batch)
    requires Stuck(c, b) && Truthy(b.signature).None?
    ensures Apart(c, b)
  {
  }

  // ---------------------------------------------------------------------------
  // A terminal event off the guard
  // ---------------------------------------------------------------------------

  /** The stream ends a search that was never ended by its own event. */
  lemma OpenSearchDiffers(cfg: Config, c: Core, b: B.Batch, e: Event)
    requires Related(cfg, c, b) && c.search.Some? && e.IsTerminal() && !cfg.hide && !cfg.compaction
    ensures StripAll(Handle(cfg, c, e).finished) != StripAll(B.Respond(cfg, B.Take(cfg, b, e)).output)
  {
    hide Handle, B.Take, B.Respond, FlushAll, Related, Searches, Signed, StripAll, Truthy;
    RelatedTallies(cfg, c, b);
    StreamTally(cfg, c, e);
    TerminalFlush(cfg, b, e);
    var t := B.Take(cfg, b, e);
    var inferred: Option<Phase> :| B.Respond(cfg, t).output == FlushAll(cfg, t, inferred).output;
    FlushAllTally(cfg, t, inferred);
    if StripAll(Handle(cfg, c, e).finished) == StripAll(B.Respond(cfg, t).output) {
      StrippedTallies(Handle(cfg, c, e).finished, B.Respond(cfg, t).output);
    }
  }

  lemma EndOutOfOrderDiffers(cfg: Config, c: Core, b: B.Batch, e: Event)
    requires Related(cfg, c, b) && !RedactedInOrder(b) && (e.Done? || e.Incomplete?) && !cfg.hide && !cfg.compaction
    ensures StripAll(Handle(cfg, c, e).finished) != StripAll(B.Respond(cfg, B.Take(cfg, b, e)).output)
  {
    OutOfOrder(cfg, c, b);
    TerminalFlush(cfg, b, e);
    hide Handle, B.Take, B.Respond, FlushAll, Related, Aligned, Lagging, RedactedInOrder, StripAll, CloseVisible, Strip, Diverged;
    var t := B.Take(cfg, b, e);
    var inferred: Option<Phase> :| B.Respond(cfg, t).output == FlushAll(cfg, t, inferred).output;
    RedactedFirst(cfg, t, inferred);
    EndOutOfOrderAt(cfg, c, b, e, B.Respond(cfg, t).output);
  }

  lemma EndOutOfOrderAt(cfg: Config, c: Core, b: B.Batch, e: Event, right: seq<Item>)
    requires Related(cfg, c, b) && !RedactedInOrder(b) && (e.Done? || e.Incomplete?) && !cfg.hide && !cfg.compaction
    requires |right| > |b.output| && right[|b.output|].Reasoning? && right[|b.output|].content.None?
    ensures StripAll(Handle(cfg, c, e).finished) != StripAll(right)
  {
    hide Handle, Related, Aligned, Lagging, RedactedInOrder, StripAll, CloseVisible, Strip, Diverged;
    OutOfOrderItem(cfg, c, b, if e.Done? then InferredFinal(e.stop) else None);
    EndClosesFirst(cfg, c, e);
    var left, n := Handle(cfg, c, e).finished, |b.output|;
    ContentIsNoEnvelope(left[n], right[n]);
    DivergedAt(left, right, n);
    DivergedDiffers(left, right);
  }

  lemma ContentIsNoEnvelope(item: Item, envelope: Item)
    requires IsCall(item) || (item.Reasoning? && item.content.Some?)
    requires envelope.Reasoning? && envelope.content.None?
    ensures Strip(item) != Strip(envelope)
  {
  }

  /** At an error the stream loses waiting redacted blocks; the batch writes them as one item more. */
  lemma LostRedactedDiffers(cfg: Config, c: Core, b: B.Batch, e: Event)
    requires Aligned(cfg, c, b) && c.redacted != [] && c.reasoning.None? && c.search.None? && e.Error? && !cfg.hide && !cfg.compaction
    ensures |Handle(cfg, c, e).finished| < |B.Respond(cfg, B.Take(cfg, b, e)).output|
  {
    var t := B.Take(cfg, b, e);
    TerminalFlush(cfg, b, e);
    hide B.Take, B.Respond, FlushAll;
    var inferred: Option<Phase> :| B.Respond(cfg, t).output == FlushAll(cfg, t, inferred).output;
    StreamErrorCount(cfg, c, e);
    BatchErrorCount(cfg, t, inferred);
    HeldTogether(cfg, c, b);
    OpenCounts(cfg, c, b);
  }

  lemma LengthsDiffer(left: seq<Item>, right: seq<Item>)
    requires |left| != |right|
    ensures StripAll(left) != StripAll(right)
  {
    hide StripAll;
    assert |StripAll(left)| == |left| && |StripAll(right)| == |right|;
  }

  function Open(c: Core): nat {
    Count(c.msg.Some?) + Count(c.reasoning.Some?) + Count(c.raw.Some?) + Count(c.tool.Some?)
  }

  function Held(b: B.Batch): nat {
    Count(b.text != []) + Count(b.summary != []) + Count(b.raw != []) + Count(b.callId != [])
  }

  lemma OpenCounts(cfg: Config, c: Core, b: B.Batch)
    requires Aligned(cfg, c, b)
    ensures Open(c) == Held(b) && |c.finished| == |b.output| && (c.reasoning.None? ==> b.summary == [])
    ensures c.hiddenRaw == []
  {
    hide RealName, NamespaceOf, KindOf;
  }

  lemma CloserCounts(cfg: Config, c: Core)
    ensures |CloseMessage(c, None).finished| == |c.finished| + Count(c.msg.Some?)
    ensures |CloseReasoning(c).finished| == |c.finished| + Count(c.reasoning.Some?)
    ensures |CloseRaw(c).finished| == |c.finished| + Count(c.raw.Some?)
    ensures |CloseTool(cfg, c).finished| == |c.finished| + Count(c.tool.Some?)
  {
    hide ToolItem, Citations, FreeformInput, PendingEnvelope;
  }

  lemma StreamErrorCount(cfg: Config, c: Core, e: Event)
    requires c.hiddenRaw == [] && c.search.None? && e.Error? && !cfg.compaction
    ensures |Handle(cfg, c, e).finished| == |c.finished| + Open(c)
  {
    hide CloseMessage, CloseReasoning, CloseRaw, CloseTool, FlushHiddenRaw, CloseSearch, Count;
    var c1 := CloseMessage(c, None);
    var c2 := CloseReasoning(c1);
    CloserCounts(cfg, c);
    CloserCounts(cfg, c1);
    CloserCounts(cfg, c2);
    CloserCounts(cfg, CloseRaw(c2));
  }

  lemma BatchErrorCount(cfg: Config, t: B.Batch, inferred: Option<Phase>)
    requires t.redacted != [] && t.summary == [] && !cfg.hide
    ensures |FlushAll(cfg, t, inferred).output| == |t.output| + Held(t) + 1
  {
    hide ToolItem, Citations, RealName, NamespaceOf, KindOf;
  }

  /** Any ending closes an item that got only empty deltas; the batch writes none. */
  lemma HollowOpenDiffers(cfg: Config, c: Core, b: B.Batch, e: Event)
    requires Opening(cfg, c, b) && NoneHollow(b.output) && e.IsTerminal() && !cfg.hide && !cfg.compaction
    ensures StripAll(Handle(cfg, c, e).finished) != StripAll(B.Respond(cfg, B.Take(cfg, b, e)).output)
  {
    hide Handle, B.Take, B.Respond, Opening, StripAll, NoneHollow;
    OpeningCloses(cfg, c, b, e);
    TakeSolid(cfg, b, e);
    RespondSolid(cfg, B.Take(cfg, b, e));
    HollowDiffers(Handle(cfg, c, e).finished, B.Respond(cfg, B.Take(cfg, b, e)).output);
  }

  /** A terminal event that misses the guard leaves different items. */
  lemma OffGuardEnds(cfg: Config, c: Core, b: B.Batch, e: Event)
    requires Related(cfg, c, b) && NoEnding(b) && NoneHollow(b.output) && !Matched(c, b, e) && e.IsTerminal() && !cfg.hide && !cfg.compaction
    ensures StripAll(Handle(cfg, c, e).finished) != StripAll(B.Respond(cfg, B.Take(cfg, b, e)).output)
  {
    hide Handle, B.Take, B.Respond, Aligned, Opening, HollowOpen, StripAll, NoneHollow, RedactedInOrder;
    if HollowOpen(c) {
      HollowIsOpening(cfg, c, b);
      HollowOpenDiffers(cfg, c, b, e);
    } else if c.search.Some? {
      OpenSearchDiffers(cfg, c, b, e);
    } else if !RedactedInOrder(b) && !e.Error? {
      EndOutOfOrderDiffers(cfg, c, b, e);
    } else {
      assert Aligned(cfg, c, b) by { WaitingIsAligned(cfg, c, b, e); }
      if e.Error? {
        LostRedactedDiffers(cfg, c, b, e);
        LengthsDiffer(Handle(cfg, c, e).finished, B.Respond(cfg, B.Take(cfg, b, e)).output);
      } else {
        EmptyStopReasonDiffers(cfg, c, b, e.endTurn);
      }
    }
  }

  /** At a terminal event of related sides the guard says exactly whether the responses agree. */
  lemma TerminalMatchesExactly(cfg: Config, c: Core, b: B.Batch, e: Event)
    requires Related(cfg, c, b) && NoEnding(b) && NoneHollow(b.output) && e.IsTerminal() && !cfg.hide && !cfg.compaction
    ensures SameResponse(Handle(cfg, c, e), B.Respond(cfg, B.Take(cfg, b, e))) <==> Matched(c, b, e)
  {
    hide Handle, B.Take, B.Respond, Related, Matched, StripAll, NoneHollow;
    if Matched(c, b, e) {
      TerminalMatches(cfg, c, b, e);
    } else {
      OffGuardEnds(cfg, c, b, e);
    }
  }

  /** The last two clauses can only fail with both sides aligned. */
  lemma WaitingIsAligned(cfg: Config, c: Core, b: B.Batch, e: Event)
    requires Related(cfg, c, b) && !HollowOpen(c) && c.search.None?
    requires (e.Error? && c.reasoning.None?) || c.msg.Some?
    ensures Aligned(cfg, c, b)
  {
    hide Aligned;
  }

  /** An empty stop reason with an unclassified message open: "final_answer" in the stream, none in the batch. */
  lemma EmptyStopReasonDiffers(cfg: Config, c: Core, b: B.Batch, endTurn: Option<bool>)
    requires Aligned(cfg, c, b) && NoEnding(b) && c.search.None? && !cfg.hide && !cfg.compaction
    requires c.msg.Some? && c.msg.value.phase.None?
    ensures var e := Done(Some(OtherStop([])), endTurn);
      StripAll(Handle(cfg, c, e).finished) != StripAll(B.Respond(cfg, B.Take(cfg, b, e)).output)
  {
    hide StripAll, SameOpen, FlushEnvelope, CloseMessage, RedactedInOrder,
         B.FlushRaw, B.FlushCall, B.FlushText, B.FlushSummary, B.FlushOpenSummary, B.TakeText, B.TakeSearchEnd;
    var e := Done(Some(OtherStop([])), endTurn);
    var d := B.Take(cfg, b, e);
    AlignedEnding(cfg, c, b, d);
    OnlyMessageOpen(cfg, c, d);
    BoundaryAligned(cfg, c, d, None);
    var n := |c.finished|;
    ClosedPhase(c, None);
    ClosedPhase(c, Some(FinalAnswer));
    KeepsItem(CloseMessage(c, None), n);
    KeepsItem(CloseMessage(c, Some(FinalAnswer)), n);
    var left, right := FlushEnvelope(CloseMessage(c, Some(FinalAnswer))).finished, FlushEnvelope(CloseMessage(c, None)).finished;
    StripAt(left, n);
    StripAt(right, n);
  }

  lemma OnlyMessageOpen(cfg: Config, c: Core, b: B.Batch)
    requires Aligned(cfg, c, b) && c.msg.Some?
    ensures c.reasoning.None? && c.raw.None? && c.tool.None? && c.hiddenRaw == [] && RedactedInOrder(b)
  {
    hide StripAll, SameCall;
  }

  lemma ClosedPhase(c: Core, inferred: Option<Phase>)
    requires c.msg.Some? && c.msg.value.phase.None?
    ensures var done := CloseMessage(c, inferred).finished;
      |done| == |c.finished| + 1 && done[|c.finished|].Message? && done[|c.finished|].phase == inferred
  {
  }

  lemma KeepsItem(c: Core, n: nat)
    requires n < |c.finished|
    ensures |FlushEnvelope(c).finished| > n && FlushEnvelope(c).finished[n] == c.finished[n]
  {
  }

  lemma StripAt(items: seq<Item>, n: nat)
    requires n < |items|
    ensures StripAll(items)[n] == Strip(items[n])
  {
  }

  // ---------------------------------------------------------------------------
  // Whole event lists
  // ---------------------------------------------------------------------------

  lemma {:induction false} OffGuardStays(cfg: Config, es: seq<Event>)
    requires AllDisciplined(cfg, es) && (forall k :: 0 <= k < |es| ==> !es[k].IsTerminal())
    requires !AllMatched(cfg, es) && !cfg.hide && !cfg.compaction
    ensures Doomed(Run(cfg, EventInputs(es)), B.TakeAll(cfg, es))
  {
    var before, last := es[..|es| - 1], es[|es| - 1];
    RunEvents(cfg, es);
    hide Handle, Run, B.Take, Related, Matched, Disciplined, Doomed, NoneHollow;
    if AllMatched(cfg, before) {
      RunsRelated(cfg, before);
      BatchIsSolid(cfg, before);
      OffGuardDooms(cfg, Run(cfg, EventInputs(before)), B.TakeAll(cfg, before), last);
    } else {
      OffGuardStays(cfg, before);
      DoomedStays(cfg, Run(cfg, EventInputs(before)), B.TakeAll(cfg, before), last);
    }
  }

  /**
   * Exactly when the two responses agree: for every event list that ends in its only terminal
   * event, with visible thinking and no compaction, the stream's terminal frame carries the batch
   * response if and only if every event met the guard; and the items alone already tell. Outside
   * its scope are only empty signatures and, inside a running search, empty deltas that open an
   * item and arguments without an open call.
   */
  lemma StreamMatchesBatchExactly(cfg: Config, es: seq<Event>)
    requires es != [] && es[|es| - 1].IsTerminal() && (forall k :: 0 <= k < |es| - 1 ==> !es[k].IsTerminal())
    requires AllDisciplined(cfg, es) && !cfg.hide && !cfg.compaction
    ensures SameResponse(Run(cfg, EventInputs(es)), B.BuildResponse(cfg, es)) <==> AllMatched(cfg, es)
    ensures StripAll(Run(cfg, EventInputs(es)).finished) == StripAll(B.BuildResponse(cfg, es).output) <==> AllMatched(cfg, es)
  {
    var before, last := es[..|es| - 1], es[|es| - 1];
    if AllMatched(cfg, es) {
      StreamRefinesBatch(cfg, es);
    } else {
      RunEvents(cfg, es);
      hide Handle, Run, B.Take, B.Respond, Related, Matched, Disciplined, Doomed, StripAll, NoneHollow;
      if AllMatched(cfg, before) {
        RunsRelated(cfg, before);
        BatchIsSolid(cfg, before);
        OffGuardEnds(cfg, Run(cfg, EventInputs(before)), B.TakeAll(cfg, before), last);
      } else {
        OffGuardStays(cfg, before);
        DoomedEnds(cfg, Run(cfg, EventInputs(before)), B.TakeAll(cfg, before), last);
      }
    }
  }
}
