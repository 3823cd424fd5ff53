/**
 * A compaction turn asks for a summary only. The stream collects its text and ignores the rest;
 * the batch handles every event as usual and adds the summary item at the end. This module says
 * exactly when the two responses hold the same items.
 */
module BridgeCompaction {
  import opened Prelude
  import opened BridgeTypes
  import opened BridgeCore
  import opened BridgeRefinement
  import B = BridgeBatch

  /** The event leaves no item in the batch response of a compaction turn. */
  predicate Silent(cfg: Config, e: Event) {
    match e
    case ThinkingDelta(text) => cfg.hide || text == []
    case ThinkingSignature(sig) => sig == []
    case RedactedThinking(_) => false
    case RawDelta(text) => text == []
    case ToolStart(id, _) => id == []
    case SearchEnd(_, _, _, _) => false
    case _ => true
  }

  /** The batch has written, or will write, an item besides the summary. */
  predicate Busy(cfg: Config, b: B.Batch) {
    b.output != [] || b.raw != [] || b.callId != [] || b.redacted != [] || (!cfg.hide && b.summary != [])
  }

  /** No text is held outside the summary, and no summary item is out yet. */
  predicate Tidy(b: B.Batch) {
    b.text == [] && Truthy(b.signature).None? && (b.output != [] ==> !b.output[0].Compaction?)
  }

  /** A flush changes neither what is to come nor the collected summary. */
  predicate SameBusy(cfg: Config, b: B.Batch, d: B.Batch) {
    Tidy(d) && (Busy(cfg, d) <==> Busy(cfg, b)) && d.compactionText == b.compactionText
  }

  lemma FlushSummaryBusy(cfg: Config, b: B.Batch)
    requires Tidy(b)
    ensures SameBusy(cfg, b, B.FlushSummary(cfg, b)) && SameBusy(cfg, b, B.FlushOpenSummary(cfg, b))
    ensures var d := B.FlushSummary(cfg, b); d.redacted == [] && d.summary == []
    ensures B.FlushOpenSummary(cfg, b).summary == []
  {
  }

  lemma FlushRawBusy(cfg: Config, b: B.Batch)
    requires Tidy(b)
    ensures SameBusy(cfg, b, B.FlushRaw(cfg, b))
  {
  }

  lemma FlushCallBusy(cfg: Config, b: B.Batch)
    requires Tidy(b)
    ensures SameBusy(cfg, b, B.FlushCall(cfg, b))
  {
    hide RealName, NamespaceOf, KindOf;
  }

  lemma OthersBusy(cfg: Config, b: B.Batch)
    requires Tidy(b)
    ensures var d := B.FlushCall(cfg, B.FlushRaw(cfg, B.FlushOpenSummary(cfg, b)));
      SameBusy(cfg, b, d) && d.callId == []
  {
    hide Busy, Tidy, B.FlushOpenSummary, B.FlushSummary, B.FlushRaw, B.FlushCall;
    FlushSummaryBusy(cfg, b);
    FlushRawBusy(cfg, B.FlushOpenSummary(cfg, b));
    FlushCallBusy(cfg, B.FlushRaw(cfg, B.FlushOpenSummary(cfg, b)));
  }

  lemma AllBusy(cfg: Config, b: B.Batch, inferred: Option<Phase>)
    requires Tidy(b)
    ensures var d := B.FlushCall(cfg, B.FlushRaw(cfg, B.FlushSummary(cfg, B.FlushText(b, inferred))));
      SameBusy(cfg, b, d) && (Busy(cfg, d) <==> d.output != [])
  {
    assert B.FlushText(b, inferred) == b;
    var b2 := B.FlushSummary(cfg, b);
    var b3 := B.FlushRaw(cfg, b2);
    FlushSummaryBusy(cfg, b);
    FlushRawBusy(cfg, b2);
    FlushCallBusy(cfg, b3);
    hide Tidy, B.FlushSummary, B.FlushRaw, B.FlushCall;
  }

  lemma SettleBusy(cfg: Config, b: B.Batch)
    requires Tidy(b)
    ensures SameBusy(cfg, b, B.Settle(cfg, b)) && B.Settle(cfg, b).callId == []
  {
    assert B.FlushText(b, Some(Commentary)) == b;
    OthersBusy(cfg, b);
    hide Busy, Tidy, B.FlushOpenSummary, B.FlushRaw, B.FlushCall, B.FlushText;
  }

  function TextOf(e: Event): Str {
    if e.TextDelta? then e.text else []
  }

  /** What one event adds. */
  predicate Adds(cfg: Config, b: B.Batch, e: Event, d: B.Batch) {
    Tidy(d) && (Busy(cfg, d) <==> Busy(cfg, b) || !Silent(cfg, e)) && d.compactionText == b.compactionText + TextOf(e)
  }

  lemma TakeBusy(cfg: Config, b: B.Batch, e: Event)
    requires Tidy(b) && cfg.compaction
    ensures Adds(cfg, b, e, B.Take(cfg, b, e))
  {
    hide B.FlushText, B.FlushSummary, B.FlushOpenSummary, B.FlushRaw, B.FlushCall, B.Settle, B.TakeText, B.TakeSearchEnd;
    match e {
      case Boundary => AllBusy(cfg, b, Some(Commentary));
      case TextDelta(text, phase) => TakeTextBusy(cfg, b, text, phase);
      case ThinkingDelta(_) =>
        FlushRawBusy(cfg, b);
        FlushCallBusy(cfg, B.FlushRaw(cfg, b));
        assert B.FlushText(b, Some(Commentary)) == b;
      case ThinkingSignature(sig) => SignatureBusy(cfg, b, sig);
      case RawDelta(_) =>
        FlushSummaryBusy(cfg, b);
        FlushCallBusy(cfg, B.FlushOpenSummary(cfg, b));
        assert B.FlushText(b, Some(Commentary)) == b;
      case ToolStart(_, _) => SettleBusy(cfg, b);
      case ToolEnd => FlushCallBusy(cfg, b);
      case SearchEnd(_, queries, status, sources) => SearchEndBusy(cfg, b, queries, status, sources);
      case _ =>
    }
  }

  lemma TakeTextBusy(cfg: Config, b: B.Batch, text: Str, phase: Option<Phase>)
    requires Tidy(b) && cfg.compaction
    ensures Adds(cfg, b, TextDelta(text, phase), B.TakeText(cfg, b, text, phase))
  {
    OthersBusy(cfg, b);
    hide B.FlushText, B.FlushOpenSummary, B.FlushRaw, B.FlushCall;
  }

  lemma SignatureBusy(cfg: Config, b: B.Batch, sig: Str)
    requires Tidy(b)
    ensures Adds(cfg, b, ThinkingSignature(sig), B.FlushSummary(cfg, b.(signature := Some(sig))))
  {
  }

  lemma SearchEndBusy(cfg: Config, b: B.Batch, queries: seq<Str>, status: Option<SearchStatus>, sources: Option<seq<Source>>)
    requires Tidy(b)
    ensures Adds(cfg, b, SearchEnd([], queries, status, sources), B.TakeSearchEnd(cfg, b, queries, status, sources))
  {
    SettleBusy(cfg, b);
    hide B.Settle, MergeSources, SearchAction;
  }

  predicate AllSilent(cfg: Config, es: seq<Event>) {
    forall k :: 0 <= k < |es| ==> Silent(cfg, es[k])
  }

  /** The stream keeps nothing but the text, and the batch collects the same text. */
  lemma {:induction false} CompactionRuns(cfg: Config, es: seq<Event>)
    requires cfg.compaction && forall k :: 0 <= k < |es| ==> !es[k].IsTerminal()
    ensures Run(cfg, EventInputs(es)) == Init().(compactionText := B.TakeAll(cfg, es).compactionText)
    ensures Tidy(B.TakeAll(cfg, es)) && NoEnding(B.TakeAll(cfg, es)) && (Busy(cfg, B.TakeAll(cfg, es)) <==> !AllSilent(cfg, es))
  {
    if es != [] {
      var before, last := es[..|es| - 1], es[|es| - 1];
      CompactionRuns(cfg, before);
      RunEvents(cfg, es);
      var c, b := Run(cfg, EventInputs(before)), B.TakeAll(cfg, before);
      TakeBusy(cfg, b, last);
      TakeKeepsOpen(cfg, b, last);
      CompactionStep(cfg, c, last);
      hide B.Take, Handle, Busy, Tidy, NoEnding, Silent, Run;
      assert AllSilent(cfg, es) <==> AllSilent(cfg, before) && Silent(cfg, last) by { SilentSnoc(cfg, es); }
    }
  }

  lemma CompactionStep(cfg: Config, c: Core, e: Event)
    requires cfg.compaction && !e.IsTerminal()
    ensures Handle(cfg, c, e) == c.(compactionText := c.compactionText + TextOf(e))
  {
  }

  lemma SilentSnoc(cfg: Config, es: seq<Event>)
    requires es != []
    ensures AllSilent(cfg, es) <==> AllSilent(cfg, es[..|es| - 1]) && Silent(cfg, es[|es| - 1])
  {
    hide Silent;
    assert forall k :: 0 <= k < |es| ==> es[k] == (if k < |es| - 1 then es[..|es| - 1][k] else es[|es| - 1]);
  }

  /** The stream's whole output. */
  lemma CompactionEnds(cfg: Config, text: Str, e: Event)
    requires cfg.compaction && e.IsTerminal()
    ensures Handle(cfg, Init().(compactionText := text), e).finished == (if e.Done? then [Compaction(0, text)] else [])
  {
    hide MergeSources, SearchAction;
  }

  /** The batch's whole output. */
  lemma CompactionResponds(cfg: Config, b: B.Batch, e: Event)
    requires cfg.compaction && e.IsTerminal() && Tidy(b) && NoEnding(b)
    ensures var r := B.Respond(cfg, B.Take(cfg, b, e)).output;
      var whole := e.Done? && StatusOf(e.stop) == Completed;
      if Busy(cfg, b) then r != [] && !r[0].Compaction? && (whole ==> |r| > 1)
      else if whole then |r| == 1 && Strip(r[0]) == Compaction(0, b.compactionText)
      else r == []
  {
    hide B.FlushText, B.FlushSummary, B.FlushOpenSummary, B.FlushRaw, B.FlushCall, B.Settle, B.TakeText, B.TakeSearchEnd;
    var t := B.Take(cfg, b, e);
    var final := if t.cleanDone && t.failed.None? && t.cut.None? then Some(FinalAnswer) else None;
    AllBusy(cfg, t, final);
  }

  /**
   * For every event list of a compaction turn that ends in its only terminal event: the stream and
   * the batch hold the same items if and only if every earlier event is silent and the turn was not
   * truncated. A truncated turn yields its summary in the stream only.
   */
  lemma CompactionAgreesExactly(cfg: Config, es: seq<Event>)
    requires cfg.compaction && es != [] && es[|es| - 1].IsTerminal() && forall k :: 0 <= k < |es| - 1 ==> !es[k].IsTerminal()
    ensures var last := es[|es| - 1];
      StripAll(Run(cfg, EventInputs(es)).finished) == StripAll(B.BuildResponse(cfg, es).output)
      <==> AllSilent(cfg, es[..|es| - 1]) && !(last.Done? && StatusOf(last.stop) != Completed)
  {
    var before, last := es[..|es| - 1], es[|es| - 1];
    CompactionRuns(cfg, before);
    RunEvents(cfg, es);
    var b := B.TakeAll(cfg, before);
    CompactionEnds(cfg, b.compactionText, last);
    CompactionResponds(cfg, b, last);
    hide B.Take, B.Respond, Handle, Busy, Tidy, NoEnding, AllSilent, Run;
    CompareItems(Handle(cfg, Init().(compactionText := b.compactionText), last).finished, B.Respond(cfg, B.Take(cfg, b, last)).output, b.compactionText);
  }

  lemma CompareItems(left: seq<Item>, right: seq<Item>, text: Str)
    requires left == [] || left == [Compaction(0, text)]
    ensures StripAll(left) == StripAll(right) <==> |left| == |right| && (right != [] ==> Strip(right[0]) == Compaction(0, text))
  {
    if right != [] && left != [] {
      assert StripAll(left)[0] == Compaction(0, text) && StripAll(right)[0] == Strip(right[0]);
      if |right| == 1 && Strip(right[0]) == Compaction(0, text) {
        assert StripAll(left) == StripAll(right);
      }
    }
  }
}
