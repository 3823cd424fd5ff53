/**
 * Where the stream and the batch response part company, each said for every event list: lists
 * without a terminal event, redacted blocks that wait at the end, items that hold nothing, signed
 * thinking that goes on, and text before the end of a search.
 */
module BridgeDivergence {
  import opened Prelude
  import opened BridgeTypes
  import opened BridgeCore
  import opened BridgeRedacted
  import opened BridgeRefinement
  import B = BridgeBatch
  import Exactness = BridgeExactness
  import Frames = BridgeFrames
  import opened BridgeGrowth

  predicate Unended(es: seq<Event>) {
    forall k :: 0 <= k < |es| ==> !es[k].IsTerminal()
  }

  /** The events the batch sees when the stream ends by this input. */
  function Heard(es: seq<Event>, i: Input): seq<Event> {
    if i.Next? then es + [i.event] else es
  }

  /** The stream's state after these events and this ending. */
  function StreamEnd(cfg: Config, es: seq<Event>, i: Input): Core {
    Run(cfg, EventInputs(es) + [i])
  }

  lemma StreamEndIs(cfg: Config, es: seq<Event>, i: Input)
    ensures StreamEnd(cfg, es, i) == Advance(cfg, Run(cfg, EventInputs(es)), i)
  {
    hide Advance;
    assert (EventInputs(es) + [i])[..|es|] == EventInputs(es);
  }

  /** Both sides hold the same items, identifiers erased. */
  predicate SameItems(cfg: Config, es: seq<Event>, i: Input) {
    StripAll(StreamEnd(cfg, es, i).finished) == StripAll(B.BuildResponse(cfg, Heard(es, i)).output)
  }

  // ---------------------------------------------------------------------------
  // Status
  // ---------------------------------------------------------------------------

  lemma {:induction false} BatchStaysOpen(cfg: Config, es: seq<Event>)
    requires Unended(es)
    ensures NoEnding(B.TakeAll(cfg, es))
  {
    if es != [] {
      BatchStaysOpen(cfg, es[..|es| - 1]);
      hide B.Take, NoEnding;
      TakeKeepsOpen(cfg, B.TakeAll(cfg, es[..|es| - 1]), es[|es| - 1]);
    }
  }

  lemma RespondStatus(cfg: Config, b: B.Batch, e: Event)
    requires NoEnding(b)
    ensures B.Respond(cfg, b).status == Completed
    ensures e.IsTerminal() ==> B.Respond(cfg, B.Take(cfg, b, e)).status == Frames.EndStatus(Next(e))
  {
    hide B.FlushRest, B.FlushRaw, B.FlushCall, B.FlushText, B.FlushSummary, B.FlushOpenSummary, B.TakeText, B.TakeSearchEnd, B.Settle;
  }

  lemma HeardTakes(cfg: Config, es: seq<Event>, i: Input)
    ensures B.TakeAll(cfg, Heard(es, i)) == (if i.Next? then B.Take(cfg, B.TakeAll(cfg, es), i.event) else B.TakeAll(cfg, es))
  {
    hide B.Take;
    if i.Next? { assert (es + [i.event])[..|es|] == es; }
  }

  /**
   * For every event list and all options: the stream's last frame and the batch report the same
   * status if and only if the adapter announced the end. Without a terminal event the batch calls
   * the response completed; the stream ends it as incomplete, or failed after a throw.
   */
  lemma MissingTerminalDiverges(cfg: Config, es: seq<Event>, i: Input)
    requires Unended(es) && Ends(i)
    ensures var log := StreamEnd(cfg, es, i).log;
      && log != [] && log[|log| - 1].Terminal? && log[|log| - 1].status == Frames.EndStatus(i)
      && (log[|log| - 1].status == B.BuildResponse(cfg, Heard(es, i)).status <==> i.Next?)
    ensures !i.Next? ==> B.BuildResponse(cfg, Heard(es, i)).status == Completed
  {
    hide Advance, B.Take, B.Respond, Run, NoEnding;
    StreamEndIs(cfg, es, i);
    HeardTakes(cfg, es, i);
    BatchStaysOpen(cfg, es);
    var e := if i.Next? then i.event else Heartbeat;
    RespondStatus(cfg, B.TakeAll(cfg, es), e);
    Frames.EndingFrames(cfg, Run(cfg, EventInputs(es)), i);
    hide Frames.EndFree;
  }

  // ---------------------------------------------------------------------------
  // Redacted blocks
  // ---------------------------------------------------------------------------

  lemma {:induction false} CarriedStripped(items: seq<Item>)
    ensures Carried(StripAll(items)) == Carried(items)
  {
    if items != [] {
      var n := |items| - 1;
      CarriedStripped(items[..n]);
      assert items == items[..n] + [items[n]];
      StripSnoc(items[..n], items[n]);
      CarriedSnoc(StripAll(items[..n]), Strip(items[n]));
    }
  }

  /**
   * For every event list and every ending: both responses carry the same redacted blocks if and
   * only if none is lost, that is, unless some wait when the upstream throws, or when it fails,
   * ends early or stalls with no visible thinking open.
   */
  lemma RedactedDiverges(cfg: Config, es: seq<Event>, i: Input)
    requires Unended(es) && Ends(i) && !cfg.compaction
    ensures var lost := Lost(Run(cfg, EventInputs(es)), i);
      && (Carried(StreamEnd(cfg, es, i).finished) == Carried(B.BuildResponse(cfg, Heard(es, i)).output) <==> lost == [])
      && (lost != [] ==> !SameItems(cfg, es, i))
  {
    hide Run, B.BuildResponse, Carried, StripAll, Lost;
    StreamLosesOnly(cfg, es, i);
    BatchLosesNone(cfg, Heard(es, i));
    HeardRedacted(es, i);
    var left, right := StreamEnd(cfg, es, i).finished, B.BuildResponse(cfg, Heard(es, i)).output;
    CarriedStripped(left);
    CarriedStripped(right);
  }

  lemma HeardRedacted(es: seq<Event>, i: Input)
    requires Ends(i)
    ensures RedactedIn(Heard(es, i)) == RedactedIn(es)
  {
    if i.Next? { assert (es + [i.event])[..|es|] == es; }
  }

  // ---------------------------------------------------------------------------
  // Items that hold nothing
  // ---------------------------------------------------------------------------

  /** Whenever the stream finishes a hollow item the two responses differ. */
  lemma HollowDiverges(cfg: Config, es: seq<Event>, i: Input)
    requires !NoneHollow(StreamEnd(cfg, es, i).finished)
    ensures !SameItems(cfg, es, i)
  {
    hide Run, B.BuildResponse, StripAll, NoneHollow;
    BatchIsSolid(cfg, Heard(es, i));
    HollowDiffers(StreamEnd(cfg, es, i).finished, B.BuildResponse(cfg, Heard(es, i)).output);
  }

  /** An ending other than a throw finishes the open message as it is. */
  lemma EndingFinishesMessage(cfg: Config, c: Core, i: Input)
    requires Ends(i) && !i.Throw? && c.msg.Some? && !cfg.compaction
    ensures var d := Advance(cfg, c, i).finished;
      |d| > |c.finished| && d[|c.finished|].Message? && d[|c.finished|].text == c.msg.value.text
  {
    var inferred := if i.Next? && i.event.Done? then InferredFinal(i.event.stop) else None;
    ClosesMessageFirst(cfg, c, inferred);
    EndingCloses(cfg, c, i, inferred);
    hide Advance, CloseVisible;
  }

  lemma ClosesMessageFirst(cfg: Config, c: Core, inferred: Option<Phase>)
    requires c.msg.Some?
    ensures var d := CloseVisible(cfg, c, inferred).finished;
      |d| > |c.finished| && d[|c.finished|].Message? && d[|c.finished|].text == c.msg.value.text
  {
    var first := CloseMessage(c, inferred).finished;
    assert |first| == |c.finished| + 1 && first[|c.finished|].Message? && first[|c.finished|].text == c.msg.value.text;
    hide CloseMessage, CloseReasoning, CloseRaw, FlushHiddenRaw, CloseTool;
    assert first <= CloseVisible(cfg, c, inferred).finished;
  }

  lemma EndingCloses(cfg: Config, c: Core, i: Input, inferred: Option<Phase>)
    requires Ends(i) && !i.Throw? && !cfg.compaction
    requires inferred == if i.Next? && i.event.Done? then InferredFinal(i.event.stop) else None
    ensures CloseVisible(cfg, c, inferred).finished <= Advance(cfg, c, i).finished
  {
    hide CloseVisible, CloseSearch, FlushEnvelope;
  }

  /** A message that got only empty deltas: for every list, the stream finishes it and the batch has none. */
  lemma EmptyTextDiverges(cfg: Config, es: seq<Event>, i: Input)
    requires Ends(i) && !i.Throw? && !cfg.compaction
    requires var c := Run(cfg, EventInputs(es)); c.msg.Some? && c.msg.value.text == []
    ensures !SameItems(cfg, es, i)
  {
    hide Run, Advance, SameItems;
    var c := Run(cfg, EventInputs(es));
    StreamEndIs(cfg, es, i);
    EndingFinishesMessage(cfg, c, i);
    assert Hollow(StreamEnd(cfg, es, i).finished[|c.finished|]);
    HollowDiverges(cfg, es, i);
  }

  // ---------------------------------------------------------------------------
  // Off the guard, read off the event list
  // ---------------------------------------------------------------------------

  lemma {:induction false} OffGuardSomewhere(cfg: Config, es: seq<Event>, k: nat)
    requires k < |es| && !Matched(Run(cfg, EventInputs(es[..k])), B.TakeAll(cfg, es[..k]), es[k])
    ensures !AllMatched(cfg, es)
  {
    hide Run, B.Take, Matched;
    var before := es[..|es| - 1];
    if k < |es| - 1 {
      assert before[..k] == es[..k];
      OffGuardSomewhere(cfg, before, k);
    } else {
      assert before == es[..k];
    }
  }

  lemma OffGuardDiverges(cfg: Config, es: seq<Event>, last: Event, k: nat)
    requires Unended(es) && last.IsTerminal() && AllDisciplined(cfg, es + [last]) && !cfg.hide && !cfg.compaction
    requires k < |es| && !Matched(Run(cfg, EventInputs(es[..k])), B.TakeAll(cfg, es[..k]), es[k])
    ensures !SameItems(cfg, es, Next(last))
  {
    hide Run, B.BuildResponse, Matched, AllMatched, AllDisciplined, StripAll;
    var all := es + [last];
    assert all[..k] == es[..k] && all[k] == es[k] && all[|all| - 1] == last;
    OffGuardSomewhere(cfg, all, k);
    Exactness.StreamMatchesBatchExactly(cfg, all);
    assert EventInputs(es) + [Next(last)] == EventInputs(all);
  }

  /** Thinking that goes on right after its signature: one item in the stream, two in the batch. */
  lemma AdjacentThinkingDiverges(cfg: Config, es: seq<Event>, last: Event, k: nat)
    requires Unended(es) && last.IsTerminal() && AllDisciplined(cfg, es + [last]) && !cfg.hide && !cfg.compaction
    requires k + 2 < |es| && es[k].ThinkingDelta? && es[k + 1].ThinkingSignature? && es[k + 2].ThinkingDelta? && es[k + 2].thinking != []
    ensures !SameItems(cfg, es, Next(last))
  {
    hide Run, B.Take, AllDisciplined, SameItems, Handle;
    RunSplit(cfg, es, k);
    RunSplit(cfg, es, k + 1);
    var c := Run(cfg, EventInputs(es[..k]));
    ThinkingOpens(cfg, c, es[k].thinking);
    SignatureSeals(cfg, Handle(cfg, c, es[k]), es[k + 1].sig);
    OffGuardDiverges(cfg, es, last, k + 2);
  }

  /** Text right before the end of a search: after the search in the stream, before it in the batch. */
  lemma TextBeforeSearchEndDiverges(cfg: Config, es: seq<Event>, last: Event, k: nat)
    requires Unended(es) && last.IsTerminal() && AllDisciplined(cfg, es + [last]) && !cfg.hide && !cfg.compaction
    requires k + 1 < |es| && es[k].TextDelta? && es[k].text != [] && es[k + 1].SearchEnd?
    ensures !SameItems(cfg, es, Next(last))
  {
    hide Run, B.Take, AllDisciplined, SameItems, Handle;
    RunSplit(cfg, es, k);
    TextOpens(cfg, Run(cfg, EventInputs(es[..k])), es[k].text, es[k].phase);
    OffGuardDiverges(cfg, es, last, k + 1);
  }

  lemma RunSplit(cfg: Config, es: seq<Event>, k: nat)
    requires k < |es|
    ensures Run(cfg, EventInputs(es[..k + 1])) == Handle(cfg, Run(cfg, EventInputs(es[..k])), es[k])
  {
    hide Handle, Run;
    assert es[..k + 1][..k] == es[..k];
    RunEvents(cfg, es[..k + 1]);
  }

  lemma ThinkingOpens(cfg: Config, c: Core, text: Str)
    requires !cfg.hide && !cfg.compaction
    ensures Handle(cfg, c, ThinkingDelta(text)).reasoning.Some?
  {
    hide CloseMessage, CloseRaw, FlushHiddenRaw, CloseTool;
  }

  lemma SignatureSeals(cfg: Config, c: Core, sig: Str)
    requires !cfg.compaction && c.reasoning.Some?
    ensures Sealed(Handle(cfg, c, ThinkingSignature(sig)))
  {
    hide FlushEnvelope;
  }

  lemma TextOpens(cfg: Config, c: Core, text: Str, phase: Option<Phase>)
    requires !cfg.compaction && text != []
    ensures var d := Handle(cfg, c, TextDelta(text, phase)); d.msg.Some? && !HollowOpen(d)
  {
    hide CloseMessage, CloseReasoning, CloseRaw, FlushHiddenRaw, CloseTool;
  }
}
