/**
 * Item bracketing: what a client that rebuilds the response from the frames sees.
 *
 * The client is an independent reading of the Responses protocol. It accepts a frame only
 * when the frame fits what is open, and checks every finished item against the deltas it
 * collected. The main result says exactly which inputs the bridge turns into a stream this
 * client accepts, whatever the options are.
 */
module BridgeItems {
  import opened Prelude
  import opened BridgeTypes
  import opened BridgeCore
  import Freeform

  datatype OpenView = OpenView(item: Item, text: Str)
  datatype View = Broken | View(done: seq<Item>, open: Option<OpenView>, ended: bool)

  /** The delta channel of an item that is still open. */
  predicate Carries(item: Item, channel: Channel) {
    match channel
    case OutputText => item.Message?
    case SummaryText => item.Reasoning? && item.content.None?
    case ReasoningText => item.Reasoning? && item.content.Some?
    case CallArguments => item.FunctionCall?
    case CustomInput => item.CustomCall?
  }

  /** The finished text of a channel that the collected deltas stand for. */
  predicate TextFits(channel: Channel, collected: Str, text: Str) {
    match channel
    case CallArguments => text == ArgumentsOrEmpty(collected)
    case CustomInput => true // see FreeformCallIsStreamed
    case _ => text == collected
  }

  /** `fin` is the finished form of the item that was added as `added`. */
  predicate Completes(added: Item, collected: Str, fin: Item) {
    match fin
    case Message(id, text, _, phase) =>
      added.Message? && added.id == id && text == collected && (added.phase.Some? ==> phase == added.phase)
    case Reasoning(id, summary, content, _) =>
      || (added == fin && collected == [])
      || (added == Reasoning(id, [], None, None) && summary == [collected] && content.None?)
      || (added == Reasoning(id, [], Some([]), None) && summary == [] && content == Some([collected]))
    case FunctionCall(id, callId, name, arguments, namespace) =>
      added == FunctionCall(id, callId, name, [], namespace) && arguments == ArgumentsOrEmpty(collected)
    case CustomCall(id, callId, name, _) => added == CustomCall(id, callId, name, [])
    case ToolSearch(id, callId, _) => added == ToolSearch(id, callId, []) && collected == []
    case WebSearch(id, status, action, _) =>
      added == WebSearch(id, InProgress, None, []) && status != InProgress && action.Some? && collected == []
    case Compaction(_, _) => false
  }

  predicate IsOpen(v: View, itemId: nat, index: nat) {
    v.View? && !v.ended && v.open.Some? && v.open.value.item.id == itemId && index == |v.done|
  }

  function Observe(v: View, f: Frame): View {
    if v.Broken? || v.ended then Broken
    else
      match f
      case Created => if v == View([], None, false) then v else Broken
      case ItemAdded(index, item) =>
        if v.open.None? && index == |v.done| then v.(open := Some(OpenView(item, []))) else Broken
      case PartAdded(id, index) => if IsOpen(v, id, index) then v else Broken
      case Delta(id, index, channel, delta) =>
        if IsOpen(v, id, index) && Carries(v.open.value.item, channel)
        then v.(open := Some(v.open.value.(text := v.open.value.text + delta))) else Broken
      case TextDone(id, index, channel, text) =>
        if IsOpen(v, id, index) && Carries(v.open.value.item, channel) && TextFits(channel, v.open.value.text, text)
        then v else Broken
      case PartDone(id, index, text, _) =>
        if IsOpen(v, id, index) && text == v.open.value.text then v else Broken
      case ItemDone(index, item) =>
        if item.Compaction? then
          if v.open.None? && index == |v.done| then v.(done := v.done + [item]) else Broken
        else if IsOpen(v, item.id, index) && Completes(v.open.value.item, v.open.value.text, item)
        then View(v.done + [item], None, false) else Broken
      case Terminal(_, _, _, output) =>
        if v.open.None? && output == v.done then v.(ended := true) else Broken
  }

  function Replay(log: seq<Frame>): View {
    if log == [] then View([], None, false)
    else Observe(Replay(log[..|log| - 1]), log[|log| - 1])
  }

  lemma ReplayEmit(c: Core, f: Frame)
    ensures Replay(Emit(c, f).log) == Observe(Replay(c.log), f)
  {
    assert (c.log + [f])[..|c.log|] == c.log;
  }

  /** A client that gave up never recovers. */
  lemma {:induction false} BrokenStays(before: seq<Frame>, after: seq<Frame>)
    requires before <= after && Replay(before).Broken?
    ensures Replay(after).Broken?
    decreases |after|
  {
    if |before| < |after| {
      assert before <= after[..|after| - 1];
      BrokenStays(before, after[..|after| - 1]);
    } else {
      assert before == after;
    }
  }

  // ---------------------------------------------------------------------------
  // The invariant
  // ---------------------------------------------------------------------------

  /** How many of the five slots hold an open item. */
  function Opens(c: Core): nat {
    Count(c.msg.Some?) + Count(c.reasoning.Some?) + Count(c.raw.Some?) + Count(c.tool.Some?) + Count(c.search.Some?)
  }

  function Preview(args: Str): Str {
    if Freeform.Ambiguous(args) then [] else Freeform.Partial(args)
  }

  function StreamedSoFar(t: OpenTool): Str {
    match t.kind
    case PlainTool => t.args
    case FreeformTool => Preview(t.args)
    case SearchTool => []
  }

  /** What a client should hold for the first open slot. */
  function ViewOf(c: Core): Option<OpenView> {
    if c.msg.Some? then Some(OpenView(Message(c.msg.value.id, [], [], c.msg.value.phase), c.msg.value.text))
    else if c.reasoning.Some? then Some(OpenView(Reasoning(c.reasoning.value.id, [], None, None), c.reasoning.value.text))
    else if c.raw.Some? then Some(OpenView(Reasoning(c.raw.value.id, [], Some([]), None), c.raw.value.text))
    else if c.tool.Some? then
      var t := c.tool.value;
      Some(OpenView(EmptyToolItem(t.id, t.kind, t.callId, t.name, t.namespace), StreamedSoFar(t)))
    else if c.search.Some? then Some(OpenView(WebSearch(c.search.value.id, InProgress, None, []), []))
    else None
  }

  /** Every open slot holds the next output index; a freeform call has sent exactly its preview. */
  predicate SlotsAgree(c: Core) {
    && c.outputIndex == |c.finished|
    && Opens(c) <= 1
    && (c.msg.Some? ==> c.msg.value.index == c.outputIndex)
    && (c.reasoning.Some? ==> c.reasoning.value.index == c.outputIndex)
    && (c.raw.Some? ==> c.raw.value.index == c.outputIndex)
    && (c.tool.Some? ==> c.tool.value.index == c.outputIndex)
    && (c.search.Some? ==> c.search.value.index == c.outputIndex)
    && (c.tool.Some? && c.tool.value.kind.FreeformTool? ==> c.tool.value.inputEmitted == Preview(c.tool.value.args))
  }

  predicate Sound(c: Core) {
    SlotsAgree(c) && Replay(c.log) == View(c.finished, ViewOf(c), false)
  }

  /** Buffers and counters the client never sees do not matter. */
  lemma SoundFrame(c: Core, d: Core)
    requires Sound(c)
    requires d == c.(signature := d.signature, redacted := d.redacted, hiddenThinking := d.hiddenThinking,
                     hiddenRaw := d.hiddenRaw, sources := d.sources, compactionText := d.compactionText, nextId := d.nextId)
    ensures Sound(d)
  {
    hide Replay;
  }

  // ---------------------------------------------------------------------------
  // Closers keep it
  // ---------------------------------------------------------------------------

  lemma CloseMessageSound(c: Core, inferred: Option<Phase>)
    requires Sound(c)
    ensures Sound(CloseMessage(c, inferred))
  {
    hide Replay;
    if c.msg.Some? {
      var m := c.msg.value;
      var annotations := Citations(c.sources);
      var c0 := c.(sources := []);
      ReplayEmit(c0, TextDone(m.id, m.index, OutputText, m.text));
      var c1 := Emit(c0, TextDone(m.id, m.index, OutputText, m.text));
      ReplayEmit(c1, PartDone(m.id, m.index, m.text, annotations));
      var c2 := Emit(c1, PartDone(m.id, m.index, m.text, annotations));
      ReplayEmit(c2, ItemDone(m.index, Message(m.id, m.text, annotations, if m.phase.Some? then m.phase else inferred)));
    }
  }

  lemma CloseReasoningSound(c: Core)
    requires Sound(c)
    ensures Sound(CloseReasoning(c))
  {
    hide Replay;
    if c.reasoning.Some? {
      var r := c.reasoning.value;
      ReplayEmit(c, TextDone(r.id, r.index, SummaryText, r.text));
      var c1 := Emit(c, TextDone(r.id, r.index, SummaryText, r.text));
      ReplayEmit(c1, PartDone(r.id, r.index, r.text, []));
      var c2 := DropEnvelope(Emit(c1, PartDone(r.id, r.index, r.text, [])));
      ReplayEmit(c2, ItemDone(r.index, Reasoning(r.id, [r.text], None, PendingEnvelope(c, None))));
    }
  }

  lemma CloseRawSound(c: Core)
    requires Sound(c)
    ensures Sound(CloseRaw(c))
  {
    hide Replay;
    if c.raw.Some? {
      var r := c.raw.value;
      ReplayEmit(c, ItemDone(r.index, Reasoning(r.id, [], Some([r.text]), None)));
    }
  }

  lemma CloseToolSound(cfg: Config, c: Core)
    requires Sound(c)
    ensures Sound(CloseTool(cfg, c))
  {
    hide Replay;
    if c.tool.Some? {
      var t := c.tool.value;
      match t.kind {
        case PlainTool => CloseTextToolSound(cfg, c, CallArguments, ArgumentsOrEmpty(t.args));
        case FreeformTool => CloseTextToolSound(cfg, c, CustomInput, FreeformInput(cfg, t.args));
        case SearchTool =>
          ReplayEmit(c, ItemDone(t.index, ToolItem(cfg, t.id, t.kind, t.callId, t.name, t.args, t.namespace)));
      }
    }
  }

  lemma CloseTextToolSound(cfg: Config, c: Core, channel: Channel, text: Str)
    requires Sound(c) && c.tool.Some? && !c.tool.value.kind.SearchTool?
    requires var t := c.tool.value;
      if t.kind.PlainTool? then channel == CallArguments && text == ArgumentsOrEmpty(t.args)
      else channel == CustomInput && text == FreeformInput(cfg, t.args)
    ensures Sound(CloseTool(cfg, c))
  {
    hide Replay, Preview, FreeformInput, Truthy, ArgumentsOrEmpty;
    var t := c.tool.value;
    var fin := ToolItem(cfg, t.id, t.kind, t.callId, t.name, t.args, t.namespace);
    var f := TextDone(t.id, t.index, channel, text);
    ReplayEmit(c, f);
    assert Replay(Emit(c, f).log) == Replay(c.log);
    ReplayEmit(Emit(c, f), ItemDone(t.index, fin));
  }

  lemma CloseSearchSound(c: Core, status: SearchStatus, queries: seq<Str>, sources: Option<seq<Source>>)
    requires Sound(c) && status != InProgress
    ensures Sound(CloseSearch(c, status, queries, sources))
  {
    hide Replay;
    if c.search.Some? {
      var s := c.search.value;
      ReplayEmit(c, ItemDone(s.index, WebSearch(s.id, status, Some(SearchAction(queries)), SourcesOf(sources))));
    }
  }

  /** An envelope-only item fits exactly when nothing else is open. */
  lemma WholeReasoningSound(c: Core, envelope: Envelope)
    requires Sound(c)
    ensures if Opens(c) == 0 then Sound(WholeReasoning(c, envelope))
            else Replay(WholeReasoning(c, envelope).log).Broken?
  {
    hide Replay;
    var item := Reasoning(c.nextId, [], None, Some(envelope));
    var c0 := c.(nextId := c.nextId + 1);
    ReplayEmit(c0, ItemAdded(c.outputIndex, item));
    ReplayEmit(Emit(c0, ItemAdded(c.outputIndex, item)), ItemDone(c.outputIndex, item));
  }

  lemma FlushHiddenRawSound(c: Core)
    requires Sound(c)
    ensures if c.hiddenRaw == [] || Opens(c) == 0 then Sound(FlushHiddenRaw(c))
            else Replay(FlushHiddenRaw(c).log).Broken?
  {
    hide Replay, WholeReasoning;
    if c.hiddenRaw != [] {
      WholeReasoningSound(c.(hiddenRaw := []), Envelope(None, [], Some(c.hiddenRaw)));
    }
  }

  lemma FlushEnvelopeSound(c: Core)
    requires Sound(c)
    ensures if !HasEnvelope(c) || Opens(c) == 0 then Sound(FlushEnvelope(c))
            else Replay(FlushEnvelope(c).log).Broken?
  {
    hide Replay, WholeReasoning;
    if HasEnvelope(c) {
      WholeReasoningSound(DropEnvelope(c).(hiddenThinking := []),
                          PendingEnvelope(c, Truthy(Some(c.hiddenThinking))).value);
    }
  }

  /** Adding a fresh item fits exactly when nothing else is open. */
  lemma StartMessageSound(c: Core, phase: Option<Phase>)
    requires Sound(c) && c.msg.None?
    ensures if Opens(c) == 0 then Sound(StartMessage(c, phase)) else Replay(StartMessage(c, phase).log).Broken?
  {
    hide Replay;
    var c0 := c.(nextId := c.nextId + 1);
    var f := ItemAdded(c.outputIndex, Message(c.nextId, [], [], phase));
    ReplayEmit(c0, f);
    ReplayEmit(Emit(c0, f), PartAdded(c.nextId, c.outputIndex));
  }

  lemma StartReasoningSound(c: Core)
    requires Sound(c) && c.reasoning.None?
    ensures if Opens(c) == 0 then Sound(StartReasoning(c)) else Replay(StartReasoning(c).log).Broken?
  {
    hide Replay;
    var c0 := c.(nextId := c.nextId + 1);
    var f := ItemAdded(c.outputIndex, Reasoning(c.nextId, [], None, None));
    ReplayEmit(c0, f);
    ReplayEmit(Emit(c0, f), PartAdded(c.nextId, c.outputIndex));
  }

  lemma StartRawSound(c: Core)
    requires Sound(c) && c.raw.None?
    ensures if Opens(c) == 0 then Sound(StartRaw(c)) else Replay(StartRaw(c).log).Broken?
  {
    hide Replay;
    ReplayEmit(c.(nextId := c.nextId + 1), ItemAdded(c.outputIndex, Reasoning(c.nextId, [], Some([]), None)));
  }

  lemma StartToolSound(cfg: Config, c: Core, callId: Str, name: Str)
    requires Sound(c) && c.tool.None?
    ensures if Opens(c) == 0 then Sound(StartTool(cfg, c, callId, name))
            else Replay(StartTool(cfg, c, callId, name).log).Broken?
  {
    hide Replay;
    var target, ns := RealName(cfg, name), NamespaceOf(cfg, name);
    ReplayEmit(c.(nextId := c.nextId + 1),
               ItemAdded(c.outputIndex, EmptyToolItem(c.nextId, KindOf(cfg, target), callId, target, ns)));
  }

  lemma StartSearchSound(c: Core, eventId: Str)
    requires Sound(c) && c.search.None?
    ensures if Opens(c) == 0 then Sound(StartSearch(c, eventId)) else Replay(StartSearch(c, eventId).log).Broken?
  {
    hide Replay;
    ReplayEmit(c.(nextId := c.nextId + 1), ItemAdded(c.outputIndex, WebSearch(c.nextId, InProgress, None, [])));
  }

  lemma AppendTextSound(c: Core, text: Str)
    requires Sound(c) && c.msg.Some?
    ensures Sound(AppendText(c, text))
  {
    hide Replay;
    ReplayEmit(c, Delta(c.msg.value.id, c.msg.value.index, OutputText, text));
  }

  lemma AppendThinkingSound(c: Core, text: Str)
    requires Sound(c) && c.reasoning.Some?
    ensures Sound(AppendThinking(c, text))
  {
    hide Replay;
    ReplayEmit(c, Delta(c.reasoning.value.id, c.reasoning.value.index, SummaryText, text));
  }

  lemma AppendRawSound(c: Core, text: Str)
    requires Sound(c) && c.raw.Some?
    ensures Sound(AppendRaw(c, text))
  {
    hide Replay;
    ReplayEmit(c, Delta(c.raw.value.id, c.raw.value.index, ReasoningText, text));
  }

  lemma CompactionItemSound(c: Core)
    requires Sound(c) && Opens(c) == 0
    ensures Sound(CompactionItem(c)) && Opens(CompactionItem(c)) == 0
  {
    hide Replay;
    ReplayEmit(c.(nextId := c.nextId + 1), ItemDone(c.outputIndex, Compaction(c.nextId, c.compactionText)));
  }

  // ---------------------------------------------------------------------------
  // One event
  // ---------------------------------------------------------------------------

  lemma OnToolDeltaSound(c: Core, more: Str)
    requires Sound(c)
    ensures Sound(OnToolDelta(c, more))
  {
    hide Replay, Freeform.Partial;
    if c.tool.Some? {
      var t := c.tool.value.(args := c.tool.value.args + more);
      match t.kind {
        case SearchTool =>
        case PlainTool => ReplayEmit(c, Delta(t.id, t.index, CallArguments, more));
        case FreeformTool =>
          var before := c.tool.value.args;
          if !Freeform.Ambiguous(before) {
            Freeform.PreviewGrows(before, more);
          }
          var next := Freeform.NextDelta(t.args, t.inputEmitted);
          if next.Some? {
            ReplayEmit(c, Delta(t.id, t.index, CustomInput, next.value));
            assert Preview(before) + next.value == Preview(t.args);
          } else {
            assert Preview(before) == Preview(t.args);
          }
      }
    }
  }

  /** No hidden raw reasoning is waiting to be flushed into the middle of an open item. */
  predicate NothingHidden(c: Core) { c.hiddenRaw == [] }

  /**
   * The guard under which an input leaves the stream readable: no event may open an item
   * inside a running search, and nothing hidden may be flushed while an item stays open.
   */
  predicate Tame(cfg: Config, c: Core, i: Input) {
    match i
    case Throw => Opens(c) == Count(c.search.Some?) && (NothingHidden(c) || c.search.None?)
    case Eof => NothingHidden(c) || (c.tool.None? && c.search.None?)
    case Stall => NothingHidden(c) || (c.tool.None? && c.search.None?)
    case Next(e) =>
      if e.IsTerminal() then NothingHidden(c) || (c.tool.None? && c.search.None?)
      else if cfg.compaction then true
      else
        match e
        case TextDelta(_, _) => c.search.None? && (NothingHidden(c) || (c.msg.None? && c.tool.None?))
        case ThinkingDelta(_) => cfg.hide || (c.search.None? && (NothingHidden(c) || (c.tool.None? && c.reasoning.None?)))
        case RawDelta(_) => cfg.hide || c.search.None?
        case ThinkingSignature(sig) => c.reasoning.Some? || Opens(c) == 0 || (sig == [] && c.redacted == [])
        case ToolStart(_, _) => c.search.None? && (NothingHidden(c) || c.tool.None?)
        case Boundary => (NothingHidden(c) || (c.tool.None? && c.search.None?)) && (c.search.None? || !HasEnvelope(c))
        case SearchBegin(_) => NothingHidden(c) || (c.tool.None? && c.search.None?)
        case SearchEnd(_, _, _, _) => c.search.Some? || Opens(c) == 0
        case _ => true
  }

  /** What the log looks like after an input: still sound, properly ended, or broken for good. */
  predicate Verdict(cfg: Config, c: Core, i: Input, after: Core) {
    if !Tame(cfg, c, i) then Replay(after.log).Broken?
    else if Ends(i) then after.outputIndex == |after.finished| && Replay(after.log) == View(after.finished, None, true)
    else Sound(after)
  }

  lemma MessageForSound(c: Core, phase: Option<Phase>)
    requires Sound(c)
    ensures if c.msg.Some? || Opens(c) == 0 then Sound(MessageFor(c, phase))
            else Replay(MessageFor(c, phase).log).Broken?
  {
    hide Replay, Observe, ViewOf, CloseMessage, StartMessage;
    CloseMessageSound(c, Some(Commentary));
    var c1 := if c.msg.Some? && phase.Some? && c.msg.value.phase != phase
              then CloseMessage(c, Some(Commentary)) else c;
    if c1.msg.None? {
      StartMessageSound(c1, phase);
    }
  }

  lemma OnTextVerdict(cfg: Config, c: Core, text: Str, phase: Option<Phase>)
    requires Sound(c)
    ensures if c.search.None? && (NothingHidden(c) || (c.msg.None? && c.tool.None?))
            then Sound(OnText(cfg, c, text, phase)) else Replay(OnText(cfg, c, text, phase).log).Broken?
  {
    hide Replay, Observe, ViewOf, CloseReasoning, CloseRaw, CloseTool, FlushHiddenRaw, MessageFor, AppendText;
    CloseReasoningSound(c);
    CloseRawSound(CloseReasoning(c));
    var c0 := CloseRaw(CloseReasoning(c));
    FlushHiddenRawSound(c0);
    var c1 := CloseTool(cfg, FlushHiddenRaw(c0));
    var after := OnText(cfg, c, text, phase);
    if !NothingHidden(c) && Opens(c0) != 0 {
      BrokenStays(FlushHiddenRaw(c0).log, c1.log);
      BrokenStays(c1.log, after.log);
    } else {
      CloseToolSound(cfg, FlushHiddenRaw(c0));
      MessageForSound(c1, phase);
      var c2 := MessageFor(c1, phase);
      if c.search.Some? {
        BrokenStays(c2.log, after.log);
      } else {
        AppendTextSound(c2, text);
      }
    }
  }

  lemma OnThinkingVerdict(cfg: Config, c: Core, text: Str)
    requires Sound(c) && !cfg.hide
    ensures if c.search.None? && (NothingHidden(c) || (c.tool.None? && c.reasoning.None?))
            then Sound(OnThinking(cfg, c, text)) else Replay(OnThinking(cfg, c, text).log).Broken?
  {
    hide Replay, Observe, ViewOf, CloseMessage, CloseReasoning, CloseRaw, CloseTool, CloseSearch, FlushEnvelope,
         FlushHiddenRaw, StartMessage, StartReasoning, StartRaw, StartTool, StartSearch;
    CloseMessageSound(c, Some(Commentary));
    CloseRawSound(CloseMessage(c, Some(Commentary)));
    var c0 := CloseRaw(CloseMessage(c, Some(Commentary)));
    FlushHiddenRawSound(c0);
    var c1 := CloseTool(cfg, FlushHiddenRaw(c0));
    var after := OnThinking(cfg, c, text);
    if !NothingHidden(c) && Opens(c0) != 0 {
      BrokenStays(FlushHiddenRaw(c0).log, after.log);
    } else {
      CloseToolSound(cfg, FlushHiddenRaw(c0));
      if c1.reasoning.None? {
        StartReasoningSound(c1);
      }
      var c2 := if c1.reasoning.None? then StartReasoning(c1) else c1;
      if c.search.Some? {
        BrokenStays(c2.log, after.log);
      } else {
        AppendThinkingSound(c2, text);
      }
    }
  }

  lemma OnRawVerdict(cfg: Config, c: Core, text: Str)
    requires Sound(c) && !cfg.hide
    ensures if c.search.None? then Sound(OnRaw(cfg, c, text)) else Replay(OnRaw(cfg, c, text).log).Broken?
  {
    hide Replay, Observe, ViewOf, CloseMessage, CloseReasoning, CloseRaw, CloseTool, CloseSearch, FlushEnvelope,
         FlushHiddenRaw, StartMessage, StartReasoning, StartRaw, StartTool, StartSearch;
    CloseMessageSound(c, Some(Commentary));
    CloseReasoningSound(CloseMessage(c, Some(Commentary)));
    var c0 := CloseReasoning(CloseMessage(c, Some(Commentary)));
    CloseToolSound(cfg, c0);
    var c1 := CloseTool(cfg, c0);
    if c1.raw.None? {
      StartRawSound(c1);
    }
    var c2 := if c1.raw.None? then StartRaw(c1) else c1;
    if c.search.Some? {
      BrokenStays(c2.log, OnRaw(cfg, c, text).log);
    } else {
      AppendRawSound(c2, text);
    }
  }

  /** The shared closers: everything but the search is closed, or the hidden flush collided. */
  lemma CloseContentVerdict(cfg: Config, c: Core, inferred: Option<Phase>)
    requires Sound(c)
    ensures var after := CloseTool(cfg, FlushHiddenRaw(CloseRaw(CloseReasoning(CloseMessage(c, inferred)))));
      if NothingHidden(c) || (c.tool.None? && c.search.None?)
      then Sound(after) && Opens(after) == Count(c.search.Some?) && after.search == c.search
           && (HasEnvelope(after) ==> HasEnvelope(c)) && (c.reasoning.None? && HasEnvelope(c) ==> HasEnvelope(after))
      else Replay(after.log).Broken?
  {
    hide Replay, Observe, ViewOf, CloseMessage, CloseReasoning, CloseRaw, CloseTool, CloseSearch, FlushEnvelope,
         FlushHiddenRaw, StartMessage, StartReasoning, StartRaw, StartTool, StartSearch;
    CloseMessageSound(c, inferred);
    CloseReasoningSound(CloseMessage(c, inferred));
    CloseRawSound(CloseReasoning(CloseMessage(c, inferred)));
    var c0 := CloseRaw(CloseReasoning(CloseMessage(c, inferred)));
    FlushHiddenRawSound(c0);
    if c0.hiddenRaw == [] || Opens(c0) == 0 {
      CloseToolSound(cfg, FlushHiddenRaw(c0));
    } else {
      BrokenStays(FlushHiddenRaw(c0).log, CloseTool(cfg, FlushHiddenRaw(c0)).log);
    }
  }

  lemma CloseAllVerdict(cfg: Config, c: Core, inferred: Option<Phase>, search: SearchStatus)
    requires Sound(c) && search != InProgress
    ensures var after := CloseAll(cfg, c, inferred, search);
      if NothingHidden(c) || (c.tool.None? && c.search.None?)
      then Sound(after) && Opens(after) == 0 else Replay(after.log).Broken?
  {
    hide Replay, Observe, ViewOf, CloseMessage, CloseReasoning, CloseRaw, CloseTool, CloseSearch, FlushEnvelope,
         FlushHiddenRaw, StartMessage, StartReasoning, StartRaw, StartTool, StartSearch;
    CloseContentVerdict(cfg, c, inferred);
    var c1 := CloseTool(cfg, FlushHiddenRaw(CloseRaw(CloseReasoning(CloseMessage(c, inferred)))));
    if NothingHidden(c) || (c.tool.None? && c.search.None?) {
      CloseSearchSound(c1, search, [], None);
    } else {
      BrokenStays(c1.log, CloseAll(cfg, c, inferred, search).log);
    }
  }

  lemma EndSound(c: Core, status: Status, detail: Detail, endTurn: Option<bool>)
    requires Sound(c)
    ensures var after := End(c, status, detail, endTurn);
      if Opens(c) == 0 then Replay(after.log) == View(c.finished, None, true) else Replay(after.log).Broken?
  {
    hide Replay;
    ReplayEmit(c, Terminal(status, detail, endTurn, c.finished));
  }

  lemma StartToolVerdict(cfg: Config, c: Core, id: Str, name: Str)
    requires Sound(c)
    ensures var after := StartTool(cfg, CloseContent(cfg, c), id, name);
      if c.search.None? && (NothingHidden(c) || c.tool.None?) then Sound(after) else Replay(after.log).Broken?
  {
    hide Replay, Observe, ViewOf, CloseMessage, CloseReasoning, CloseRaw, CloseTool, CloseSearch, FlushEnvelope,
         FlushHiddenRaw, StartMessage, StartReasoning, StartRaw, StartTool, StartSearch;
    var c1 := CloseContent(cfg, c);
    CloseContentVerdict(cfg, c, Some(Commentary));
    if NothingHidden(c) || (c.tool.None? && c.search.None?) {
      StartToolSound(cfg, c1, id, name);
    } else {
      BrokenStays(c1.log, StartTool(cfg, c1, id, name).log);
    }
  }

  lemma BoundaryVerdict(cfg: Config, c: Core)
    requires Sound(c)
    ensures if (NothingHidden(c) || (c.tool.None? && c.search.None?)) && (c.search.None? || !HasEnvelope(c))
            then Sound(OnBoundary(cfg, c)) else Replay(OnBoundary(cfg, c).log).Broken?
  {
    hide Replay, Observe, ViewOf, CloseMessage, CloseReasoning, CloseRaw, CloseTool, CloseSearch, FlushEnvelope,
         FlushHiddenRaw, StartMessage, StartReasoning, StartRaw, StartTool, StartSearch;
    var c1 := CloseContent(cfg, c);
    CloseContentVerdict(cfg, c, Some(Commentary));
    if NothingHidden(c) || (c.tool.None? && c.search.None?) {
      FlushEnvelopeSound(c1);
    } else {
      BrokenStays(c1.log, OnBoundary(cfg, c).log);
    }
  }

  lemma SignatureVerdict(c: Core, sig: Str)
    requires Sound(c)
    ensures if c.reasoning.Some? || Opens(c) == 0 || (sig == [] && c.redacted == [])
            then Sound(OnSignature(c, sig)) else Replay(OnSignature(c, sig).log).Broken?
  {
    hide Replay, Observe, ViewOf, FlushEnvelope;
    SoundFrame(c, c.(signature := Some(sig)));
    FlushEnvelopeSound(c.(signature := Some(sig)));
  }

  lemma SearchBeginVerdict(cfg: Config, c: Core, id: Str)
    requires Sound(c)
    ensures if NothingHidden(c) || (c.tool.None? && c.search.None?)
            then Sound(OnSearchBegin(cfg, c, id)) else Replay(OnSearchBegin(cfg, c, id).log).Broken?
  {
    hide Replay, Observe, ViewOf, CloseMessage, CloseReasoning, CloseRaw, CloseTool, CloseSearch, FlushEnvelope,
         FlushHiddenRaw, StartMessage, StartReasoning, StartRaw, StartTool, StartSearch;
    var c1 := CloseContent(cfg, c);
    CloseContentVerdict(cfg, c, Some(Commentary));
    if NothingHidden(c) || (c.tool.None? && c.search.None?) {
      CloseSearchSound(c1, SearchCompleted, [], None);
      StartSearchSound(CloseSearch(c1, SearchCompleted, [], None), id);
    } else {
      BrokenStays(c1.log, OnSearchBegin(cfg, c, id).log);
    }
  }

  lemma SearchEndVerdict(c: Core, id: Str, queries: seq<Str>, status: Option<SearchStatus>, sources: Option<seq<Source>>)
    requires Sound(c) && status != Some(InProgress)
    ensures var after := OnSearchEnd(c, id, queries, status, sources);
      if c.search.Some? || Opens(c) == 0 then Sound(after) else Replay(after.log).Broken?
  {
    hide Replay, Observe, ViewOf, CloseMessage, CloseReasoning, CloseRaw, CloseTool, CloseSearch, FlushEnvelope,
         FlushHiddenRaw, StartMessage, StartReasoning, StartRaw, StartTool, StartSearch;
    var final := if status.Some? then status.value else SearchCompleted;
    CloseSearchSound(c, SearchCompleted, [], None);
    var c0 := CloseSearch(c, SearchCompleted, [], None);
    StartSearchSound(c0, id);
    var c1 := if c.search.Some? && c.search.value.eventId == id then c else StartSearch(c0, id);
    if c.search.Some? || Opens(c) == 0 {
      CloseSearchSound(c1, final, queries, sources);
      SoundFrame(CloseSearch(c1, final, queries, sources), OnSearchEnd(c, id, queries, status, sources));
    } else {
      BrokenStays(c1.log, OnSearchEnd(c, id, queries, status, sources).log);
    }
  }

  lemma DoneVerdict(cfg: Config, c: Core, stop: Option<Stop>, endTurn: Option<bool>)
    requires Sound(c)
    ensures Verdict(cfg, c, Next(Done(stop, endTurn)), OnDone(cfg, c, stop, endTurn))
  {
    hide Replay, Observe, ViewOf, CloseMessage, CloseReasoning, CloseRaw, CloseTool, CloseSearch, FlushEnvelope,
         FlushHiddenRaw, CloseAll, HasEnvelope, InferredFinal, StatusOf, DetailOf;
    var c0 := CloseAll(cfg, c, InferredFinal(stop), SearchCompleted);
    CloseAllVerdict(cfg, c, InferredFinal(stop), SearchCompleted);
    if NothingHidden(c) || (c.tool.None? && c.search.None?) {
      FlushEnvelopeSound(c0);
      var c1 := FlushEnvelope(c0);
      CompactionItemSound(c1);
      var c2 := if cfg.compaction then CompactionItem(c1) else c1;
      EndSound(c2, StatusOf(stop), DetailOf(stop), endTurn);
    } else {
      BrokenStays(c0.log, OnDone(cfg, c, stop, endTurn).log);
    }
  }

  lemma FailureVerdict(cfg: Config, c: Core, flush: bool, status: Status, detail: Detail, endTurn: Option<bool>)
    requires Sound(c)
    ensures var c0 := CloseAll(cfg, c, None, SearchFailed);
      var c1 := if flush then FlushEnvelope(c0) else c0;
      var after := End(c1, status, detail, endTurn);
      if NothingHidden(c) || (c.tool.None? && c.search.None?)
      then after.outputIndex == |after.finished| && Replay(after.log) == View(after.finished, None, true)
      else Replay(after.log).Broken?
  {
    hide Replay, Observe, ViewOf, CloseAll, FlushEnvelope, End, HasEnvelope;
    var c0 := CloseAll(cfg, c, None, SearchFailed);
    CloseAllVerdict(cfg, c, None, SearchFailed);
    var c1 := if flush then FlushEnvelope(c0) else c0;
    if NothingHidden(c) || (c.tool.None? && c.search.None?) {
      FlushEnvelopeSound(c0);
      EndSound(c1, status, detail, endTurn);
    } else {
      BrokenStays(c0.log, End(c1, status, detail, endTurn).log);
    }
  }

  lemma ThrowVerdict(cfg: Config, c: Core)
    requires Sound(c)
    ensures Verdict(cfg, c, Throw, OnThrow(c))
  {
    hide Replay, Observe, ViewOf, CloseMessage, CloseReasoning, CloseRaw, CloseTool, CloseSearch, FlushEnvelope,
         FlushHiddenRaw, StartMessage, StartReasoning, StartRaw, StartTool, StartSearch;
    FlushHiddenRawSound(c);
    var c1 := FlushHiddenRaw(c);
    if NothingHidden(c) || Opens(c) == 0 {
      CloseSearchSound(c1, SearchFailed, [], None);
      EndSound(CloseSearch(c1, SearchFailed, [], None), Failed, ProxyError, None);
    } else {
      BrokenStays(c1.log, OnThrow(c).log);
    }
  }

  /** An adapter only reports a search as completed or failed. */
  predicate PlausibleEvent(i: Input) {
    i.Next? && i.event.SearchEnd? ==> i.event.status != Some(InProgress)
  }

  lemma AdvanceVerdict(cfg: Config, c: Core, i: Input)
    requires Sound(c) && PlausibleEvent(i)
    ensures Verdict(cfg, c, i, Advance(cfg, c, i))
  {
    hide Replay, Observe, ViewOf, SlotsAgree, OnText, OnThinking, OnRaw, OnSignature, OnToolDelta, OnBoundary, OnSearchBegin,
         OnSearchEnd, OnDone, CloseAll, CloseContent, FlushEnvelope, CloseSearch, FlushHiddenRaw, End;
    match i {
      case Throw => ThrowVerdict(cfg, c);
      case Eof => FailureVerdict(cfg, c, false, IncompleteStatus, AdapterEof, None);
      case Stall => FailureVerdict(cfg, c, false, IncompleteStatus, StallTimeout, None);
      case Next(e) =>
        match e {
          case Done(stop, endTurn) => DoneVerdict(cfg, c, stop, endTurn);
          case Incomplete(reason, message, retryable, endTurn) =>
            FailureVerdict(cfg, c, true, IncompleteStatus, Reported(reason, Truthy(message), retryable), endTurn);
          case Error(failure, retryable) =>
            FailureVerdict(cfg, c, false, Failed, FailedWith(failure, retryable), None);
          case _ =>
            if cfg.compaction {
              CompactionSkips(cfg, c, e);
            } else {
              EventVerdict(cfg, c, e);
            }
        }
    }
  }

  lemma CompactionSkips(cfg: Config, c: Core, e: Event)
    requires Sound(c) && !e.IsTerminal() && cfg.compaction
    ensures Sound(Handle(cfg, c, e))
  {
    hide Replay, ViewOf, OnDone, End;
    if e.TextDelta? {
      SoundFrame(c, c.(compactionText := c.compactionText + e.text));
    }
  }

  lemma EventVerdict(cfg: Config, c: Core, e: Event)
    requires Sound(c) && PlausibleEvent(Next(e)) && !e.IsTerminal() && !cfg.compaction
    ensures Verdict(cfg, c, Next(e), Handle(cfg, c, e))
  {
    hide Replay, Observe, ViewOf, SlotsAgree, Opens, OnText, OnToolDelta, OnSignature, OnBoundary, OnSearchBegin,
         OnSearchEnd, OnDone, CloseContent, CloseMessage, CloseReasoning, CloseRaw, CloseTool, CloseSearch, FlushEnvelope,
         FlushHiddenRaw, StartTool, StartRaw, StartReasoning, AppendRaw, AppendThinking;
    match e {
      case TextDelta(text, phase) => OnTextVerdict(cfg, c, text, phase);
      case ThinkingDelta(text) =>
        if cfg.hide {
          SoundFrame(c, c.(hiddenThinking := c.hiddenThinking + text));
        } else {
          OnThinkingVerdict(cfg, c, text);
        }
      case RawDelta(text) =>
        if cfg.hide {
          SoundFrame(c, c.(hiddenRaw := c.hiddenRaw + text));
        } else {
          OnRawVerdict(cfg, c, text);
        }
      case ThinkingSignature(sig) => SignatureVerdict(c, sig);
      case RedactedThinking(data) => SoundFrame(c, c.(redacted := c.redacted + [data]));
      case ToolStart(id, name) => StartToolVerdict(cfg, c, id, name);
      case ToolDelta(more) => OnToolDeltaSound(c, more);
      case ToolEnd => CloseToolSound(cfg, c);
      case Boundary => BoundaryVerdict(cfg, c);
      case SearchBegin(id) => SearchBeginVerdict(cfg, c, id);
      case SearchEnd(id, queries, status, sources) => SearchEndVerdict(c, id, queries, status, sources);
      case _ =>
    }
  }

  // ---------------------------------------------------------------------------
  // Whole runs
  // ---------------------------------------------------------------------------

  /** Inputs the bridge can meet: only the last one may end the response. */
  predicate Plausible(inputs: seq<Input>) {
    && (forall k :: 0 <= k < |inputs| ==> PlausibleEvent(inputs[k]))
    && (forall k :: 0 <= k < |inputs| - 1 ==> !Ends(inputs[k]))
  }

  /** Every input met its guard in the state it found. */
  predicate AllTame(cfg: Config, inputs: seq<Input>) {
    inputs == [] ||
    (var before, last := inputs[..|inputs| - 1], inputs[|inputs| - 1];
     AllTame(cfg, before) && Tame(cfg, Run(cfg, before), last))
  }

  lemma InitSound()
    ensures Sound(Init())
  {
    assert [Created][..0] == [];
    assert Replay([Created]) == Observe(Replay([]), Created);
  }

  /** For every run and all options: what the client makes of the log, while no input ended it. */
  lemma {:induction false} OpenRun(cfg: Config, inputs: seq<Input>)
    requires Plausible(inputs) && forall k :: 0 <= k < |inputs| ==> !Ends(inputs[k])
    ensures var c := Run(cfg, inputs);
      if AllTame(cfg, inputs) then Sound(c) else Replay(c.log).Broken?
  {
    hide Advance, Tame, ViewOf, SlotsAgree;
    if inputs == [] {
      InitSound();
    } else {
      var n := |inputs| - 1;
      OpenRun(cfg, inputs[..n]);
      var c := Run(cfg, inputs[..n]);
      if AllTame(cfg, inputs[..n]) {
        AdvanceVerdict(cfg, c, inputs[n]);
      } else {
        BrokenStays(c.log, Run(cfg, inputs).log);
      }
    }
  }

  /**
   * Bracketing, exactly: a response that ended is accepted by the client if and only if every
   * input was tame. The client then holds precisely the finished items, one per output index,
   * and saw them again in the terminal frame.
   */
  lemma BracketedIffTame(cfg: Config, inputs: seq<Input>)
    requires Plausible(inputs) && inputs != [] && Ends(inputs[|inputs| - 1])
    ensures var c := Run(cfg, inputs);
      && (AllTame(cfg, inputs) <==> !Replay(c.log).Broken?)
      && (AllTame(cfg, inputs) ==> Replay(c.log) == View(c.finished, None, true) && c.outputIndex == |c.finished|)
  {
    hide Advance, Tame, Observe, ViewOf, SlotsAgree;
    var n := |inputs| - 1;
    OpenRun(cfg, inputs[..n]);
    var c := Run(cfg, inputs[..n]);
    if AllTame(cfg, inputs[..n]) {
      AdvanceVerdict(cfg, c, inputs[n]);
    } else {
      BrokenStays(c.log, Run(cfg, inputs).log);
    }
  }

  /**
   * The preview of a freeform call: whatever the chunks were, what the client collected when the
   * call closes is the `input` of the finished item, exactly when the model spelled it without
   * `\b` and `\f`. `parse` is held to RFC 8259 on this one buffer.
   */
  lemma FreeformCallIsStreamed(cfg: Config, inputs: seq<Input>, ts: seq<Freeform.Token>)
    requires Plausible(inputs) && (forall k :: 0 <= k < |inputs| ==> !Ends(inputs[k])) && AllTame(cfg, inputs)
    requires var tool := Run(cfg, inputs).tool;
      tool.Some? && tool.value.kind.FreeformTool? && tool.value.args == Freeform.Wrap(ts)
    requires Freeform.ValidTokens(ts) && cfg.parse(Freeform.Wrap(ts)) == Some(Freeform.MeansAll(ts))
    ensures var c := Run(cfg, inputs);
      var done := CloseTool(cfg, c).finished;
      && Replay(c.log).View? && Replay(c.log).open.Some?
      && done == c.finished + [done[|c.finished|]] && done[|c.finished|].CustomCall?
      && (Replay(c.log).open.value.text == done[|c.finished|].input
          <==> forall i :: 0 <= i < |ts| ==> !Freeform.BackspaceOrFormFeed(ts[i]))
  {
    hide Replay, Run, Tame, Freeform.Partial, Freeform.Wrap, Observe;
    OpenRun(cfg, inputs);
    Freeform.StreamedInputIsTheInput(ts, [Freeform.Wrap(ts)]);
    Freeform.DeltasAddUp([Freeform.Wrap(ts)]);
  }
}
