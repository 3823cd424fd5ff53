/**
 * The bridge itself: the closure variables of `bridgeToResponsesSSE` as fields, updated in
 * place by its helpers, the step, the beat and the cancellation. Every method is tied to the
 * functions of BridgeCore and BridgeProtocol, where the results are proved.
 */
module Bridge {
  import opened Prelude
  import opened BridgeTypes
  import opened BridgeCore
  import opened BridgeProtocol
  import BridgeItems
  import BridgeFrames
  import Freeform

  lemma Longer(p: Port, log: seq<Frame>, mark: nat, f: Frame)
    requires mark <= |log|
    ensures SendAll(p, (log + [f])[mark..]) == Send(SendAll(p, log[mark..]), f)
  {
    assert (log + [f])[mark..] == log[mark..] + [f];
    SendAllSnoc(p, log[mark..], f);
  }

  /** The response stream: the controller and the variables of `emit` around it. */
  class Stream {
    var wire: seq<WireFrame>
    var seqNo: nat
    var emitted: nat
    var closed: bool
    var cancelled: bool
    var reported: bool
    var reports: seq<Status>
    var wireActive: bool
    var room: nat
    var torn: bool

    ghost function Value(): Port
      reads this
    {
      Port(wire, seqNo, emitted, closed, cancelled, reported, reports, wireActive, room, torn)
    }

    constructor (room: nat)
      ensures Value() == Port([], 0, 0, false, false, false, [], false, room, false)
    {
      wire, seqNo, emitted := [], 0, 0;
      closed, cancelled, reported, reports := false, false, false, [];
      wireActive, this.room, torn := false, room, false;
    }

    /** `controller.enqueue` inside its try block: a torn-down controller closes the stream. */
    method EnqueueFrame(w: WireFrame)
      modifies this
      ensures Value() == Enqueue(old(Value()), w)
    {
      if room == 0 {
        closed, torn := true, true;
      } else {
        wire, emitted, room := wire + [w], emitted + 1, room - 1;
      }
    }

    method Emit(f: Frame)
      modifies this
      ensures Value() == Send(old(Value()), f)
    {
      if closed { return; }
      wireActive := true;
      EnqueueFrame(Data(seqNo, f));
      seqNo := seqNo + 1;
    }

    method EmitDone()
      modifies this
      ensures Value() == SendDone(old(Value()))
    {
      if closed { return; }
      EnqueueFrame(DoneMarker);
    }

    method ReportTerminal(status: Status)
      modifies this
      ensures Value() == Report(old(Value()), status)
    {
      if reported || cancelled || closed { return; }
      reported := true;
      reports := reports + [status];
    }

    /** The end of a stream: `[DONE]`, then the controller is closed. */
    method Close()
      modifies this
      ensures Value() == Seal(old(Value()))
    {
      EmitDone();
      closed := true;
    }
  }

  /** The open items, what waits for them and what is finished. */
  class ItemBook {
    const cfg: Config

    // Open items and what waits for them.
    var msg: Option<OpenMessage>
    var reasoning: Option<OpenText>
    var raw: Option<OpenText>
    var tool: Option<OpenTool>
    var search: Option<OpenSearch>
    var signature: Option<Str>
    var redacted: seq<Str>
    var hiddenThinking: Str
    var hiddenRaw: Str
    var sources: seq<Source>
    var compactionText: Str
    var outputIndex: nat
    var finished: seq<Item>
    var nextId: nat

    const out: Stream

    // Everything ever handed to `emit`.
    ghost var log: seq<Frame>
    // The stream at the start of the current action and the length of the log there.
    ghost var base: Port
    ghost var mark: nat

    ghost function Items(): Core
      reads this
    {
      Core(msg, reasoning, raw, tool, search, signature, redacted, hiddenThinking, hiddenRaw,
           sources, compactionText, outputIndex, finished, nextId, log)
    }

    /** Since the start of the action the stream has been offered exactly the logged frames. */
    ghost predicate Valid()
      reads this, out
    {
      mark <= |log| && out.Value() == SendAll(base, log[mark..])
    }

    /** Only the items, their log and the stream changed, the items into `core`. */
    twostate predicate Became(core: Core)
      reads this, out
    {
      && Valid() && base == old(base) && mark == old(mark)
      && Items() == core
    }

    constructor (cfg: Config, room: nat)
      ensures Items() == Init() && out.Value() == Begin(room).port && this.cfg == cfg && fresh(out)
    {
      this.cfg := cfg;
      msg, reasoning, raw, tool, search := None, None, None, None, None;
      signature, redacted, hiddenThinking, hiddenRaw, sources, compactionText := None, [], [], [], [], [];
      outputIndex, finished, nextId := 0, [], 0;
      log := [Created];
      out := new Stream(room);
      new;
      out.Emit(Created);
      base, mark := out.Value(), 1;
    }

    /** A new action starts here. */
    ghost method Mark()
      modifies this
      ensures Valid() && base == out.Value() && mark == |log| && Items() == old(Items())
    {
      base, mark := out.Value(), |log|;
      assert log[mark..] == [];
    }

    method Emit(f: Frame)
      requires Valid()
      modifies this, out
      ensures Became(BridgeCore.Emit(old(Items()), f))
    {
      ghost var sent := log[mark..];
      ghost var longer := log + [f];
      Longer(base, log, mark, f);
      hide SendAll, Send;
      log := longer;
      out.Emit(f);
    }

    /** The two frames that finalize the text of a message or a thinking block. */
    method EmitTextDone(id: nat, index: nat, channel: Channel, text: Str, annotations: seq<Source>)
      requires Valid()
      modifies this, out
      ensures Became(BridgeCore.Emit(BridgeCore.Emit(old(Items()), TextDone(id, index, channel, text)),
                                     PartDone(id, index, text, annotations)))
    {
      hide SendAll;
      Emit(TextDone(id, index, channel, text));
      Emit(PartDone(id, index, text, annotations));
    }

    method FinishItem(index: nat, item: Item)
      requires Valid()
      modifies this, out
      ensures Became(Finish(old(Items()), index, item))
    {
      hide SendAll;
      Emit(ItemDone(index, item));
      finished := finished + [item];
      outputIndex := outputIndex + 1;
    }

    /** Pending citations bind to exactly one message. */
    method TakeWebAnnotations() returns (annotations: seq<Source>)
      requires Valid()
      modifies this, out
      ensures annotations == Citations(old(sources))
      ensures Became(old(Items()).(sources := []))
    {
      hide SendAll;
      annotations := Citations(sources);
      sources := [];
    }

    method CloseCurrentMessage(inferred: Option<Phase>)
      requires Valid()
      modifies this, out
      ensures Became(CloseMessage(old(Items()), inferred))
    {
      hide SendAll, Citations;
      if msg.None? { return; }
      var m := msg.value;
      var phase := if m.phase.Some? then m.phase else inferred;
      var annotations := TakeWebAnnotations();
      EmitTextDone(m.id, m.index, OutputText, m.text, annotations);
      FinishItem(m.index, Message(m.id, m.text, annotations, phase));
      msg := None;
    }

    method TakeEnvelope(hidden: Option<Str>) returns (envelope: Option<Envelope>)
      requires Valid()
      modifies this, out
      ensures envelope == PendingEnvelope(old(Items()), hidden)
      ensures Became(DropEnvelope(old(Items())))
    {
      hide SendAll;
      if Truthy(signature).None? && redacted == [] { return None; }
      envelope := Some(Envelope(Truthy(signature), redacted, hidden));
      signature, redacted := None, [];
    }

    method CloseCurrentReasoning()
      requires Valid()
      modifies this, out
      ensures Became(CloseReasoning(old(Items())))
    {
      hide SendAll;
      if reasoning.None? { return; }
      var r := reasoning.value;
      EmitTextDone(r.id, r.index, SummaryText, r.text, []);
      var envelope := TakeEnvelope(None);
      FinishItem(r.index, Reasoning(r.id, [r.text], None, envelope));
      reasoning := None;
    }

    method CloseCurrentRaw()
      requires Valid()
      modifies this, out
      ensures Became(CloseRaw(old(Items())))
    {
      hide SendAll;
      if raw.None? { return; }
      var r := raw.value;
      FinishItem(r.index, Reasoning(r.id, [], Some([r.text]), None));
      raw := None;
    }

    method CloseCurrentTool()
      requires Valid()
      modifies this, out
      ensures Became(CloseTool(cfg, old(Items())))
    {
      hide SendAll;
      if tool.None? { return; }
      var t := tool.value;
      match t.kind {
        case PlainTool => Emit(TextDone(t.id, t.index, CallArguments, ArgumentsOrEmpty(t.args)));
        case FreeformTool => Emit(TextDone(t.id, t.index, CustomInput, FreeformInput(cfg, t.args)));
        case SearchTool =>
      }
      FinishItem(t.index, ToolItem(cfg, t.id, t.kind, t.callId, t.name, t.args, t.namespace));
      tool := None;
    }

    method CloseCurrentSearch(status: SearchStatus, queries: seq<Str>, found: Option<seq<Source>>)
      requires Valid()
      modifies this, out
      ensures Became(CloseSearch(old(Items()), status, queries, found))
    {
      hide SendAll;
      if search.None? { return; }
      FinishItem(search.value.index,
                 WebSearch(search.value.id, status, Some(SearchAction(queries)), SourcesOf(found)));
      search := None;
    }

    method AddWholeReasoning(envelope: Envelope)
      requires Valid()
      modifies this, out
      ensures Became(WholeReasoning(old(Items()), envelope))
    {
      hide SendAll;
      var item := Reasoning(nextId, [], None, Some(envelope));
      nextId := nextId + 1;
      Emit(ItemAdded(outputIndex, item));
      FinishItem(outputIndex, item);
    }

    method FlushHiddenEnvelope()
      requires Valid()
      modifies this, out
      ensures Became(FlushEnvelope(old(Items())))
    {
      hide SendAll, WholeReasoning;
      var envelope := TakeEnvelope(Truthy(Some(hiddenThinking)));
      hiddenThinking := [];
      if envelope.Some? { AddWholeReasoning(envelope.value); }
    }

    method FlushHiddenRawReasoning()
      requires Valid()
      modifies this, out
      ensures Became(FlushHiddenRaw(old(Items())))
    {
      hide SendAll, WholeReasoning;
      if hiddenRaw == [] { return; }
      var text := hiddenRaw;
      hiddenRaw := [];
      AddWholeReasoning(Envelope(None, [], Some(text)));
    }

    method CloseVisibleItems(inferred: Option<Phase>)
      requires Valid()
      modifies this, out
      ensures Became(CloseVisible(cfg, old(Items()), inferred))
    {
      hide SendAll, CloseMessage, CloseReasoning, CloseRaw, FlushHiddenRaw, CloseTool;
      CloseCurrentMessage(inferred);
      CloseCurrentReasoning();
      CloseCurrentRaw();
      FlushHiddenRawReasoning();
      CloseCurrentTool();
    }

    method OpenMessage(phase: Option<Phase>)
      requires Valid()
      modifies this, out
      ensures Became(StartMessage(old(Items()), phase))
    {
      hide SendAll;
      var id := nextId;
      nextId := nextId + 1;
      Emit(ItemAdded(outputIndex, Message(id, [], [], phase)));
      Emit(PartAdded(id, outputIndex));
      msg := Some(BridgeCore.OpenMessage(id, outputIndex, [], phase));
    }

    method OnTextDelta(text: Str, phase: Option<Phase>)
      requires Valid()
      modifies this, out
      ensures Became(OnText(cfg, old(Items()), text, phase))
    {
      hide SendAll, CloseMessage, CloseReasoning, CloseRaw, FlushHiddenRaw, CloseTool, StartMessage;
      CloseCurrentReasoning();
      CloseCurrentRaw();
      FlushHiddenRawReasoning();
      CloseCurrentTool();
      if msg.Some? && phase.Some? && msg.value.phase != phase { CloseCurrentMessage(Some(Commentary)); }
      if msg.None? { OpenMessage(phase); }
      AppendToMessage(text);
    }

    method AppendToMessage(text: Str)
      requires Valid() && msg.Some?
      modifies this, out
      ensures Became(AppendText(old(Items()), text))
    {
      hide SendAll;
      var m := msg.value;
      msg := Some(m.(text := m.text + text));
      Emit(Delta(m.id, m.index, OutputText, text));
    }

    method OpenReasoning()
      requires Valid()
      modifies this, out
      ensures Became(StartReasoning(old(Items())))
    {
      hide SendAll;
      var id := nextId;
      nextId := nextId + 1;
      Emit(ItemAdded(outputIndex, Reasoning(id, [], None, None)));
      Emit(PartAdded(id, outputIndex));
      reasoning := Some(OpenText(id, outputIndex, []));
    }

    method AppendToReasoning(text: Str)
      requires Valid() && reasoning.Some?
      modifies this, out
      ensures Became(AppendThinking(old(Items()), text))
    {
      hide SendAll;
      var r := reasoning.value;
      reasoning := Some(r.(text := r.text + text));
      Emit(Delta(r.id, r.index, SummaryText, text));
    }

    method OnThinkingDelta(text: Str)
      requires Valid()
      modifies this, out
      ensures Became(OnThinking(cfg, old(Items()), text))
    {
      hide SendAll, CloseMessage, CloseRaw, FlushHiddenRaw, CloseTool, StartReasoning, AppendThinking;
      if cfg.hide {
        hiddenThinking := hiddenThinking + text;
        return;
      }
      CloseCurrentMessage(Some(Commentary));
      CloseCurrentRaw();
      FlushHiddenRawReasoning();
      CloseCurrentTool();
      if reasoning.None? { OpenReasoning(); }
      AppendToReasoning(text);
    }

    method OnThinkingSignature(sig: Str)
      requires Valid()
      modifies this, out
      ensures Became(OnSignature(old(Items()), sig))
    {
      hide SendAll, FlushEnvelope;
      signature := Some(sig);
      if reasoning.None? { FlushHiddenEnvelope(); }
    }

    method OnRawDelta(text: Str)
      requires Valid()
      modifies this, out
      ensures Became(OnRaw(cfg, old(Items()), text))
    {
      hide SendAll, CloseMessage, CloseReasoning, CloseTool, StartRaw, AppendRaw;
      if cfg.hide {
        hiddenRaw := hiddenRaw + text;
        return;
      }
      CloseCurrentMessage(Some(Commentary));
      CloseCurrentReasoning();
      CloseCurrentTool();
      if raw.None? { OpenRaw(); }
      AppendToRaw(text);
    }

    method OpenRaw()
      requires Valid()
      modifies this, out
      ensures Became(StartRaw(old(Items())))
    {
      hide SendAll;
      var id := nextId;
      nextId := nextId + 1;
      Emit(ItemAdded(outputIndex, Reasoning(id, [], Some([]), None)));
      raw := Some(OpenText(id, outputIndex, []));
    }

    method AppendToRaw(text: Str)
      requires Valid() && raw.Some?
      modifies this, out
      ensures Became(AppendRaw(old(Items()), text))
    {
      hide SendAll;
      var r := raw.value;
      raw := Some(r.(text := r.text + text));
      Emit(Delta(r.id, r.index, ReasoningText, text));
    }

    method OpenToolCall(callId: Str, name: Str)
      requires Valid()
      modifies this, out
      ensures Became(StartTool(cfg, old(Items()), callId, name))
    {
      hide SendAll;
      var target, ns := RealName(cfg, name), NamespaceOf(cfg, name);
      var kind := KindOf(cfg, target);
      var id := nextId;
      nextId := nextId + 1;
      Emit(ItemAdded(outputIndex, EmptyToolItem(id, kind, callId, target, ns)));
      tool := Some(OpenTool(id, outputIndex, callId, target, [], ns, kind, []));
    }

    method OnToolCallDelta(more: Str)
      requires Valid()
      modifies this, out
      ensures Became(OnToolDelta(old(Items()), more))
    {
      hide SendAll, Freeform.Partial, Freeform.Ambiguous;
      if tool.None? { return; }
      var t := tool.value.(args := tool.value.args + more);
      tool := Some(t);
      if t.kind.PlainTool? {
        Emit(Delta(t.id, t.index, CallArguments, more));
      } else if t.kind.FreeformTool? && !Freeform.Ambiguous(t.args) {
        var full := Freeform.FreeformPartialInput(t.args);
        if t.inputEmitted <= full && |t.inputEmitted| < |full| {
          tool := Some(t.(inputEmitted := full));
          Emit(Delta(t.id, t.index, CustomInput, full[|t.inputEmitted|..]));
        }
      }
    }

    method OpenSearchCell(eventId: Str)
      requires Valid()
      modifies this, out
      ensures Became(StartSearch(old(Items()), eventId))
    {
      hide SendAll;
      var id := nextId;
      nextId := nextId + 1;
      Emit(ItemAdded(outputIndex, WebSearch(id, InProgress, None, [])));
      search := Some(OpenSearch(id, eventId, outputIndex));
    }

    method OnSearchCallEnd(eventId: Str, queries: seq<Str>, status: Option<SearchStatus>, found: Option<seq<Source>>)
      requires Valid()
      modifies this, out
      ensures Became(OnSearchEnd(old(Items()), eventId, queries, status, found))
    {
      hide SendAll, CloseSearch, StartSearch, MergeSources;
      if search.None? || search.value.eventId != eventId {
        CloseCurrentSearch(SearchCompleted, [], None);
        OpenSearchCell(eventId);
      }
      CloseCurrentSearch(if status.Some? then status.value else SearchCompleted, queries, found);
      sources := MergeSources(sources, SourcesOf(found));
    }

    method CloseEverything(inferred: Option<Phase>, status: SearchStatus)
      requires Valid()
      modifies this, out
      ensures Became(CloseAll(cfg, old(Items()), inferred, status))
    {
      hide SendAll, CloseVisible, CloseSearch;
      CloseVisibleItems(inferred);
      CloseCurrentSearch(status, [], None);
    }

    method EmitTerminal(status: Status, detail: Detail, endTurn: Option<bool>)
      requires Valid()
      modifies this, out
      ensures Became(End(old(Items()), status, detail, endTurn))
    {
      hide SendAll;
      Emit(Terminal(status, detail, endTurn, finished));
    }

    method AddCompactionItem()
      requires Valid()
      modifies this, out
      ensures Became(CompactionItem(old(Items())))
    {
      hide SendAll;
      var id := nextId;
      nextId := nextId + 1;
      FinishItem(outputIndex, Compaction(id, compactionText));
    }

    method OnDoneEvent(stop: Option<Stop>, endTurn: Option<bool>)
      requires Valid()
      modifies this, out
      ensures Became(OnDone(cfg, old(Items()), stop, endTurn))
    {
      hide SendAll, CloseAll, FlushEnvelope, CompactionItem, End;
      CloseEverything(InferredFinal(stop), SearchCompleted);
      FlushHiddenEnvelope();
      if cfg.compaction { AddCompactionItem(); }
      EmitTerminal(StatusOf(stop), DetailOf(stop), endTurn);
    }

    method OnFailure(flush: bool, status: Status, detail: Detail, endTurn: Option<bool>)
      requires Valid()
      modifies this, out
      ensures var closed := CloseAll(cfg, old(Items()), None, SearchFailed);
        Became(End(if flush then FlushEnvelope(closed) else closed, status, detail, endTurn))
    {
      hide SendAll, CloseAll, FlushEnvelope, End;
      CloseEverything(None, SearchFailed);
      if flush { FlushHiddenEnvelope(); }
      EmitTerminal(status, detail, endTurn);
    }

    method OnThrown()
      requires Valid()
      modifies this, out
      ensures Became(OnThrow(old(Items())))
    {
      hide SendAll, FlushHiddenRaw, CloseSearch, End;
      FlushHiddenRawReasoning();
      CloseCurrentSearch(SearchFailed, [], None);
      EmitTerminal(Failed, ProxyError, None);
    }

    method OnToolCallStart(callId: Str, name: Str)
      requires Valid()
      modifies this, out
      ensures Became(StartTool(cfg, CloseContent(cfg, old(Items())), callId, name))
    {
      hide SendAll, CloseVisible, StartTool;
      CloseVisibleItems(Some(Commentary));
      OpenToolCall(callId, name);
    }

    method OnAssistantBoundary()
      requires Valid()
      modifies this, out
      ensures Became(OnBoundary(cfg, old(Items())))
    {
      hide SendAll, CloseVisible, FlushEnvelope;
      CloseVisibleItems(Some(Commentary));
      FlushHiddenEnvelope();
    }

    method OnSearchCallBegin(eventId: Str)
      requires Valid()
      modifies this, out
      ensures Became(OnSearchBegin(cfg, old(Items()), eventId))
    {
      hide SendAll, CloseVisible, CloseSearch, StartSearch;
      CloseVisibleItems(Some(Commentary));
      CloseCurrentSearch(SearchCompleted, [], None);
      OpenSearchCell(eventId);
    }

    method OnTerminalEvent(e: Event)
      requires Valid() && e.IsTerminal()
      modifies this, out
      ensures Became(Handle(cfg, old(Items()), e))
    {
      hide SendAll, CloseAll, FlushEnvelope, OnDone, End;
      match e {
        case Done(stop, endTurn) => OnDoneEvent(stop, endTurn);
        case Incomplete(reason, message, retryable, endTurn) =>
          OnFailure(true, IncompleteStatus, Reported(reason, Truthy(message), retryable), endTurn);
        case Error(failure, retryable) => OnFailure(false, Failed, FailedWith(failure, retryable), None);
      }
    }

    /** The event switch, behind the compaction filter. */
    method HandleEvent(e: Event)
      requires Valid()
      modifies this, out
      ensures Became(Handle(cfg, old(Items()), e))
    {
      hide SendAll, OnText, OnThinking, OnRaw, OnSignature, OnToolDelta, OnBoundary, OnSearchBegin, CloseContent,
           CloseTool, CloseAll, FlushEnvelope, StartTool, OnSearchEnd, OnDone, End;
      if cfg.compaction && e.TextDelta? {
        compactionText := compactionText + e.text;
      } else if !cfg.compaction || e.IsTerminal() {
        Switch(e);
      }
    }

    method Switch(e: Event)
      requires Valid() && (!cfg.compaction || e.IsTerminal())
      modifies this, out
      ensures Became(Handle(cfg, old(Items()), e))
    {
      hide SendAll, OnText, OnThinking, OnRaw, OnSignature, OnToolDelta, OnBoundary, OnSearchBegin, CloseContent,
           CloseTool, CloseAll, FlushEnvelope, StartTool, OnSearchEnd, OnDone, End;
      if e.IsTerminal() {
        OnTerminalEvent(e);
      } else if e.ToolStart? || e.ToolDelta? || e.ToolEnd? || e.Boundary? || e.SearchBegin? || e.SearchEnd? {
        OnToolOrSearch(e);
      } else if e.TextDelta? {
        OnTextDelta(e.text, e.phase);
      } else if e.ThinkingDelta? {
        OnThinkingDelta(e.thinking);
      } else if e.ThinkingSignature? {
        OnThinkingSignature(e.sig);
      } else if e.RawDelta? {
        OnRawDelta(e.text);
      } else if e.RedactedThinking? {
        redacted := redacted + [e.data];
      }
    }

    /** The cases of the switch that concern tool calls, boundaries and searches. */
    method OnToolOrSearch(e: Event)
      requires Valid() && !cfg.compaction
      requires e.ToolStart? || e.ToolDelta? || e.ToolEnd? || e.Boundary? || e.SearchBegin? || e.SearchEnd?
      modifies this, out
      ensures Became(Handle(cfg, old(Items()), e))
    {
      hide SendAll, OnText, OnThinking, OnRaw, OnSignature, OnToolDelta, OnBoundary, OnSearchBegin, CloseContent,
           CloseTool, CloseAll, FlushEnvelope, StartTool, OnSearchEnd, OnDone, End;
      match e {
        case ToolStart(id, name) => OnToolCallStart(id, name);
        case ToolDelta(more) => OnToolCallDelta(more);
        case ToolEnd => CloseCurrentTool();
        case Boundary => OnAssistantBoundary();
        case SearchBegin(id) => OnSearchCallBegin(id);
        case SearchEnd(id, queries, status, found) => OnSearchCallEnd(id, queries, status, found);
      }
    }

    method HandleInput(i: Input)
      requires Valid()
      modifies this, out
      ensures Became(Advance(cfg, old(Items()), i))
    {
      hide SendAll, Handle, CloseAll, End;
      match i {
        case Next(e) => HandleEvent(e);
        case Eof => OnFailure(false, IncompleteStatus, AdapterEof, None);
        case Stall => OnFailure(false, IncompleteStatus, StallTimeout, None);
        case Throw => OnThrown();
      }
    }
  }

  /** The stream's steps, beats and cancellation around the item book. */
  class Bridge {
    const cfg: Config
    const items: ItemBook
    const out: Stream
    var stepping: bool
    var gated: bool
    var terminated: bool
    var upstreamDone: bool
    var upstreamActive: bool
    var stallTicks: nat
    var beatArmed: bool
    var atStart: nat
    // The inputs handled while the stream was open.
    ghost var heard: seq<Input>

    ghost predicate Valid() {
      items.cfg == cfg && items.out == out
    }

    ghost function State(): Machine
      reads this, items, out
    {
      Machine(items.Items(), out.Value(), heard, stepping, gated, terminated, upstreamDone, upstreamActive,
              stallTicks, beatArmed, atStart)
    }

    constructor (cfg: Config, room: nat)
      ensures Valid() && State() == Begin(room) && this.cfg == cfg
    {
      this.cfg := cfg;
      var book := new ItemBook(cfg, room);
      items, out := book, book.out;
      stepping, gated, terminated, upstreamDone, upstreamActive := false, true, false, false, false;
      stallTicks, beatArmed, atStart, heard := 0, true, 0, [];
    }

    /** One input handled, and its ending reported. */
    method Take(i: Input)
      requires Valid()
      modifies this, items, out
      ensures State() == Absorb(cfg, old(State()), i)
    {
      hide Advance, SendAll;
      ghost var open := !out.closed;
      items.Mark();
      items.HandleInput(i);
      if BridgeCore.Ends(i) { out.ReportTerminal(BridgeFrames.EndStatus(i)); }
      if open { heard := heard + [i]; }
    }

    method LeaveLoop()
      requires Valid()
      modifies this, items, out
      ensures State() == Exit(cfg, old(State()))
    {
      hide Absorb;
      if !terminated && !upstreamDone {
        gated, stepping := true, false;
        return;
      }
      ghost var before := State();
      beatArmed := false;
      AbsorbIgnoresFlags(cfg, before, State(), Eof);
      if !terminated {
        Take(Eof);
        terminated := true;
      }
      out.Close();
      gated, stepping := true, false;
    }

    method ContinueLoop()
      requires Valid()
      modifies this, items, out
      ensures State() == LoopHead(cfg, old(State()))
    {
      if terminated || out.closed || out.emitted != atStart { LeaveLoop(); }
    }

    method Pull()
      requires Valid()
      modifies this, items, out
      ensures State() == DoPull(cfg, old(State()))
    {
      hide Exit;
      if stepping || out.closed { return; }
      stepping, gated, atStart := true, false, out.emitted;
      ContinueLoop();
    }

    /** The awaited event, the end of the events, or a throw. */
    method Arrive(i: Input)
      requires Valid()
      modifies this, items, out
      ensures State() == DoArrive(cfg, old(State()), i)
    {
      hide Exit, Absorb, LoopHead;
      if !stepping || i.Stall? { return; }
      match i {
        case Eof =>
          upstreamDone := true;
          LeaveLoop();
        case Throw =>
          if !terminated {
            Take(Throw);
            terminated := true;
          }
          LeaveLoop();
        case Next(e) =>
          upstreamActive, stallTicks := true, 0;
          Take(i);
          if e.IsTerminal() {
            terminated := true;
            LeaveLoop();
          } else {
            ContinueLoop();
          }
      }
    }

    /** The watchdog gives up on the upstream. */
    method OnStallTimeout()
      requires Valid()
      modifies this, items, out
      ensures var gone := Absorb(cfg, old(State()), Stall);
        State() == gone.(terminated := true, beatArmed := false, port := Seal(gone.port))
    {
      hide Absorb;
      Take(Stall);
      terminated, beatArmed := true, false;
      out.Close();
    }

    method BeatWire()
      modifies out
      ensures State() == WireBeat(old(State()))
    {
      if out.wireActive {
        out.wireActive := false;
      } else {
        out.EnqueueFrame(KeepAlive);
      }
    }

    method Beat()
      requires Valid()
      modifies this, items, out
      ensures State() == DoBeat(cfg, old(State()))
    {
      hide Absorb, WireBeat;
      if !beatArmed || out.closed || gated { return; }
      if upstreamActive {
        upstreamActive, stallTicks := false, 0;
      } else {
        ghost var before := State();
        stallTicks := stallTicks + 1;
        if stallTicks >= cfg.maxStallTicks {
          AbsorbIgnoresFlags(cfg, before, State(), Stall);
          OnStallTimeout();
          return;
        }
      }
      BeatWire();
    }

    method Cancel()
      requires Valid()
      modifies this, items, out
      ensures State() == DoCancel(old(State()))
    {
      out.cancelled, out.closed := true, true;
      beatArmed := false;
    }
  }
}
