/** Conservation of the assistant's text through the bridge. */
module BridgeText {
  import opened Prelude
  import opened BridgeTypes
  import opened BridgeCore

  function TextOf(item: Item): Str {
    if item.Message? then item.text else []
  }

  /** The text of all finished messages, in order. */
  function MessageText(items: seq<Item>): Str {
    if items == [] then []
    else MessageText(items[..|items| - 1]) + TextOf(items[|items| - 1])
  }

  /** All text the bridge has taken in so far: finished messages, then the open one. */
  function Said(c: Core): Str {
    MessageText(c.finished) + (if c.msg.Some? then c.msg.value.text else [])
  }

  /** The text deltas among the inputs. */
  function TextIn(inputs: seq<Input>): Str {
    if inputs == [] then []
    else
      var last := inputs[|inputs| - 1];
      TextIn(inputs[..|inputs| - 1]) + (if last.Next? && last.event.TextDelta? then last.event.text else [])
  }

  lemma FinishSaid(c: Core, index: nat, item: Item)
    ensures MessageText(Finish(c, index, item).finished) == MessageText(c.finished) + TextOf(item)
  {
    assert (c.finished + [item])[..|c.finished|] == c.finished;
  }

  lemma CloseMessageSaid(c: Core, inferred: Option<Phase>)
    ensures Said(CloseMessage(c, inferred)) == Said(c)
  {
    hide MessageText;
    if c.msg.Some? {
      var m := c.msg.value;
      FinishSaid(c, m.index, Message(m.id, m.text, Citations(c.sources), if m.phase.Some? then m.phase else inferred));
    }
  }

  lemma CloseReasoningSaid(c: Core)
    ensures Said(CloseReasoning(c)) == Said(c)
  {
    hide MessageText;
    if c.reasoning.Some? {
      var r := c.reasoning.value;
      FinishSaid(c, r.index, Reasoning(r.id, [r.text], None, PendingEnvelope(c, None)));
    }
  }

  lemma CloseRawSaid(c: Core)
    ensures Said(CloseRaw(c)) == Said(c)
  {
    hide MessageText;
    if c.raw.Some? {
      FinishSaid(c, c.raw.value.index, Reasoning(c.raw.value.id, [], Some([c.raw.value.text]), None));
    }
  }

  lemma CloseToolSaid(cfg: Config, c: Core)
    ensures Said(CloseTool(cfg, c)) == Said(c)
  {
    hide MessageText;
    if c.tool.Some? {
      var t := c.tool.value;
      FinishSaid(c, t.index, ToolItem(cfg, t.id, t.kind, t.callId, t.name, t.args, t.namespace));
    }
  }

  lemma CloseSearchSaid(c: Core, status: SearchStatus, queries: seq<Str>, sources: Option<seq<Source>>)
    ensures Said(CloseSearch(c, status, queries, sources)) == Said(c)
  {
    hide MessageText;
    if c.search.Some? {
      FinishSaid(c, c.search.value.index,
                 WebSearch(c.search.value.id, status, Some(SearchAction(queries)), SourcesOf(sources)));
    }
  }

  lemma WholeReasoningSaid(c: Core, envelope: Envelope)
    ensures Said(WholeReasoning(c, envelope)) == Said(c)
  {
    hide MessageText;
    FinishSaid(c, c.outputIndex, Reasoning(c.nextId, [], None, Some(envelope)));
  }

  lemma FlushEnvelopeSaid(c: Core)
    ensures Said(FlushEnvelope(c)) == Said(c)
  {
    hide MessageText, WholeReasoning;
    if HasEnvelope(c) {
      WholeReasoningSaid(DropEnvelope(c).(hiddenThinking := []), PendingEnvelope(c, Truthy(Some(c.hiddenThinking))).value);
    }
  }

  lemma FlushHiddenRawSaid(c: Core)
    ensures Said(FlushHiddenRaw(c)) == Said(c)
  {
    hide MessageText, WholeReasoning;
    if c.hiddenRaw != [] {
      WholeReasoningSaid(c.(hiddenRaw := []), Envelope(None, [], Some(c.hiddenRaw)));
    }
  }

  /** Message, reasoning, raw, hidden raw, tool: the chain every larger step starts with. */
  lemma CloseContentSaid(cfg: Config, c: Core, inferred: Option<Phase>)
    ensures Said(CloseTool(cfg, FlushHiddenRaw(CloseRaw(CloseReasoning(CloseMessage(c, inferred)))))) == Said(c)
  {
    hide Said, CloseMessage, CloseReasoning, CloseRaw, FlushHiddenRaw, CloseTool;
    CloseMessageSaid(c, inferred);
    CloseReasoningSaid(CloseMessage(c, inferred));
    CloseRawSaid(CloseReasoning(CloseMessage(c, inferred)));
    FlushHiddenRawSaid(CloseRaw(CloseReasoning(CloseMessage(c, inferred))));
    CloseToolSaid(cfg, FlushHiddenRaw(CloseRaw(CloseReasoning(CloseMessage(c, inferred)))));
  }

  lemma CloseAllSaid(cfg: Config, c: Core, inferred: Option<Phase>, search: SearchStatus)
    ensures Said(CloseAll(cfg, c, inferred, search)) == Said(c) && CloseAll(cfg, c, inferred, search).msg.None?
  {
    hide Said, CloseMessage, CloseReasoning, CloseRaw, FlushHiddenRaw, CloseTool, CloseSearch;
    CloseContentSaid(cfg, c, inferred);
    CloseSearchSaid(CloseTool(cfg, FlushHiddenRaw(CloseRaw(CloseReasoning(CloseMessage(c, inferred))))), search, [], None);
  }

  lemma OnTextSaid(cfg: Config, c: Core, text: Str, phase: Option<Phase>)
    ensures Said(OnText(cfg, c, text, phase)) == Said(c) + text
  {
    hide MessageText, CloseMessage, CloseReasoning, CloseRaw, FlushHiddenRaw, CloseTool;
    CloseReasoningSaid(c);
    CloseRawSaid(CloseReasoning(c));
    FlushHiddenRawSaid(CloseRaw(CloseReasoning(c)));
    CloseToolSaid(cfg, FlushHiddenRaw(CloseRaw(CloseReasoning(c))));
    CloseMessageSaid(CloseTool(cfg, FlushHiddenRaw(CloseRaw(CloseReasoning(c)))), Some(Commentary));
  }

  lemma OnThinkingSaid(cfg: Config, c: Core, text: Str)
    ensures Said(OnThinking(cfg, c, text)) == Said(c)
  {
    hide MessageText, CloseMessage, CloseRaw, FlushHiddenRaw, CloseTool;
    CloseMessageSaid(c, Some(Commentary));
    CloseRawSaid(CloseMessage(c, Some(Commentary)));
    FlushHiddenRawSaid(CloseRaw(CloseMessage(c, Some(Commentary))));
    CloseToolSaid(cfg, FlushHiddenRaw(CloseRaw(CloseMessage(c, Some(Commentary)))));
  }

  lemma OnRawSaid(cfg: Config, c: Core, text: Str)
    ensures Said(OnRaw(cfg, c, text)) == Said(c)
  {
    hide MessageText, CloseMessage, CloseReasoning, CloseTool;
    CloseMessageSaid(c, Some(Commentary));
    CloseReasoningSaid(CloseMessage(c, Some(Commentary)));
    CloseToolSaid(cfg, CloseReasoning(CloseMessage(c, Some(Commentary))));
  }

  lemma OnSearchSaid(cfg: Config, c: Core, e: Event)
    requires e.SearchBegin? || e.SearchEnd?
    requires !cfg.compaction
    ensures Said(Handle(cfg, c, e)) == Said(c)
  {
    hide MessageText, CloseMessage, CloseReasoning, CloseRaw, FlushHiddenRaw, CloseTool, CloseSearch;
    CloseContentSaid(cfg, c, Some(Commentary));
    CloseSearchSaid(CloseContent(cfg, c), SearchCompleted, [], None);
    CloseSearchSaid(c, SearchCompleted, [], None);
    if e.SearchEnd? {
      var c1 := if c.search.Some? && c.search.value.eventId == e.id then c
                else StartSearch(CloseSearch(c, SearchCompleted, [], None), e.id);
      CloseSearchSaid(c1, if e.status.Some? then e.status.value else SearchCompleted, e.queries, e.sources);
    }
  }

  /** Every ending but a thrown one closes the open message, and none loses text. */
  lemma EndingSaid(cfg: Config, c: Core, i: Input)
    requires (i.Next? ==> i.event.IsTerminal()) && !cfg.compaction
    ensures Said(Advance(cfg, c, i)) == Said(c)
    ensures !i.Throw? ==> Advance(cfg, c, i).msg.None?
  {
    hide MessageText, CloseAll, CloseSearch, FlushHiddenRaw, FlushEnvelope;
    match i {
      case Throw =>
        FlushHiddenRawSaid(c);
        CloseSearchSaid(FlushHiddenRaw(c), SearchFailed, [], None);
      case Next(Done(stop, endTurn)) =>
        CloseAllSaid(cfg, c, InferredFinal(stop), SearchCompleted);
        FlushEnvelopeSaid(CloseAll(cfg, c, InferredFinal(stop), SearchCompleted));
      case _ =>
        CloseAllSaid(cfg, c, None, SearchFailed);
        FlushEnvelopeSaid(CloseAll(cfg, c, None, SearchFailed));
    }
  }

  lemma AdvanceSaid(cfg: Config, c: Core, i: Input)
    requires !cfg.compaction
    ensures Said(Advance(cfg, c, i)) == Said(c) + TextIn([i])
  {
    hide MessageText, OnText, OnThinking, OnRaw, OnDone, OnSearchBegin, OnSearchEnd, CloseContent, CloseAll, CloseTool,
         FlushEnvelope, CloseSearch, FlushHiddenRaw;
    assert TextIn([]) == [];
    assert [i][..0] == [];
    match i {
      case Next(TextDelta(text, phase)) => OnTextSaid(cfg, c, text, phase);
      case Next(ThinkingDelta(text)) => OnThinkingSaid(cfg, c, text);
      case Next(RawDelta(text)) => OnRawSaid(cfg, c, text);
      case Next(ThinkingSignature(sig)) => FlushEnvelopeSaid(c.(signature := Some(sig)));
      case Next(ToolStart(_, _)) => ContentSaid(cfg, c);
      case Next(Boundary) => ContentSaid(cfg, c); FlushEnvelopeSaid(CloseContent(cfg, c));
      case Next(ToolEnd) => CloseToolSaid(cfg, c);
      case Next(SearchBegin(_)) => OnSearchSaid(cfg, c, i.event);
      case Next(SearchEnd(_, _, _, _)) => OnSearchSaid(cfg, c, i.event);
      case Next(Done(_, _)) => EndingSaid(cfg, c, i);
      case Next(Incomplete(_, _, _, _)) => EndingSaid(cfg, c, i);
      case Next(Error(_, _)) => EndingSaid(cfg, c, i);
      case Next(_) =>
      case _ => EndingSaid(cfg, c, i);
    }
  }

  lemma ContentSaid(cfg: Config, c: Core)
    ensures Said(CloseContent(cfg, c)) == Said(c)
  {
    hide Said, CloseMessage, CloseReasoning, CloseRaw, FlushHiddenRaw, CloseTool;
    CloseContentSaid(cfg, c, Some(Commentary));
  }

  /**
   * For every run whatsoever, tame or not: the message texts concatenate to exactly the text
   * deltas, in order; once the response has ended other than by a throw they are all finished.
   */
  lemma {:induction false} TextIsConserved(cfg: Config, inputs: seq<Input>)
    requires !cfg.compaction
    ensures Said(Run(cfg, inputs)) == TextIn(inputs)
    ensures inputs != [] && !inputs[|inputs| - 1].Throw? && (inputs[|inputs| - 1].Next? ==> inputs[|inputs| - 1].event.IsTerminal())
      ==> MessageText(Run(cfg, inputs).finished) == TextIn(inputs)
  {
    if inputs != [] {
      var before, last := inputs[..|inputs| - 1], inputs[|inputs| - 1];
      TextIsConserved(cfg, before);
      var c := Run(cfg, before);
      LastText(inputs);
      hide TextIn, MessageText, Advance;
      AdvanceSaid(cfg, c, last);
      if last.Next? ==> last.event.IsTerminal() {
        EndingSaid(cfg, c, last);
      }
    }
  }

  lemma LastText(inputs: seq<Input>)
    requires inputs != []
    ensures TextIn(inputs) == TextIn(inputs[..|inputs| - 1]) + TextIn([inputs[|inputs| - 1]])
  {
    var last := inputs[|inputs| - 1];
    assert [last][..0] == [];
    assert TextIn([last]) == TextIn([]) + (if last.Next? && last.event.TextDelta? then last.event.text else []);
  }
}
