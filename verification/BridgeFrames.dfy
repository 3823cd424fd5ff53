/** Terminal frames come from endings only, and an ending writes exactly one, last. */
module BridgeFrames {
  import opened Prelude
  import opened BridgeTypes
  import opened BridgeCore
  import opened BridgeItems

  /** No terminal frame from position `n` on. */
  predicate EndFree(log: seq<Frame>, n: nat) {
    forall k :: n <= k < |log| ==> !log[k].Terminal?
  }

  lemma CloseMessageEndFree(c: Core, inferred: Option<Phase>, n: nat)
    requires EndFree(c.log, n)
    ensures EndFree(CloseMessage(c, inferred).log, n)
  {
  }

  lemma CloseReasoningEndFree(c: Core, n: nat)
    requires EndFree(c.log, n)
    ensures EndFree(CloseReasoning(c).log, n)
  {
  }

  lemma CloseRawEndFree(c: Core, n: nat)
    requires EndFree(c.log, n)
    ensures EndFree(CloseRaw(c).log, n)
  {
  }

  lemma CloseToolEndFree(cfg: Config, c: Core, n: nat)
    requires EndFree(c.log, n)
    ensures EndFree(CloseTool(cfg, c).log, n)
  {
  }

  lemma CloseSearchEndFree(c: Core, status: SearchStatus, queries: seq<Str>, sources: Option<seq<Source>>, n: nat)
    requires EndFree(c.log, n)
    ensures EndFree(CloseSearch(c, status, queries, sources).log, n)
  {
  }

  lemma FlushHiddenRawEndFree(c: Core, n: nat)
    requires EndFree(c.log, n)
    ensures EndFree(FlushHiddenRaw(c).log, n)
  {
  }

  lemma FlushEnvelopeEndFree(c: Core, n: nat)
    requires EndFree(c.log, n)
    ensures EndFree(FlushEnvelope(c).log, n)
  {
  }

  lemma CloseVisibleEndFree(cfg: Config, c: Core, inferred: Option<Phase>, n: nat)
    requires EndFree(c.log, n)
    ensures EndFree(CloseVisible(cfg, c, inferred).log, n)
  {
    hide EndFree, CloseMessage, CloseReasoning, CloseRaw, FlushHiddenRaw, CloseTool;
    CloseMessageEndFree(c, inferred, n);
    CloseReasoningEndFree(CloseMessage(c, inferred), n);
    CloseRawEndFree(CloseReasoning(CloseMessage(c, inferred)), n);
    FlushHiddenRawEndFree(CloseRaw(CloseReasoning(CloseMessage(c, inferred))), n);
    CloseToolEndFree(cfg, FlushHiddenRaw(CloseRaw(CloseReasoning(CloseMessage(c, inferred)))), n);
  }

  lemma OnTextEndFree(cfg: Config, c: Core, text: Str, phase: Option<Phase>, n: nat)
    requires EndFree(c.log, n)
    ensures EndFree(OnText(cfg, c, text, phase).log, n)
  {
    hide CloseMessage, CloseReasoning, CloseRaw, FlushHiddenRaw, CloseTool;
    CloseReasoningEndFree(c, n);
    CloseRawEndFree(CloseReasoning(c), n);
    FlushHiddenRawEndFree(CloseRaw(CloseReasoning(c)), n);
    CloseToolEndFree(cfg, FlushHiddenRaw(CloseRaw(CloseReasoning(c))), n);
    CloseMessageEndFree(CloseTool(cfg, FlushHiddenRaw(CloseRaw(CloseReasoning(c)))), Some(Commentary), n);
  }

  lemma OnThinkingEndFree(cfg: Config, c: Core, text: Str, n: nat)
    requires EndFree(c.log, n)
    ensures EndFree(OnThinking(cfg, c, text).log, n)
  {
    hide CloseMessage, CloseRaw, FlushHiddenRaw, CloseTool;
    CloseMessageEndFree(c, Some(Commentary), n);
    CloseRawEndFree(CloseMessage(c, Some(Commentary)), n);
    FlushHiddenRawEndFree(CloseRaw(CloseMessage(c, Some(Commentary))), n);
    CloseToolEndFree(cfg, FlushHiddenRaw(CloseRaw(CloseMessage(c, Some(Commentary)))), n);
  }

  lemma OnRawEndFree(cfg: Config, c: Core, text: Str, n: nat)
    requires EndFree(c.log, n)
    ensures EndFree(OnRaw(cfg, c, text).log, n)
  {
    hide CloseMessage, CloseReasoning, CloseTool;
    CloseMessageEndFree(c, Some(Commentary), n);
    CloseReasoningEndFree(CloseMessage(c, Some(Commentary)), n);
    CloseToolEndFree(cfg, CloseReasoning(CloseMessage(c, Some(Commentary))), n);
  }

  lemma OnSearchEndFree(cfg: Config, c: Core, e: Event, n: nat)
    requires EndFree(c.log, n) && (e.SearchBegin? || e.SearchEnd?)
    ensures EndFree(Handle(cfg, c, e).log, n)
  {
    hide CloseVisible, CloseSearch;
    CloseVisibleEndFree(cfg, c, Some(Commentary), n);
    CloseSearchEndFree(CloseContent(cfg, c), SearchCompleted, [], None, n);
    CloseSearchEndFree(c, SearchCompleted, [], None, n);
    if e.SearchEnd? {
      var c1 := if c.search.Some? && c.search.value.eventId == e.id then c
                else StartSearch(CloseSearch(c, SearchCompleted, [], None), e.id);
      CloseSearchEndFree(c1, if e.status.Some? then e.status.value else SearchCompleted, e.queries, e.sources, n);
    }
  }

  /** An event that does not end the response writes no terminal frame. */
  lemma EventEndFree(cfg: Config, c: Core, e: Event, n: nat)
    requires EndFree(c.log, n) && !e.IsTerminal()
    ensures EndFree(Handle(cfg, c, e).log, n)
  {
    hide EndFree, OnText, OnThinking, OnRaw, OnSearchBegin, OnSearchEnd, CloseVisible, CloseTool, CloseAll, OnDone,
         FlushEnvelope, StartTool, OnToolDelta, End;
    match e {
      case TextDelta(text, phase) => OnTextEndFree(cfg, c, text, phase, n);
      case ThinkingDelta(text) => OnThinkingEndFree(cfg, c, text, n);
      case ThinkingSignature(sig) => FlushEnvelopeEndFree(c.(signature := Some(sig)), n);
      case RawDelta(text) => OnRawEndFree(cfg, c, text, n);
      case ToolStart(id, name) =>
        CloseVisibleEndFree(cfg, c, Some(Commentary), n);
        StartToolEndFree(cfg, CloseVisible(cfg, c, Some(Commentary)), id, name, n);
      case ToolDelta(more) => ToolDeltaEndFree(c, more, n);
      case ToolEnd => CloseToolEndFree(cfg, c, n);
      case Boundary =>
        CloseVisibleEndFree(cfg, c, Some(Commentary), n);
        FlushEnvelopeEndFree(CloseVisible(cfg, c, Some(Commentary)), n);
      case SearchBegin(_) => OnSearchEndFree(cfg, c, e, n);
      case SearchEnd(_, _, _, _) => OnSearchEndFree(cfg, c, e, n);
      case _ =>
    }
  }

  lemma StartToolEndFree(cfg: Config, c: Core, id: Str, name: Str, n: nat)
    requires EndFree(c.log, n)
    ensures EndFree(StartTool(cfg, c, id, name).log, n)
  {
  }

  lemma ToolDeltaEndFree(c: Core, more: Str, n: nat)
    requires EndFree(c.log, n)
    ensures EndFree(OnToolDelta(c, more).log, n)
  {
  }

  /** The status an ending input reports. */
  function EndStatus(i: Input): Status {
    match i
    case Next(Done(stop, _)) => if Truncated(stop) then IncompleteStatus else Completed
    case Next(Error(_, _)) => Failed
    case Throw => Failed
    case _ => IncompleteStatus
  }

  /** The model stopped because of a limit or a filter. */
  predicate Truncated(stop: Option<Stop>) {
    stop.Some? && (stop.value.MaxTokens? || stop.value.Filtered?)
  }

  /** What it says about why. */
  function EndDetail(i: Input): Detail {
    match i
    case Next(Done(Some(MaxTokens), _)) => MaxOutputTokens
    case Next(Done(Some(Filtered), _)) => ContentFilter
    case Next(Incomplete(reason, message, retryable, _)) =>
      Reported(reason, if message == Some([]) then None else message, retryable)
    case Next(Error(failure, retryable)) => FailedWith(failure, retryable)
    case Eof => AdapterEof
    case Stall => StallTimeout
    case Throw => ProxyError
    case Next(_) => NoDetail
  }

  function EndTurn(i: Input): Option<bool> {
    match i
    case Next(Done(_, endTurn)) => endTurn
    case Next(Incomplete(_, _, _, endTurn)) => endTurn
    case _ => None
  }

  lemma CloseAllEndFree(cfg: Config, c: Core, inferred: Option<Phase>, search: SearchStatus, n: nat)
    requires EndFree(c.log, n)
    ensures EndFree(CloseAll(cfg, c, inferred, search).log, n)
  {
    hide EndFree, CloseVisible, CloseSearch;
    CloseVisibleEndFree(cfg, c, inferred, n);
    CloseSearchEndFree(CloseVisible(cfg, c, inferred), search, [], None, n);
  }

  predicate EndsWith(log: seq<Frame>, n: nat, status: Status) {
    |log| > n && log[|log| - 1].Terminal? && log[|log| - 1].status == status && EndFree(log[..|log| - 1], n)
  }

  lemma EndEndsWith(c: Core, status: Status, detail: Detail, endTurn: Option<bool>, n: nat)
    requires EndFree(c.log, n) && n <= |c.log|
    ensures EndsWith(End(c, status, detail, endTurn).log, n, status)
  {
    var log := End(c, status, detail, endTurn).log;
    assert log[..|log| - 1] == c.log;
  }

  /** An ending input writes one terminal frame, with its status, after everything else. */
  lemma EndingFrames(cfg: Config, c: Core, i: Input)
    requires Ends(i)
    ensures EndsWith(Advance(cfg, c, i).log, |c.log|, EndStatus(i))
  {
    hide EndFree, EndsWith, CloseAll, CloseSearch, FlushEnvelope, FlushHiddenRaw, CompactionItem, End;
    var n := |c.log|;
    assert EndFree(c.log, n) by { NothingAfter(c.log); }
    match i {
      case Throw =>
        FlushHiddenRawEndFree(c, n);
        CloseSearchEndFree(FlushHiddenRaw(c), SearchFailed, [], None, n);
        EndEndsWith(CloseSearch(FlushHiddenRaw(c), SearchFailed, [], None), Failed, ProxyError, None, n);
      case Eof =>
        CloseAllEndFree(cfg, c, None, SearchFailed, n);
        EndEndsWith(CloseAll(cfg, c, None, SearchFailed), IncompleteStatus, AdapterEof, None, n);
      case Stall =>
        CloseAllEndFree(cfg, c, None, SearchFailed, n);
        EndEndsWith(CloseAll(cfg, c, None, SearchFailed), IncompleteStatus, StallTimeout, None, n);
      case Next(e) => EndingEventFrames(cfg, c, e);
    }
  }

  lemma NothingAfter(log: seq<Frame>)
    ensures EndFree(log, |log|)
  {
  }

  lemma CompactionEndFree(c: Core, n: nat)
    requires EndFree(c.log, n)
    ensures EndFree(CompactionItem(c).log, n) && |c.log| <= |CompactionItem(c).log|
  {
  }

  lemma EndingEventFrames(cfg: Config, c: Core, e: Event)
    requires e.IsTerminal()
    ensures EndsWith(Handle(cfg, c, e).log, |c.log|, EndStatus(Next(e)))
  {
    hide EndFree, EndsWith, CloseAll, CloseSearch, FlushEnvelope, FlushHiddenRaw, CompactionItem, End;
    var n := |c.log|;
    NothingAfter(c.log);
    match e {
      case Done(stop, endTurn) =>
        CloseAllEndFree(cfg, c, InferredFinal(stop), SearchCompleted, n);
        var c0 := CloseAll(cfg, c, InferredFinal(stop), SearchCompleted);
        FlushEnvelopeEndFree(c0, n);
        CompactionEndFree(FlushEnvelope(c0), n);
        var c1 := if cfg.compaction then CompactionItem(FlushEnvelope(c0)) else FlushEnvelope(c0);
        EndEndsWith(c1, StatusOf(stop), DetailOf(stop), endTurn, n);
      case Incomplete(reason, message, retryable, endTurn) =>
        CloseAllEndFree(cfg, c, None, SearchFailed, n);
        FlushEnvelopeEndFree(CloseAll(cfg, c, None, SearchFailed), n);
        EndEndsWith(FlushEnvelope(CloseAll(cfg, c, None, SearchFailed)), IncompleteStatus,
                    Reported(reason, Truthy(message), retryable), endTurn, n);
      case Error(failure, retryable) =>
        CloseAllEndFree(cfg, c, None, SearchFailed, n);
        EndEndsWith(CloseAll(cfg, c, None, SearchFailed), Failed, FailedWith(failure, retryable), None, n);
    }
  }

  /** For every ending of every run: the last frame reports its status, its cause and the finished items. */
  lemma EndingReports(cfg: Config, c: Core, i: Input)
    requires Ends(i)
    ensures var d := Advance(cfg, c, i);
      d.log != [] && d.log[|d.log| - 1] == Terminal(EndStatus(i), EndDetail(i), EndTurn(i), d.finished)
  {
    hide Handle, CloseAll, CloseSearch, FlushHiddenRaw;
    if i.Next? { EndingEventReports(cfg, c, i.event); }
  }

  lemma EndingEventReports(cfg: Config, c: Core, e: Event)
    requires e.IsTerminal()
    ensures var d, i := Handle(cfg, c, e), Next(e);
      d.log != [] && d.log[|d.log| - 1] == Terminal(EndStatus(i), EndDetail(i), EndTurn(i), d.finished)
  {
    hide CloseAll, FlushEnvelope, CompactionItem;
  }
}
