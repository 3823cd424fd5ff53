/** `buildResponseJSON`: the same items built from the whole event list at once. */
module BridgeBatch {
  import opened Prelude
  import opened BridgeTypes

  datatype Batch = Batch(
    output: seq<Item>, text: Str, textPhase: Option<Phase>, summary: Str, raw: Str,
    signature: Option<Str>, redacted: seq<Str>,
    callId: Str, callName: Str, callArgs: Str, sources: seq<Source>, compactionText: Str,
    failed: Option<Event>, cut: Option<Event>, endTurn: Option<bool>, stop: Option<Stop>, cleanDone: bool,
    nextId: nat)

  datatype Response = Response(status: Status, failure: Detail, details: Detail, endTurn: Option<bool>, output: seq<Item>)

  function Start(): Batch {
    Batch([], [], None, [], [], None, [], [], [], [], [], [], None, None, None, None, false, 0)
  }

  function Push(b: Batch, item: Item): Batch {
    b.(output := b.output + [item], nextId := b.nextId + 1)
  }

  function FlushText(b: Batch, inferred: Option<Phase>): (r: Batch)
    ensures b.text == [] ==> r == b
    ensures r == b.(text := [], textPhase := r.textPhase, sources := r.sources, output := r.output, nextId := r.nextId)
  {
    if b.text == [] then b
    else
      var phase := if b.textPhase.Some? then b.textPhase else inferred;
      Push(b, Message(b.nextId, b.text, Citations(b.sources), phase)).(text := [], textPhase := None, sources := [])
  }

  predicate HasEnvelope(b: Batch) {
    Truthy(b.signature).Some? || b.redacted != []
  }

  function FlushSummary(cfg: Config, b: Batch): (r: Batch)
    ensures r == b.(summary := [], signature := r.signature, redacted := r.redacted, output := r.output, nextId := r.nextId)
    ensures b.summary == [] && !HasEnvelope(b) ==> r == b
    ensures !HasEnvelope(r)
  {
    if b.summary == [] && !HasEnvelope(b) then b
    else
      var hidden := if cfg.hide && b.summary != [] && HasEnvelope(b) then Some(b.summary) else None;
      var envelope := if HasEnvelope(b) then Some(Envelope(Truthy(b.signature), b.redacted, hidden)) else None;
      var b1 := b.(signature := None, redacted := [], summary := []);
      if cfg.hide && envelope.None? then b1
      else Push(b1, Reasoning(b.nextId, if !cfg.hide && b.summary != [] then [b.summary] else [], None, envelope))
  }

  function FlushRaw(cfg: Config, b: Batch): (r: Batch)
    ensures b.raw == [] ==> r == b
    ensures r == b.(raw := [], output := r.output, nextId := r.nextId)
  {
    if b.raw == [] then b
    else if cfg.hide then
      Push(b, Reasoning(b.nextId, [], None, Some(Envelope(None, [], Some(b.raw))))).(raw := [])
    else
      Push(b, Reasoning(b.nextId, [], Some([b.raw]), None)).(raw := [])
  }

  function FlushCall(cfg: Config, b: Batch): (r: Batch)
    ensures b.callId == [] ==> r == b
    ensures r == b.(callId := [], callName := r.callName, callArgs := r.callArgs, output := r.output, nextId := r.nextId)
  {
    if b.callId == [] then b
    else
      var target := RealName(cfg, b.callName);
      Push(b, ToolItem(cfg, b.nextId, KindOf(cfg, target), b.callId, target, b.callArgs, NamespaceOf(cfg, b.callName)))
        .(callId := [], callName := [], callArgs := [])
  }

  /** `if (currentSummaryReasoning) flushSummaryReasoning()` */
  function FlushOpenSummary(cfg: Config, b: Batch): (r: Batch)
    ensures b.summary == [] ==> r == b
    ensures r == b.(summary := [], signature := r.signature, redacted := r.redacted, output := r.output, nextId := r.nextId)
  {
    if b.summary != [] then FlushSummary(cfg, b) else b
  }

  /** Everything that was still open is written out. */
  function Settle(cfg: Config, b: Batch): Batch {
    FlushCall(cfg, FlushRaw(cfg, FlushOpenSummary(cfg, FlushText(b, Some(Commentary)))))
  }

  function TakeText(cfg: Config, b: Batch, text: Str, phase: Option<Phase>): Batch {
    var b1 := if b.text != [] && phase.Some? && b.textPhase != phase then FlushText(b, Some(Commentary)) else b;
    var b2 := FlushCall(cfg, FlushRaw(cfg, FlushOpenSummary(cfg, b1)));
    if cfg.compaction then b2.(compactionText := b2.compactionText + text)
    else b2.(textPhase := if phase.Some? then phase else b2.textPhase, text := b2.text + text)
  }

  function TakeSearchEnd(cfg: Config, b: Batch, queries: seq<Str>, status: Option<SearchStatus>, sources: Option<seq<Source>>): Batch {
    var b1 := Settle(cfg, b);
    var final := if status.Some? then status.value else SearchCompleted;
    Push(b1, WebSearch(b1.nextId, final, Some(SearchAction(queries)), SourcesOf(sources)))
      .(sources := MergeSources(b1.sources, SourcesOf(sources)))
  }

  function TakeDone(b: Batch, stop: Option<Stop>, endTurn: Option<bool>): Batch {
    b.(endTurn := endTurn, cleanDone := stop.None?, stop := if StatusOf(stop) == IncompleteStatus then stop else b.stop)
  }

  function Take(cfg: Config, b: Batch, e: Event): Batch {
    match e
    case Heartbeat => b
    case Boundary => FlushCall(cfg, FlushRaw(cfg, FlushSummary(cfg, FlushText(b, Some(Commentary)))))
    case TextDelta(text, phase) => TakeText(cfg, b, text, phase)
    case ThinkingDelta(text) =>
      var b1 := FlushCall(cfg, FlushRaw(cfg, FlushText(b, Some(Commentary))));
      b1.(summary := b1.summary + text)
    case ThinkingSignature(sig) => FlushSummary(cfg, b.(signature := Some(sig)))
    case RedactedThinking(data) => b.(redacted := b.redacted + [data])
    case RawDelta(text) =>
      var b1 := FlushCall(cfg, FlushOpenSummary(cfg, FlushText(b, Some(Commentary))));
      b1.(raw := b1.raw + text)
    case ToolStart(id, name) => Settle(cfg, b).(callId := id, callName := name, callArgs := [])
    case ToolDelta(more) => b.(callArgs := b.callArgs + more)
    case ToolEnd => FlushCall(cfg, b)
    case SearchBegin(_) => b
    case SearchEnd(_, queries, status, sources) => TakeSearchEnd(cfg, b, queries, status, sources)
    case Error(_, _) => b.(failed := Some(e))
    case Incomplete(_, _, _, endTurn) => b.(cut := Some(e), endTurn := endTurn)
    case Done(stop, endTurn) => TakeDone(b, stop, endTurn)
  }

  function TakeAll(cfg: Config, es: seq<Event>): Batch {
    if es == [] then Start() else Take(cfg, TakeAll(cfg, es[..|es| - 1]), es[|es| - 1])
  }

  /** The flushes after the last event. */
  function FlushRest(cfg: Config, b: Batch): Batch {
    var final := if b.cleanDone && b.failed.None? && b.cut.None? then Some(FinalAnswer) else None;
    FlushCall(cfg, FlushRaw(cfg, FlushSummary(cfg, FlushText(b, final))))
  }

  function FailureOf(b: Batch): Detail {
    if b.failed.Some? && b.failed.value.Error? then FailedWith(b.failed.value.failure, b.failed.value.retryable) else NoDetail
  }

  function DetailsOf(b: Batch): Detail {
    if b.cut.Some? && b.cut.value.Incomplete? then
      Reported(b.cut.value.reason, Truthy(b.cut.value.message), b.cut.value.retryable)
    else DetailOf(b.stop)
  }

  function Respond(cfg: Config, b: Batch): Response {
    var b1 := FlushRest(cfg, b);
    var whole := cfg.compaction && b.failed.None? && b.cut.None? && StatusOf(b.stop) == Completed;
    var b2 := if whole then Push(b1, Compaction(b1.nextId, b1.compactionText)) else b1;
    var status := if b.failed.Some? then Failed
                  else if b.cut.Some? || StatusOf(b.stop) == IncompleteStatus then IncompleteStatus else Completed;
    Response(status, FailureOf(b), DetailsOf(b), b.endTurn, b2.output)
  }

  function BuildResponse(cfg: Config, es: seq<Event>): Response {
    Respond(cfg, TakeAll(cfg, es))
  }

  /** The accumulators of `buildResponseJSON`, updated event by event. */
  class Builder {
    const cfg: Config
    var output: seq<Item>
    var text: Str
    var textPhase: Option<Phase>
    var summary: Str
    var raw: Str
    var signature: Option<Str>
    var redacted: seq<Str>
    var callId: Str
    var callName: Str
    var callArgs: Str
    var sources: seq<Source>
    var compactionText: Str
    var failed: Option<Event>
    var cut: Option<Event>
    var endTurn: Option<bool>
    var stop: Option<Stop>
    var cleanDone: bool
    var nextId: nat

    ghost function State(): Batch
      reads this
    {
      Batch(output, text, textPhase, summary, raw, signature, redacted, callId, callName, callArgs, sources,
            compactionText, failed, cut, endTurn, stop, cleanDone, nextId)
    }

    constructor (cfg: Config)
      ensures State() == Start() && this.cfg == cfg
    {
      this.cfg := cfg;
      output, text, textPhase, summary, raw, signature, redacted := [], [], None, [], [], None, [];
      callId, callName, callArgs, sources, compactionText := [], [], [], [], [];
      failed, cut, endTurn, stop, cleanDone, nextId := None, None, None, None, false, 0;
    }

    method Add(item: Item)
      modifies this
      ensures State() == Push(old(State()), item)
    {
      output := output + [item];
      nextId := nextId + 1;
    }

    method FlushTextNow(inferred: Option<Phase>)
      modifies this
      ensures State() == FlushText(old(State()), inferred)
    {
      if text != [] {
        var phase := if textPhase.Some? then textPhase else inferred;
        var annotations := Citations(sources);
        sources := [];
        Add(Message(nextId, text, annotations, phase));
        text, textPhase := [], None;
      }
    }

    method FlushSummaryNow()
      modifies this
      ensures State() == FlushSummary(cfg, old(State()))
    {
      if summary == [] && Truthy(signature).None? && redacted == [] { return; }
      var sealed := Truthy(signature).Some? || redacted != [];
      var hidden := if cfg.hide && summary != [] && sealed then Some(summary) else None;
      var envelope := if sealed then Some(Envelope(Truthy(signature), redacted, hidden)) else None;
      signature, redacted := None, [];
      var visible := if !cfg.hide && summary != [] then [summary] else [];
      summary := [];
      if cfg.hide && envelope.None? { return; }
      Add(Reasoning(nextId, visible, None, envelope));
    }

    method FlushRawNow()
      modifies this
      ensures State() == FlushRaw(cfg, old(State()))
    {
      if raw == [] { return; }
      if cfg.hide {
        Add(Reasoning(nextId, [], None, Some(Envelope(None, [], Some(raw)))));
      } else {
        Add(Reasoning(nextId, [], Some([raw]), None));
      }
      raw := [];
    }

    method FlushCallNow()
      modifies this
      ensures State() == FlushCall(cfg, old(State()))
    {
      if callId == [] { return; }
      var target := RealName(cfg, callName);
      Add(ToolItem(cfg, nextId, KindOf(cfg, target), callId, target, callArgs, NamespaceOf(cfg, callName)));
      callId, callName, callArgs := [], [], [];
    }

    /** The flushes a tool call, a search result and a text delta have in common. */
    method FlushOthers()
      modifies this
      ensures State() == FlushCall(cfg, FlushRaw(cfg, FlushOpenSummary(cfg, old(State()))))
    {
      hide FlushText, FlushSummary, FlushRaw, FlushCall;
      if summary != [] { FlushSummaryNow(); }
      FlushRawNow();
      FlushCallNow();
    }

    method OnText(more: Str, phase: Option<Phase>)
      modifies this
      ensures State() == TakeText(cfg, old(State()), more, phase)
    {
      hide FlushText, FlushSummary, FlushOpenSummary, FlushRaw, FlushCall;
      if text != [] && phase.Some? && textPhase != phase { FlushTextNow(Some(Commentary)); }
      FlushOthers();
      if cfg.compaction {
        compactionText := compactionText + more;
      } else {
        if phase.Some? { textPhase := phase; }
        text := text + more;
      }
    }

    method OnSearchEnd(queries: seq<Str>, status: Option<SearchStatus>, found: Option<seq<Source>>)
      modifies this
      ensures State() == TakeSearchEnd(cfg, old(State()), queries, status, found)
    {
      hide FlushText, FlushSummary, FlushOpenSummary, FlushRaw, FlushCall;
      FlushTextNow(Some(Commentary));
      FlushOthers();
      var final := if status.Some? then status.value else SearchCompleted;
      Add(WebSearch(nextId, final, Some(SearchAction(queries)), SourcesOf(found)));
      if found.Some? { sources := MergeSources(sources, found.value); }
    }

    method OnBoundary()
      modifies this
      ensures State() == Take(cfg, old(State()), Boundary)
    {
      hide FlushText, FlushSummary, FlushOpenSummary, FlushRaw, FlushCall, TakeText, TakeSearchEnd;
      FlushTextNow(Some(Commentary));
      FlushSummaryNow();
      FlushRawNow();
      FlushCallNow();
    }

    method OnThinking(more: Str)
      modifies this
      ensures State() == Take(cfg, old(State()), ThinkingDelta(more))
    {
      hide FlushText, FlushSummary, FlushOpenSummary, FlushRaw, FlushCall, TakeText, TakeSearchEnd;
      FlushTextNow(Some(Commentary));
      FlushRawNow();
      FlushCallNow();
      summary := summary + more;
    }

    method OnToolStart(id: Str, name: Str)
      modifies this
      ensures State() == Take(cfg, old(State()), ToolStart(id, name))
    {
      hide FlushText, FlushSummary, FlushOpenSummary, FlushRaw, FlushCall, TakeText, TakeSearchEnd;
      FlushTextNow(Some(Commentary));
      FlushOthers();
      callId, callName, callArgs := id, name, [];
    }

    method OnDone(reason: Option<Stop>, turn: Option<bool>)
      modifies this
      ensures State() == TakeDone(old(State()), reason, turn)
    {
      endTurn, cleanDone := turn, reason.None?;
      if reason == Some(MaxTokens) || reason == Some(Filtered) { stop := reason; }
    }

    method OnRedacted(data: Str)
      modifies this
      ensures State() == old(State()).(redacted := old(redacted) + [data])
    {
      redacted := redacted + [data];
    }

    method OnToolDelta(more: Str)
      modifies this
      ensures State() == old(State()).(callArgs := old(callArgs) + more)
    {
      callArgs := callArgs + more;
    }

    method OnError(e: Event)
      modifies this
      ensures State() == old(State()).(failed := Some(e))
    {
      failed := Some(e);
    }

    method OnIncomplete(e: Event, turn: Option<bool>)
      modifies this
      ensures State() == old(State()).(cut := Some(e), endTurn := turn)
    {
      cut, endTurn := Some(e), turn;
    }

    method OnSignature(sig: Str)
      modifies this
      ensures State() == FlushSummary(cfg, old(State()).(signature := Some(sig)))
    {
      hide FlushSummary;
      signature := Some(sig);
      FlushSummaryNow();
    }

    method OnEvent(e: Event)
      modifies this
      ensures State() == Take(cfg, old(State()), e)
    {
      hide Settle, FlushText, FlushSummary, FlushOpenSummary, FlushRaw, FlushCall, TakeText, TakeSearchEnd, TakeDone;
      match e {
        case Heartbeat =>
        case Boundary => OnBoundary();
        case TextDelta(more, phase) => OnText(more, phase);
        case ThinkingDelta(more) => OnThinking(more);
        case ThinkingSignature(sig) => OnSignature(sig);
        case RawDelta(more) => OnRaw(more);
        case ToolStart(id, name) => OnToolStart(id, name);
        case ToolEnd => FlushCallNow();
        case SearchBegin(_) =>
        case SearchEnd(_, queries, status, found) => OnSearchEnd(queries, status, found);
        case Done(reason, turn) => OnDone(reason, turn);
        case RedactedThinking(data) => OnRedacted(data);
        case ToolDelta(more) => OnToolDelta(more);
        case Error(_, _) => OnError(e);
        case Incomplete(_, _, _, turn) => OnIncomplete(e, turn);
      }
    }

    method OnRaw(more: Str)
      modifies this
      ensures State() == Take(cfg, old(State()), RawDelta(more))
    {
      hide FlushText, FlushSummary, FlushRaw, FlushCall, TakeText, TakeSearchEnd;
      FlushTextNow(Some(Commentary));
      if summary != [] { FlushSummaryNow(); }
      FlushCallNow();
      raw := raw + more;
    }

    /** `buildResponseJSON` itself. */
    method Build(es: seq<Event>) returns (r: Response)
      requires State() == Start()
      modifies this
      ensures r == BuildResponse(cfg, es)
    {
      hide Take, FlushText, FlushSummary, FlushRaw, FlushCall;
      for i := 0 to |es|
        invariant State() == TakeAll(cfg, es[..i])
      {
        assert es[..i + 1][..i] == es[..i];
        OnEvent(es[i]);
      }
      assert es[..|es|] == es;
      FlushTextNow(if cleanDone && failed.None? && cut.None? then Some(FinalAnswer) else None);
      FlushSummaryNow();
      FlushRawNow();
      FlushCallNow();
      if cfg.compaction && failed.None? && cut.None? && StatusOf(stop) == Completed {
        Add(Compaction(nextId, compactionText));
      }
      var status := if failed.Some? then Failed
                    else if cut.Some? || StatusOf(stop) == IncompleteStatus then IncompleteStatus else Completed;
      var failure := if failed.Some? && failed.value.Error?
                     then FailedWith(failed.value.failure, failed.value.retryable) else NoDetail;
      var details := if cut.Some? && cut.value.Incomplete?
                     then Reported(cut.value.reason, Truthy(cut.value.message), cut.value.retryable) else DetailOf(stop);
      r := Response(status, failure, details, endTurn, output);
    }
  }
}
