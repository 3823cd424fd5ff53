/**
 * Web citations in the stream: the sources of finished searches wait for the next message, and
 * every one of them goes into exactly one message.
 */
module BridgeCitations {
  import opened Prelude
  import opened BridgeTypes
  import opened BridgeCore

  function AnnotationsOf(item: Item): seq<Source> {
    if item.Message? then item.annotations else []
  }

  /** The annotations of all messages, in order. */
  function Annotated(items: seq<Item>): seq<Source> {
    if items == [] then [] else Annotated(items[..|items| - 1]) + AnnotationsOf(items[|items| - 1])
  }

  lemma AnnotatedSnoc(items: seq<Item>, item: Item)
    ensures Annotated(items + [item]) == Annotated(items) + AnnotationsOf(item)
  {
    assert (items + [item])[..|items|] == items;
  }

  predicate UniqueUrls(sources: seq<Source>) {
    forall i, j :: 0 <= i < j < |sources| ==> sources[i].url != sources[j].url
  }

  predicate AllUnique(items: seq<Item>) {
    forall n :: 0 <= n < |items| ==> UniqueUrls(AnnotationsOf(items[n]))
  }

  lemma UniqueSnoc(items: seq<Item>, item: Item)
    requires AllUnique(items) && UniqueUrls(AnnotationsOf(item))
    ensures AllUnique(items + [item])
  {
    hide UniqueUrls;
  }

  /** Cited or waiting to be. */
  function Due(c: Core): seq<Source> {
    Annotated(c.finished) + Citations(c.sources)
  }

  /** No message, nor the next one, cites a URL twice. */
  predicate Clear(c: Core) {
    AllUnique(c.finished) && UniqueUrls(c.sources)
  }

  /** The state changed without touching citations. */
  predicate SameDue(c: Core, d: Core) {
    Due(d) == Due(c) && (Clear(c) ==> Clear(d))
  }

  lemma Appended(c: Core, d: Core, item: Item)
    requires d.finished == c.finished + [item] && !item.Message? && d.sources == c.sources
    ensures SameDue(c, d)
  {
    hide Annotated, UniqueUrls, AllUnique;
    AnnotatedSnoc(c.finished, item);
    if AllUnique(c.finished) {
      assert UniqueUrls(AnnotationsOf(item)) by { NothingTwice(); }
      UniqueSnoc(c.finished, item);
    }
  }

  lemma NothingTwice()
    ensures UniqueUrls([])
  {
  }

  lemma Untouched(c: Core, d: Core)
    requires d.finished == c.finished && d.sources == c.sources
    ensures SameDue(c, d)
  {
  }

  /** Closing a message hands it everything that waits. */
  lemma CloseMessageDue(c: Core, inferred: Option<Phase>)
    ensures SameDue(c, CloseMessage(c, inferred))
    ensures c.msg.Some? ==> var d := CloseMessage(c, inferred);
      d.sources == [] && d.finished[|c.finished|].annotations == Citations(c.sources)
  {
    hide Annotated, UniqueUrls, AllUnique;
    if c.msg.Some? {
      var m := c.msg.value;
      var item := Message(m.id, m.text, Citations(c.sources), if m.phase.Some? then m.phase else inferred);
      AnnotatedSnoc(c.finished, item);
      assert Citations([]) == [];
      NothingTwice();
      if Clear(c) {
        CitedUnique(c.sources);
        UniqueSnoc(c.finished, item);
      }
    }
  }

  lemma CitedUnique(sources: seq<Source>)
    requires UniqueUrls(sources)
    ensures UniqueUrls(Citations(sources))
  {
  }

  lemma ClosersDue(cfg: Config, c: Core)
    ensures SameDue(c, CloseReasoning(c)) && SameDue(c, CloseRaw(c)) && SameDue(c, CloseTool(cfg, c))
    ensures SameDue(c, FlushEnvelope(c)) && SameDue(c, FlushHiddenRaw(c))
  {
    CloseReasoningDue(c);
    CloseRawDue(c);
    CloseToolDue(cfg, c);
    FlushesDue(c);
  }

  lemma CloseReasoningDue(c: Core)
    ensures SameDue(c, CloseReasoning(c))
  {
    hide SameDue;
    var d := CloseReasoning(c);
    if c.reasoning.Some? {
      Appended(c, d, Reasoning(c.reasoning.value.id, [c.reasoning.value.text], None, PendingEnvelope(c, None)));
    } else {
      Untouched(c, d);
    }
  }

  lemma CloseRawDue(c: Core)
    ensures SameDue(c, CloseRaw(c))
  {
    hide SameDue;
    if c.raw.Some? {
      Appended(c, CloseRaw(c), Reasoning(c.raw.value.id, [], Some([c.raw.value.text]), None));
    } else {
      Untouched(c, CloseRaw(c));
    }
  }

  lemma CloseToolDue(cfg: Config, c: Core)
    ensures SameDue(c, CloseTool(cfg, c))
  {
    hide SameDue;
    if c.tool.Some? {
      var t := c.tool.value;
      Appended(c, CloseTool(cfg, c), ToolItem(cfg, t.id, t.kind, t.callId, t.name, t.args, t.namespace));
    } else {
      Untouched(c, CloseTool(cfg, c));
    }
  }

  lemma FlushesDue(c: Core)
    ensures SameDue(c, FlushEnvelope(c)) && SameDue(c, FlushHiddenRaw(c))
  {
    hide SameDue;
    var d, e := FlushEnvelope(c), FlushHiddenRaw(c);
    if HasEnvelope(c) {
      Appended(c, d, Reasoning(c.nextId, [], None, PendingEnvelope(c, Truthy(Some(c.hiddenThinking)))));
    } else {
      Untouched(c, d);
    }
    if c.hiddenRaw != [] {
      Appended(c, e, Reasoning(c.nextId, [], None, Some(Envelope(None, [], Some(c.hiddenRaw)))));
    } else {
      Untouched(c, e);
    }
  }

  lemma CloseSearchDue(c: Core, status: SearchStatus, queries: seq<Str>, sources: Option<seq<Source>>)
    ensures SameDue(c, CloseSearch(c, status, queries, sources)) && CloseSearch(c, status, queries, sources).sources == c.sources
  {
    hide SameDue;
    if c.search.Some? {
      Appended(c, CloseSearch(c, status, queries, sources), WebSearch(c.search.value.id, status, Some(SearchAction(queries)), SourcesOf(sources)));
    } else {
      Untouched(c, CloseSearch(c, status, queries, sources));
    }
  }

  lemma CloseVisibleDue(cfg: Config, c: Core, inferred: Option<Phase>)
    ensures SameDue(c, CloseVisible(cfg, c, inferred))
  {
    hide Due, Clear, CloseMessage, CloseReasoning, CloseRaw, FlushHiddenRaw, CloseTool, FlushEnvelope;
    var c1 := CloseMessage(c, inferred);
    var c2 := CloseReasoning(c1);
    var c3 := CloseRaw(c2);
    CloseMessageDue(c, inferred);
    ClosersDue(cfg, c1);
    ClosersDue(cfg, c2);
    ClosersDue(cfg, c3);
    ClosersDue(cfg, FlushHiddenRaw(c3));
  }

  lemma CloseAllDue(cfg: Config, c: Core, inferred: Option<Phase>, search: SearchStatus)
    ensures SameDue(c, CloseAll(cfg, c, inferred, search))
  {
    hide Due, Clear, CloseVisible, CloseSearch;
    CloseVisibleDue(cfg, c, inferred);
    CloseSearchDue(CloseVisible(cfg, c, inferred), search, [], None);
  }

  lemma TextDue(cfg: Config, c: Core, text: Str, phase: Option<Phase>)
    ensures SameDue(c, OnText(cfg, c, text, phase))
  {
    hide Due, Clear, CloseMessage, CloseReasoning, CloseRaw, FlushHiddenRaw, CloseTool, FlushEnvelope, StartMessage, AppendText;
    var c1 := CloseReasoning(c);
    var c2 := CloseRaw(c1);
    var c3 := FlushHiddenRaw(c2);
    var c4 := CloseTool(cfg, c3);
    ClosersDue(cfg, c);
    ClosersDue(cfg, c1);
    ClosersDue(cfg, c2);
    ClosersDue(cfg, c3);
    CloseMessageDue(c4, Some(Commentary));
    var c5 := MessageFor(c4, phase);
    Untouched(if c4.msg.Some? && phase.Some? && c4.msg.value.phase != phase then CloseMessage(c4, Some(Commentary)) else c4, c5);
    Untouched(c5, AppendText(c5, text));
  }

  lemma ThinkingDue(cfg: Config, c: Core, text: Str)
    ensures SameDue(c, OnThinking(cfg, c, text))
  {
    hide Due, Clear, CloseMessage, CloseReasoning, CloseRaw, FlushHiddenRaw, CloseTool, FlushEnvelope, StartReasoning, AppendThinking;
    if cfg.hide {
      Untouched(c, OnThinking(cfg, c, text));
    } else {
      var c1 := CloseMessage(c, Some(Commentary));
      var c2 := CloseRaw(c1);
      var c3 := FlushHiddenRaw(c2);
      CloseMessageDue(c, Some(Commentary));
      ClosersDue(cfg, c1);
      ClosersDue(cfg, c2);
      ClosersDue(cfg, c3);
      Untouched(CloseTool(cfg, c3), OnThinking(cfg, c, text));
    }
  }

  lemma RawDue(cfg: Config, c: Core, text: Str)
    ensures SameDue(c, OnRaw(cfg, c, text))
  {
    hide Due, Clear, CloseMessage, CloseReasoning, CloseRaw, FlushHiddenRaw, CloseTool, FlushEnvelope, StartRaw, AppendRaw;
    if cfg.hide {
      Untouched(c, OnRaw(cfg, c, text));
    } else {
      var c1 := CloseMessage(c, Some(Commentary));
      var c2 := CloseReasoning(c1);
      CloseMessageDue(c, Some(Commentary));
      ClosersDue(cfg, c1);
      ClosersDue(cfg, c2);
      Untouched(CloseTool(cfg, c2), OnRaw(cfg, c, text));
    }
  }

  // ---------------------------------------------------------------------------
  // The sources of a search
  // ---------------------------------------------------------------------------

  predicate Names(sources: seq<Source>, url: Str) {
    exists i :: 0 <= i < |sources| && sources[i].url == url
  }

  /** Merging appends: nothing waiting is dropped, no URL is doubled, and every URL offered is there. */
  lemma {:induction false} MergeAppends(pending: seq<Source>, more: seq<Source>)
    ensures var r := MergeSources(pending, more);
      && pending <= r && (UniqueUrls(pending) ==> UniqueUrls(r))
      && forall url :: Names(r, url) <==> Names(pending, url) || Names(more, url)
    decreases |more|
  {
    if more != [] {
      var known := Names(pending, more[0].url);
      var next := if known then pending else pending + [more[0]];
      MergeAppends(next, more[1..]);
      assert MergeSources(pending, more) == MergeSources(next, more[1..]);
      forall url ensures Names(next, url) || Names(more[1..], url) <==> Names(pending, url) || Names(more, url) {
        NamesSnoc(pending, more[0], url);
        NamesCons(more, url);
      }
    } else {
      assert forall url :: !Names(more, url);
    }
  }

  lemma NamesSnoc(sources: seq<Source>, s: Source, url: Str)
    ensures Names(sources + [s], url) <==> Names(sources, url) || s.url == url
  {
    var all := sources + [s];
    if Names(sources, url) {
      var i :| 0 <= i < |sources| && sources[i].url == url;
      assert all[i].url == url;
    }
    if s.url == url { assert all[|sources|].url == url; }
  }

  lemma NamesCons(sources: seq<Source>, url: Str)
    requires sources != []
    ensures Names(sources, url) <==> sources[0].url == url || Names(sources[1..], url)
  {
    if Names(sources, url) && sources[0].url != url {
      var i :| 0 <= i < |sources| && sources[i].url == url;
      assert sources[1..][i - 1].url == url;
    }
    if Names(sources[1..], url) {
      var i :| 0 <= i < |sources| - 1 && sources[1..][i].url == url;
      assert sources[i + 1].url == url;
    }
  }

  /** The sources an input adds to the waiting ones. */
  function Fresh(cfg: Config, c: Core, i: Input): seq<Source> {
    if !i.Next? || !i.event.SearchEnd? || cfg.compaction then []
    else
      MergeAppends(c.sources, SourcesOf(i.event.sources));
      MergeSources(c.sources, SourcesOf(i.event.sources))[|c.sources|..]
  }

  /** Closing a search, or opening and closing one, changes no citation. */
  lemma SearchCloses(c: Core, e: Event)
    requires e.SearchEnd?
    ensures var c1 := if c.search.Some? && c.search.value.eventId == e.id then c
                      else StartSearch(CloseSearch(c, SearchCompleted, [], None), e.id);
      var c2 := CloseSearch(c1, if e.status.Some? then e.status.value else SearchCompleted, e.queries, e.sources);
      SameDue(c, c2) && c2.sources == c.sources
  {
    hide Due, Clear, CloseSearch, StartSearch, SearchAction;
    CloseSearchDue(c, SearchCompleted, [], None);
    var c0 := CloseSearch(c, SearchCompleted, [], None);
    var c1 := if c.search.Some? && c.search.value.eventId == e.id then c else StartSearch(c0, e.id);
    Untouched(c0, StartSearch(c0, e.id));
    CloseSearchDue(c1, if e.status.Some? then e.status.value else SearchCompleted, e.queries, e.sources);
  }

  /** Merged sources wait behind the ones that waited before. */
  lemma Merged(c: Core, more: seq<Source>)
    ensures var d := c.(sources := MergeSources(c.sources, more));
      && c.sources <= d.sources && Due(d) == Due(c) + Citations(d.sources[|c.sources|..]) && (Clear(c) ==> Clear(d))
  {
    hide Annotated, UniqueUrls, AllUnique, MergeSources;
    MergeAppends(c.sources, more);
    CitationsSplit(c.sources, MergeSources(c.sources, more));
  }

  lemma SearchEndDue(cfg: Config, c: Core, e: Event)
    requires e.SearchEnd? && !cfg.compaction
    ensures Due(Handle(cfg, c, e)) == Due(c) + Citations(Fresh(cfg, c, Next(e))) && (Clear(c) ==> Clear(Handle(cfg, c, e)))
  {
    hide Due, Clear, CloseSearch, StartSearch, MergeSources, SearchAction, Citations;
    SearchCloses(c, e);
    var c1 := if c.search.Some? && c.search.value.eventId == e.id then c
              else StartSearch(CloseSearch(c, SearchCompleted, [], None), e.id);
    Merged(CloseSearch(c1, if e.status.Some? then e.status.value else SearchCompleted, e.queries, e.sources), SourcesOf(e.sources));
  }

  lemma CitationsSplit(pending: seq<Source>, all: seq<Source>)
    requires pending <= all
    ensures Citations(all) == Citations(pending) + Citations(all[|pending|..])
  {
  }

  // ---------------------------------------------------------------------------
  // Runs
  // ---------------------------------------------------------------------------

  lemma AdvanceDue(cfg: Config, c: Core, i: Input)
    ensures var d := Advance(cfg, c, i);
      Due(d) == Due(c) + Citations(Fresh(cfg, c, i)) && (Clear(c) ==> Clear(d))
  {
    assert Citations([]) == [];
    if i.Next? && i.event.SearchEnd? && !cfg.compaction {
      SearchEndDue(cfg, c, i.event);
    } else if i.Next? && !i.event.IsTerminal() {
      EventDue(cfg, c, i.event);
      hide Due, Clear, Handle;
    } else {
      EndingDue(cfg, c, i);
      hide Due, Clear, Handle, OnEof, OnStall, OnThrow;
    }
  }

  lemma EventDue(cfg: Config, c: Core, e: Event)
    requires !e.IsTerminal() && (e.SearchEnd? ==> cfg.compaction)
    ensures SameDue(c, Handle(cfg, c, e))
  {
    hide Due, Clear, OnText, OnThinking, OnRaw, OnToolDelta, OnBoundary, OnSearchBegin, OnSearchEnd, CloseContent, CloseVisible, CloseTool, FlushEnvelope, CloseSearch;
    var r := Handle(cfg, c, e);
    if cfg.compaction {
      Untouched(c, r);
    } else {
      match e {
        case TextDelta(text, phase) => TextDue(cfg, c, text, phase);
        case ThinkingDelta(text) => ThinkingDue(cfg, c, text);
        case ThinkingSignature(sig) => SignatureDue(cfg, c, sig);
        case RawDelta(text) => RawDue(cfg, c, text);
        case ToolStart(id, name) => BeginsDue(cfg, c, e);
        case ToolEnd => ClosersDue(cfg, c);
        case Boundary => BeginsDue(cfg, c, e);
        case SearchBegin(_) => BeginsDue(cfg, c, e);
        case ToolDelta(more) => ToolDeltaDue(c, more);
        case _ => Untouched(c, r);
      }
    }
  }

  lemma ToolDeltaDue(c: Core, more: Str)
    ensures SameDue(c, OnToolDelta(c, more))
  {
    hide SameDue;
    Untouched(c, OnToolDelta(c, more));
  }

  lemma SignatureDue(cfg: Config, c: Core, sig: Str)
    ensures SameDue(c, OnSignature(c, sig))
  {
    hide Due, Clear, FlushEnvelope, CloseReasoning, CloseRaw, CloseTool, FlushHiddenRaw;
    var c1 := c.(signature := Some(sig));
    Untouched(c, c1);
    ClosersDue(cfg, c1);
  }

  lemma BeginsDue(cfg: Config, c: Core, e: Event)
    requires !cfg.compaction && (e.ToolStart? || e.Boundary? || e.SearchBegin?)
    ensures SameDue(c, Handle(cfg, c, e))
  {
    hide Due, Clear, CloseVisible, FlushEnvelope, CloseSearch, CloseReasoning, CloseRaw, CloseTool, FlushHiddenRaw;
    CloseVisibleDue(cfg, c, Some(Commentary));
    var c1 := CloseContent(cfg, c);
    if e.ToolStart? {
      Untouched(c1, Handle(cfg, c, e));
    } else if e.Boundary? {
      ClosersDue(cfg, c1);
    } else {
      CloseSearchDue(c1, SearchCompleted, [], None);
      Untouched(CloseSearch(c1, SearchCompleted, [], None), Handle(cfg, c, e));
    }
  }

  lemma EndingDue(cfg: Config, c: Core, i: Input)
    requires Ends(i)
    ensures SameDue(c, Advance(cfg, c, i))
  {
    hide Due, Clear, CloseAll, CloseSearch, FlushHiddenRaw, FlushEnvelope, CompactionItem, CloseReasoning, CloseRaw, CloseTool;
    var r := Advance(cfg, c, i);
    if i.Throw? {
      ClosersDue(cfg, c);
      CloseSearchDue(FlushHiddenRaw(c), SearchFailed, [], None);
      Untouched(CloseSearch(FlushHiddenRaw(c), SearchFailed, [], None), r);
    } else if i.Next? && i.event.Done? {
      DoneDue(cfg, c, i.event.stop, i.event.endTurn);
    } else {
      var c1 := CloseAll(cfg, c, None, SearchFailed);
      CloseAllDue(cfg, c, None, SearchFailed);
      ClosersDue(cfg, c1);
      Untouched(if i.Next? && i.event.Incomplete? then FlushEnvelope(c1) else c1, r);
    }
  }

  lemma DoneDue(cfg: Config, c: Core, stop: Option<Stop>, endTurn: Option<bool>)
    ensures SameDue(c, OnDone(cfg, c, stop, endTurn))
  {
    hide Due, Clear, CloseAll, FlushEnvelope, CloseReasoning, CloseRaw, CloseTool, FlushHiddenRaw;
    var c1 := CloseAll(cfg, c, InferredFinal(stop), SearchCompleted);
    var c2 := FlushEnvelope(c1);
    CloseAllDue(cfg, c, InferredFinal(stop), SearchCompleted);
    ClosersDue(cfg, c1);
    if cfg.compaction {
      Appended(c2, CompactionItem(c2), Compaction(c2.nextId, c2.compactionText));
      Untouched(CompactionItem(c2), OnDone(cfg, c, stop, endTurn));
    } else {
      Untouched(c2, OnDone(cfg, c, stop, endTurn));
    }
  }

  /** All sources a run added. */
  function FreshAll(cfg: Config, inputs: seq<Input>): seq<Source> {
    if inputs == [] then []
    else
      var before := inputs[..|inputs| - 1];
      FreshAll(cfg, before) + Fresh(cfg, Run(cfg, before), inputs[|inputs| - 1])
  }

  /** Each annotation is its source: the same URL, and the same title unless that is absent or empty. */
  predicate CiteThe(annotations: seq<Source>, sources: seq<Source>) {
    && |annotations| == |sources|
    && forall n :: 0 <= n < |sources| ==>
         annotations[n] == Source(sources[n].url, if sources[n].title == Some([]) then None else sources[n].title)
  }

  lemma CitationsCite(cited: seq<Source>, waiting: seq<Source>, sources: seq<Source>)
    requires cited + Citations(waiting) == Citations(sources)
    ensures |cited| <= |sources| && CiteThe(cited, sources[..|cited|])
  {
    assert forall n :: 0 <= n < |cited| ==> cited[n] == (cited + Citations(waiting))[n];
  }

  /**
   * For every run and all options: the annotations of all messages, followed by those still waiting,
   * are the citations of the sources that came in, in order, each once; and no message cites a URL
   * twice.
   */
  lemma {:induction false} CitationsAreConserved(cfg: Config, inputs: seq<Input>)
    ensures Annotated(Run(cfg, inputs).finished) + Citations(Run(cfg, inputs).sources) == Citations(FreshAll(cfg, inputs))
    ensures Clear(Run(cfg, inputs))
    ensures var cited, sources := Annotated(Run(cfg, inputs).finished), FreshAll(cfg, inputs);
      |cited| <= |sources| && CiteThe(cited, sources[..|cited|])
  {
    if inputs != [] {
      var before, last := inputs[..|inputs| - 1], inputs[|inputs| - 1];
      CitationsAreConserved(cfg, before);
      var c := Run(cfg, before);
      AdvanceDue(cfg, c, last);
      var added := Fresh(cfg, c, last);
      hide Advance, Annotated, Clear, Fresh;
      CitationsSplit(FreshAll(cfg, before), FreshAll(cfg, before) + added);
      assert (FreshAll(cfg, before) + added)[|FreshAll(cfg, before)|..] == added;
    }
    hide Advance, Clear, Citations, CiteThe;
    CitationsCite(Annotated(Run(cfg, inputs).finished), Run(cfg, inputs).sources, FreshAll(cfg, inputs));
  }
}
