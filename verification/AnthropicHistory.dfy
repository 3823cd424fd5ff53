/**
 * Building the Anthropic message list (src/adapters/anthropic.ts): an arbitrary history becomes
 * one in which every tool_use is answered in the very next message.
 */
module AnthropicHistory {
  import opened Prelude

  datatype Part = TextPart(text: Str) | ImagePart(url: Str)
  datatype Content = Plain(text: Str) | Parts(parts: seq<Part>)

  datatype AssistantPart =
    | Said(text: Str)
    | Thought(thinking: Str, signature: Option<Str>, redacted: seq<Str>)
    | Call(id: Str, name: Str, arguments: Str)

  datatype Result = Result(callId: Str, toolName: Str, content: Content, isError: bool)

  /** One history message; developer messages are treated as user messages. */
  datatype Msg = User(content: Content) | Assistant(parts: seq<AssistantPart>) | ToolMsg(result: Result)

  /** The body of a tool_result block: a rendered result, or the note that there was none. */
  datatype Body = Rendered(result: Result) | Missing

  datatype Block =
    | Text(text: Str)
    | Image(url: Str)
    | Thinking(thinking: Str, signature: Str)
    | Redacted(data: Str)
    | ToolUse(id: Str, name: Str, input: Str)
    | ToolResult(id: Str, body: Body)
    | OrphanNote(result: Result)

  datatype WireContent = PlainText(text: Str) | Blocks(blocks: seq<Block>) | OrphanText(result: Result)
  datatype WireMsg = WireUser(content: WireContent) | WireAssistant(blocks: seq<Block>)

  /** Wire names and the plausibility test for thinking signatures are not part of this model. */
  datatype Env = Env(wireName: Str -> Str, realSignature: Str -> bool)

  /** "(empty)", "(empty tool output)" and "(continue)" */
  const EMPTY_TEXT: Str := [40, 101, 109, 112, 116, 121, 41]
  const EMPTY_OUTPUT: Str := [40, 101, 109, 112, 116, 121, 32, 116, 111, 111, 108, 32, 111, 117, 116, 112, 117, 116, 41]
  const CONTINUE: Str := [40, 99, 111, 110, 116, 105, 110, 117, 101, 41]

  /** The note for a call whose result is not in the history. */
  const MISSING_RESULT: Str :=
    [91, 109, 105, 115, 115, 105, 110, 103, 32, 116, 111, 111, 108, 95, 114, 101, 115, 117, 108, 116, 32,
     102, 111, 114, 32, 116, 104, 105, 115, 32, 116, 111, 111, 108, 95, 117, 115, 101, 32, 105, 110, 32,
     104, 105, 115, 116, 111, 114, 121, 93]

  /** Content parts without the empty text parts the upstream rejects. */
  function PartBlocks(parts: seq<Part>): (r: seq<Block>)
    ensures forall b :: b in r ==> b.Image? || (b.Text? && b.text != [])
  {
    if parts == [] then []
    else
      var rest := PartBlocks(parts[1..]);
      match parts[0]
      case TextPart(text) => if text == [] then rest else [Text(text)] + rest
      case ImagePart(url) => [Image(url)] + rest
  }

  /** Message content, or the stand-in when nothing is left of it. */
  function ContentOr(c: Content, standIn: Str): WireContent {
    match c
    case Plain(text) => PlainText(if text == [] then standIn else text)
    case Parts(parts) => var r := PartBlocks(parts); if r == [] then PlainText(standIn) else Blocks(r)
  }

  function RedactedBlocks(data: seq<Str>): (r: seq<Block>)
    ensures forall b :: b in r ==> b.Redacted?
  {
    if data == [] then [] else [Redacted(data[0])] + RedactedBlocks(data[1..])
  }

  function AssistantBlock(env: Env, p: AssistantPart): seq<Block> {
    match p
    case Said(text) => if text == [] then [] else [Text(text)]
    case Thought(thinking, signature, redacted) =>
      RedactedBlocks(redacted) +
      (if signature.Some? && env.realSignature(signature.value) then [Thinking(thinking, signature.value)] else [])
    case Call(id, name, arguments) => [ToolUse(id, env.wireName(name), arguments)]
  }

  function AssistantBlocks(env: Env, parts: seq<AssistantPart>): seq<Block> {
    if parts == [] then [] else AssistantBlock(env, parts[0]) + AssistantBlocks(env, parts[1..])
  }

  /** The ids of the calls an assistant message makes, in order. */
  function CallIds(parts: seq<AssistantPart>): seq<Str> {
    if parts == [] then []
    else (if parts[0].Call? then [parts[0].id] else []) + CallIds(parts[1..])
  }

  /** The tool results that directly follow. */
  function ResultRun(msgs: seq<Msg>): (r: seq<Result>)
    ensures |r| <= |msgs|
    ensures forall i :: 0 <= i < |r| ==> msgs[i] == ToolMsg(r[i])
    ensures |r| < |msgs| ==> !msgs[|r|].ToolMsg?
  {
    if msgs == [] || !msgs[0].ToolMsg? then [] else [msgs[0].result] + ResultRun(msgs[1..])
  }

  /** The first result for each required id becomes a block; `seen` holds the ids already answered. */
  function AnswerBlocks(run: seq<Result>, ids: seq<Str>, seen: set<Str>): seq<Block> {
    if run == [] then []
    else
      var r := run[0];
      if r.callId in ids && r.callId !in seen then
        [ToolResult(r.callId, Rendered(r))] + AnswerBlocks(run[1..], ids, seen + {r.callId})
      else AnswerBlocks(run[1..], ids, seen)
  }

  function OrphanBlocks(run: seq<Result>, ids: seq<Str>, seen: set<Str>): seq<Block> {
    if run == [] then []
    else
      var r := run[0];
      if r.callId in ids && r.callId !in seen then OrphanBlocks(run[1..], ids, seen + {r.callId})
      else [OrphanNote(r)] + OrphanBlocks(run[1..], ids, seen)
  }

  predicate Answered(run: seq<Result>, id: Str) {
    exists i :: 0 <= i < |run| && run[i].callId == id
  }

  function MissingBlocks(ids: seq<Str>, run: seq<Result>): seq<Block> {
    if ids == [] then []
    else (if Answered(run, ids[0]) then [] else [ToolResult(ids[0], Missing)]) + MissingBlocks(ids[1..], run)
  }

  function ResultMessage(ids: seq<Str>, run: seq<Result>): WireMsg {
    WireUser(Blocks(AnswerBlocks(run, ids, {}) + MissingBlocks(ids, run) + OrphanBlocks(run, ids, {})))
  }

  function Convert(env: Env, msgs: seq<Msg>): seq<WireMsg>
    decreases |msgs|
  {
    if msgs == [] then []
    else
      match msgs[0]
      case User(content) => [WireUser(ContentOr(content, EMPTY_TEXT))] + Convert(env, msgs[1..])
      case ToolMsg(r) => [WireUser(OrphanText(r))] + Convert(env, msgs[1..])
      case Assistant(parts) =>
        var blocks, ids := AssistantBlocks(env, parts), CallIds(parts);
        if blocks == [] then Convert(env, msgs[1..])
        else if ids == [] then [WireAssistant(blocks)] + Convert(env, msgs[1..])
        else
          var run := ResultRun(msgs[1..]);
          [WireAssistant(blocks), ResultMessage(ids, run)] + Convert(env, msgs[1 + |run|..])
  }

  /** `messagesToAnthropicFormat`: the converted history, ended by a user message. */
  function Format(env: Env, msgs: seq<Msg>): seq<WireMsg> {
    var w := Convert(env, msgs);
    if w == [] || w[|w| - 1].WireAssistant? then w + [WireUser(PlainText(CONTINUE))] else w
  }

  // ---------------------------------------------------------------------------
  // The loops
  // ---------------------------------------------------------------------------

  /** The inner loop over the results after an assistant message. */
  method CollectResults(msgs: seq<Msg>, start: nat, ids: seq<Str>) returns (message: WireMsg, next: nat)
    requires start <= |msgs|
    ensures next == start + |ResultRun(msgs[start..])|
    ensures message == ResultMessage(ids, ResultRun(msgs[start..]))
  {
    hide Collected, AnswerBlocks, OrphanBlocks, MissingBlocks;
    ghost var run := ResultRun(msgs[start..]);
    var results: seq<Block>, orphans: seq<Block>, seen: set<Str> := [], [], {};
    next := start;
    CollectStart(run, ids);
    while next < |msgs| && msgs[next].ToolMsg?
      invariant start <= next <= start + |run| <= |msgs|
      invariant Collected(run, next - start, ids, results, orphans, seen)
    {
      assert msgs[start..][next - start] == msgs[next];
      var r := msgs[next].result;
      CollectStep(run, next - start, ids, results, orphans, seen);
      if r.callId in ids && r.callId !in seen {
        results := results + [ToolResult(r.callId, Rendered(r))];
        seen := seen + {r.callId};
      } else {
        orphans := orphans + [OrphanNote(r)];
      }
      next := next + 1;
    }
    assert next < |msgs| ==> msgs[start..][next - start] == msgs[next];
    CollectEnd(run, ids, results, orphans, seen);
    results := AddMissing(ids, run, seen, results);
    message := WireUser(Blocks(results + orphans));
  }

  lemma CollectStart(run: seq<Result>, ids: seq<Str>)
    ensures Collected(run, 0, ids, [], [], {})
  {
    assert run[0..] == run && run[..0] == [];
  }

  lemma CollectEnd(run: seq<Result>, ids: seq<Str>, results: seq<Block>, orphans: seq<Block>, seen: set<Str>)
    requires Collected(run, |run|, ids, results, orphans, seen)
    ensures results == AnswerBlocks(run, ids, {}) && orphans == OrphanBlocks(run, ids, {})
    ensures forall id :: id in seen <==> id in ids && Answered(run, id)
  {
    assert run[|run|..] == [] && run[..|run|] == run;
  }

  /** The loop's state after `k` results. */
  ghost predicate Collected(run: seq<Result>, k: nat, ids: seq<Str>, results: seq<Block>, orphans: seq<Block>, seen: set<Str>) {
    && k <= |run|
    && results + AnswerBlocks(run[k..], ids, seen) == AnswerBlocks(run, ids, {})
    && orphans + OrphanBlocks(run[k..], ids, seen) == OrphanBlocks(run, ids, {})
    && forall id :: id in seen <==> id in ids && Answered(run[..k], id)
  }

  lemma CollectStep(run: seq<Result>, k: nat, ids: seq<Str>, results: seq<Block>, orphans: seq<Block>, seen: set<Str>)
    requires Collected(run, k, ids, results, orphans, seen) && k < |run|
    ensures var r := run[k];
      if r.callId in ids && r.callId !in seen
      then Collected(run, k + 1, ids, results + [ToolResult(r.callId, Rendered(r))], orphans, seen + {r.callId})
      else Collected(run, k + 1, ids, results, orphans + [OrphanNote(r)], seen)
  {
    RunSnoc(run, k);
    hide Answered;
    var r, rest := run[k], run[k + 1..];
    if r.callId in ids && r.callId !in seen {
      assert results + ([ToolResult(r.callId, Rendered(r))] + AnswerBlocks(rest, ids, seen + {r.callId}))
          == results + [ToolResult(r.callId, Rendered(r))] + AnswerBlocks(rest, ids, seen + {r.callId});
    } else {
      assert orphans + ([OrphanNote(r)] + OrphanBlocks(rest, ids, seen)) == orphans + [OrphanNote(r)] + OrphanBlocks(rest, ids, seen);
    }
  }

  /** The loop over the call ids that got no result. */
  method AddMissing(ids: seq<Str>, ghost run: seq<Result>, seen: set<Str>, answers: seq<Block>) returns (results: seq<Block>)
    requires forall id :: id in seen <==> id in ids && Answered(run, id)
    ensures results == answers + MissingBlocks(ids, run)
  {
    hide Answered;
    results := answers;
    var i := 0;
    assert ids[0..] == ids;
    while i < |ids|
      invariant 0 <= i <= |ids|
      invariant results + MissingBlocks(ids[i..], run) == answers + MissingBlocks(ids, run)
    {
      assert ids[i..][1..] == ids[i + 1..];
      if ids[i] !in seen { results := results + [ToolResult(ids[i], Missing)]; }
      i := i + 1;
    }
  }

  lemma RunSnoc(run: seq<Result>, k: nat)
    requires k < |run|
    ensures run[k..] == [run[k]] + run[k + 1..] && run[k..][1..] == run[k + 1..]
    ensures forall id :: Answered(run[..k + 1], id) <==> Answered(run[..k], id) || run[k].callId == id
  {
    forall id ensures Answered(run[..k + 1], id) <==> Answered(run[..k], id) || run[k].callId == id {
      if Answered(run[..k], id) {
        var i :| 0 <= i < k && run[..k][i].callId == id;
        assert run[..k + 1][i].callId == id;
      }
      if run[k].callId == id { assert run[..k + 1][k].callId == id; }
      if Answered(run[..k + 1], id) {
        var i :| 0 <= i < k + 1 && run[..k + 1][i].callId == id;
        if i < k { assert run[..k][i].callId == id; }
      }
    }
  }

  method MessagesToAnthropicFormat(env: Env, msgs: seq<Msg>) returns (messages: seq<WireMsg>)
    ensures messages == Format(env, msgs)
  {
    messages := [];
    var i := 0;
    assert msgs[0..] == msgs;
    while i < |msgs|
      invariant 0 <= i <= |msgs|
      invariant messages + Convert(env, msgs[i..]) == Convert(env, msgs)
    {
      var step, next := ConvertOne(env, msgs, i);
      messages := messages + step;
      i := next;
    }
    if messages == [] || messages[|messages| - 1].WireAssistant? {
      messages := messages + [WireUser(PlainText(CONTINUE))];
    }
  }

  /** One round of the outer loop. */
  method ConvertOne(env: Env, msgs: seq<Msg>, i: nat) returns (step: seq<WireMsg>, next: nat)
    requires i < |msgs|
    ensures i < next <= |msgs|
    ensures step + Convert(env, msgs[next..]) == Convert(env, msgs[i..])
  {
    assert msgs[i..][1..] == msgs[i + 1..];
    next := i + 1;
    match msgs[i] {
      case User(content) => step := [WireUser(ContentOr(content, EMPTY_TEXT))];
      case ToolMsg(r) => step := [WireUser(OrphanText(r))];
      case Assistant(parts) =>
        var blocks, ids := AssistantBlocks(env, parts), CallIds(parts);
        if blocks == [] {
          step := [];
        } else if ids == [] {
          step := [WireAssistant(blocks)];
        } else {
          var message;
          message, next := CollectResults(msgs, i + 1, ids);
          assert msgs[i..][1 + |ResultRun(msgs[i + 1..])|..] == msgs[next..];
          step := [WireAssistant(blocks), message];
        }
    }
  }

  // ---------------------------------------------------------------------------
  // Adjacency
  // ---------------------------------------------------------------------------

  function UseIds(blocks: seq<Block>): seq<Str> {
    if blocks == [] then []
    else (if blocks[0].ToolUse? then [blocks[0].id] else []) + UseIds(blocks[1..])
  }

  function ResultIds(blocks: seq<Block>): seq<Str> {
    if blocks == [] then []
    else (if blocks[0].ToolResult? then [blocks[0].id] else []) + ResultIds(blocks[1..])
  }

  function Uses(m: WireMsg): seq<Str> {
    if m.WireAssistant? then UseIds(m.blocks) else []
  }

  function Results(m: WireMsg): seq<Str> {
    match m
    case WireUser(Blocks(blocks)) => ResultIds(blocks)
    case WireAssistant(blocks) => ResultIds(blocks)
    case _ => []
  }

  predicate ResultsFirst(m: WireMsg) {
    m.WireUser? && m.content.Blocks? &&
    forall i, j :: 0 <= i < j < |m.content.blocks| && m.content.blocks[j].ToolResult? ==> m.content.blocks[i].ToolResult?
  }

  /** The message answers each of these calls exactly once, and nothing else, results first. */
  predicate AnswersExactly(m: WireMsg, uses: seq<Str>) {
    ResultsFirst(m) && multiset(Results(m)) == multiset(uses)
  }

  /** Every tool_use is answered in the very next message, and no tool_result stands anywhere else. */
  predicate Repaired(w: seq<WireMsg>) {
    if w == [] then true
    else if Uses(w[0]) != [] then
      Results(w[0]) == [] && |w| >= 2 && AnswersExactly(w[1], Uses(w[0])) && Uses(w[1]) == [] && Repaired(w[2..])
    else Results(w[0]) == [] && Repaired(w[1..])
  }

  /** The same, said of every position. */
  lemma {:induction false} RepairedMeans(w: seq<WireMsg>, k: nat)
    requires Repaired(w) && k < |w|
    ensures Uses(w[k]) != [] ==> k + 1 < |w| && AnswersExactly(w[k + 1], Uses(w[k])) && Results(w[k]) == []
    ensures Results(w[k]) != [] ==> k > 0 && Uses(w[k - 1]) != [] && AnswersExactly(w[k], Uses(w[k - 1]))
    decreases |w|
  {
    hide AnswersExactly, Uses, Results;
    if Uses(w[0]) != [] {
      if k >= 2 {
        RepairedMeans(w[2..], k - 2);
        assert w[2..][k - 2] == w[k];
        assert k - 2 + 1 < |w[2..]| ==> w[2..][k - 1] == w[k + 1];
        assert k > 2 ==> w[2..][k - 3] == w[k - 1];
      }
    } else if k >= 1 {
      RepairedMeans(w[1..], k - 1);
      assert w[1..][k - 1] == w[k];
      assert k < |w[1..]| ==> w[1..][k] == w[k + 1];
      assert k > 1 ==> w[1..][k - 2] == w[k - 1];
    }
  }

  // ---------------------------------------------------------------------------
  // When the history comes out repaired
  // ---------------------------------------------------------------------------

  predicate MakesCall(env: Env, m: Msg) {
    m.Assistant? && AssistantBlocks(env, m.parts) != [] && CallIds(m.parts) != []
  }

  /** No answered id is called twice. */
  predicate AnsweredOnce(ids: seq<Str>, run: seq<Result>) {
    forall id :: id in ids && Answered(run, id) ==> multiset(ids)[id] == 1
  }

  /** No assistant message that is answered at all calls an id twice and has it answered. */
  predicate ClearCalls(env: Env, msgs: seq<Msg>)
    decreases |msgs|
  {
    if msgs == [] then true
    else if MakesCall(env, msgs[0]) then
      var run := ResultRun(msgs[1..]);
      AnsweredOnce(CallIds(msgs[0].parts), run) && ClearCalls(env, msgs[1 + |run|..])
    else ClearCalls(env, msgs[1..])
  }

  lemma {:induction false} UseIdsAppend(a: seq<Block>, b: seq<Block>)
    ensures UseIds(a + b) == UseIds(a) + UseIds(b) && ResultIds(a + b) == ResultIds(a) + ResultIds(b)
  {
    if a == [] {
      assert a + b == b;
    } else {
      assert (a + b)[1..] == a[1..] + b;
      UseIdsAppend(a[1..], b);
    }
  }

  lemma {:induction false} NoCallsIn(blocks: seq<Block>)
    requires forall b :: b in blocks ==> !b.ToolUse? && !b.ToolResult?
    ensures UseIds(blocks) == [] && ResultIds(blocks) == []
  {
    if blocks != [] {
      assert blocks[0] in blocks;
      NoCallsIn(blocks[1..]);
    }
  }

  lemma {:induction false} AssistantUses(env: Env, parts: seq<AssistantPart>)
    ensures UseIds(AssistantBlocks(env, parts)) == CallIds(parts)
    ensures ResultIds(AssistantBlocks(env, parts)) == []
  {
    if parts != [] {
      var first := AssistantBlock(env, parts[0]);
      AssistantUses(env, parts[1..]);
      UseIdsAppend(first, AssistantBlocks(env, parts[1..]));
      if !parts[0].Call? {
        NoCallsIn(first);
      } else {
        assert first[1..] == [];
      }
    }
  }

  lemma {:induction false} ContentHasNoCalls(c: Content, standIn: Str)
    ensures Results(WireUser(ContentOr(c, standIn))) == []
  {
    if c.Parts? {
      NoCallsIn(PartBlocks(c.parts));
    }
  }

  lemma CountCons(x: Str, s: seq<Str>, id: Str)
    ensures multiset([x] + s)[id] == (if x == id then 1 else 0) + multiset(s)[id]
  {
  }

  lemma CountAppend(a: seq<Str>, b: seq<Str>, id: Str)
    ensures multiset(a + b)[id] == multiset(a)[id] + multiset(b)[id]
  {
  }

  /** How often an id is answered by a block: once if a result exists and it was not seen yet. */
  lemma {:induction false} AnswerCount(run: seq<Result>, ids: seq<Str>, seen: set<Str>, id: Str)
    ensures multiset(ResultIds(AnswerBlocks(run, ids, seen)))[id] == if id in ids && id !in seen && Answered(run, id) then 1 else 0
    ensures forall b :: b in AnswerBlocks(run, ids, seen) ==> b.ToolResult?
  {
    if run != [] {
      var r := run[0];
      var hit := r.callId in ids && r.callId !in seen;
      var seen1 := if hit then seen + {r.callId} else seen;
      AnswerCount(run[1..], ids, seen1, id);
      var rest := AnswerBlocks(run[1..], ids, seen1);
      AnsweredCons(run, id);
      if hit {
        assert AnswerBlocks(run, ids, seen)[1..] == rest;
        assert ResultIds(AnswerBlocks(run, ids, seen)) == [r.callId] + ResultIds(rest);
      }
    }
  }

  lemma AnsweredCons(run: seq<Result>, id: Str)
    requires run != []
    ensures Answered(run, id) <==> run[0].callId == id || Answered(run[1..], id)
  {
    if Answered(run, id) && run[0].callId != id {
      var i :| 0 <= i < |run| && run[i].callId == id;
      assert run[1..][i - 1].callId == id;
    }
    if Answered(run[1..], id) {
      var i :| 0 <= i < |run[1..]| && run[1..][i].callId == id;
      assert run[i + 1].callId == id;
    }
    if run[0].callId == id {
      assert run[0].callId == id;
    }
  }

  lemma {:induction false} MissingCount(ids: seq<Str>, run: seq<Result>, id: Str)
    ensures multiset(ResultIds(MissingBlocks(ids, run)))[id] == if Answered(run, id) then 0 else multiset(ids)[id]
    ensures forall b :: b in MissingBlocks(ids, run) ==> b.ToolResult?
  {
    hide Answered;
    if ids != [] {
      var rest := MissingBlocks(ids[1..], run);
      MissingCount(ids[1..], run, id);
      assert ids == [ids[0]] + ids[1..];
      CountCons(ids[0], ids[1..], id);
      if Answered(run, ids[0]) {
        assert MissingBlocks(ids, run) == rest;
      } else {
        assert MissingBlocks(ids, run)[1..] == rest;
        CountCons(ids[0], ResultIds(rest), id);
        assert ResultIds(MissingBlocks(ids, run)) == [ids[0]] + ResultIds(rest);
      }
    }
  }

  lemma {:induction false} OrphansAreNotes(run: seq<Result>, ids: seq<Str>, seen: set<Str>)
    ensures forall b :: b in OrphanBlocks(run, ids, seen) ==> b.OrphanNote?
  {
    if run != [] {
      var r := run[0];
      OrphansAreNotes(run[1..], ids, if r.callId in ids && r.callId !in seen then seen + {r.callId} else seen);
    }
  }

  lemma ResultsLead(results: seq<Block>, notes: seq<Block>)
    requires (forall b :: b in results ==> b.ToolResult?) && (forall b :: b in notes ==> b.OrphanNote?)
    ensures ResultsFirst(WireUser(Blocks(results + notes)))
  {
    var all := results + notes;
    assert forall k :: 0 <= k < |results| ==> all[k] in results;
    assert forall k :: |results| <= k < |all| ==> all[k] in notes;
  }

  lemma {:induction false} NoUses(blocks: seq<Block>)
    requires forall b :: b in blocks ==> b.ToolResult?
    ensures UseIds(blocks) == []
  {
    if blocks != [] {
      assert blocks[0] in blocks;
      NoUses(blocks[1..]);
    }
  }

  lemma ResultMessageShape(ids: seq<Str>, run: seq<Result>)
    ensures var m := ResultMessage(ids, run);
      && Results(m) == ResultIds(AnswerBlocks(run, ids, {})) + ResultIds(MissingBlocks(ids, run))
      && ResultsFirst(m) && Uses(m) == []
  {
    hide Answered, AnswerBlocks, MissingBlocks, OrphanBlocks, ResultsFirst;
    var answers, missing, orphans := AnswerBlocks(run, ids, {}), MissingBlocks(ids, run), OrphanBlocks(run, ids, {});
    AnswerCount(run, ids, {}, []);
    MissingCount(ids, run, []);
    OrphansAreNotes(run, ids, {});
    NoCallsIn(orphans);
    ResultsLead(answers + missing, orphans);
    NoUses(answers + missing);
    UseIdsAppend(answers + missing, orphans);
    UseIdsAppend(answers, missing);
    hide ResultIds, UseIds;
    assert ResultIds(answers + missing) + [] == ResultIds(answers + missing);
  }

  /** Exactly how often each id is answered: once if answered at all, else once per call. */
  lemma ResultMessageCounts(ids: seq<Str>, run: seq<Result>, id: Str)
    ensures var m := ResultMessage(ids, run);
      && multiset(Results(m))[id] == (if id in ids && Answered(run, id) then 1 else multiset(ids)[id])
      && ResultsFirst(m) && Uses(m) == []
  {
    hide Answered, AnswerBlocks, MissingBlocks, ResultMessage, ResultsFirst, ResultIds, Results, Uses;
    ResultMessageShape(ids, run);
    AnswerCount(run, ids, {}, id);
    MissingCount(ids, run, id);
    CountAppend(ResultIds(AnswerBlocks(run, ids, {})), ResultIds(MissingBlocks(ids, run)), id);
    assert multiset(ids)[id] > 0 <==> id in ids;
  }

  lemma AnswersExactlyIff(ids: seq<Str>, run: seq<Result>)
    ensures AnswersExactly(ResultMessage(ids, run), ids) <==> AnsweredOnce(ids, run)
  {
    hide Answered, ResultMessage, ResultsFirst;
    var m := ResultMessage(ids, run);
    forall id ensures multiset(Results(m))[id] == (if id in ids && Answered(run, id) then 1 else multiset(ids)[id])
      && ResultsFirst(m) && Uses(m) == []
    {
      ResultMessageCounts(ids, run, id);
    }
    assert ResultsFirst(m) by { ResultMessageCounts(ids, run, []); }
    if AnsweredOnce(ids, run) {
      assert forall id :: multiset(Results(m))[id] == multiset(ids)[id];
      assert multiset(Results(m)) == multiset(ids);
    } else {
      var id :| id in ids && Answered(run, id) && multiset(ids)[id] != 1;
      assert multiset(Results(m))[id] == 1;
    }
  }

  /** A closing user message leaves the verdict as it is. */
  lemma {:induction false} RepairedSnoc(w: seq<WireMsg>, text: Str)
    requires w == [] || Uses(w[|w| - 1]) == []
    ensures Repaired(w + [WireUser(PlainText(text))]) <==> Repaired(w)
    decreases |w|
  {
    hide AnswersExactly;
    var tail := [WireUser(PlainText(text))];
    assert tail[1..] == [];
    if w == [] {
      assert w + tail == tail;
    } else if Uses(w[0]) != [] {
      if |w| >= 2 {
        assert (w + tail)[2..] == w[2..] + tail;
        RepairedSnoc(w[2..], text);
      }
    } else {
      assert (w + tail)[1..] == w[1..] + tail;
      RepairedSnoc(w[1..], text);
    }
  }

  lemma {:induction false} ConvertRepaired(env: Env, msgs: seq<Msg>)
    ensures Repaired(Convert(env, msgs)) <==> ClearCalls(env, msgs)
    ensures var w := Convert(env, msgs); w == [] || Uses(w[|w| - 1]) == []
    decreases |msgs|
  {
    hide AnswersExactly, Answered, AssistantBlocks, CallIds, ContentOr, ResultMessage, ResultIds, UseIds;
    if msgs != [] {
      match msgs[0] {
        case User(content) =>
          ContentHasNoCalls(content, EMPTY_TEXT);
          UnpairedHead(env, msgs, WireUser(ContentOr(content, EMPTY_TEXT)));
        case ToolMsg(r) => UnpairedHead(env, msgs, WireUser(OrphanText(r)));
        case Assistant(parts) =>
          var blocks, ids := AssistantBlocks(env, parts), CallIds(parts);
          AssistantUses(env, parts);
          if blocks == [] {
            ConvertRepaired(env, msgs[1..]);
          } else if ids == [] {
            UnpairedHead(env, msgs, WireAssistant(blocks));
          } else {
            PairedHead(env, msgs);
          }
      }
    }
  }

  /** A message that stands alone: it neither calls nor answers. */
  lemma UnpairedHead(env: Env, msgs: seq<Msg>, m: WireMsg)
    requires msgs != [] && Convert(env, msgs) == [m] + Convert(env, msgs[1..])
    requires ClearCalls(env, msgs) <==> ClearCalls(env, msgs[1..])
    requires Uses(m) == [] && Results(m) == []
    ensures Repaired(Convert(env, msgs)) <==> ClearCalls(env, msgs)
    ensures var w := Convert(env, msgs); Uses(w[|w| - 1]) == []
    decreases |msgs|, 0
  {
    hide Uses, Results, AnswersExactly;
    ConvertRepaired(env, msgs[1..]);
    hide Convert, ClearCalls;
    assert Convert(env, msgs)[1..] == Convert(env, msgs[1..]);
  }

  /** An assistant message with calls becomes itself and the message that answers it. */
  lemma PairConverts(env: Env, msgs: seq<Msg>)
    requires msgs != [] && MakesCall(env, msgs[0])
    ensures var run := ResultRun(msgs[1..]);
      Convert(env, msgs) == [WireAssistant(AssistantBlocks(env, msgs[0].parts)), ResultMessage(CallIds(msgs[0].parts), run)]
                            + Convert(env, msgs[1 + |run|..])
  {
    hide AssistantBlocks, CallIds, ResultMessage, ResultRun;
  }

  lemma PairRepaired(first: WireMsg, second: WireMsg, rest: seq<WireMsg>)
    requires Uses(first) != [] && Results(first) == [] && Uses(second) == []
    ensures Repaired([first, second] + rest) <==> AnswersExactly(second, Uses(first)) && Repaired(rest)
    ensures var w := [first, second] + rest; Uses(w[|w| - 1]) == if rest == [] then [] else Uses(rest[|rest| - 1])
  {
    hide AnswersExactly, Uses, Results;
    assert ([first, second] + rest)[2..] == rest;
  }

  lemma PairClears(env: Env, msgs: seq<Msg>)
    requires msgs != [] && MakesCall(env, msgs[0])
    ensures var run := ResultRun(msgs[1..]);
      ClearCalls(env, msgs) <==> AnsweredOnce(CallIds(msgs[0].parts), run) && ClearCalls(env, msgs[1 + |run|..])
  {
    hide MakesCall, AnsweredOnce, CallIds, ResultRun;
  }

  /** The calls of the first message of the pair; the second makes none. */
  lemma PairUses(env: Env, m: Msg, run: seq<Result>)
    requires MakesCall(env, m)
    ensures var first := WireAssistant(AssistantBlocks(env, m.parts));
      Uses(first) == CallIds(m.parts) && Uses(first) != [] && Results(first) == []
    ensures Uses(ResultMessage(CallIds(m.parts), run)) == []
  {
    AssistantUses(env, m.parts);
    ResultMessageCounts(CallIds(m.parts), run, []);
    hide UseIds, ResultIds, AssistantBlocks, CallIds, ResultMessage, Answered;
  }

  lemma PairedHead(env: Env, msgs: seq<Msg>)
    requires msgs != [] && MakesCall(env, msgs[0])
    ensures Repaired(Convert(env, msgs)) <==> ClearCalls(env, msgs)
    ensures var w := Convert(env, msgs); w != [] && Uses(w[|w| - 1]) == []
    decreases |msgs|, 0
  {
    hide Convert, Repaired, ClearCalls, AnswersExactly, AnsweredOnce, AssistantBlocks, CallIds, ResultMessage, ResultRun, Uses, Results;
    var ids, run := CallIds(msgs[0].parts), ResultRun(msgs[1..]);
    var first, rest := WireAssistant(AssistantBlocks(env, msgs[0].parts)), Convert(env, msgs[1 + |run|..]);
    PairConverts(env, msgs);
    PairUses(env, msgs[0], run);
    PairClears(env, msgs);
    ConvertRepaired(env, msgs[1 + |run|..]);
    AnswersExactlyIff(ids, run);
    PairRepaired(first, ResultMessage(ids, run), rest);
  }

  /**
   * For every history: the built messages are repaired exactly when no assistant message calls one
   * id twice and has it answered; in particular whenever the ids inside each message are distinct.
   */
  lemma RepairedExactly(env: Env, msgs: seq<Msg>)
    ensures Repaired(Format(env, msgs)) <==> ClearCalls(env, msgs)
  {
    hide Repaired, Convert, ClearCalls;
    ConvertRepaired(env, msgs);
    var w := Convert(env, msgs);
    RepairedSnoc(w, CONTINUE);
  }

  lemma {:induction false} DistinctIdsAreClear(env: Env, msgs: seq<Msg>)
    requires forall i :: 0 <= i < |msgs| && msgs[i].Assistant? ==> Distinct(CallIds(msgs[i].parts))
    ensures ClearCalls(env, msgs)
    decreases |msgs|
  {
    if msgs != [] {
      var n := if msgs[0].Assistant? && AssistantBlocks(env, msgs[0].parts) != [] && CallIds(msgs[0].parts) != []
               then 1 + |ResultRun(msgs[1..])| else 1;
      forall i | 0 <= i < |msgs| - n && msgs[n..][i].Assistant? ensures Distinct(CallIds(msgs[n..][i].parts)) {
        assert msgs[n..][i] == msgs[n + i];
      }
      DistinctIdsAreClear(env, msgs[n..]);
      if msgs[0].Assistant? {
        forall id | id in CallIds(msgs[0].parts) ensures multiset(CallIds(msgs[0].parts))[id] == 1 {
          DistinctCount(CallIds(msgs[0].parts), id);
        }
      }
    }
  }

  lemma {:induction false} DistinctCount(s: seq<Str>, id: Str)
    requires Distinct(s)
    ensures multiset(s)[id] == if id in s then 1 else 0
  {
    if s != [] {
      assert s == [s[0]] + s[1..];
      CountCons(s[0], s[1..], id);
      DistinctCount(s[1..], id);
    }
  }

  // ---------------------------------------------------------------------------
  // Nothing is lost, nothing is empty
  // ---------------------------------------------------------------------------

  /** The tool results of a history, in order. */
  function ResultsOf(msgs: seq<Msg>): seq<Result> {
    if msgs == [] then []
    else (if msgs[0].ToolMsg? then [msgs[0].result] else []) + ResultsOf(msgs[1..])
  }

  function ShownInBlocks(blocks: seq<Block>): seq<Result> {
    if blocks == [] then []
    else
      (match blocks[0]
       case ToolResult(_, Rendered(r)) => [r]
       case OrphanNote(r) => [r]
       case _ => []) + ShownInBlocks(blocks[1..])
  }

  function ShownIn(m: WireMsg): seq<Result> {
    match m
    case WireUser(Blocks(blocks)) => ShownInBlocks(blocks)
    case WireUser(OrphanText(r)) => [r]
    case WireAssistant(blocks) => ShownInBlocks(blocks)
    case _ => []
  }

  /** Every tool result a message list shows, as a block or as text. */
  function Shown(w: seq<WireMsg>): seq<Result> {
    if w == [] then [] else ShownIn(w[0]) + Shown(w[1..])
  }

  lemma {:induction false} ShownAppend(a: seq<Block>, b: seq<Block>)
    ensures ShownInBlocks(a + b) == ShownInBlocks(a) + ShownInBlocks(b)
  {
    if a == [] {
      assert a + b == b;
    } else {
      assert (a + b)[1..] == a[1..] + b;
      ShownAppend(a[1..], b);
    }
  }

  lemma {:induction false} ShowsNothing(blocks: seq<Block>)
    requires forall b :: b in blocks ==> !b.OrphanNote? && (b.ToolResult? ==> b.body.Missing?)
    ensures ShownInBlocks(blocks) == []
  {
    if blocks != [] {
      assert blocks[0] in blocks;
      ShowsNothing(blocks[1..]);
    }
  }

  lemma {:induction false} AssistantShowsNothing(env: Env, parts: seq<AssistantPart>)
    ensures ShownInBlocks(AssistantBlocks(env, parts)) == []
  {
    if parts != [] {
      AssistantShowsNothing(env, parts[1..]);
      ShownAppend(AssistantBlock(env, parts[0]), AssistantBlocks(env, parts[1..]));
      ShowsNothing(AssistantBlock(env, parts[0]));
    }
  }

  lemma {:induction false} MissingAreMissing(ids: seq<Str>, run: seq<Result>)
    ensures forall b :: b in MissingBlocks(ids, run) ==> b.ToolResult? && b.body.Missing?
  {
    if ids != [] {
      MissingAreMissing(ids[1..], run);
    }
  }

  /** Every result of the run is shown once: as a block or as an orphan note. */
  lemma {:induction false} RunIsShown(run: seq<Result>, ids: seq<Str>, seen: set<Str>)
    ensures multiset(ShownInBlocks(AnswerBlocks(run, ids, seen))) + multiset(ShownInBlocks(OrphanBlocks(run, ids, seen))) == multiset(run)
  {
    if run != [] {
      var seen1 := if run[0].callId in ids && run[0].callId !in seen then seen + {run[0].callId} else seen;
      RunIsShown(run[1..], ids, seen1);
      OneAnswer(run, ids, seen);
      OneMore(run, ShownInBlocks(AnswerBlocks(run[1..], ids, seen1)), ShownInBlocks(OrphanBlocks(run[1..], ids, seen1)));
      hide AnswerBlocks, OrphanBlocks, ShownInBlocks;
    }
  }

  lemma OneMore(run: seq<Result>, left: seq<Result>, right: seq<Result>)
    requires run != [] && multiset(left) + multiset(right) == multiset(run[1..])
    ensures multiset([run[0]] + left) + multiset(right) == multiset(run)
    ensures multiset(left) + multiset([run[0]] + right) == multiset(run)
  {
    assert run == [run[0]] + run[1..];
  }

  /** The first result of a run is shown on one of the two sides. */
  lemma OneAnswer(run: seq<Result>, ids: seq<Str>, seen: set<Str>)
    requires run != []
    ensures var r := run[0];
      var hit := r.callId in ids && r.callId !in seen;
      var seen1 := if hit then seen + {r.callId} else seen;
      var answers, orphans := ShownInBlocks(AnswerBlocks(run[1..], ids, seen1)), ShownInBlocks(OrphanBlocks(run[1..], ids, seen1));
      && ShownInBlocks(AnswerBlocks(run, ids, seen)) == (if hit then [r] + answers else answers)
      && ShownInBlocks(OrphanBlocks(run, ids, seen)) == (if hit then orphans else [r] + orphans)
  {
    var r := run[0];
    var hit := r.callId in ids && r.callId !in seen;
    var answers, orphans := AnswerBlocks(run[1..], ids, if hit then seen + {r.callId} else seen), OrphanBlocks(run[1..], ids, if hit then seen + {r.callId} else seen);
    assert AnswerBlocks(run, ids, seen) == if hit then [ToolResult(r.callId, Rendered(r))] + answers else answers;
    assert OrphanBlocks(run, ids, seen) == if hit then orphans else [OrphanNote(r)] + orphans;
    hide AnswerBlocks, OrphanBlocks;
    FirstShown(ToolResult(r.callId, Rendered(r)), answers);
    FirstShown(OrphanNote(r), orphans);
  }

  lemma FirstShown(b: Block, rest: seq<Block>)
    ensures ShownInBlocks([b] + rest) == ShownInBlocks([b]) + ShownInBlocks(rest)
    ensures b.OrphanNote? ==> ShownInBlocks([b]) == [b.result]
    ensures b.ToolResult? && b.body.Rendered? ==> ShownInBlocks([b]) == [b.body.result]
  {
    assert ([b] + rest)[1..] == rest && [b][1..] == [];
  }

  lemma ResultMessageShows(ids: seq<Str>, run: seq<Result>)
    ensures multiset(ShownIn(ResultMessage(ids, run))) == multiset(run)
  {
    hide AnswerBlocks, MissingBlocks, OrphanBlocks, ShownInBlocks;
    var answers, missing, orphans := AnswerBlocks(run, ids, {}), MissingBlocks(ids, run), OrphanBlocks(run, ids, {});
    MissingAreMissing(ids, run);
    ShowsNothing(missing);
    ShownAppend(answers + missing, orphans);
    ShownAppend(answers, missing);
    RunIsShown(run, ids, {});
    assert ShownInBlocks(answers) + [] + ShownInBlocks(orphans) == ShownInBlocks(answers) + ShownInBlocks(orphans);
  }

  lemma {:induction false} ResultsOfRun(msgs: seq<Msg>)
    ensures var run := ResultRun(msgs); ResultsOf(msgs) == run + ResultsOf(msgs[|run|..])
  {
    if msgs != [] && msgs[0].ToolMsg? {
      ResultsOfRun(msgs[1..]);
      var r, tail := msgs[0].result, ResultRun(msgs[1..]);
      assert ResultRun(msgs) == [r] + tail;
      assert ResultsOf(msgs) == [r] + ResultsOf(msgs[1..]);
      hide ResultRun, ResultsOf;
      assert msgs[1..][|tail|..] == msgs[1 + |tail|..];
      assert [r] + (tail + ResultsOf(msgs[1 + |tail|..])) == [r] + tail + ResultsOf(msgs[1 + |tail|..]);
    } else {
      assert msgs[0..] == msgs;
      assert [] + ResultsOf(msgs) == ResultsOf(msgs);
    }
  }

  /** What one history message that makes no call becomes. */
  function Single(env: Env, m: Msg): seq<WireMsg> {
    match m
    case User(content) => [WireUser(ContentOr(content, EMPTY_TEXT))]
    case ToolMsg(r) => [WireUser(OrphanText(r))]
    case Assistant(parts) => var blocks := AssistantBlocks(env, parts); if blocks == [] then [] else [WireAssistant(blocks)]
  }

  lemma SingleConverts(env: Env, msgs: seq<Msg>)
    requires msgs != [] && !MakesCall(env, msgs[0])
    ensures Convert(env, msgs) == Single(env, msgs[0]) + Convert(env, msgs[1..])
  {
    hide AssistantBlocks, CallIds, ContentOr, ResultMessage, ResultRun;
  }

  lemma SingleShows(env: Env, m: Msg, rest: seq<WireMsg>)
    requires !MakesCall(env, m)
    ensures Shown(Single(env, m) + rest) == (if m.ToolMsg? then [m.result] else []) + Shown(rest)
  {
    hide AssistantBlocks, ShownInBlocks, ContentOr, CallIds;
    match m {
      case User(content) =>
        ContentShowsNothing(content, EMPTY_TEXT);
        assert (Single(env, m) + rest)[1..] == rest;
      case ToolMsg(r) =>
        assert (Single(env, m) + rest)[1..] == rest;
      case Assistant(parts) =>
        AssistantShowsNothing(env, parts);
        if AssistantBlocks(env, parts) == [] {
          assert Single(env, m) + rest == rest;
        } else {
          assert (Single(env, m) + rest)[1..] == rest;
        }
    }
  }

  lemma {:induction false} ConvertShows(env: Env, msgs: seq<Msg>)
    ensures multiset(Shown(Convert(env, msgs))) == multiset(ResultsOf(msgs))
    decreases |msgs|
  {
    if msgs != [] {
      if MakesCall(env, msgs[0]) {
        PairShows(env, msgs);
      } else {
        SingleConverts(env, msgs);
        SingleShows(env, msgs[0], Convert(env, msgs[1..]));
        ConvertShows(env, msgs[1..]);
        hide Convert, Shown, MakesCall, Single;
      }
    }
  }

  lemma PairShows(env: Env, msgs: seq<Msg>)
    requires msgs != [] && MakesCall(env, msgs[0])
    ensures multiset(Shown(Convert(env, msgs))) == multiset(ResultsOf(msgs))
    decreases |msgs|, 0
  {
    hide ResultsOf, Convert, Shown, AssistantBlocks, CallIds, ResultMessage, ResultRun, ShownIn, ShownInBlocks;
    var ids, run := CallIds(msgs[0].parts), ResultRun(msgs[1..]);
    var rest := Convert(env, msgs[1 + |run|..]);
    var first := WireAssistant(AssistantBlocks(env, msgs[0].parts));
    PairConverts(env, msgs);
    ConvertShows(env, msgs[1 + |run|..]);
    ResultMessageShows(ids, run);
    RunOfPair(msgs);
    AssistantShowsNothing(env, msgs[0].parts);
    AssistantShown(first);
    ShownTwo(first, ResultMessage(ids, run), rest);
  }

  lemma RunOfPair(msgs: seq<Msg>)
    requires msgs != [] && msgs[0].Assistant?
    ensures var run := ResultRun(msgs[1..]); ResultsOf(msgs) == run + ResultsOf(msgs[1 + |run|..])
  {
    ResultsOfRun(msgs[1..]);
    hide ResultRun;
    assert msgs[1..][|ResultRun(msgs[1..])|..] == msgs[1 + |ResultRun(msgs[1..])|..];
  }

  lemma ShownTwo(first: WireMsg, second: WireMsg, rest: seq<WireMsg>)
    requires ShownIn(first) == []
    ensures Shown([first, second] + rest) == ShownIn(second) + Shown(rest)
  {
    var w := [first, second] + rest;
    assert w[1..] == [second] + rest && w[1..][1..] == rest;
  }

  lemma AssistantShown(m: WireMsg)
    requires m.WireAssistant?
    ensures ShownIn(m) == ShownInBlocks(m.blocks)
  {
  }

  lemma ContentShowsNothing(c: Content, standIn: Str)
    ensures ShownIn(WireUser(ContentOr(c, standIn))) == []
  {
    if c.Parts? {
      ShowsNothing(PartBlocks(c.parts));
    }
  }

  /** For every history: each tool result appears exactly once in the built messages. */
  lemma ResultsAreConserved(env: Env, msgs: seq<Msg>)
    ensures multiset(Shown(Format(env, msgs))) == multiset(ResultsOf(msgs))
  {
    hide Convert, ResultsOf;
    ConvertShows(env, msgs);
    ShownSnoc(Convert(env, msgs), WireUser(PlainText(CONTINUE)));
  }

  lemma {:induction false} ShownSnoc(w: seq<WireMsg>, m: WireMsg)
    requires ShownIn(m) == []
    ensures Shown(w + [m]) == Shown(w)
  {
    if w == [] {
      assert w + [m] == [m] && [m][1..] == [];
    } else {
      assert (w + [m])[1..] == w[1..] + [m];
      ShownSnoc(w[1..], m);
    }
  }

  // ---------------------------------------------------------------------------
  // What was said stays in the history
  // ---------------------------------------------------------------------------

  /** One thing a conversation holds besides tool results. */
  datatype Piece =
    | Heard(text: Str)
    | Picture(url: Str)
    | Spoken(text: Str)
    | Hidden(data: Str)
    | Signed(thinking: Str, signature: Str)
    | Called(id: Str, name: Str, arguments: Str)

  function PartPieces(parts: seq<Part>): seq<Piece> {
    if parts == [] then []
    else
      var n := |parts| - 1;
      PartPieces(parts[..n]) +
      (match parts[n] case TextPart(text) => if text != [] then [Heard(text)] else [] case ImagePart(url) => [Picture(url)])
  }

  /** The texts and images of a content, empty texts aside. */
  function ContentPieces(c: Content): seq<Piece> {
    match c
    case Plain(text) => if text != [] then [Heard(text)] else []
    case Parts(parts) => PartPieces(parts)
  }

  /** The same, with a fixed text in the place of nothing at all. */
  function PiecesOr(c: Content, standIn: Str): seq<Piece> {
    if ContentPieces(c) == [] then [Heard(standIn)] else ContentPieces(c)
  }

  /** What an assistant part says on the wire: thinking only when its signature is plausible. */
  function UtterancePieces(env: Env, p: AssistantPart): seq<Piece> {
    match p
    case Said(text) => if text != [] then [Spoken(text)] else []
    case Thought(thinking, signature, redacted) =>
      seq(|redacted|, i requires 0 <= i < |redacted| => Hidden(redacted[i])) +
      (if signature.Some? && env.realSignature(signature.value) then [Signed(thinking, signature.value)] else [])
    case Call(id, name, arguments) => [Called(id, env.wireName(name), arguments)]
  }

  function AssistantPieces(env: Env, parts: seq<AssistantPart>): seq<Piece> {
    if parts == [] then [] else AssistantPieces(env, parts[..|parts| - 1]) + UtterancePieces(env, parts[|parts| - 1])
  }

  function MsgPieces(env: Env, m: Msg): seq<Piece> {
    match m
    case User(content) => PiecesOr(content, EMPTY_TEXT)
    case Assistant(parts) => AssistantPieces(env, parts)
    case ToolMsg(_) => []
  }

  /** Everything a history holds besides tool results, in order. */
  function HistoryPieces(env: Env, msgs: seq<Msg>): seq<Piece> {
    if msgs == [] then [] else MsgPieces(env, msgs[0]) + HistoryPieces(env, msgs[1..])
  }

  function UserBlock(b: Block): seq<Piece> {
    match b
    case Text(text) => [Heard(text)]
    case Image(url) => [Picture(url)]
    case _ => []
  }

  function ReplyBlock(b: Block): seq<Piece> {
    match b
    case Text(text) => [Spoken(text)]
    case Redacted(data) => [Hidden(data)]
    case Thinking(thinking, signature) => [Signed(thinking, signature)]
    case ToolUse(id, name, input) => [Called(id, name, input)]
    case _ => []
  }

  function ReadBlocks(read: Block -> seq<Piece>, blocks: seq<Block>): seq<Piece> {
    if blocks == [] then [] else read(blocks[0]) + ReadBlocks(read, blocks[1..])
  }

  function ReadContent(c: WireContent): seq<Piece> {
    match c
    case PlainText(text) => [Heard(text)]
    case Blocks(blocks) => ReadBlocks(UserBlock, blocks)
    case OrphanText(_) => []
  }

  /** What a built message says besides tool results and the notes about them. */
  function Read(m: WireMsg): seq<Piece> {
    match m
    case WireUser(content) => ReadContent(content)
    case WireAssistant(blocks) => ReadBlocks(ReplyBlock, blocks)
  }

  function ReadAll(w: seq<WireMsg>): seq<Piece> {
    if w == [] then [] else Read(w[0]) + ReadAll(w[1..])
  }

  lemma {:induction false} ReadAppend(read: Block -> seq<Piece>, a: seq<Block>, b: seq<Block>)
    ensures ReadBlocks(read, a + b) == ReadBlocks(read, a) + ReadBlocks(read, b)
  {
    if a == [] {
      assert a + b == b;
    } else {
      assert (a + b)[1..] == a[1..] + b;
      ReadAppend(read, a[1..], b);
    }
  }

  lemma ReadOne(read: Block -> seq<Piece>, b: Block)
    ensures ReadBlocks(read, [b]) == read(b)
  {
    assert [b][1..] == [];
  }

  lemma {:induction false} ReadNothing(read: Block -> seq<Piece>, blocks: seq<Block>)
    requires forall b :: b in blocks ==> read(b) == []
    ensures ReadBlocks(read, blocks) == []
  {
    if blocks != [] {
      assert blocks[0] in blocks;
      ReadNothing(read, blocks[1..]);
    }
  }

  lemma {:induction false} PartBlocksSnoc(parts: seq<Part>, p: Part)
    ensures PartBlocks(parts + [p]) == PartBlocks(parts) + PartBlocks([p])
  {
    if parts == [] {
      assert parts + [p] == [p];
    } else {
      assert (parts + [p])[1..] == parts[1..] + [p];
      PartBlocksSnoc(parts[1..], p);
    }
  }

  lemma {:induction false} PartsRead(parts: seq<Part>)
    ensures ReadBlocks(UserBlock, PartBlocks(parts)) == PartPieces(parts)
    ensures PartBlocks(parts) == [] <==> PartPieces(parts) == []
  {
    if parts != [] {
      var n := |parts| - 1;
      PartsRead(parts[..n]);
      assert parts == parts[..n] + [parts[n]] && [parts[n]][1..] == [];
      PartBlocksSnoc(parts[..n], parts[n]);
      ReadAppend(UserBlock, PartBlocks(parts[..n]), PartBlocks([parts[n]]));
      OnePartRead(parts[n]);
    }
  }

  lemma OnePartRead(p: Part)
    ensures ReadBlocks(UserBlock, PartBlocks([p])) == (match p case TextPart(text) => if text != [] then [Heard(text)] else [] case ImagePart(url) => [Picture(url)])
    ensures PartBlocks([p]) == [] <==> p.TextPart? && p.text == []
  {
    assert [p][1..] == [];
    match p {
      case TextPart(text) => if text != [] { ReadOne(UserBlock, Text(text)); }
      case ImagePart(url) => ReadOne(UserBlock, Image(url));
    }
  }

  /** Content as it is sent says what it held, or the stand-in when it held nothing. */
  lemma ContentIsKept(c: Content, standIn: Str)
    ensures ReadContent(ContentOr(c, standIn)) == PiecesOr(c, standIn)
  {
    if c.Parts? { PartsRead(c.parts); }
  }

  /** A rendered tool result says what the result held, or the note that it was empty. */
  lemma ResultIsKept(r: Result)
    ensures ReadContent(BodyContent(Rendered(r))) == PiecesOr(r.content, EMPTY_OUTPUT)
  {
    ContentIsKept(r.content, EMPTY_OUTPUT);
  }

  lemma {:induction false} RedactedRead(data: seq<Str>)
    ensures ReadBlocks(ReplyBlock, RedactedBlocks(data)) == seq(|data|, i requires 0 <= i < |data| => Hidden(data[i]))
  {
    if data != [] {
      RedactedRead(data[1..]);
      assert RedactedBlocks(data)[1..] == RedactedBlocks(data[1..]);
    }
  }

  lemma UtteranceRead(env: Env, p: AssistantPart)
    ensures ReadBlocks(ReplyBlock, AssistantBlock(env, p)) == UtterancePieces(env, p)
  {
    match p {
      case Said(text) => if text != [] { ReadOne(ReplyBlock, Text(text)); }
      case Thought(thinking, signature, redacted) =>
        var signed: seq<Block> := if signature.Some? && env.realSignature(signature.value) then [Thinking(thinking, signature.value)] else [];
        RedactedRead(redacted);
        ReadAppend(ReplyBlock, RedactedBlocks(redacted), signed);
        if signed != [] { ReadOne(ReplyBlock, signed[0]); }
      case Call(id, name, arguments) => ReadOne(ReplyBlock, ToolUse(id, env.wireName(name), arguments));
    }
  }

  lemma {:induction false} AssistantBlocksSnoc(env: Env, parts: seq<AssistantPart>, p: AssistantPart)
    ensures AssistantBlocks(env, parts + [p]) == AssistantBlocks(env, parts) + AssistantBlock(env, p)
  {
    hide AssistantBlock;
    if parts == [] {
      assert parts + [p] == [p] && [p][1..] == [];
    } else {
      assert (parts + [p])[1..] == parts[1..] + [p];
      AssistantBlocksSnoc(env, parts[1..], p);
    }
  }

  lemma {:induction false} AssistantRead(env: Env, parts: seq<AssistantPart>)
    ensures ReadBlocks(ReplyBlock, AssistantBlocks(env, parts)) == AssistantPieces(env, parts)
  {
    if parts != [] {
      var n := |parts| - 1;
      AssistantRead(env, parts[..n]);
      assert parts == parts[..n] + [parts[n]];
      hide AssistantBlock, UtterancePieces;
      AssistantBlocksSnoc(env, parts[..n], parts[n]);
      ReadAppend(ReplyBlock, AssistantBlocks(env, parts[..n]), AssistantBlock(env, parts[n]));
      UtteranceRead(env, parts[n]);
    }
  }

  /** The message of tool results says nothing else. */
  lemma ResultMessageSaysNothing(ids: seq<Str>, run: seq<Result>)
    ensures Read(ResultMessage(ids, run)) == []
  {
    hide AnswerBlocks, MissingBlocks, OrphanBlocks, Answered, ResultIds;
    AnswerCount(run, ids, {}, []);
    MissingCount(ids, run, []);
    OrphansAreNotes(run, ids, {});
    ReadNothing(UserBlock, AnswerBlocks(run, ids, {}) + MissingBlocks(ids, run) + OrphanBlocks(run, ids, {}));
  }

  lemma SingleRead(env: Env, m: Msg, rest: seq<WireMsg>)
    requires !MakesCall(env, m)
    ensures ReadAll(Single(env, m) + rest) == MsgPieces(env, m) + ReadAll(rest)
  {
    hide AssistantBlocks, ContentOr, CallIds, PiecesOr, ReadContent, AssistantPieces;
    match m {
      case User(content) =>
        ContentIsKept(content, EMPTY_TEXT);
        assert (Single(env, m) + rest)[1..] == rest;
      case ToolMsg(r) =>
        assert (Single(env, m) + rest)[1..] == rest;
        OrphanSaysNothing(r);
      case Assistant(parts) =>
        AssistantRead(env, parts);
        if AssistantBlocks(env, parts) == [] {
          assert Single(env, m) + rest == rest;
        } else {
          assert (Single(env, m) + rest)[1..] == rest;
        }
    }
  }

  lemma OrphanSaysNothing(r: Result)
    ensures Read(WireUser(OrphanText(r))) == []
  {
  }

  lemma {:induction false} ResultsHoldNothing(env: Env, msgs: seq<Msg>)
    ensures HistoryPieces(env, msgs) == HistoryPieces(env, msgs[|ResultRun(msgs)|..])
  {
    if msgs != [] && msgs[0].ToolMsg? {
      ResultsHoldNothing(env, msgs[1..]);
      hide ResultRun;
      assert msgs[1..][|ResultRun(msgs[1..])|..] == msgs[1 + |ResultRun(msgs[1..])|..];
      assert |ResultRun(msgs)| == 1 + |ResultRun(msgs[1..])| by { RunCons(msgs); }
    } else {
      assert msgs[0..] == msgs;
    }
  }

  lemma RunCons(msgs: seq<Msg>)
    requires msgs != [] && msgs[0].ToolMsg?
    ensures |ResultRun(msgs)| == 1 + |ResultRun(msgs[1..])|
  {
  }

  lemma ReadTwo(first: WireMsg, second: WireMsg, rest: seq<WireMsg>)
    ensures ReadAll([first, second] + rest) == Read(first) + Read(second) + ReadAll(rest)
  {
    hide Read;
    var w := [first, second] + rest;
    assert w[1..] == [second] + rest && w[1..][1..] == rest;
  }

  lemma {:induction false} ConvertKeeps(env: Env, msgs: seq<Msg>)
    ensures ReadAll(Convert(env, msgs)) == HistoryPieces(env, msgs)
    decreases |msgs|
  {
    if msgs != [] {
      if MakesCall(env, msgs[0]) {
        PairKeeps(env, msgs);
      } else {
        SingleConverts(env, msgs);
        SingleRead(env, msgs[0], Convert(env, msgs[1..]));
        ConvertKeeps(env, msgs[1..]);
      }
      hide Convert, ReadAll, MakesCall, Single, MsgPieces;
    }
  }

  lemma PairKeeps(env: Env, msgs: seq<Msg>)
    requires msgs != [] && MakesCall(env, msgs[0])
    ensures ReadAll(Convert(env, msgs)) == HistoryPieces(env, msgs)
    decreases |msgs|, 0
  {
    hide HistoryPieces, Convert, ReadAll, AssistantBlocks, CallIds, ResultMessage, ResultRun, Read, ReadBlocks;
    var ids, run := CallIds(msgs[0].parts), ResultRun(msgs[1..]);
    var first, rest := WireAssistant(AssistantBlocks(env, msgs[0].parts)), Convert(env, msgs[1 + |run|..]);
    PairConverts(env, msgs);
    ConvertKeeps(env, msgs[1 + |run|..]);
    ReadTwo(first, ResultMessage(ids, run), rest);
    ResultMessageSaysNothing(ids, run);
    PairPieces(env, msgs);
    assert Read(first) == MsgPieces(env, msgs[0]) by { ReplyRead(env, msgs[0]); }
  }

  lemma ReplyRead(env: Env, m: Msg)
    requires m.Assistant?
    ensures Read(WireAssistant(AssistantBlocks(env, m.parts))) == MsgPieces(env, m)
  {
    AssistantRead(env, m.parts);
  }

  lemma PairPieces(env: Env, msgs: seq<Msg>)
    requires msgs != []
    ensures HistoryPieces(env, msgs) == MsgPieces(env, msgs[0]) + HistoryPieces(env, msgs[1 + |ResultRun(msgs[1..])|..])
  {
    ResultsHoldNothing(env, msgs[1..]);
    hide ResultRun, MsgPieces;
    assert msgs[1..][|ResultRun(msgs[1..])|..] == msgs[1 + |ResultRun(msgs[1..])|..];
  }

  /** Nothing is left to answer: no message at all, or the last one that says something is a reply without calls. */
  predicate EndsOpen(env: Env, msgs: seq<Msg>) {
    if msgs == [] then true
    else
      var m := msgs[|msgs| - 1];
      m.Assistant? &&
      (if AssistantPieces(env, m.parts) == [] then EndsOpen(env, msgs[..|msgs| - 1])
       else forall i :: 0 <= i < |m.parts| ==> !m.parts[i].Call?)
  }

  predicate AllSilent(env: Env, msgs: seq<Msg>) {
    forall i :: 0 <= i < |msgs| ==> msgs[i].Assistant? && AssistantPieces(env, msgs[i].parts) == []
  }

  /** What comes last decides, unless it is silent. */
  lemma {:induction false} EndsAppend(env: Env, a: seq<Msg>, b: seq<Msg>)
    ensures EndsOpen(env, a + b) == if AllSilent(env, b) then EndsOpen(env, a) else EndsOpen(env, b)
    decreases |b|
  {
    hide AssistantPieces;
    if b == [] {
      assert a + b == a;
    } else {
      var n := |b| - 1;
      assert (a + b)[..|a + b| - 1] == a + b[..n];
      EndsAppend(env, a, b[..n]);
      assert AllSilent(env, b) <==> AllSilent(env, b[..n]) && b[n].Assistant? && AssistantPieces(env, b[n].parts) == [];
      SilentEnds(env, b[..n]);
    }
  }

  lemma {:induction false} SilentEnds(env: Env, msgs: seq<Msg>)
    ensures AllSilent(env, msgs) ==> EndsOpen(env, msgs)
  {
    hide AssistantPieces;
    if msgs != [] { SilentEnds(env, msgs[..|msgs| - 1]); }
  }

  lemma {:induction false} ReadsSomething(blocks: seq<Block>)
    requires forall b :: b in blocks ==> ReplyBlock(b) != []
    ensures ReadBlocks(ReplyBlock, blocks) == [] <==> blocks == []
  {
  }

  lemma {:induction false} ReplyKinds(env: Env, parts: seq<AssistantPart>)
    ensures forall b :: b in AssistantBlocks(env, parts) ==> ReplyBlock(b) != []
  {
    if parts != [] { ReplyKinds(env, parts[1..]); }
  }

  lemma SilentReply(env: Env, parts: seq<AssistantPart>)
    ensures AssistantBlocks(env, parts) == [] <==> AssistantPieces(env, parts) == []
  {
    AssistantRead(env, parts);
    ReplyKinds(env, parts);
    ReadsSomething(AssistantBlocks(env, parts));
  }

  lemma {:induction false} NoCallIds(parts: seq<AssistantPart>)
    ensures CallIds(parts) == [] <==> forall i :: 0 <= i < |parts| ==> !parts[i].Call?
  {
    if parts != [] {
      NoCallIds(parts[1..]);
      if CallIds(parts) == [] {
        forall i | 0 <= i < |parts| ensures !parts[i].Call? {
          if i > 0 { assert parts[i] == parts[1..][i - 1]; }
        }
      }
    }
  }

  lemma OneEnds(env: Env, m: Msg)
    ensures EndsOpen(env, [m]) <==> m.Assistant? && !MakesCall(env, m)
    ensures AllSilent(env, [m]) <==> m.Assistant? && AssistantBlocks(env, m.parts) == []
  {
    hide AssistantPieces, AssistantBlocks, CallIds;
    assert [m][..0] == [];
    if m.Assistant? {
      SilentReply(env, m.parts);
      NoCallIds(m.parts);
    }
  }

  predicate LeavesOpen(w: seq<WireMsg>) {
    w == [] || w[|w| - 1].WireAssistant?
  }

  lemma {:induction false} LastConverted(env: Env, msgs: seq<Msg>)
    ensures LeavesOpen(Convert(env, msgs)) <==> EndsOpen(env, msgs)
    ensures Convert(env, msgs) == [] <==> AllSilent(env, msgs)
    decreases |msgs|
  {
    if msgs != [] {
      hide Convert, EndsOpen, AllSilent, MakesCall, Single;
      OneEnds(env, msgs[0]);
      if MakesCall(env, msgs[0]) {
        LastOfPair(env, msgs);
      } else {
        LastConverted(env, msgs[1..]);
        LastOfSingle(env, msgs);
      }
    }
  }

  lemma LastOfSingle(env: Env, msgs: seq<Msg>)
    requires msgs != [] && !MakesCall(env, msgs[0])
    requires LeavesOpen(Convert(env, msgs[1..])) <==> EndsOpen(env, msgs[1..])
    requires Convert(env, msgs[1..]) == [] <==> AllSilent(env, msgs[1..])
    ensures LeavesOpen(Convert(env, msgs)) <==> EndsOpen(env, msgs)
    ensures Convert(env, msgs) == [] <==> AllSilent(env, msgs)
  {
    hide Convert, EndsOpen, AllSilent, MakesCall, AssistantBlocks, ContentOr;
    OneEnds(env, msgs[0]);
    SingleConverts(env, msgs);
    assert msgs == [msgs[0]] + msgs[1..];
    EndsAppend(env, [msgs[0]], msgs[1..]);
    SilentCons(env, msgs);
  }

  lemma SilentCons(env: Env, msgs: seq<Msg>)
    requires msgs != []
    ensures AllSilent(env, msgs) <==> AllSilent(env, [msgs[0]]) && AllSilent(env, msgs[1..])
  {
    hide AssistantPieces;
    assert forall i :: 0 < i < |msgs| ==> msgs[i] == msgs[1..][i - 1];
    assert [msgs[0]][0] == msgs[0];
  }

  lemma LastOfPair(env: Env, msgs: seq<Msg>)
    requires msgs != [] && MakesCall(env, msgs[0])
    ensures LeavesOpen(Convert(env, msgs)) <==> EndsOpen(env, msgs)
    ensures Convert(env, msgs) == [] <==> AllSilent(env, msgs)
    decreases |msgs|, 0
  {
    assert msgs[0].Assistant? && AssistantBlocks(env, msgs[0].parts) != [];
    hide Convert, EndsOpen, AllSilent, ResultRun, AssistantBlocks, CallIds, ResultMessage, MakesCall, LeavesOpen;
    var run := ResultRun(msgs[1..]);
    var rest := msgs[1 + |run|..];
    PairConverts(env, msgs);
    LastConverted(env, rest);
    PairLeaves(WireAssistant(AssistantBlocks(env, msgs[0].parts)), CallIds(msgs[0].parts), run, Convert(env, rest));
    assert msgs == msgs[..1 + |run|] + rest;
    EndsAppend(env, msgs[..1 + |run|], rest);
    CallsEnd(env, msgs);
    OneEnds(env, msgs[0]);
    SilentCons(env, msgs);
  }

  lemma PairLeaves(first: WireMsg, ids: seq<Str>, run: seq<Result>, rest: seq<WireMsg>)
    ensures LeavesOpen([first, ResultMessage(ids, run)] + rest) <==> rest != [] && LeavesOpen(rest)
  {
    hide AnswerBlocks, MissingBlocks, OrphanBlocks;
  }

  /** A reply with calls and the results behind it leave nothing open. */
  lemma CallsEnd(env: Env, msgs: seq<Msg>)
    requires msgs != [] && MakesCall(env, msgs[0])
    ensures !EndsOpen(env, msgs[..1 + |ResultRun(msgs[1..])|])
  {
    var run := ResultRun(msgs[1..]);
    if run == [] {
      assert msgs[..1] == [msgs[0]];
      OneEnds(env, msgs[0]);
    } else {
      var k := |run| - 1;
      assert msgs[1..][k] == ToolMsg(run[k]);
    }
  }

  /**
   * For every history: the built messages say exactly what the history holds besides tool results,
   * in order and by the same speaker: user texts and images ("(empty)" for a user message that holds
   * nothing), assistant texts, redacted data, plausibly signed thinking and calls; and a closing
   * "(continue)" exactly when no user message would come last.
   */
  lemma HistoryIsKept(env: Env, msgs: seq<Msg>)
    ensures ReadAll(Format(env, msgs)) == HistoryPieces(env, msgs) + (if EndsOpen(env, msgs) then [Heard(CONTINUE)] else [])
  {
    hide Convert, HistoryPieces;
    ConvertKeeps(env, msgs);
    LastConverted(env, msgs);
    ReadSnoc(Convert(env, msgs), WireUser(PlainText(CONTINUE)));
  }

  lemma {:induction false} ReadSnoc(w: seq<WireMsg>, m: WireMsg)
    ensures ReadAll(w + [m]) == ReadAll(w) + Read(m)
  {
    hide Read;
    if w == [] {
      assert w + [m] == [m] && [m][1..] == [];
    } else {
      assert (w + [m])[1..] == w[1..] + [m];
      ReadSnoc(w[1..], m);
    }
  }

  /** What a tool_result block carries: its result's content, or the fixed note that there was none. */
  function BodyContent(body: Body): WireContent {
    match body
    case Rendered(r) => ContentOr(r.content, EMPTY_OUTPUT)
    case Missing => PlainText(MISSING_RESULT)
  }

  predicate NoEmptyText(blocks: seq<Block>) {
    forall b :: b in blocks && b.Text? ==> b.text != []
  }

  /** Neither a text block nor the content of a tool_result is empty or holds empty text. */
  predicate AllFilled(blocks: seq<Block>) {
    && NoEmptyText(blocks)
    && forall b :: b in blocks && b.ToolResult? ==> Filled(BodyContent(b.body))
  }

  predicate Filled(c: WireContent) {
    match c
    case PlainText(text) => text != []
    case Blocks(blocks) => blocks != [] && NoEmptyText(blocks)
    case OrphanText(_) => true
  }

  lemma BodyFilled(body: Body)
    ensures Filled(BodyContent(body))
  {
  }

  lemma BlocksFilled(blocks: seq<Block>)
    requires NoEmptyText(blocks)
    ensures AllFilled(blocks)
  {
    hide Filled, BodyContent;
    forall b | b in blocks && b.ToolResult? { BodyFilled(b.body); }
  }

  /** What the upstream rejects does not occur: empty content, empty text. */
  predicate Acceptable(m: WireMsg) {
    match m
    case WireUser(PlainText(text)) => text != []
    case WireUser(OrphanText(_)) => true
    case WireUser(Blocks(blocks)) => blocks != [] && AllFilled(blocks)
    case WireAssistant(blocks) => blocks != [] && AllFilled(blocks)
  }

  lemma {:induction false} AssistantTexts(env: Env, parts: seq<AssistantPart>)
    ensures NoEmptyText(AssistantBlocks(env, parts))
  {
    if parts != [] {
      AssistantTexts(env, parts[1..]);
    }
  }

  lemma ResultMessageTextless(ids: seq<Str>, run: seq<Result>)
    ensures NoEmptyText(ResultMessage(ids, run).content.blocks)
  {
    hide AnswerBlocks, MissingBlocks, OrphanBlocks, Answered, ResultIds;
    AnswerCount(run, ids, {}, []);
    MissingCount(ids, run, []);
    OrphansAreNotes(run, ids, {});
  }

  lemma ResultMessageAcceptable(ids: seq<Str>, run: seq<Result>)
    requires ids != []
    ensures Acceptable(ResultMessage(ids, run))
  {
    hide AllFilled, Answered, ResultMessage, NoEmptyText, BodyContent;
    ResultMessageTextless(ids, run);
    ResultMessageCounts(ids, run, ids[0]);
    assert multiset(ids)[ids[0]] > 0;
    assert ResultIds([]) == [];
    assert ResultMessage(ids, run).WireUser? && ResultMessage(ids, run).content.Blocks? by { ResultMessageShape(ids, run); }
    BlocksFilled(ResultMessage(ids, run).content.blocks);
  }

  lemma {:induction false} ConvertAcceptable(env: Env, msgs: seq<Msg>, k: nat)
    requires k < |Convert(env, msgs)|
    ensures Acceptable(Convert(env, msgs)[k])
    decreases |msgs|
  {
    hide AssistantBlocks, CallIds, ResultMessage;
    match msgs[0] {
      case User(content) =>
        if k > 0 { ConvertAcceptable(env, msgs[1..], k - 1); }
      case ToolMsg(r) =>
        if k > 0 { ConvertAcceptable(env, msgs[1..], k - 1); }
      case Assistant(parts) =>
        AssistantTexts(env, parts);
        if AssistantBlocks(env, parts) == [] {
          ConvertAcceptable(env, msgs[1..], k);
        } else if CallIds(parts) == [] {
          if k > 0 { ConvertAcceptable(env, msgs[1..], k - 1); }
        } else {
          ResultMessageAcceptable(CallIds(parts), ResultRun(msgs[1..]));
          if k > 1 { ConvertAcceptable(env, msgs[1 + |ResultRun(msgs[1..])|..], k - 2); }
        }
    }
  }

  /** For every history: no built message, text block or tool_result content is empty, and the last message is a user message. */
  lemma FormatIsAcceptable(env: Env, msgs: seq<Msg>)
    ensures var w := Format(env, msgs);
      && w != [] && w[|w| - 1].WireUser?
      && forall k :: 0 <= k < |w| ==> Acceptable(w[k])
  {
    hide Convert;
    var w := Convert(env, msgs);
    forall k | 0 <= k < |w| ensures Acceptable(w[k]) {
      ConvertAcceptable(env, msgs, k);
    }
    hide Acceptable;
    assert Acceptable(WireUser(PlainText(CONTINUE))) by { ContinueAcceptable(); }
  }

  lemma ContinueAcceptable()
    ensures Acceptable(WireUser(PlainText(CONTINUE)))
  {
  }
}
