# Verified model of the proxy's wire core

A Dafny model of the parts of the proxy that turn provider streams, images, histories, schemas and
configuration files into something a strict peer accepts, with machine-checked proofs of what they
promise. `dafny verify dfyconfig.toml` checks everything.

How it is organised: where the program works by changing state, a `class` has its fields and methods, and
each method is proved to change the state exactly as a specification function says; the theorems are about
those functions, over every input, every run and every interleaving.

| files | part of the program |
|---|---|
| `Freeform` | live decoding of a freeform tool call's input |
| `BridgeTypes`, `BridgeCore`, `Bridge` | the Responses bridge: events in, numbered frames out |
| `BridgeItems`, `BridgeOrderly`, `BridgeFrames` | what a client makes of the frames, as a property of the event list too; where terminal frames come from |
| `BridgeText`, `BridgeContent`, `BridgeHidden`, `BridgeRedacted`, `BridgeCitations` | what a response holds, read off the events: text, visible and hidden thinking, raw reasoning, calls, searches, citations |
| `BridgeBatch`, `BridgeRefinement` | the non-streaming builder, and the refinement between the two |
| `BridgeGrowth`, `BridgeExactness`, `BridgeCompaction`, `BridgeDivergence` | exactly when the two agree, and where they really differ |
| `BridgeProtocol`, `BridgeBeats` | pulls, beats, arrivals and cancellation in any order; stalls, keep-alives and back-pressure over whole runs |
| `ImageCache`, `ImageLadder`, `ImagePool`, `ImageBudget`, `ImageContent`, `ImageGuard` | the image pipeline |
| `AnthropicHistory` | building a history with strict call/result adjacency |
| `CanonicalJson`, `CallKey`, `GoogleReplay`, `GoogleReplayRuns` | the thought-signature replay cache and its key |
| `GoogleJson`, `GoogleSchema`, `GoogleSchemaProofs`, `GoogleSchemaContent` | the function-schema sanitizer: what comes out, and what is kept |
| `GoogleCodec`, `GoogleCompile`, `GoogleCompileProofs`, `GoogleCompileContent` | tool names and the request compiler |
| `AtomicWrite`, `ConfigBackup`, `ConfigMerge` | configuration files |
| `ResourceStore`, `ResourceStoreRuns` | the dashboard's fetch cache |

## What the proofs brought to light

Several naive claims are false of the code. For each, the model keeps the code as it is, and the theorem
carries the condition under which the claim holds; where the condition is exact the theorem is an
if-and-only-if.

- The partial decoder reads `\b` and `\f` as plain letters, so the live preview of a freeform call equals
  its input exactly when the text has neither (`src/bridge.ts:177`).
- An item opened inside a running search, or hidden reasoning flushed while an item stays open, reuses that
  item's output index. `BridgeItems.Tame` is the exact guard, event by event, and `BridgeOrderly.AllOrderly`
  says it of the event list.
- Stream and batch response are not always the same. `BridgeRefinement.Matched` is the exact guard: once an
  event misses it the items differ, whatever follows. It fails, for one, when thinking goes on after its
  signature, when text stands open at the end of a search, when an item got only empty deltas, and when an
  empty stop reason counts as a clean finish in the stream, which tests truthiness, but not in the batch
  builder, which tests for undefined (`src/bridge.ts:700` and `src/bridge.ts:1148`).
- A stream without a terminal event ends as incomplete, the batch builder calls the same events completed:
  the two statuses agree exactly when the adapter announced the end.
- Redacted blocks waiting when the upstream throws, or when it fails, ends early or stalls with no visible
  thinking open, are lost by the stream; the batch loses none.
- A compaction turn has the same items on both sides exactly when it was not truncated and no event besides
  its text would have left an item.
- The replay cache does not refresh a slot's expiry when nothing new was observed: a slot lives for an hour
  from its last change, so a busy session whose signatures do not change still loses them
  (`src/adapters/google-antigravity-replay.ts:94`).
- Two model names collide in the replay cache exactly when one name followed by `::session:` is a prefix of
  the other followed by `::session:`. Function names with colons are harmless: the call key is exact.
- A token cap between zero and one is floored to zero, which a second compilation drops
  (`src/adapters/google-wire-compiler.ts:122`).
- An image that passes through at the terminal position after having been re-encoded keeps its smaller
  bytes on the wire while the full source length is tracked: the tracked sum is exact if and only if no image
  is in that state, and an upper bound otherwise (`src/adapters/anthropic-image-normalize.ts:386`).
- A history whose assistant message calls one id twice is repaired only if that id stays unanswered.
- Saving a subtree whose arrays hold `undefined` leaves disk and memory disagreeing until the next load.
- The dashboard's store replaces a request whose owner left so that nobody stays stuck on `loading`; one way
  in remains: a reload of existing data, dropped with the last subscriber, leaves the flag up for a subscriber
  that comes back before the store is evicted (`gui/src/client-resource.ts:178-190`).
- Hidden thinking without a signature or a redacted block beside it is dropped at the next flush; hidden raw
  reasoning never is, compaction turns aside.

## Model

| member | source | states |
|---|---|---|
| `Freeform.FreeformPartialInput` | src/bridge.ts:159-181 | the unwrapped preview is the one the specification function `Partial` gives for every argument buffer |
| `Freeform.DecodeLoop` | src/bridge.ts:161-180 | the decoding loop yields exactly `Decode`, for bodies cut anywhere |
| `Freeform.DecodeGrows` | src/bridge.ts:154-181 | decoding a longer buffer extends what was decoded before; nothing already sent is taken back |
| `Freeform.PreviewGrows` | src/bridge.ts:638-650 | once the buffer cannot be the wrapper any more, the preview only grows by suffix |
| `Freeform.DeltasAddUp` | src/bridge.ts:637-651 | for every chunking of every buffer, the emitted deltas concatenate to the preview of the whole buffer |
| `Freeform.DecodeSpelling` | src/bridge.ts:163-179 | a complete string spelled by any RFC 8259 (section 7) tokens decodes token by token |
| `Freeform.StreamedInputIsTheInput` | src/bridge.ts:150-181 | for every string, spelling and chunking, the streamed deltas equal the string of the completed call if and only if no `\b` or `\f` escape is used |
| `Freeform.StringifiedInputStreamsFaithfully` | src/bridge.ts:150-181 | for strings written by JSON.stringify the deltas equal the string if and only if it holds neither U+0008 nor U+000C |
| `BridgeItems.CloseMessageSound` | src/bridge.ts:317-343 | closing a message finishes the item the client saw added, with exactly the collected text |
| `BridgeItems.CloseReasoningSound` | src/bridge.ts:345-364 | the same for visible reasoning, envelope included |
| `BridgeItems.CloseRawSound` | src/bridge.ts:366-376 | the same for raw reasoning |
| `BridgeItems.CloseToolSound` | src/bridge.ts:378-418 | the same for tool calls; empty arguments are finished as `{}` |
| `BridgeItems.CloseSearchSound` | src/bridge.ts:425-436 | the same for the web-search cell |
| `BridgeItems.FlushEnvelopeSound` | src/bridge.ts:269-279 | an envelope-only item is added and finished at one fresh index when nothing is open |
| `BridgeItems.FlushHiddenRawSound` | src/bridge.ts:286-296 | hidden raw reasoning becomes one item when nothing is open |
| `BridgeItems.OnToolDeltaSound` | src/bridge.ts:628-653 | tool deltas keep the client's collected text in step with the call, for plain, freeform and search tools |
| `BridgeItems.AdvanceVerdict` | src/bridge.ts:511-847 | for every sound state and every input and option: the client still understands the log if and only if the guard `Tame` held; an ending leaves it closed |
| `BridgeItems.OpenRun` | src/bridge.ts:485-847 | for every unfinished run: sound if and only if every input was tame, otherwise broken for good |
| `BridgeItems.BracketedIffTame` | src/bridge.ts:485-892 | for every ended run and all options: each item is added once, done once at its index with its collected text, and repeated by the terminal frame, exactly when every input was tame |
| `BridgeItems.FreeformCallIsStreamed` | src/bridge.ts:637-651 | in every tame run, the text a client collected for a freeform call equals the finished item's input exactly when the spelling has no `\b` or `\f` |
| `BridgeText.EndingSaid` | src/bridge.ts:699-847 | every ending but a thrown one closes the open message and loses no text |
| `BridgeText.AdvanceSaid` | src/bridge.ts:523-553 | each input adds exactly its own text to what the messages say |
| `BridgeText.TextIsConserved` | src/bridge.ts:523-847 | for every run, tame or not, message texts concatenate to all text deltas in order; after any non-thrown ending all of it is in finished items |
| `BridgeContent.CloseToolTold` | src/bridge.ts:378-418 | closing a tool call writes the call the events made: under the client's name and namespace, as function call, freeform call or tool search, with the collected arguments |
| `BridgeContent.EventTakes` | src/bridge.ts:511-698 | every event adds to what a stream tells exactly its own text, visible thinking or raw reasoning, the call it ends and the searches it finishes or abandons |
| `BridgeContent.StreamTellsAll` | src/bridge.ts:485-847 | for every event list and ending: the items of the stream hold exactly the text, visible thinking, raw reasoning, tool calls and web searches of the events, in order; what stood open at a throw is missing |
| `BridgeContent.TakeTakes` | src/bridge.ts:1056-1154 | every event adds the same to what the batch tells, calls ended by the events that end them there |
| `BridgeContent.BatchTellsAll` | src/bridge.ts:928-1199 | for every event list and all options the output of the batch holds exactly those, in order |
| `BridgeContent.BatchReports` | src/bridge.ts:1136-1199 | for every event list: failed with the last error, else incomplete with the last cut or truncated finish, else completed; end-of-turn from the last event that has one |
| `BridgeHidden.FlushEnvelopeHides` | src/bridge.ts:269-279 | the flush writes one envelope with signature, redacted blocks and collected thinking when either of the first two is there, and drops the thinking otherwise |
| `BridgeHidden.EventHides` | src/bridge.ts:511-698 | with hiding on, every event writes exactly the envelopes it calls for and leaves exactly the rest waiting |
| `BridgeHidden.StreamHides` | src/bridge.ts:554-606 | for every unfinished run with hiding on: what waits is all thinking, blocks and raw reasoning since the last event that flushed them, and no item shows any |
| `BridgeHidden.StreamedThinkingReturns` | src/bridge.ts:257-296 | for every event list and ending with hiding on: the reasoning items show nothing, and their envelopes, in order, are exactly those the events call for |
| `BridgeHidden.SignedThinkingReturns` | src/bridge.ts:554-584 | a block of events and its signature, anywhere in a run, adds one envelope with the signature, all redacted data and all the thinking of that block |
| `BridgeHidden.StreamedRawReturns` | src/bridge.ts:286-296 | at every ending all hidden raw reasoning is in the envelopes, each delta once and in order |
| `BridgeHidden.BatchedThinkingReturns` | src/bridge.ts:989-1022 | for every event list with hiding on, the envelopes of the batch are exactly those its flush points call for, and no item shows reasoning |
| `BridgeHidden.BatchedRawReturns` | src/bridge.ts:1008-1022 | the batch too has every hidden raw delta in its envelopes once, in order |
| `BridgeBatch.Builder.Build` | src/bridge.ts:928-1199 | the loop over accumulators returns the response the batch specification gives for every event list |
| `BridgeBatch.Builder.OnEvent` | src/bridge.ts:1056-1154 | one round of the loop changes the accumulators as specified for every event |
| `BridgeBatch.Builder.FlushSummaryNow` | src/bridge.ts:989-1006 | flushing summary reasoning writes text and envelope as the hide option demands |
| `BridgeBatch.Builder.FlushCallNow` | src/bridge.ts:1024-1054 | flushing a tool call writes the item of its kind under its real name |
| `BridgeBatch.Builder.OnText` | src/bridge.ts:1064-1078 | a text delta flushes what is open and appends under its phase |
| `BridgeBatch.Builder.OnDone` | src/bridge.ts:1145-1152 | a done event sets end-of-turn, stop reason and clean completion |
| `BridgeRefinement.CloseContentAligned` | src/bridge.ts:663-667 | closing every open item in the stream matches flushing every accumulator in the batch |
| `BridgeRefinement.ThinkingAligned` | src/bridge.ts:554-576 | visible thinking keeps both sides aligned |
| `BridgeRefinement.SignatureRelated` | src/bridge.ts:577-584 | a signature keeps both sides related although the batch writes its item at once |
| `BridgeRefinement.SearchEndAligned` | src/bridge.ts:677-698 | a finished search gives both sides the same item and pending citations |
| `BridgeRefinement.OpeningStep` | src/bridge.ts:523-606 | an item opened by an empty delta keeps both sides related until its first text, or whatever else leaves it open |
| `BridgeRefinement.StepRelated` | src/bridge.ts:511-698 | every non-terminal event that meets the guard keeps stream and batch related; `BridgeExactness.OffGuardDooms` has the converse |
| `BridgeRefinement.TerminalMatches` | src/bridge.ts:699-794 | every terminal event that meets the guard gives both sides the same response; `BridgeExactness.TerminalMatchesExactly` has the converse |
| `BridgeRefinement.StreamRefinesBatch` | src/bridge.ts:485-1199 | for every event list meeting the guard at each step, with signatures and redacted blocks: stream and batch carry the same items up to fresh ids, and the same status, reason and end-of-turn flag; `BridgeExactness.StreamMatchesBatchExactly` makes it an if-and-only-if |
| `BridgeGrowth.StreamTally` | src/bridge.ts:511-794 | each event adds to the stream exactly the searches it ends, and no more signed items than signatures |
| `BridgeGrowth.BatchTally` | src/bridge.ts:1056-1154 | each event adds to the batch one search per search end and one signed item per signature |
| `BridgeGrowth.TakeWrites` | src/bridge.ts:1056-1154 | the next item the batch writes, whatever the event, is one that holds exactly what it had collected |
| `BridgeGrowth.BatchIsSolid` | src/bridge.ts:972-1060 | for every event list and all options the batch response holds no empty message, no empty reasoning text and no call without an id |
| `BridgeExactness.DoomedStays` | src/bridge.ts:511-698 | once the two sides hold something the other cannot have, they do so whatever follows |
| `BridgeExactness.DoomedEnds` | src/bridge.ts:699-794 | and every terminal event then leaves different items |
| `BridgeExactness.UnpairedDooms` | src/bridge.ts:659-689 | a search ended by another begin or a foreign end is one search more in the stream, for all related states |
| `BridgeExactness.OpenAtSearchEndDooms` | src/bridge.ts:677-698 | content open at a search end is written after it in the stream and before it in the batch, for all related states |
| `BridgeExactness.ContinuationDooms` | src/bridge.ts:659-667 | content continued after a search began outgrows the item the stream closed at the begin |
| `BridgeExactness.SealedDooms` | src/bridge.ts:577-588 | thinking or redacted blocks after a signature go into an item the batch has already written |
| `BridgeExactness.BoundaryOutOfOrderDooms` | src/bridge.ts:655-658 | redacted blocks waiting behind raw reasoning or a call are written after it by the stream and before it by the batch |
| `BridgeExactness.HollowDooms` | src/bridge.ts:523-627 | a call without an id, or an item that got only empty deltas and is closed, is in the stream only |
| `BridgeExactness.OffGuardDooms` | src/bridge.ts:511-698 | for all related states: every non-terminal event off the guard sets the two sides apart for good |
| `BridgeExactness.TerminalMatchesExactly` | src/bridge.ts:699-794 | for all related states: after a terminal event the responses agree if and only if the guard held |
| `BridgeExactness.LostRedactedDiffers` | src/bridge.ts:771-777 | for all aligned states: redacted blocks waiting at an error with no thinking open make one item more in the batch |
| `BridgeExactness.EmptyStopReasonDiffers` | src/bridge.ts:700 | for all aligned states: with an unclassified message open, an empty stop reason gives the two sides different phases |
| `BridgeExactness.StreamMatchesBatchExactly` | src/bridge.ts:485-1199 | for every event list with one terminal event at its end, empty signatures and odd events inside a search aside: the two responses agree if and only if every event met the guard, and their items alone already tell |
| `BridgeRedacted.BatchLosesNone` | src/bridge.ts:989-1006 | for every event list and all options the batch response carries every redacted block, in order |
| `BridgeRedacted.StreamLosesOnly` | src/bridge.ts:257-279 | for every event list and every ending the stream carries every redacted block in order, save exactly those lost at the end |
| `BridgeCompaction.CompactionAgreesExactly` | src/bridge.ts:511-522 | for every event list of a compaction turn: stream and batch hold the same items if and only if every earlier event is silent and the turn was not truncated |
| `BridgeDivergence.MissingTerminalDiverges` | src/bridge.ts:828-847 | for every event list, every ending and all options: both sides report the same status if and only if the adapter announced the end; otherwise the stream is incomplete (failed after a throw) and the batch completed |
| `BridgeDivergence.RedactedDiverges` | src/bridge.ts:771-841 | for every event list and every ending: both sides carry the same redacted blocks if and only if none waits at a throw, or at an error, an early end or a stall with no thinking open; otherwise the items differ |
| `BridgeDivergence.EmptyTextDiverges` | src/bridge.ts:533-546 | for every event list that leaves open a message with only empty deltas, every ending but a throw makes the items differ |
| `BridgeDivergence.AdjacentThinkingDiverges` | src/bridge.ts:577-583 | for every list in the scope of the exactness theorem: thinking that goes on right after its signature makes the items differ |
| `BridgeDivergence.TextBeforeSearchEndDiverges` | src/bridge.ts:677-698 | for every list in the scope of the exactness theorem: text right before the end of a search makes the items differ |
| `BridgeOrderly.TracksAll` | src/bridge.ts:485-794 | for visible thinking and no compaction: every input is tame if and only if the event list is orderly, a property of the list alone |
| `BridgeOrderly.BracketedIffOrderly` | src/bridge.ts:485-794 | for such options: a client accepts the stream of an event list if and only if the list is orderly |
| `BridgeOrderly.TextInsideSearchBreaks` | src/bridge.ts:523-552 | text inside a search breaks the stream for the client, whatever the ending |
| `BridgeOrderly.PlainListsAgree` | src/bridge.ts:485-1199 | for every plain event list, a property of the list alone, stream and batch agree in status, reason, end-of-turn flag and items |
| `BridgeCitations.MergeAppends` | src/bridge.ts:690-696 | merging sources keeps those that wait, doubles no URL and misses none |
| `BridgeCitations.CloseMessageDue` | src/bridge.ts:308-343 | a closed message gets every waiting citation and leaves none |
| `BridgeCitations.CitationsAreConserved` | src/bridge.ts:304-315 | for every run and all options: the annotations of all messages, then those still waiting, are the incoming sources in order, each once, with their URL and their title unless it is empty; and no message cites a URL twice |
| `BridgeFrames.EventEndFree` | src/bridge.ts:511-698 | no non-terminal event ever emits a terminal frame |
| `BridgeFrames.EndingFrames` | src/bridge.ts:699-847 | every ending appends exactly one terminal frame, last, with its own status |
| `BridgeFrames.EndingReports` | src/bridge.ts:699-847 | for every ending of every run the last frame reports its status, its cause, its end-of-turn flag and the finished items |
| `BridgeProtocol.ArriveInv` | src/bridge.ts:491-858 | handling an upstream event, the end of events or a throw keeps the protocol invariant in every interleaving |
| `BridgeProtocol.BeatInv` | src/bridge.ts:865-905 | a beat (keep-alive, stall or nothing) keeps the protocol invariant |
| `BridgeProtocol.DoInv` | src/bridge.ts:485-924 | every action keeps the protocol invariant |
| `BridgeProtocol.ClosedIsFinal` | src/bridge.ts:212-230 | once closed, wire, reports and sequence numbers never change again |
| `BridgeProtocol.TerminalProtocol` | src/bridge.ts:188-230 | for every interleaving of pulls, arrivals, beats and cancellation: numbers 0, 1, 2, ...; at most one terminal frame with `[DONE]` right behind it and nothing after; one report, with that status |
| `BridgeProtocol.SilentAfterCancel` | src/bridge.ts:916-924 | after a cancellation nothing is sent or reported, whatever happens later |
| `BridgeProtocol.EndingReachesTheWire` | src/bridge.ts:796-858 | an uncancelled step that sees a terminal event, end of events or throw leaves terminal frame and end marker on the wire |
| `BridgeProtocol.ClientHoldsTheResponse` | src/bridge.ts:485-926 | in every interleaving that ran to its end the client accepts the stream if and only if the handled inputs were tame, and then holds the terminal output |
| `BridgeProtocol.ClientHoldsAPrefix` | src/bridge.ts:188-230 | in every interleaving, cancelled or torn ones included, the client holds a prefix of the log, all of it unless the controller tore, and can make sense of it if the inputs were tame |
| `BridgeBeats.StallsExactlyInTime` | src/bridge.ts:865-893 | for every interleaving, a beat gives the upstream up exactly when it has been silent for `maxStallTicks` beats, the first beat after an event not counted |
| `BridgeBeats.NeverSilentForTwoBeats` | src/bridge.ts:894-905 | for every interleaving, between two beats the client gets at least one frame, and a keep-alive exactly when there was no other |
| `BridgeBeats.StepsYield` | src/bridge.ts:485-490 | for every interleaving, a pull of an open stream starts a step, and while the step awaits the client has got nothing since the pull but keep-alives |
| `Bridge.Stream.Emit` | src/bridge.ts:212-221 | one numbered frame goes out unless closed; a failing enqueue closes the stream |
| `Bridge.Stream.EmitDone` | src/bridge.ts:222-230 | the end marker goes out unless closed |
| `Bridge.Stream.ReportTerminal` | src/bridge.ts:195-199 | the terminal callback fires at most once and never after closing or cancelling |
| `Bridge.ItemBook.CloseCurrentMessage` | src/bridge.ts:317-343 | the fields change as the specification of closing a message says, and its frames reach the stream |
| `Bridge.ItemBook.TakeEnvelope` | src/bridge.ts:257-266 | the pending signature and redacted blocks become one envelope and are cleared |
| `Bridge.ItemBook.CloseCurrentReasoning` | src/bridge.ts:345-364 | the same for visible reasoning |
| `Bridge.ItemBook.CloseCurrentRaw` | src/bridge.ts:366-376 | the same for raw reasoning |
| `Bridge.ItemBook.CloseCurrentTool` | src/bridge.ts:378-418 | the same for tool calls |
| `Bridge.ItemBook.CloseCurrentSearch` | src/bridge.ts:425-436 | the same for the search cell |
| `Bridge.ItemBook.FlushHiddenEnvelope` | src/bridge.ts:269-279 | the same for envelope-only items |
| `Bridge.ItemBook.FlushHiddenRawReasoning` | src/bridge.ts:286-296 | the same for hidden raw reasoning |
| `Bridge.ItemBook.OnTextDelta` | src/bridge.ts:523-553 | a text delta changes the open slots as specified |
| `Bridge.ItemBook.OnThinkingDelta` | src/bridge.ts:554-576 | a thinking delta is collected when hidden, and otherwise opens or extends visible reasoning; `BridgeHidden` and `BridgeContent` say what becomes of it |
| `Bridge.ItemBook.OnThinkingSignature` | src/bridge.ts:577-584 | a signature is kept for the open reasoning or flushed at once |
| `Bridge.ItemBook.OnRawDelta` | src/bridge.ts:589-606 | a raw reasoning delta changes the open slots as specified |
| `Bridge.ItemBook.OnToolCallStart` | src/bridge.ts:607-627 | a tool call opens under its mapped name and kind |
| `Bridge.ItemBook.OnToolCallDelta` | src/bridge.ts:628-654 | arguments accumulate and are streamed by kind |
| `Bridge.ItemBook.OnSearchCallBegin` | src/bridge.ts:659-676 | a search cell opens after everything else was closed |
| `Bridge.ItemBook.OnSearchCallEnd` | src/bridge.ts:677-698 | a search cell closes, or is synthesized, and its sources queue up once per URL |
| `Bridge.ItemBook.OnDoneEvent` | src/bridge.ts:699-746 | a done event closes everything and emits its terminal frame |
| `Bridge.ItemBook.OnFailure` | src/bridge.ts:747-847 | incomplete, error, end of events and stall close everything and emit their terminal frame |
| `Bridge.ItemBook.OnThrown` | src/bridge.ts:803-813 | a throw flushes hidden reasoning and the search only, then fails |
| `Bridge.ItemBook.HandleInput` | src/bridge.ts:491-847 | every input changes all fields as the specification says |
| `Bridge.Bridge.Pull` | src/bridge.ts:485-490 | a pull starts a step unless one runs or the stream is closed |
| `Bridge.Bridge.Arrive` | src/bridge.ts:491-858 | one awaited result changes the whole bridge as the protocol machine says |
| `Bridge.Bridge.Beat` | src/bridge.ts:865-905 | the beat callback changes the whole bridge as the protocol machine says |
| `Bridge.Bridge.Cancel` | src/bridge.ts:916-924 | cancelling closes the stream and marks the client gone |
| `ImageCache.PutFits` | src/adapters/anthropic-image-normalize.ts:108-124 | after every put: stored bytes within 64 MiB unless the new entry alone exceeds it, unique keys, the new value present, and only an oldest run gone, no longer than the new entry needed |
| `ImageCache.TouchKeeps` | src/adapters/anthropic-image-normalize.ts:126-133 | a lookup reorders the cache without changing its entries or bytes |
| `ImageCache.RecentUseStays` | src/adapters/anthropic-image-normalize.ts:108-133 | in every run of stores and lookups the entries stand in the order of their last use |
| `ImageCache.Lru.CachePut` | src/adapters/anthropic-image-normalize.ts:108-124 | the map and the running byte count change as specified; the count stays the sum of stored lengths |
| `ImageCache.Lru.CacheGet` | src/adapters/anthropic-image-normalize.ts:126-133 | a hit returns the stored value and moves it to the newest end |
| `ImageLadder.PutTruthful` | src/adapters/anthropic-image-normalize.ts:215-250 | storing what a position made of an image keeps every entry true under any eviction |
| `ImageLadder.HitIsTrue` | src/adapters/anthropic-image-normalize.ts:215-218 | a hit in a truthful cache is what that position really makes of the image |
| `ImageLadder.Ladder.TryQualities` | src/adapters/anthropic-image-normalize.ts:231-248 | the quality loop gives the first encoding within the cap, the last one at the terminal position, or a miss |
| `ImageLadder.Ladder.Process` | src/adapters/anthropic-image-normalize.ts:197-253 | from every reachable cache state the result equals the one from the empty cache |
| `ImageContent.LadderTakesTheFirst` | src/adapters/anthropic-image-normalize.ts:197-253 | for every image, codec and starting position, the ladder gives r if and only if r is the outcome of the first attempt, in the order of positions and qualities, that is not too big |
| `ImageContent.FirstPassTreats` | src/adapters/anthropic-image-normalize.ts:312-358 | for every target of every call: left alone, dropped as a bomb, dropped as undecodable, or treated by the ladder's result from the position its age and the bias give it |
| `ImageContent.DemotionTreats` | src/adapters/anthropic-image-normalize.ts:371-392 | a demotion drops, keeps or replaces an image by the ladder's result from the next position |
| `ImagePool.StepInv` | src/adapters/anthropic-image-normalize.ts:312-358 | every worker step and every interference with the cache keeps the pool invariant |
| `ImagePool.RunInv` | src/adapters/anthropic-image-normalize.ts:312-365 | the invariant holds in every state of every interleaving |
| `ImagePool.FixedPool` | src/adapters/anthropic-image-normalize.ts:311-364 | at most four images are ever in flight |
| `ImagePool.PoolIsConfluent` | src/adapters/anthropic-image-normalize.ts:302-365 | whenever all workers stopped without failure, entries and target mutations equal a sequential pass from the empty cache, for every interleaving and interference |
| `ImagePool.ClaimsAreExclusive` | src/adapters/anthropic-image-normalize.ts:314-316 | each index is claimed once, in order, by one worker, and none after a `replace` threw |
| `ImagePool.StepRanks` | src/adapters/anthropic-image-normalize.ts:312-358 | every step of a worker that has not stopped leaves less to do, and interference leaves no more |
| `ImagePool.WorkIsBounded` | src/adapters/anthropic-image-normalize.ts:311-365 | in every run the workers take a bounded number of steps, after which all have stopped |
| `ImageBudget.PassAfterEncode` | src/adapters/anthropic-image-normalize.ts:221-229 | an image that passes at a later position after having been re-encoded was replaced by something smaller |
| `ImageBudget.DemoteTracked` | src/adapters/anthropic-image-normalize.ts:374-391 | one demotion keeps the tracked size equal to the wire size, or strictly above it exactly when a replaced source passed through, and gets closer to the floor |
| `ImageBudget.FirstPassTracked` | src/adapters/anthropic-image-normalize.ts:334-356 | the first pass leaves tracked sizes in that relation to wire sizes |
| `ImageBudget.PoolLeavesTracked` | src/adapters/anthropic-image-normalize.ts:312-370 | whatever interleaving the workers took, the demotion loop starts from tracked entries |
| `ImageBudget.Normalizer.FindOldest` | src/adapters/anthropic-image-normalize.ts:372-373 | the oldest image not yet at the floor is found, or there is none |
| `ImageBudget.Normalizer.DemoteAt` | src/adapters/anthropic-image-normalize.ts:374-391 | one demotion, of an image all older ones of which are finished, updates entry, wire and sum together |
| `ImageBudget.Normalizer.Demote` | src/adapters/anthropic-image-normalize.ts:371-392 | the loop terminates although images may grow; its result is reached by single demotions, each of an image all older ones of which are finished at that moment |
| `ImageBudget.Normalizer.DropOverflow` | src/adapters/anthropic-image-normalize.ts:396-404 | only an oldest run is dropped, no longer than needed, and the rest fits |
| `ImageBudget.Normalizer.Fit` | src/adapters/anthropic-image-normalize.ts:367-405 | with drop the images fit the budget; without, they fit or all are at the floor |
| `ImageBudget.WireBytesExact` | src/adapters/anthropic-image-normalize.ts:369-386 | bytes on the wire never exceed the tracked sum, and equal it if and only if no image's last look let its source pass while a replacement is on the wire |
| `ImageBudget.SumCanOverstate` | src/adapters/anthropic-image-normalize.ts:380-386 | it happens for every source of more than two megabytes and few pixels: the tracked size jumps to the source's while the small replacement stays on the wire |
| `ImageGuard.SurvivorsWithinLimits` | src/adapters/anthropic-image-guard.ts:189-250 | for every list of images the survivors meet all four caps at once |
| `ImageGuard.DecidedExactly` | src/adapters/anthropic-image-guard.ts:185-251 | for every image of every list: which rule removes it, or that it stays, as a property of the image and of those behind it |
| `ImageGuard.KeepNewestKeeps` | src/adapters/anthropic-image-guard.ts:219-234 | the count caps omit exactly the excess, oldest first |
| `ImageGuard.DropOldestRun` | src/adapters/anthropic-image-guard.ts:219-234 | no survivor is older than an omitted image |
| `ImageGuard.FitBudgetFits` | src/adapters/anthropic-image-guard.ts:236-250 | the total cap holds, oldest base64 images go first, URL images stay |
| `ImageGuard.SecondDecision` | src/adapters/anthropic-image-guard.ts:185-251 | a second look at the survivors omits nothing |
| `ImageGuard.RewriteKeeps` | src/adapters/anthropic-image-guard.ts:148-183 | blocks keep their places, non-image blocks are untouched, and the images left are the survivors in order |
| `ImageGuard.EnforceIdempotent` | src/adapters/anthropic-image-guard.ts:185-251 | for every message tree: each image stays or becomes the notice decided for it, nothing else changes, and enforcing twice equals enforcing once |
| `ImageGuard.Guard.DropUnacceptable` | src/adapters/anthropic-image-guard.ts:192-209 | the two per-image rules mark exactly the unacceptable images |
| `ImageGuard.Guard.KeepNewestImages` | src/adapters/anthropic-image-guard.ts:219-234 | the counting loop omits oldest images until the limit is met |
| `ImageGuard.Guard.FitImageBudget` | src/adapters/anthropic-image-guard.ts:239-250 | the byte loop omits oldest base64 images until the budget is met |
| `ImageGuard.Guard.Run` | src/adapters/anthropic-image-guard.ts:185-251 | the four rules in sequence decide as specified |
| `CanonicalJson.ShowIsInjective` | src/adapters/google-antigravity-replay.ts:31-37 | compact JSON text determines the value |
| `CanonicalJson.PrintUnique` | src/adapters/google-antigravity-replay.ts:31-37 | two printed values that read the same up to a delimiter are the same value with the same rest |
| `CanonicalJson.SortedMeans` | src/adapters/google-antigravity-replay.ts:34-35 | sorting keys at every depth keeps the value and orders every object |
| `CanonicalJson.OrderedUnique` | src/adapters/google-antigravity-replay.ts:34-35 | there is one ordered form per value |
| `CanonicalJson.CanonicalIsExact` | src/adapters/google-antigravity-replay.ts:30-37 | canonical texts are equal if and only if the values are equal up to key order at every depth |
| `CallKey.NoTextAfterSeparator` | src/adapters/google-antigravity-replay.ts:48 | a `::` inside a JSON text lies inside a string, so no JSON text can follow it |
| `CallKey.KeyUnique` | src/adapters/google-antigravity-replay.ts:48 | name and arguments can be read back from a key, whatever colons the name holds |
| `CallKey.KeyIsExact` | src/adapters/google-antigravity-replay.ts:39-49 | two calls have the same key if and only if the names are equal and the arguments are equal up to key order, absent and null counting as `{}` |
| `GoogleReplay.ReplayCache.Observe` | src/adapters/google-antigravity-replay.ts:79-98 | the cache changes as specified: signatures recorded in order, unchanged sightings leave the expiry alone, a change refreshes it and may evict |
| `GoogleReplay.ReplayCache.EvictIfNeeded` | src/adapters/google-antigravity-replay.ts:60-66 | beyond the bound the 128 slots first in expiry order go |
| `GoogleReplay.ReplayCache.Apply` | src/adapters/google-antigravity-replay.ts:105-126 | the request array is filled in place from a live slot; an expired slot is dropped; `GoogleReplayRuns.RequestIsFilled` says what filled means at every position |
| `GoogleReplay.FillParts` | src/adapters/google-antigravity-replay.ts:114-123 | one turn is filled: every part as specified, whose meaning `GoogleReplayRuns.RequestIsFilled` states |
| `GoogleReplayRuns.EvictionDropsTheOldest` | src/adapters/google-antigravity-replay.ts:60-66 | eviction keeps slots unique and bounded, and no evicted slot expires after a kept one |
| `GoogleReplayRuns.RunTracks` | src/adapters/google-antigravity-replay.ts:79-131 | in every run the cache holds at most 10240 slots and each remembered signature is the last one given for its keys |
| `GoogleReplayRuns.RunHolds` | src/adapters/google-antigravity-replay.ts:79-98 | in every run a slot remembers exactly the signatures given since it was last created, the last one for each call |
| `GoogleReplayRuns.RequestIsFilled` | src/adapters/google-antigravity-replay.ts:105-126 | for every request: as many contents and parts as before, each part signed with what the live slot owes it and otherwise unchanged |
| `GoogleReplayRuns.SessionKeyIsExact` | src/adapters/google-antigravity-replay.ts:26-28 | for models that do not collide, a slot key determines model and session |
| `GoogleReplayRuns.CollidingModelsShareASlot` | src/adapters/google-antigravity-replay.ts:26-28 | the collision guard is exact: colliding models do share a slot for some sessions |
| `GoogleReplayRuns.ReplayIsFaithful` | src/adapters/google-antigravity-replay.ts:79-126 | after every run, for models that do not collide, at every position: a part is signed if and only if it is an unsigned call of a model turn, the slot is within its hour, and a signature for that model, session, name and arguments up to key order was observed since the slot was created; it gets the last one |
| `GoogleReplayRuns.ObservedIsReplayed` | src/adapters/google-antigravity-replay.ts:92-122 | what an observation records, every matching position of the next request gets if and only if the slot is still there and within its hour |
| `GoogleReplayRuns.ClearForgetsOne` | src/adapters/google-antigravity-replay.ts:129-131 | after a clear, requests for that model and session go out as they are, and all others whose slot key differs are filled as before |
| `GoogleReplayRuns.ExpiryMovesExactly` | src/adapters/google-antigravity-replay.ts:82-97 | an observation gives a slot a new expiry if and only if it created the slot or changed a signature in it |
| `GoogleReplayRuns.ExpiresAfterLastChange` | src/adapters/google-antigravity-replay.ts:94-96 | in every run a slot expires one hour after the last observation that changed it, however often it was seen since |
| `GoogleReplayRuns.LiveUntilTtl` | src/adapters/google-antigravity-replay.ts:105-112 | in every run a slot's signatures are replayed exactly while it is cached and less than an hour has passed since its last change |
| `GoogleReplayRuns.SeenAgainStillForgotten` | src/adapters/google-antigravity-replay.ts:94 | a call seen again half an hour later is still forgotten an hour after its first sighting |
| `GoogleSchema.NormalizeType` | src/adapters/google-tool-schema.ts:37-55 | the loop picks the first allowed type in lower case and notes null as specified |
| `GoogleSchemaProofs.SanitizedIsClean` | src/adapters/google-tool-schema.ts:113-156 | for every node, depth and way references resolve, cyclic ones included: only the eight keywords, six types, distinct string enums and bounded nesting come out; `GoogleSchemaContent` says what is kept |
| `GoogleSchemaProofs.CollapseClean` | src/adapters/google-tool-schema.ts:63-96 | a collapsed union is itself in the subset |
| `GoogleSchemaProofs.EnumsCollapse` | src/adapters/google-tool-schema.ts:82-91 | enums of one type collapse to one enum listing exactly the strings of all branches, each once, under that type |
| `GoogleSchemaProofs.NullsCollapse` | src/adapters/google-tool-schema.ts:72-80 | one alternative besides plain null becomes that alternative, nullable |
| `GoogleSchemaProofs.ParametersAreClean` | src/adapters/google-tool-schema.ts:158-173 | every tool's parameters come out in the subset, nesting at most 24, as an object schema with properties |
| `GoogleSchemaProofs.CleanStays` | src/adapters/google-tool-schema.ts:113-156 | a schema already in the subset is returned unchanged at every depth it fits |
| `GoogleSchemaProofs.FixedExactlyWhenClean` | src/adapters/google-tool-schema.ts:158-173 | the sanitizer leaves a schema alone if and only if it is in the subset, an object and has properties |
| `GoogleSchemaProofs.SanitizeIsIdempotent` | src/adapters/google-tool-schema.ts:158-173 | sanitizing twice equals sanitizing once, for every schema |
| `GoogleSchemaContent.PlainKeepsKeywords` | src/adapters/google-tool-schema.ts:131-153 | without a reference, each keyword of the output is its source's as far as the subset goes: first allowed type, texts, distinct enum strings, every property, items and required names |
| `GoogleSchemaContent.ReferenceIsInlined` | src/adapters/google-tool-schema.ts:122-129 | a node whose reference resolves is its target under the node's own keywords, keyword by keyword |
| `GoogleSchemaContent.UnionIsKept` | src/adapters/google-tool-schema.ts:63-96 | a union contributes its one non-null branch, nullable, or the joined strings of its enums, or nothing, and exactly when |
| `GoogleSchemaContent.NodeIsKept` | src/adapters/google-tool-schema.ts:113-156 | every node without a reference to follow is its kept keywords with the contribution of its union |
| `GoogleSchemaContent.InliningChangesNothing` | src/adapters/google-tool-schema.ts:113-156 | for every schema, cyclic definitions included: sanitizing equals sanitizing the schema in which every reference within the limits was replaced by substitution |
| `GoogleSchemaContent.NoneLeft` | src/adapters/google-tool-schema.ts:122-129 | with acyclic definitions the substituted schema has no reference left |
| `GoogleSchemaContent.AllowedTypesAre` | src/adapters/google-tool-schema.ts:7-55 | the six type names let through, in any case, and `null` |
| `GoogleSchemaContent.DefinitionsAreKept` | src/adapters/google-tool-schema.ts:26-35 | references see the definitions under `$defs` and, behind them, those under `definitions` |
| `GoogleSchemaContent.ParametersAreKept` | src/adapters/google-tool-schema.ts:158-173 | a tool's parameters are the substituted root's keywords as an object schema with its properties |
| `GoogleCodec.ToolNameCodec` | src/adapters/google-wire-compiler.ts:13-49 | for every name list and every hash whose salts reach a free name: inverse maps, wire names in the grammar, legal names kept unless taken, renamed ones get their first free candidate |
| `GoogleCodec.SaltedName` | src/adapters/google-wire-compiler.ts:33-42 | the salt loop ends at the first candidate not in use |
| `GoogleCodec.CandidateIsValid` | src/adapters/google-wire-compiler.ts:30-36 | every candidate is in the 64-character grammar |
| `GoogleCodec.CandidateReads` | src/adapters/google-wire-compiler.ts:30-36 | a candidate is the first 55 units of the name, legal ones kept and others made underscores, with a prefix where needed, and the digest |
| `GoogleCodec.CodecIsInjective` | src/adapters/google-wire-compiler.ts:13-49 | wire names are equal exactly for equal names, and restore |
| `GoogleCompile.CollectToolNames` | src/adapters/google-wire-compiler.ts:51-74 | the loops collect declarations, calls and responses in order |
| `GoogleCompile.CompileGoogleWireBody` | src/adapters/google-wire-compiler.ts:167-185 | the body is compiled with a codec over exactly its own names; `GoogleCompileContent.BodyIsKept` says what it keeps |
| `GoogleCompileProofs.NamesAreRenamed` | src/adapters/google-wire-compiler.ts:76-112 | the names of a compiled body are the source's names renamed, at the same places |
| `GoogleCompileProofs.NamesRestore` | src/adapters/google-wire-compiler.ts:167-185 | every declaration, call and response name of a compiled body is legal and restores to its source; distinct names stay distinct |
| `GoogleCompileProofs.ConfigStays` | src/adapters/google-wire-compiler.ts:118-145 | compiled settings survive a second pass if and only if the token cap was not a fraction below one |
| `GoogleCompileProofs.CompileTwice` | src/adapters/google-wire-compiler.ts:167-185 | compiling a compiled body changes nothing if and only if the source's token cap was not a fraction below one |
| `GoogleCompileContent.BodyIsKept` | src/adapters/google-wire-compiler.ts:167-185 | for every body and renaming: every content, part and property stays at its place but for the names of calls and responses; the named declarations, system instruction, session and settings are kept as stated, and nothing else |
| `GoogleCompileContent.ContentsAreKept` | src/adapters/google-wire-compiler.ts:76-95 | at every position: an object content equals its source but for its parts, a part but for its call and response, and those but for the name |
| `GoogleCompileContent.ToolsAreKept` | src/adapters/google-wire-compiler.ts:97-112 | exactly the named declarations come out, in order, with their description and sanitized parameters |
| `GoogleCompileContent.ConfigIsKept` | src/adapters/google-wire-compiler.ts:118-145 | each setting of the configuration against its source value and its bounds |
| `GoogleCompileContent.ToolConfigIsKept` | src/adapters/google-wire-compiler.ts:147-161 | the calling mode and the allowed names, renamed |
| `AnthropicHistory.MessagesToAnthropicFormat` | src/adapters/anthropic.ts:386-479 | the outer loop builds the specified messages for every history; `AnthropicHistory.HistoryIsKept` says what they hold |
| `AnthropicHistory.ConvertOne` | src/adapters/anthropic.ts:387-468 | one round consumes the messages and adds those specified for them |
| `AnthropicHistory.CollectResults` | src/adapters/anthropic.ts:432-457 | the inner loop sorts the following results into answers, fill-ins and orphan notes |
| `AnthropicHistory.ResultMessageCounts` | src/adapters/anthropic.ts:432-457 | each id is answered once if answered at all, else once per call; results come before other blocks |
| `AnthropicHistory.AnswersExactlyIff` | src/adapters/anthropic.ts:432-457 | the result message answers each call exactly once if and only if no answered id is called twice |
| `AnthropicHistory.RepairedExactly` | src/adapters/anthropic.ts:386-479 | every tool_use is answered exactly once in the very next message, results first, and no tool_result stands elsewhere, if and only if no answered id is called twice in one message |
| `AnthropicHistory.RepairedMeans` | src/adapters/anthropic.ts:386-479 | repair said of every position: what precedes and what follows |
| `AnthropicHistory.DistinctIdsAreClear` | src/adapters/anthropic.ts:431-458 | distinct call ids inside each assistant message meet that condition |
| `AnthropicHistory.ResultsAreConserved` | src/adapters/anthropic.ts:404-466 | every tool result of the history appears exactly once, as block or text |
| `AnthropicHistory.HistoryIsKept` | src/adapters/anthropic.ts:342-479 | for every history: user texts and images, assistant texts, redacted data, plausibly signed thinking and calls stand in the built messages exactly, in order and by the same speaker; stand-ins only where a user message held nothing |
| `AnthropicHistory.ResultIsKept` | src/adapters/anthropic.ts:342-384 | a rendered tool result holds the result's texts and images, or the note that it was empty |
| `AnthropicHistory.FormatIsAcceptable` | src/adapters/anthropic.ts:342-479 | no message, no text block and no tool_result content is empty or holds empty text, and the last message is a user message |
| `AtomicWrite.FileIO.RenameAtomicFile` | src/config.ts:30-51 | at most two retries, only for locks on Windows, then success or failure |
| `AtomicWrite.FileIO.AtomicWriteFile` | src/config.ts:83-129 | for every sequence of call outcomes the write ends with the result and temporary file of the step machine |
| `AtomicWrite.EveryCallProgresses` | src/config.ts:93-128 | a write ends after at most ten calls |
| `AtomicWrite.WriteReportsExactly` | src/config.ts:83-129 | for every sequence of call outcomes: a write returns normally if and only if writing, hardening and the last rename tried succeed; otherwise its report follows from how the cleanup calls end |
| `AtomicWrite.AdvanceKeeps` | src/config.ts:95-127 | what a writer knows of its temporary file holds after every call |
| `AtomicWrite.ActKeeps` | src/config.ts:83-129 | every call of every writer keeps the destination equal to the last renamed content |
| `AtomicWrite.WritesAreAtomic` | src/config.ts:83-129 | for any number of interleaved writers and failures: the destination holds its old bytes or one full content; normal return means renamed, a rethrown cause means the temporary file is gone, residual means absent or empty |
| `ConfigBackup.ScrubUnpublishedTemp` | src/config.ts:237-265 | an unpublished temporary file is gone or empty unless the secret-residual error is raised |
| `ConfigBackup.DropPublishedTemp` | src/config.ts:280-294 | a published backup keeps the config's bytes or is withdrawn before anything is truncated |
| `ConfigBackup.YieldToWinner` | src/config.ts:273-279 | a backup published by someone else is kept untouched and reused only when equal |
| `ConfigBackup.CreateBackup` | src/config.ts:267-301 | creating a backup leaves it whole or absent under every failure |
| `ConfigBackup.BackupConfig` | src/config.ts:191-302 | for every failure and interference: a differing rollback backup keeps its bytes, created or reused means equal bytes, no temporary file with content is left silently, a backup of ours is whole after every single call; an error means that a call failed or a temporary file was there, and undisturbed the result is exactly what the backup asks for |
| `ResourceStore.Store.RunFetch` | gui/src/client-resource.ts:105-123 | starting a fetch aborts the old one, takes a new generation and shows loading as specified |
| `ResourceStore.Store.Settle` | gui/src/client-resource.ts:125-138 | a response is written only by the latest un-aborted request |
| `ResourceStore.Store.AbortInflightOwnedBy` | gui/src/client-resource.ts:141-148 | only the owner's request is aborted |
| `ResourceStore.Store.RecomputePoll` | gui/src/client-resource.ts:83-103 | the timer is kept, re-armed or cleared by the smallest positive interval |
| `ResourceStore.Store.Subscribe` | gui/src/client-resource.ts:167-183 | a cold first subscriber fetches; the timer follows |
| `ResourceStore.Store.Unsubscribe` | gui/src/client-resource.ts:185-204 | a leaving owner's request is replaced for the others; the last one clears the timer |
| `ResourceStore.Store.Tick` | gui/src/client-resource.ts:97-102 | a poll tick leaves a running request alone |
| `ResourceStore.Store.SetData` | gui/src/client-resource.ts:293-301 | publishing aborts, supersedes and shows the data |
| `ResourceStore.Store.Evict` | gui/src/client-resource.ts:155-165 | a store without subscribers drops its request |
| `ResourceStore.PickFetcherEntry` | gui/src/client-resource.ts:67-80 | the first polling subscriber is preferred, else the first |
| `ResourceStoreRuns.SettleCommitsExactly` | gui/src/client-resource.ts:125-131 | a response is written if and only if its request is the one in flight, and then nothing newer started or was published since it began |
| `ResourceStoreRuns.NextKeepsData` | gui/src/client-resource.ts:105-204 | every operation keeps: one live request at most, no stale write, last written data shown |
| `ResourceStoreRuns.NextKeepsTimer` | gui/src/client-resource.ts:83-204 | every operation keeps the timer armed exactly at the smallest positive interval |
| `ResourceStoreRuns.MinPollIsLeast` | gui/src/client-resource.ts:84-89 | the effective interval is the least positive one asked for, if any |
| `ResourceStoreRuns.StoreIsConsistent` | gui/src/client-resource.ts:83-301 | all of this holds in every reachable state of every interleaving |
| `ResourceStoreRuns.SlowerSubscriberKeepsCountdown` | gui/src/client-resource.ts:90-93 | a slower subscriber does not reset the countdown |
| `ResourceStoreRuns.OrphanedRequestIsReplaced` | gui/src/client-resource.ts:190-202 | when the owner leaves, its request is aborted and replaced exactly when others remain |
| `ResourceStoreRuns.EveryoneIsServed` | gui/src/client-resource.ts:105-204 | in every reachable state a store with subscribers and no data has a request in flight, or its last answer brought none |
| `ResourceStoreRuns.LoadingSticksExactly` | gui/src/client-resource.ts:167-203 | an operation leaves subscribers with `loading` and no request if and only if it is the first subscription to a store with data whose reload was dropped with the last subscriber |
| `ResourceStoreRuns.ReloadCanStick` | gui/src/client-resource.ts:155-204 | that state is reached from the empty store |
| `ConfigMerge.DeepEqualIsAgreement` | src/config.ts:1055-1071 | structural equality holds if and only if the values agree after dropping undefined properties at every depth |
| `ConfigMerge.RereadAgrees` | src/config.ts:1064 | writing and rereading gives the value back, undefined properties aside, if and only if no array holds an undefined element |
| `ConfigMerge.ArmedRunFollowsPolicy` | src/config.ts:1042-1117 | from the arming on, whatever memory and file held then, every run follows the policy that takes the memory of that moment as agreed |
| `ConfigMerge.HandEditsAreAdopted` | src/config.ts:1037-1117 | whatever is done to the file by hand after arming: while memory is unchanged the next save takes the file's value over, and keeps memory only when the file cannot be read |
| `ConfigMerge.LiveConfig.SavePreserving` | src/config.ts:1101-1117 | a save adopts a hand edit, writes and rebases as specified |
| `ConfigMerge.SaveFollowsPolicy` | src/config.ts:1101-1117 | a save on real values follows the three-way policy on plain values |
| `ConfigMerge.RunFollowsPolicy` | src/config.ts:1089-1117 | every run of edits, hand edits, breakages and saves follows that policy |
| `ConfigMerge.NoEditIsLostSilently` | src/config.ts:1091-1095 | at any save of any run: a memory change is kept, a hand edit is lost only if memory changed too, and a written save leaves disk, memory and baseline agreeing |
| `ConfigMerge.SavedDiskAgrees` | src/config.ts:1113-1116 | the guard is exact: disk and memory agree after a save if and only if no array held undefined |

## Left out

- Bridge callbacks other than `onTerminal` (`onUsage`, `onFirstOutput`, `onCompletedResponse`, `onCancel`) and iterator cleanup: no effect on frames as long as they return normally, which the model assumes.
- Usage figures, timestamps and error classification text: carried through or opaque. Item identifiers are a counter instead of random ids.
- Reasoning and compaction envelopes: opaque constructors of their contents; the encodings are not part of this model. `JSON.parse` is a parameter of the bridge configuration.
- Wall-clock time: beats are steps, and the clock and `maxStallTicks` are parameters.
- BridgeRefinement.StreamRefinesBatch: identifiers are erased before comparing; hidden reasoning is excluded, because the two sides cut it at different events, which BridgeHidden states for each of them; BridgeCompaction treats compaction.
- BridgeExactness.StreamMatchesBatchExactly: lists with an empty signature, and lists that, inside a running search, open an item with an empty delta or send arguments without an open call, are outside it. The last would need to know when two argument buffers parse to the same input.
- Image codecs, base64 decoding, header sniffing and hashing: deterministic functions given as parameters. The hash is assumed free of collisions, and cache keys are triples instead of joined text.
- ImageBudget.Normalizer.Demote: the demotion loop's `replace` callback is taken to return; the first pass models it throwing.
- ImageGuard: containers are values, so the in-place replacement of a block and aliasing between messages are not captured.
- AnthropicHistory: thinking signatures and tool-name mapping are parameters; the system prompt and cache breakpoints are not modelled.
- CanonicalJson: numbers are integers printed in decimal, so very large magnitudes, fractions and negative zero are outside the model; values are JSON values, without `undefined`, cycles or `toJSON`.
- GoogleReplay.ReplayCache.Apply: the request is an array of content values, so parts shared between contents are not captured.
- GoogleSchema and GoogleCompile: objects have no key order, property names are the words the code looks for or other text, and reference pointers (pattern, unescaping and URI decoding) are an arbitrary function; the theorems hold for all of them. In-memory cyclic objects and property names such as `__proto__` are outside the model.
- GoogleCodec.ToolNameCodec: hashes are an arbitrary function to eight hexadecimal digits whose salted values reach a free name; the model does not compute SHA-256.
- Rewriting a rejected request body (`repairGoogleInvalidRequestBody`, `src/adapters/google-wire-compiler.ts:196-232`): would only add easy members.
- AtomicWrite.WritesAreAtomic: temporary names are distinct per writer, as process id and sequence number make them; other programs touching these files are not modelled.
- ConfigBackup.BackupConfig: of other processes, only publishing a backup where there is none is modelled.
- ConfigBackup: whether a backup is a rollback point (`classifyOpenAiTierBackup`) is a parameter.
- ResourceStore: fetchers, the key-to-store map and listener notification are not modelled; one store object is followed. A listener subscribes again only after it unsubscribed, as the hooks do.
- ConfigMerge: NaN is not a number of the model, and only the `claudeCode` subtree is followed, as in the program.
- Provider routing, authentication, retries, HTTP and SSE byte decoding, the dashboard's components and everything under `scripts` and `docs`: plumbing around libraries, or easy members.
