# A verified model of the coding agent's state machines

The repository is a coding agent: a TypeScript command-line program and a Rust terminal client. Most of it talks to
the outside world; this project models the parts that decide something, and proves what they are meant to keep.

* **Streaming client (Rust).** Bytes are framed into server-sent events (`Framing`, `SolarStream`), chunks become
  block events (`ChatStream`), and the turn loop assembles them into a message (`StreamRefinement`). The laws of every
  event log are in `StreamLaws` and `StreamGrammar`. `StreamRefinement` proves that streaming agrees with the
  whole-response path for chunks that deliver a response, `StreamDelivery` that every response can be cut into such
  chunks, and `SolarStream` and `SessionTurns` carry that from raw bytes up to whole turns. `TurnMeaning` says what a
  turn amounts to. `ToolPairing` and `SessionTurns` prove that the pass that drops unpaired tool results never drops
  anything a session recorded.
* **Agent loop (TypeScript).** `TokenBudget`, `Compaction` and `Conversation` model a run against arbitrary model
  replies, hook denials and tool results: message pairing across compactions, request sizes, the pacing of summaries,
  the single retry, and the guard on finishing. `Permissions` and `ToolRegistry` carry the guard down to the read-only
  sandbox.
* **Worker boot registry.** `WorkerBoot`: a seven-status machine with a numbered log, a trust gate, replay arming and
  a startup-failure classifier; `WorkerOutcomes` gives its operations as tables.
* **Task runner.** `TaskRunner`: slices of tasks whose completions interleave freely over one registry.
* **Algorithms.** `EditDistance` (two-row Levenshtein and key suggestion), `Glob`, `PromptCache`, `LaneEvents`
  (terminal-event reconciliation), `LineSelection` and `SummaryCompression` (greedy selection in a budget).

Code that updates state is a class or a loop proved against a specification function or predicate; the laws are lemmas
about those functions, for all inputs and all runs. What the world answers (model replies, tool results, clock
readings, screen observations, completion order) is arbitrary. JSON reading and writing, UTF-8 decoding, lower-casing,
hashing and screen-text detection are uninterpreted parameters or observed values.

## Where the code falls short of a law, exactly

* For a JSON reader that rejects blank text, streaming and whole-response turns differ on blank tool arguments, and
  only there (`StreamRefinement.StreamingRefinesWholeResponse`).
* A tool block's stop comes before later argument deltas exactly when non-empty argument text is sent after a closing
  action that came once the tool was named (`StreamGrammar.ArgumentsAreConserved`). The event grammar fails exactly
  for streams that name a tool under the largest 32-bit index, whose block index wraps onto the text block
  (`StreamGrammar.StreamsFollowTheGrammar`). The wrap is that of builds without overflow checks; with them, the
  addition at crates/api/src/client.rs:476-478 panics.
* Framing depends on where the network cuts the bytes exactly when a blank LF line stands after a blank CRLF line,
  since LF-LF is searched first (`Framing.CutsAgreeExactlyWithoutLateLf`). Framing follows section 9.2.6 of the WHATWG
  HTML Standard only in part: frames end at LF-LF or CRLF-CRLF, and nothing else.
* A first finish whose summary repeats the block message passes the finish guard
  (`Conversation.FinishAcceptedExactly`, `Conversation.BlockMessageSlipsThrough`).
* A later terminal lane event can be lost to an earlier one with its fingerprint. Every burst drawn from some events
  keeps its latest one exactly when equal fingerprints mean material equality
  (`LaneEvents.LatestTerminalWinsExactly`). The builder's fingerprint covers name, status and data but no failure
  class, so it does not ensure this (`LaneEvents.LaterFailureClassIsLost`). In a burst whose terminal events all carry
  it, the latest one is lost exactly when the trailing run of events with its name, status and data starts with
  another failure class (`LaneEvents.BuiltBurstOutcome`).
* When a frame of a stream does not read, how many events are delivered before the error depends on where the network
  cut the bytes (`SolarStream.DeliverStops`, `SolarStream.CutDecidesEvents`).
* `compressSummary` is documented as removing consecutive repeated lines; the code removes every later line whose key
  was seen. The two agree exactly when no key returns after a line with another one
  (`SummaryCompression.ConsecutiveExactly`, `SummaryCompression.SeparatedRepeatGoes`). Compressing a second time
  changes nothing exactly when no line, the notice included, is too long or repeated
  (`SummaryCompression.CompressingAgainExactly`).

## Model

| member | source | states |
|---|---|---|
| ChatStream.StreamState.CloseTool | crates/api/src/client.rs:415-431 | closing one tool block yields exactly the specified stop, with a late start only when asked for and named |
| ChatStream.StreamState.CloseTools | crates/api/src/client.rs:385-397 | closing all blocks goes through the ordered map once, in index order |
| ChatStream.StreamState.FeedFragment | crates/api/src/client.rs:362-383 | a tool fragment changes only its own index and emits start, delta and stop as specified |
| ChatStream.StreamState.IngestContent | crates/api/src/client.rs:346-360 | non-empty text opens the text block once and is passed on; empty text is ignored |
| ChatStream.StreamState.NoteFinishReason | crates/api/src/client.rs:385-397 | a finish reason is normalised and, for tool calls, closes every open tool block |
| ChatStream.StreamState.IngestChoice | crates/api/src/client.rs:345-398 | one choice is the sequence of its text, tool and finish actions |
| ChatStream.StreamState.BeginChunk | crates/api/src/client.rs:321-343 | a chunk opens the message once and replaces the usage when it carries one |
| ChatStream.StreamState.IngestChunk | crates/api/src/client.rs:318-400 | a whole chunk performs its actions in order, over any number of choices |
| ChatStream.StreamState.FinishStream | crates/api/src/client.rs:402-448 | finishing closes everything once; a second finish emits nothing |
| ChatStream.StreamState.constructor | crates/api/src/client.rs:305-316 | a new stream has emitted nothing |
| ChatStream.PerformAppend | crates/api/src/client.rs:318-400 | performing two runs of actions in a row is performing their concatenation, events included |
| ChatStream.ChoiceMeans | crates/api/src/client.rs:345-398 | one choice sends its text when it has any, every fragment in order, closing under a tool-call finish, then its finish reason |
| ChatStream.ChunkMeans | crates/api/src/client.rs:318-345 | one more chunk sends its id and model, its usage when it has one, and its choices in order |
| ChatStream.ReasonsExactly | crates/api/src/client.rs:861-868 | the two finish reasons with a name of their own, and all others unchanged |
| StreamLaws.FeedKeepsLogged | crates/api/src/client.rs:362-384 | any fragment keeps the block law: one start first, at most one stop, deltas joining to all arguments so far, started iff named |
| StreamLaws.FlushKeepsLogged | crates/api/src/client.rs:415-431 | closing keeps the block law and leaves no started block open |
| StreamLaws.StateInvariant | crates/api/src/client.rs:462-511 | after any actions the state of every tool, the largest index included, is a function of what was sent: name, arguments, started iff named, stopped iff a closing action came once named |
| StreamLaws.SweepBlocks | crates/api/src/client.rs:415-431 | a sweep touches each tool block exactly once and mixes no events between blocks |
| StreamLaws.ToolStep | crates/api/src/client.rs:362-397 | one action of any kind keeps the block law of every tool index below the largest |
| StreamLaws.ToolInvariant | crates/api/src/client.rs:462-511 | after any actions, whatever indices they use: what block i logged is exactly what fragments of index i sent, and its first start carries the first fragment's id and name |
| StreamLaws.StartInvariant | crates/api/src/client.rs:481-497 | a block starts with the first name sent for its index, and with the last id sent by then, or one made from the index |
| StreamGrammar.FramedInvariant | crates/api/src/client.rs:318-360 | before the end, unless a tool is named under the largest index: one message start, first; the text block opened at most once, its deltas joining to all text sent |
| StreamGrammar.FrameMeans | crates/api/src/client.rs:318-449 | a finished stream opens with the first chunk's id and model, and closes with the last finish reason, renamed, and the last usage sent |
| StreamGrammar.ToolAtEnd | crates/api/src/client.rs:415-431 | in any finished log every tool block below the wrap follows the grammar, exists iff its name was sent, holds all arguments, and ends with its stop iff nothing was late |
| StreamGrammar.StreamsFollowTheGrammar | crates/api/src/client.rs:318-449 | a finished log of at least one chunk obeys the whole event grammar iff no tool is named under the largest index; a second finish is empty |
| StreamGrammar.ArgumentsAreConserved | crates/api/src/client.rs:362-384 | each block's JSON deltas join to its index's fragments in order; all precede the stop iff no argument text was sent after a closing action; the block starts with its first name and the id known by then |
| StreamGrammar.NothingStartsLate | crates/api/src/client.rs:415-424 | the late-start branch of finish is unreachable: after any actions every named tool has started and emitted all its arguments |
| StreamLaws.OnlyTheLastIndexWraps | crates/api/src/client.rs:476-478 | in wrapping 32-bit arithmetic distinct indices get distinct non-text blocks, except that index 2^32-1 lands on block 0 |
| StreamGrammar.LargestIndexBreaksTheGrammar | crates/api/src/client.rs:476-478 | every stream that names a tool under index 2^32-1 breaks the grammar |
| StreamRefinement.CollectBlocks | crates/runtime/src/lib.rs:357-372 | the whole-response loop keeps the texts joined, the calls in order, and the usage |
| StreamRefinement.CollectEvents | crates/runtime/src/lib.rs:470-531 | the streaming consumer's loop computes the assembly of its events |
| StreamRefinement.CollectCalls | crates/runtime/src/lib.rs:522-531 | collected tool uses become calls in index order |
| StreamRefinement.AssembleReads | crates/runtime/src/lib.rs:470-531 | the assembly depends on each block's own events only: text, usage and every tool entry |
| StreamRefinement.DeliveredView | crates/runtime/src/lib.rs:470-531 | for a delivered response, block i+1 reads as call i whole, and no other block as a call |
| StreamRefinement.NormalizedReply | crates/api/src/client.rs:817-855 | what the whole-response path records of a response |
| StreamRefinement.NormalizedFields | crates/api/src/client.rs:817-855 | the whole response keeps id, role and usage, a model to show, and its finish reason renamed; it fails iff there is no choice |
| StreamRefinement.BlocksExactly | crates/runtime/src/lib.rs:357-372 | texts of a response stand on lines of their own, calls in order |
| StreamRefinement.ArgumentsReadExactly | crates/runtime/src/lib.rs:641-648 | blank streamed arguments read as an empty object; text that is no JSON is kept under `raw` |
| StreamRefinement.StreamedReply | crates/runtime/src/lib.rs:470-555 | what the streaming path records, for every chunk sequence delivering a response |
| StreamRefinement.StreamingRefinesWholeResponse | crates/runtime/src/lib.rs:641-648 | both paths record the same text, calls and usage iff no call has blank arguments (the converse for a JSON reader that rejects blank text) |
| StreamDelivery.CutDelivers | crates/api/src/client.rs:817-855 | every response with fewer than 2^32 calls is delivered by its chunks, at any cuts of its content and arguments |
| Framing.FrameBuffer.TakeFrame | crates/api/src/client.rs:929-944 | a frame taken, its separator and the new buffer are exactly the old buffer, cut at the first blank LF line, or where none stands at the first blank CRLF line; none is taken iff neither stands |
| Framing.FrameBuffer.Push | crates/api/src/sse.rs:22-31 | old buffer and piece are exactly the frames, their separators and the new buffer, in which no separator stands |
| Framing.DrainSplits | crates/api/src/sse.rs:46-63 | no byte is lost or invented: a buffer is its frames, their separators and its leftover |
| Framing.SplitIsUnique | crates/api/src/sse.rs:46-63 | a buffer splits in that way only |
| Framing.DrainExtends | crates/api/src/client.rs:929-944 | frames found before more bytes arrive are frames of the whole when no LF-LF follows a CRLF-CRLF |
| Framing.CutDisagrees | crates/api/src/client.rs:929-944 | cutting right after a blank CRLF line that a blank LF line follows always changes the frames |
| Framing.CutsAgreeExactlyWithoutLateLf | crates/api/src/sse.rs:46-63 | every cutting into pushes gives the same frames and leftover iff no LF-LF stands after a CRLF-CRLF |
| Framing.OneSeparatorSuffices | crates/api/src/sse.rs:46-63 | streams using only one of the separators are cut-independent |
| SolarStream.ExtractDataPayload | crates/api/src/sse.rs:68-94 | comments and other fields are skipped, data lines joined, an empty payload and the done marker dropped |
| SolarStream.PayloadRoundTrip | crates/api/src/sse.rs:68-94 | a payload written as data lines is read back unchanged |
| SolarStream.PayloadExactly | crates/api/src/sse.rs:68-94 | a payload is the data values of the frame without its outer whitespace, joined; none, or the done marker, is no payload |
| SolarStream.DataExactly | crates/api/src/sse.rs:74-86 | a data line gives its value without leading whitespace; comments and other fields give nothing, wherever they stand |
| SolarStream.LinesExactly | crates/api/src/sse.rs:74-76 | lines end at LF, a CR before it going with it; a last line without LF is kept |
| SolarStream.PayloadsExactly | crates/api/src/sse.rs:22-44 | a push gives the payloads of its frames in order; finishing gives that of the trailing bytes |
| SolarStream.ReadsExactly | crates/api/src/client.rs:277-286 | frames read in order: each gives its chunk or nothing, and the first unreadable one ends it with its error |
| SolarStream.FrameExactly | crates/api/src/client.rs:946-960 | a frame without payload gives no chunk; a payload gives the chunk it reads as, or its error |
| SolarStream.SseParser.Push | crates/api/src/sse.rs:22-31 | a push returns the payloads of the frames it completes |
| SolarStream.SseParser.Finish | crates/api/src/sse.rs:34-44 | finishing reads the unterminated rest as one frame and empties the buffer |
| SolarStream.OpenAiSseParser.Push | crates/api/src/client.rs:277-286 | a push reads the chunks of the frames it completes, or stops at the first bad one; either way the buffer holds what stands behind the last frame taken |
| SolarStream.EventPump.NextEvent | crates/api/src/client.rs:235-258 | each call returns exactly the next of the events still to come, or the end, or the error |
| SolarStream.EventPump.IngestAll | crates/api/src/client.rs:249-251 | chunks of one push are ingested in order |
| SolarStream.DeliverIsRun | crates/api/src/client.rs:235-258 | when all frames read, whatever the cut, the events delivered are those of the chunks of all frames, then finish; otherwise the first frame that does not read decides the error |
| SolarStream.DeliverStops | crates/api/src/client.rs:235-258 | when a frame does not read, exactly the events of the pieces before the failing one are delivered ahead of the error |
| SolarStream.CutDecidesEvents | crates/api/src/client.rs:277-286 | how many events precede the error depends on the cut: two pieces deliver the first one's events, one piece none |
| SolarStream.BytesRefineWholeResponse | crates/api/src/client.rs:817-859 | raw body pieces delivering a response leave the same reply as the response itself |
| ToolPairing.Unpaired | crates/api/src/client.rs:739-768 | a tool result is dropped iff its nearest earlier non-tool message is an assistant lacking its id |
| ToolPairing.OrphanExactly | crates/api/src/client.rs:739-768 | the drop decision over the messages alone: an assistant before, only results between, and no call of that id |
| ToolPairing.PassDropsExactly | crates/api/src/client.rs:732-775 | the pass keeps every other message, in order |
| ToolPairing.SanitizeToolMessagePairing | crates/api/src/client.rs:732-775 | the pass removes exactly those results |
| ToolPairing.SanitizeLeavesNoOrphan | crates/api/src/client.rs:732-775 | on any input: no orphan remains, the pass is idempotent, and non-tool messages are kept in order |
| ToolPairing.FixedExactlyWhenClean | crates/api/src/client.rs:732-775 | the pass changes nothing iff there is no orphan |
| SessionTurns.ConversationRuntime.AnswerAll | crates/runtime/src/lib.rs:402-419 | each call leaves one result message with its id and one noted output, in order: the executor's answer iff the call may run, otherwise a refusal that does not depend on the executor |
| SessionTurns.AuthorizesExactly | crates/runtime/src/lib.rs:106-155 | a tool may run iff the active mode covers the mode its first entry asks for, or the user approves the one escalation there is; a denial says why |
| SessionTurns.OutputGives | crates/runtime/src/lib.rs:402-419 | what a call comes back with, answer, executor error or refusal |
| SessionTurns.AnswersMean | crates/runtime/src/lib.rs:402-419 | answering calls in order, as recorded in the session and in the summary |
| SessionTurns.ConversationRuntime.TakeTurn | crates/runtime/src/lib.rs:323-421 | the loop computes the turn: session, requests sent and ending, bounded by 128 iterations |
| TurnMeaning.TurnMeans | crates/runtime/src/lib.rs:323-421 | the course of a turn: the input recorded, the whole session sent each time, replies recorded with their calls answered, ended by a failure, a reply without calls, or 128 requests |
| TurnMeaning.SummaryMeans | crates/runtime/src/lib.rs:323-421 | a finished turn sums up one reply per request: texts on lines of their own, tokens added up, every output noted |
| SessionTurns.AssistantOnWire | crates/api/src/client.rs:681-709 | a recorded reply goes out as one message with its text and all its calls, or not at all when it has neither |
| SessionTurns.ResultOnWire | crates/api/src/client.rs:710-728 | a recorded result is one wire tool message with its id and output |
| TurnMeaning.RequestMeans | crates/api/src/client.rs:629-637 | a request starts with the system prompt, when there is one, then every message's wires in order |
| TurnMeaning.UserOnWire | crates/api/src/client.rs:710-728 | a user message sends its texts and results in order, each as a message of its own, and no calls |
| TurnMeaning.PartsOnLines | crates/api/src/client.rs:778-792 | the parts of a result stand on lines of their own |
| SessionTurns.AnswersKeepClean | crates/runtime/src/lib.rs:402-419 | answering calls in order creates no orphan |
| SessionTurns.TurnKeepsClean | crates/runtime/src/lib.rs:437-579 | a turn, however it ends, keeps the session and every request inside it free of orphans |
| SessionTurns.PairingNeverDropsOwnMessages | crates/api/src/client.rs:629-637 | after any turns from an empty session the pairing pass is the identity on every request sent |
| SessionTurns.StreamingTurnsRefineWholeTurns | crates/runtime/src/lib.rs:437-579 | a streamed turn leaves the same session, requests and summary as a whole-response turn |
| TokenBudget.CountTokens | src/workflow/context-budget.ts:30-38 | the loop computes the CJK-aware estimate |
| TokenBudget.EstimateMessagesTokens | src/workflow/context-budget.ts:65-71 | the loop sums the message estimates |
| TokenBudget.TokensAppend | src/workflow/context-budget.ts:65-71 | the estimate is additive over concatenation |
| TokenBudget.EstimateExactly | src/workflow/context-budget.ts:30-38 | ten, a quarter of the ordinary characters rounded down, and 0.6 of the CJK ones rounded up |
| TokenBudget.CjkExactly | src/workflow/context-budget.ts:18-28 | which characters are CJK, by their blocks |
| TokenBudget.CjkAppend | src/workflow/context-budget.ts:30-38 | the count of CJK characters is additive |
| TokenBudget.MessageCosts | src/workflow/context-budget.ts:48-63 | what framing, text, each call and a result id cost |
| TokenBudget.CapIsLargest | src/runtime/conversation.ts:189-190 | the reply cap is the largest that fits within the ceiling, and never below 256 |
| TokenBudget.DerivedExactly | src/runtime/conversation.ts:362-368 | the derived budget reserves 16384 tokens but keeps at least 1024 |
| TokenBudget.RequestFitsWindow | src/runtime/conversation.ts:188-190 | input, reply cap and margin fit the window iff the least reply does |
| TokenBudget.BudgetFitsWindow | src/runtime/conversation.ts:362-368 | every input within the derived budget fits a window iff that window has at least 1792 tokens |
| TokenBudget.EveryModelFits | src/api/provider-registry.ts:115-127 | for every model name, known or not, input within the derived budget plus reply cap plus margin fits the window |
| Compaction.SafeRecentMessages | src/runtime/conversation.ts:460-473 | the loop returns the specified tail |
| Compaction.RecentIsLongestSafeTail | src/runtime/conversation.ts:460-473 | the tail fits the limit, starts with no tool result, and skips only tool results |
| Compaction.CompactionShrinks | src/runtime/conversation.ts:391-413 | an effective compaction never adds messages and leaves at most three more than the limit |
| Compaction.CompactedKeepsRecent | src/runtime/conversation.ts:391-413 | what survives a compaction: the head, one user message, and all from a point before which only results of the last messages went |
| Compaction.DroppableExactly | src/runtime/conversation.ts:391-399 | there is something to drop iff more than the limit stands behind the head, or a result stands right behind it |
| Compaction.GroupedTail | src/runtime/conversation.ts:460-473 | a tail that starts with no tool result keeps whole groups of calls and results |
| Compaction.GroupedAppend | src/runtime/conversation.ts:412-413 | complete groups joined are complete groups |
| Compaction.CompactionKeepsPairs | src/runtime/conversation.ts:384-415 | compaction keeps both first messages and every remaining call answered in order |
| Compaction.CompactionKeepsAnchors | src/runtime/conversation.ts:384-415 | in resumed transcripts, compaction leaves no result without its call |
| Compaction.AnchoredPart | src/runtime/conversation.ts:460-473 | any part not starting with a tool result keeps its results' calls |
| Compaction.AnchoredReply | src/runtime/conversation.ts:253-294 | a reply with the results of its first calls keeps each result behind its call |
| ToolRegistry.GlobalToolRegistry.constructor | src/tools/registry.ts:44-60 | built-in specs are registered in order, later ones replacing earlier ones of a name |
| ToolRegistry.GlobalToolRegistry.RegisterTool | src/tools/registry.ts:120-126 | one registration, under the normalised name, changes nothing else |
| ToolRegistry.LastSpecDecides | src/tools/registry.ts:44-60 | the last spec under a name decides its tool, and every tool comes from some spec |
| ToolRegistry.DispatchExactly | src/tools/registry.ts:80-118 | an executor's result is returned iff the tool is registered, permitted, not held back by plan mode, and has one; otherwise an error that does not depend on it |
| ToolRegistry.NamesNormalise | src/tools/registry.ts:158-171 | names are trimmed and lower-cased, hyphens become underscores, and three aliases resolve |
| ToolRegistry.BuiltinsExactly | src/tools/executor.ts:14-200 | of the built-in tools only the editing ones and the command runner need more than read-only |
| Prelude.TrimMeans | src/tools/registry.ts:158-159 | trimming takes whitespace off both ends, and only that |
| Permissions.CoversExactly | src/runtime/permissions.ts:9-11 | one mode allows another iff it is full access, asks for read-only, or is the same |
| ToolRegistry.ReadOnlyNeverModifies | src/tools/registry.ts:80-118 | in the read-only sandbox no dispatched call, whatever its executor does, is a successful modification |
| ToolRegistry.BuiltinsGuardWrites | src/tools/registry.ts:44-60 | the built-in registry puts both editing tools above read-only |
| Conversation.ConversationRuntime.CompactIfNeeded | src/runtime/conversation.ts:370-417 | over budget with something to drop, and only then, the transcript becomes head, summary text and recent tail; the text is a model-written summary when three turns have passed, else the compressed or plain notice |
| Conversation.ConversationRuntime.CompactInRun | src/runtime/conversation.ts:370-417 | within a run compaction keeps pairing, size bounds, the recent messages and the pacing of summaries |
| Conversation.ConversationRuntime.Ask | src/runtime/conversation.ts:186-228 | one request of the transcript, compacted if over budget; after an overflow a second one iff compaction strictly sheds tokens; a failure carries the last request's error; all requests sound |
| Conversation.SendRetry | src/runtime/conversation.ts:205-222 | a retry that strictly shrank keeps the request order law |
| Conversation.ConversationRuntime.AnswerCalls | src/runtime/conversation.ts:253-295 | calls run in order up to the first accepted finish; each result recorded under its call's id |
| Conversation.ConversationRuntime.Follow | src/runtime/conversation.ts:236-295 | a reply is followed by a nudge or by its results, keeping every call answered unless the run ends, and every result behind its call even then |
| Conversation.ConversationRuntime.TakeTurn | src/runtime/conversation.ts:174-298 | one turn of a run ends it, or leaves everything that holds of a run before its next turn |
| Conversation.HookDecides | src/runtime/conversation.ts:257-269 | a call the hook denies is an error naming its reason; any other gets what its execution returns |
| Conversation.RecordedExactly | src/runtime/conversation.ts:271-283 | each result is recorded under its call's id with its content, or the block message for a finish not accepted yet |
| Conversation.ModifiedExactly | src/runtime/conversation.ts:285-287 | a modification counts iff some edit or write did not fail and was no blocked finish |
| Conversation.ConversationRuntime.RunTurn | src/runtime/conversation.ts:134-306 | over a whole run: every request sends all that went before, compacted where over budget, paired, capped and leaving room for its reply; turns consecutive, at most one shrinking retry each, summaries three turns apart; every call of every reply is run in order up to the accepted finish that completes the run; the stored transcript ends with that reply and its results; a failure is the last request's or the turn limit |
| Conversation.TurnCarries | src/runtime/conversation.ts:186-228 | a turn's requests carry the transcript on, compaction apart |
| Conversation.FollowGrows | src/runtime/conversation.ts:236-295 | a reply makes the transcript grow by itself and its results |
| Conversation.ChainsStayAnchored | src/workflow/run-agent-loop.ts:58-61 | in every chain of runs resumed from stored transcripts, every request has each tool result behind its call |
| Conversation.CompactionSound | src/runtime/conversation.ts:384-415 | compaction keeps the transcript law of fresh and resumed runs |
| Conversation.ReplySound | src/runtime/conversation.ts:236-284 | a reply with all its results keeps the transcript law |
| Conversation.FinishAcceptedExactly | src/runtime/conversation.ts:271-286 | a finish is accepted iff unguarded, after a successful modification, or repeating the block message |
| Conversation.GuardedRunModifiedFirst | src/agents/execution-guard.ts:29-32 | a guarded run that completes has an earlier successful edit or write, that exception apart |
| Conversation.BlockMessageSlipsThrough | src/runtime/conversation.ts:271-286 | the exception is reachable: in the world whose model calls finish with the block message, every guarded run completes with it and nothing modified |
| Conversation.ReadOnlyGuardedRunNeverCompletes | src/runtime/permission-enforcer.ts:51-68 | under the read-only sandbox a guarded run never completes, that exception apart |
| WorkerBoot.WorkerRegistry.Create | src/runtime/worker-boot.ts:601-632 | a new worker is spawning, with one event, under an id not used before; every registered worker stays lawful |
| WorkerBoot.WorkerRegistry.PushEvent | src/runtime/worker-boot.ts:224-237 | an event is numbered next and sets status and update time |
| WorkerBoot.WorkerRegistry.ObserveTrustGate | src/runtime/worker-boot.ts:674-704 | a trust prompt blocks, or is resolved at once for an allowlisted directory |
| WorkerBoot.WorkerRegistry.ObserveDelivery | src/runtime/worker-boot.ts:706-799 | misdelivery, running cue and readiness move the worker as specified, arming a replay when allowed |
| WorkerBoot.WorkerRegistry.ObserveScreen | src/runtime/worker-boot.ts:644-800 | the checks apply in order, with one clock reading per use |
| WorkerBoot.WorkerRegistry.ObserveCompletion | src/runtime/worker-boot.ts:911-952 | a provider failure fails the worker and any other completion finishes it, ending the prompt in flight |
| WorkerBoot.WorkerRegistry.ObserveStartupTimeout | src/runtime/worker-boot.ts:954-1014 | a timeout fails the worker with its evidence, classified before the failure is recorded |
| WorkerBoot.WorkerRegistry.Apply | src/runtime/worker-boot.ts:803-1014 | every operation is its step function on that worker only, extends its log, and keeps every registered worker lawful; unknown ids and refusals change nothing |
| WorkerBoot.WorkerRegistry.AwaitReady | src/runtime/worker-boot.ts:863-876 | the snapshot reports readiness, blocking and an armed replay |
| WorkerBoot.TrustSnoc | src/runtime/worker-boot.ts:674-704 | how one more event moves the trust history |
| WorkerBoot.StepKeeps | src/runtime/worker-boot.ts:803-1014 | every operation keeps the whole invariant and only appends to the log |
| WorkerBoot.EveryRunIsReachable | src/runtime/worker-boot.ts:601-1014 | over every run: events numbered 1..n, status and time those of the last event, the prompt and replay laws, at most one trust resolution per restart |
| WorkerBoot.LogIsAppendOnly | src/runtime/worker-boot.ts:224-237 | a longer run's log extends a shorter run's |
| WorkerBoot.ClassifierCollapses | src/runtime/worker-boot.ts:547-582 | on reachable workers the classifier needs no event history |
| WorkerBoot.ClassifierNeedsHistory | src/runtime/worker-boot.ts:547-582 | on other workers it does, so reachability is what justifies the collapse |
| WorkerBoot.ScopeKnownWhenPrompted | src/runtime/worker-boot.ts:960-996 | the evidence has an allow scope and an age iff a permission prompt was seen |
| WorkerOutcomes.CreationOutcome | src/runtime/worker-boot.ts:601-632 | the fields and the one event of a new worker |
| WorkerOutcomes.ToolPromptOutcome | src/runtime/worker-boot.ts:649-672 | a tool prompt comes first: its status, error and event, and nothing else |
| WorkerOutcomes.TrustBlockOutcome | src/runtime/worker-boot.ts:674-704 | an unresolved trust prompt stops everything else |
| WorkerOutcomes.MisdeliveryOutcome | src/runtime/worker-boot.ts:706-776 | a misdelivered prompt in flight fails the worker, or arms its replay and makes it ready |
| WorkerOutcomes.ScreenOutcome | src/runtime/worker-boot.ts:778-799 | otherwise a running cue ends the flight of a prompt and a ready screen makes the worker ready, with exactly these events and times |
| WorkerOutcomes.ReadyScreenMakesReady | src/runtime/worker-boot.ts:785-799 | with nothing in the way a ready screen leaves a reachable worker ready, no prompt in flight |
| WorkerOutcomes.RefusedExactly | src/runtime/worker-boot.ts:803-860 | which operations are refused, and that a refused one changes nothing |
| WorkerOutcomes.ResolveTrustOutcome | src/runtime/worker-boot.ts:803-821 | resolving trust clears the gate and starts over |
| WorkerOutcomes.SendPromptOutcome | src/runtime/worker-boot.ts:827-860 | sending takes the prompt given or the armed replay, counts an attempt and puts it in flight |
| WorkerOutcomes.RestartOutcome | src/runtime/worker-boot.ts:879-890 | a restart clears gate, prompts, attempts and error |
| WorkerOutcomes.TerminateOutcome | src/runtime/worker-boot.ts:892-903 | termination finishes the worker and ends the prompt in flight |
| WorkerOutcomes.CompletionOutcome | src/runtime/worker-boot.ts:911-948 | a completion finishes or fails the worker, by its reason and tokens |
| WorkerOutcomes.TimeoutOutcome | src/runtime/worker-boot.ts:954-1014 | a timeout fails the worker with evidence of its fields and last permission prompt, and the class these give |
| TaskRunner.TaskRegistry.Create | src/runtime/task-registry.ts:89-125 | a created task is new and listed last |
| TaskRunner.TaskRegistry.SetStatus | src/runtime/task-registry.ts:161-165 | only that task's status changes |
| TaskRunner.TaskRegistry.AppendOutput | src/runtime/task-registry.ts:204-213 | only that task's output grows |
| TaskRunner.TaskRegistry.List | src/runtime/task-registry.ts:136-144 | the ids of a status in creation order |
| TaskRunner.WithStatusSelects | src/runtime/task-registry.ts:136-144 | the listing holds tasks of that status only, in creation order, once each |
| TaskRunner.EveryOneListed | src/runtime/task-registry.ts:136-144 | and all of them |
| TaskRunner.Runner.Start | src/runtime/task-runner.ts:28-30 | starting sets running and nothing else |
| TaskRunner.Runner.Conclude | src/runtime/task-runner.ts:31-40 | concluding records output and final status, throws included |
| TaskRunner.Runner.RunSlice | src/runtime/task-runner.ts:50-54 | for every interleaving of completions: each task of the slice executed once, results in slice order, every step one start or one execution, no other task touched |
| TaskRunner.Runner.RunBatch | src/runtime/task-runner.ts:48-56 | over all slices, whatever status the tasks had: executed once each, results in order; in every state at most one, or no more than the concurrency given, of the tasks not running before runs; slices as large as that allows |
| TaskRunner.AtOnceIsAllowed | src/runtime/task-runner.ts:49 | the slice size is the largest whole number not above the concurrency given, or 1 when that is below 1 |
| TaskRunner.Runner.RunPending | src/runtime/task-runner.ts:43-45 | exactly the created tasks run, in creation order; each ends completed or failed and no created task is left |
| TaskRunner.NothingLeftPending | src/runtime/task-runner.ts:43-45 | running every created task ends each completed or failed and leaves none created, so a second pass has nothing to do |
| TaskRunner.RunTeam | src/workflow/team.ts:94-114 | one report line per task in the order given, whatever the interleaving; completed plus failed is the number of tasks |
| TaskRunner.StatesGrow | src/runtime/task-runner.ts:48-56 | the concurrency bound survives appending a slice's states |
| TaskRunner.EveryTaskCounts | src/workflow/team.ts:105-113 | counting final statuses counts every line once |
| EditDistance.Levenshtein | src/runtime/config-validate.ts:16-33 | the two reused rows compute the recursive edit distance |
| EditDistance.ScriptsAreLongEnough | src/runtime/config-validate.ts:16-33 | no edit script is shorter than the distance |
| EditDistance.ShortestScript | src/runtime/config-validate.ts:16-33 | a script of that length exists |
| EditDistance.DistanceIsLeastScript | src/runtime/config-validate.ts:16-33 | the distance is the least number of insertions, deletions and substitutions |
| EditDistance.DistanceIsMetric | src/runtime/config-validate.ts:16-33 | zero iff equal, symmetric, and the triangle inequality holds |
| EditDistance.SuggestKey | src/runtime/config-validate.ts:36-50 | the first known key of least lower-cased distance, iff that distance is at most 3 |
| EditDistance.SuggestionIsUnique | src/runtime/config-validate.ts:36-50 | that description leaves no choice |
| Glob.GlobMatchRecursive | src/runtime/trust-resolver.ts:93-117 | true iff the path suffix is in the language of the pattern suffix; terminates |
| Glob.GlobMatches | src/runtime/trust-resolver.ts:119-121 | true iff the path splits into one fitting part per pattern character |
| Glob.FirstCharacter | src/runtime/trust-resolver.ts:93-117 | a pattern matches iff its first character takes some prefix and the rest matches the rest |
| Glob.Star | src/runtime/trust-resolver.ts:96-107 | a star matches iff the rest matches some suffix |
| Glob.OneCharacter | src/runtime/trust-resolver.ts:108-113 | any other character takes exactly one character |
| PromptCache.UnexpectedExactly | src/api/prompt-cache.ts:235-310 | a break is unexpected iff the same prompt lost enough cached tokens within its lifetime |
| PromptCache.BreakMeans | src/api/prompt-cache.ts:235-310 | when a break is reported, its token counts, and its reason by order of precedence, with exactly the changed parts named |
| PromptCache.RememberedExactly | src/api/prompt-cache.ts:418-450 | a response is remembered iff the last record of its key holds it and is younger than the lifetime |
| PromptCache.LatestIsLast | src/api/prompt-cache.ts:418-450 | the latest record of a key has no later one |
| PromptCache.ExpiryIsUnobservable | src/api/prompt-cache.ts:438-446 | deleting an expired entry keeps the cache in agreement with its history |
| PromptCache.RecordingAgrees | src/api/prompt-cache.ts:468-504 | recording a response keeps that agreement |
| PromptCache.Cache.constructor | src/api/prompt-cache.ts:397-408 | an empty cache agrees with an empty history |
| PromptCache.Cache.LookupCompletion | src/api/prompt-cache.ts:418-450 | a lookup returns r iff the latest record under the key stored r less than the lifetime ago; hits and misses add up to lookups |
| PromptCache.Cache.Record | src/api/prompt-cache.ts:468-504 | a record extends the history; writes count responses, and breaks stay below tracked requests |
| LaneEvents.ReconcileTerminalEvents | src/runtime/lane-events.ts:453-501 | the loop computes the fold over the sorted burst |
| LaneEvents.SortSorts | src/runtime/lane-events.ts:458 | sorting orders by number and keeps every event |
| LaneEvents.SortIsStable | src/runtime/lane-events.ts:458 | events of one number keep their order |
| LaneEvents.NamesExactly | src/runtime/lane-events.ts:422-438 | which event names end a lane, and which makes its end uncertain |
| LaneEvents.DifferExactly | src/runtime/lane-events.ts:440-446 | in what events differ materially, and when they share a fingerprint |
| LaneEvents.WrappedExactly | src/runtime/lane-events.ts:491-498 | what a wrapped outcome says and keeps |
| LaneEvents.FoldMeans | src/runtime/lane-events.ts:464-487 | the fold keeps all non-terminal events in order, and is uncertain iff a reconciled event follows a terminal one |
| LaneEvents.FoldKeepsLast | src/runtime/lane-events.ts:466-480 | with faithful fingerprints the kept terminal event is materially the last one |
| LaneEvents.OutcomeNeedsTerminal | src/runtime/lane-events.ts:489 | no outcome iff there is no terminal event |
| LaneEvents.OutcomeMeans | src/runtime/lane-events.ts:453-501 | what the outcome holds: every non-terminal event in order, and a terminal event, wrapped iff uncertain, materially that of highest number under faithful fingerprints |
| LaneEvents.OutcomeIgnoresArrivalOrder | src/runtime/lane-events.ts:453-501 | with distinct numbers, any permutation of the burst gives the same outcome |
| LaneEvents.LatestTerminalWinsExactly | src/runtime/lane-events.ts:453-501 | with any fingerprints, missing ones included: every burst drawn from some events keeps, materially, its highest-numbered terminal one iff equal fingerprints of terminal events mean material equality |
| LaneEvents.BuiltBurstOutcome | src/runtime/lane-events.ts:173-182 | for bursts whose terminal events all carry the builder's fingerprint: the outcome is the head of the trailing run of terminal events with equal name, status and data, materially the highest-numbered one iff those two have one failure class |
| LaneEvents.FoldKeepsRunHead | src/runtime/lane-events.ts:464-480 | for such bursts the loop keeps the head of that run |
| LaneEvents.FaithfulExactly | src/runtime/lane-events.ts:173-182 | built fingerprints are faithful iff equal name, status and data mean an equal failure class |
| LaneEvents.LaterFailureClassIsLost | src/runtime/lane-events.ts:395-400 | two built failures of different classes: the second is lost, though they differ |
| LaneEvents.LaterTerminalReplaces | src/runtime/lane-events.ts:467-480 | with any fingerprints, a terminal event of highest number replaces the outcome so far unless that shares its fingerprint and differs |
| LaneEvents.SharedFingerprintHidesLater | src/runtime/lane-events.ts:468-475 | of two terminal events with one fingerprint the first in order stays, even if the second differs |
| LineSelection.SelectLines | src/runtime/summary-compression.ts:147-176 | the nested loops compute the scan's selection, in original order |
| LineSelection.PriorityExactly | src/runtime/summary-compression.ts:108-136 | titles and core details first, then headings, then list items, then the rest |
| LineSelection.PickedInOrder | src/runtime/summary-compression.ts:173-175 | the chosen lines stand in ascending order of position |
| LineSelection.SelectionIsGreedy | src/runtime/summary-compression.ts:152-171 | a line is chosen iff it fits beside the chosen lines of better priority or earlier position |
| LineSelection.GreedyIsUnique | src/runtime/summary-compression.ts:152-171 | that description has one solution |
| LineSelection.GreedyKeepsBudgets | src/runtime/summary-compression.ts:138-176 | the selection keeps the line and the character budget |
| LineSelection.GreedyIsMaximal | src/runtime/summary-compression.ts:138-176 | adding any omitted line breaks a budget |
| LineSelection.LineCapKeepsPriority | src/runtime/summary-compression.ts:165-166 | a line omitted for the line cap has no better priority than any chosen line |
| LineSelection.SelectionMeans | src/runtime/summary-compression.ts:147-176 | all of this of what SelectLines returns |
| SummaryCompression.NormaliseLines | src/runtime/summary-compression.ts:43-59 | the loop computes the kept lines and the number removed |
| SummaryCompression.CompressSummary | src/runtime/summary-compression.ts:33-86 | the method computes the compression of its text, with the default limits filled in |
| SummaryCompression.NormaliseMeans | src/runtime/summary-compression.ts:43-59 | no two kept lines share a key; kept lines are clean and, for a limit of at least 0, short; each line with text is kept under its key or counted |
| SummaryCompression.CollapsedIsClean | src/runtime/summary-compression.ts:92-94 | a collapsed line is empty or single-spaced words |
| SummaryCompression.CleanCollapses | src/runtime/summary-compression.ts:92-94 | single-spaced words collapse to themselves |
| SummaryCompression.WordsExactly | src/runtime/summary-compression.ts:92-94 | whitespace separates words, however much of it |
| SummaryCompression.SolidIsOneWord | src/runtime/summary-compression.ts:92-94 | a run without whitespace is one word |
| SummaryCompression.TruncatesExactly | src/runtime/summary-compression.ts:96-101 | what a line over or within its limit becomes |
| SummaryCompression.TruncatedIsClean | src/runtime/summary-compression.ts:96-101 | truncation keeps a line clean and never lengthens it; a limit of at least 0 bounds it and repeats without effect |
| SummaryCompression.SplitOfJoin | src/runtime/summary-compression.ts:79 | splitting a joined result gives its lines back |
| SummaryCompression.TrimKeepsCollapsed | src/runtime/summary-compression.ts:81-83 | trimming a text keeps its collapsed lines |
| SummaryCompression.CompressionKeepsBudgets | src/runtime/summary-compression.ts:61-85 | the result, notice included, keeps both budgets |
| SummaryCompression.ResultMeans | src/runtime/summary-compression.ts:66-81 | the result is the selected lines, and a notice iff some were omitted and it still fits both budgets |
| SummaryCompression.NoticeMeans | src/runtime/summary-compression.ts:72 | the notice names the number of omitted lines, which reads back |
| SummaryCompression.NoticeReplacesNothing | src/runtime/summary-compression.ts:67-77 | where the notice stands for one omitted line, some kept line is longer than the output line at its place, so notice and lines never read as the lines did |
| SummaryCompression.SameTextDropsNothing | src/runtime/summary-compression.ts:79-83 | a result equal to the trimmed text dropped and repeated nothing |
| SummaryCompression.TruncatedExactly | src/runtime/summary-compression.ts:82-83 | the flag is set iff the result differs from the trimmed text, so both counters are redundant |
| SummaryCompression.KeptExactly | src/runtime/summary-compression.ts:33-86 | clean lines within both budgets come back unchanged iff no two share a key and none is too long |
| SummaryCompression.CompressingAgainExactly | src/runtime/summary-compression.ts:33-86 | compressing a result again changes nothing iff truncation leaves its lines alone and its notice, if any, repeats no key |
| SummaryCompression.ConsecutiveExactly | src/runtime/summary-compression.ts:25-31 | the kept lines are those a pass over consecutive lines would keep iff no key returns after a line with another key |
| SummaryCompression.SeparatedRepeatGoes | src/runtime/summary-compression.ts:53-57 | of lines a, b, a with two keys the last goes, where a consecutive pass keeps all three |

## Left out

- HTTP, retries with backoff, request ids, request-size checks and error bodies of the streaming client.
- JSON reading and writing, UTF-8 decoding, lower-casing and hashing: parameters, or values already computed.
- A transport error between two pieces of a streamed body; and the streaming client's unterminated last frame, which
  the code never reads either.
- Token counts of the streaming client are unbounded; the 32-bit overflow of their sums is not modelled. Tool indices
  are 32-bit.
- Text is a sequence of Unicode characters. The original counts UTF-16 units in the edit distance and the token
  estimate, which differs outside the Basic Multilingual Plane.
- The token estimate's 0.6 per CJK character is exact here; floating-point rounding of that product is not modelled.
- The side-channel transcript lines, session store, git context, telemetry and streaming callbacks of the agent loop;
  `compactTranscript`, which no modelled path uses.
- The extractive compression inside a run's compaction is a parameter of `Conversation`; `SummaryCompression` models
  it on its own.
- Plan mode is one boolean per dispatched call; executors, hooks and the user are arbitrary answers.
- "Every call answered" for resumed transcripts: stated for fresh runs only, since a finish returns before later calls
  of its reply are answered; every chain of resumed runs keeps the weaker law that each result follows its call.
- The screen-text detectors of the worker registry, its display texts, prompt previews and the format of worker ids;
  whether a directory is allowlisted is one boolean.
- Task timestamps, messages, stopping, removal and team assignment; executors that themselves change the registry.
- TaskRunner.Runner.RunSlice: requires distinct ids of registered tasks; the rejection for an unknown id, and one task
  run twice at once, are not modelled. The only caller passes the listing of created tasks.
- TaskRunner.Runner.RunBatch: the same, and a NaN concurrency is not modelled.
- The shortcut cases of `patternMatches` around the glob matcher, and the deny and allow lists.
- Persisted prompt-cache storage and entries of other fingerprint versions; `mul64` and `fnv1a64` are replaced by an
  arbitrary key.
- The deduplication and filter helpers beside `reconcileTerminalEvents`. Fingerprints are an injective function of
  name, status and data; collisions of the two 32-bit hashes behind them are not modelled.
- LineSelection.SelectLines: whole limits only, negative ones included; the options are counts of lines and
  characters, and fractional ones are not modelled.
- SummaryCompression.CompressSummary: whole limits only, for the same reason.
