# brazen: a verified model of its stateful machinery

brazen turns the wire formats of many language-model providers into one canonical event stream,
and back. This project models the machinery around the provider codecs and proves what that
machinery promises, for every input, every run and every interleaving:

- **Framing and the streaming driver.** The incremental SSE and NDJSON framers are mutable classes
  proved against one whole-input parse, so frames cannot depend on where the transport cut the
  bytes; what that parse makes of any stream is said of its lines alone, and the terminator search is
  linear in the bytes pushed. Above them the pull iterator is proved to yield, event for event, one
  eager fold of the body, whatever the decoder. A decoder that keeps a two-clause contract (its starts
  and stops are the changes to its open set; it drains before it ends the stream and stays drained)
  balances every body. The chat-completions and ollama decoders keep the first clause; for both, the
  exact lines on which a block is left open are named, and what their events say is read off the lines.
- **The masquerade.** Two ingress encoders fold canonical events into client state. The message a client
  gets, on either shape, is spelt out from the events alone, and for a chat-completions provider behind
  the chat-completions masquerade from the provider's own lines, however they were framed, cut or dropped.
  Opaque reasoning blocks parked by one turn come back when the client echoes it; a whole turn of either
  dialect is followed onto the socket and up to the message the client assembles. The stash below is a
  transition system over writers, readers and pruners that may stop anywhere, and to its callers it is one
  atomic register per key.
- **Configuration, routing, the model cache.** The layered fold is associative, and over any list of
  layers the first that sets a field decides it; the greedy two-tier router agrees with the resolver the
  request half later runs; the cache keeps its invariants over every run of requests.
- **Codecs and arithmetic.** Form encoding and the OAuth callback, `Retry-After` dates, the delegate
  response head, HTTP requests and chunked responses, and the serde pairs of the canonical model are
  each proved to read back what is written, with the exact condition where that needs one.
- **Reader threads.** Worker, consumer, timeout and drop interleave; the consumer sees a prefix of the
  chunks, at most one error, then the end; a child is waited on exactly once.

Code that changes state is a class or a method with its loop, proved against a specification function;
the properties are lemmas about those functions. `AsciiText`, `Base` and `Canonical` hold the shared
vocabulary, `CrossChecks` the facts that only show across components. Check the project with `dafny verify dfyconfig.toml`.

Where the code and its own words part, the model follows the code and a lemma says so:

- `ChatBalance.ChatBalancedIff`: not every chat stream that ended has closed its blocks, against the
  comment at src/run/events/stream.rs:104-106. One does not exactly when some chunk opens a block (by
  non-empty reasoning or content, or by a tool index not seen before) and neither it nor a later chunk
  carries a finish reason. `ChatBalance.BareMarkerLeavesBlockOpen` and `ChatBalance.TextAfterFinishReopens`
  are two such streams. `OllamaDecode.LineBalancedIff` is the like condition for the ollama decoder.
- `ChatContents.EventsTellTheLines`: more arguments for a tool call that a finish reason has closed go to a block
  that is closed or another's, although the comment at src/protocol/openai/decode/blocks.rs:47-50 routes them by
  the call's index; `ChatContents.RevivedCallIsMisheard` is such a stream.
- `RetryAfter.DateMeansItsDelay`: a date whose day count wraps past 64 bits onto a nearer day, or whose day
  is past its month's end, is given a made-up delay, against the "never fabricated" of
  src/canonical/retry_after.rs:8 and the range check promised at lines 71-75; the lemma says exactly which
  dates and what they are given. `RetryAfter.FabricatedDelay` and `RetryAfter.UnrealDayIsAnswered` are two.
- `RetryAfter.PastDateRetriesAtOnce`: a past date before 1970 is no delay at all, not the zero seconds the same
  comment promises of a past date; `RetryAfter.Before1970IsNoDelay` is one.
- `WireSerde.FirstKeyDecides`: the tag of an object is its first key even when it has several, although
  the comment at src/canonical/event_serde.rs:13-14 says an object of several keys has none.
- `AnthIngress.LateUsageIsMissed`: usage reported after the finish reaches the aggregate body only, and by
  `CrossChecks.ChatUsageComesTooLate` that is where the chat decoder reports it.
- `StashFiles.OddTimesFold`: a stash file stamped before the epoch is evicted by any later clock, while the
  comment at src/store/replay.rs:101-103 gives it age 0.
- `AnthTurn.EndIsSilent`: in the messages dialect the end says nothing on a stream after an error, although the
  comment at src/run/masq/mod.rs:142-144 has it say something on both shapes; by `AnthTurn.EndSays` a response has
  begun all the same.
- `HttpResponses.CodingReadsBack`: an empty chunk ends a chunked body early.
- `Envelope.LongHeadsDependOnChunking`: beyond 65537 bytes, whether a head is accepted depends on how
  it was cut.
- `ConfigFold.DefaultRowIsNoIdentity`: the default row clears the preset mark, so it is no identity of
  the row merge, while the default configuration is one of the whole fold.

## Model

| member | source | states |
|---|---|---|
| SseGrammar.FrameEndFinds | src/protocol/sse.rs:107-117 | the search returns the end of the first blank-line terminator (LF LF or CR LF CR LF), and none exactly when there is none |
| SseGrammar.TerminatorIsStable | src/protocol/sse.rs:107-117 | a terminator found in what has arrived stays the first one whatever arrives later |
| SseGrammar.SearchMayResume | src/protocol/sse.rs:54-71 | positions known to begin no terminator can be skipped by the resume offset without changing the result |
| SseGrammar.FramesAppend | src/protocol/sse.rs:49-71 | the frames of a longer input are the frames already complete, then those the held tail and the new bytes complete |
| SseGrammar.BodyGrows | src/protocol/sse.rs:82-101 | once the one leading byte-order mark is decided, later bytes only extend the body |
| SseGrammar.ReadyIsPrefix | src/protocol/sse.rs:49-80 | frames once ready are a prefix of those ready later and of the whole parse |
| Decoders.FindFrameEnd | src/protocol/sse.rs:107-117 | the loop finds the first terminator and tries no position past it |
| Decoders.ParseBlock | src/protocol/sse.rs:122-149 | the field loop yields the block's frame: last event, data lines joined, nothing when neither was said |
| Decoders.ResumeKnown | src/protocol/sse.rs:67-70 | no terminator can begin before the kept resume offset, not even one the next chunk completes |
| Decoders.SseDecoder.StripBom | src/protocol/sse.rs:88-100 | strips at most one leading mark, once, and waits while more bytes could still decide it |
| Decoders.SseDecoder.Peel | src/protocol/sse.rs:54-71 | peels exactly the complete blocks, leaves the uncut tail and a resume offset three short of its end |
| Decoders.SseDecoder.Push | src/protocol/sse.rs:49-72 | adds to the frames so far exactly those the chunk completes, examining at most its length plus three positions |
| Decoders.SseDecoder.Finish | src/protocol/sse.rs:74-79 | flushes the unterminated last block, if it says anything |
| Decoders.NdjsonDecoder.Push | src/protocol/sse.rs:159-170 | adds exactly the lines the chunk completes |
| Decoders.NdjsonDecoder.Finish | src/protocol/sse.rs:172-177 | flushes an unterminated last line |
| Decoders.Framer.Push | src/protocol/sse.rs:11-23 | the boxed framer keeps the same promise under each of the three framings |
| Decoders.DecodeSse | src/protocol/sse.rs:49-80 | pushing any chunking and finishing yields the whole-input parse; the search examines at most B + 3n positions |
| Decoders.DecodeNdjson | src/protocol/sse.rs:158-178 | pushing any chunking and finishing yields the whole-input line parse |
| SseMeaning.MeaningIs | src/protocol/sse.rs:122-149 | what a block means, of its lines alone: no frame exactly when it has neither an event nor a data field; else the event is the last one's value, and the data splits at LF into exactly the data values in order |
| SseMeaning.InputMeans | src/protocol/sse.rs:49-101 | any stream of blocks of any such lines, each ended by LF or CR LF, spaced or not, after a mark or not, with its last block cut off or not, parses to the meanings of its blocks |
| SseMeaning.LinesMean | src/protocol/sse.rs:151-178 | any list of lines, the last unterminated, parses to one frame per non-blank line with its line ending gone |
| SseWire.WrittenStreamReadsBack | src/ingress/openai_chat/chunks.rs:61-79 | the SSE text the masquerade writes, comments included, frames back to exactly its payloads |
| Canonical.SortKeys | src/protocol/synth.rs:49-56 | the drain's order: every open index once, ascending |
| Canonical.StopsClose | src/protocol/synth.rs:49-56 | one stop per open index closes exactly those blocks |
| DecodeContract.AgreesOnRuns | src/protocol/frame.rs:96-129 | over any run, a decoder's starts and stops are the changes to its open set |
| DecodeContract.DrainsOnRuns | src/protocol/frame.rs:96-129 | over any run, a decoder that drains before it terminates stays drained |
| StreamDriver.StreamEvents.constructor | src/run/events/stream.rs:45-60 | a fresh iterator still has the whole eager trace to yield |
| StreamDriver.StreamEvents.DecodeIntoPending | src/run/events/stream.rs:66-73 | a frame's events, or its error in-band, join the queue, and the sampled head is dropped |
| StreamDriver.StreamEvents.AccumulateHead | src/run/events/stream.rs:77-83 | samples at most 8 KiB, and only until something framed |
| StreamDriver.StreamEvents.CloseOpenBlocks | src/run/events/stream.rs:107-114 | stops every open block, ascending, and empties the open set |
| StreamDriver.StreamEvents.TakeDrop | src/run/events/stream.rs:149-156 | a transport drop stops the open blocks, adds one error and finishes |
| StreamDriver.StreamEvents.EndOfBody | src/run/events/stream.rs:128-141 | the end of the body flushes the framer, then stops the open blocks and adds one premature-EOF error unless the stream terminated |
| StreamDriver.StreamEvents.Next | src/run/events/stream.rs:120-160 | yields the next event of the trace, and once there is none, none for ever |
| StreamMeaning.AllFramesAre | src/run/events/stream.rs:120-160 | the frames a body is decoded by are the whole-input parse of its bytes, last block flushed, or on a drop only the complete ones |
| StreamMeaning.SseBodyMeans | src/run/events/stream.rs:120-160 | on any chunking of an SSE stream they are the meanings of its blocks, the unterminated one only if the body was not dropped |
| StreamMeaning.NdjsonBodyMeans | src/run/events/stream.rs:120-160 | on any chunking of lines they are the lines, the unterminated one only if the body was not dropped |
| StreamMeaning.IdentityBodyMeans | src/protocol/sse.rs:199-213 | under the identity framing they are the chunks, one each, dropped or not |
| StreamMeaning.TraceMeans | src/run/events/stream.rs:62-160 | the trace of any body: each of those frames decoded in order, the state handed on, then the closing events, which are none exactly on an undropped body that ended its stream |
| StreamMeaning.Collect | src/run/events/stream.rs:117-160 | draining the iterator yields exactly that trace |
| StreamTheorems.RechunkingIsInvisible | src/run/events/stream.rs:120-160 | two bodies with the same bytes and the same ending have the same trace |
| StreamTheorems.IdentityShowsTheChunks | src/protocol/sse.rs:199-213 | the identity framing is the exception |
| StreamTheorems.InjectedErrorComesLast | src/run/events/stream.rs:89-114 | an injected error is the one last event, after every started block has been stopped exactly once; its detail is the sampled head exactly when nothing framed |
| StreamTheorems.BalancedIff | src/run/events/stream.rs:100-114 | for any decoder keeping the first clause, a trace is balanced exactly when the body dropped or the decode state does not end both terminated and with a block open; and nothing is injected exactly when the body was not dropped and the provider ended the stream |
| StreamTheorems.ContractBalances | src/run/events/stream.rs:100-114 | a decoder keeping both clauses balances every body |
| StreamTheorems.EndingLastBalances | src/run/events/stream.rs:100-114 | a decoder that drains whenever it ends balances every body on which no frame follows the end |
| DecodeContract.QuietKeepsContract | src/protocol/frame.rs:96-105 | a decoder that drains as it ends keeps both clauses once it ignores what comes after |
| DecodeContract.QuietIsDecode | src/protocol/frame.rs:96-105 | on a stream whose last frame ends it, ignoring what comes after changes nothing |
| BlockMarks.MarkedBalance | src/run/events/stream.rs:100-114 | a decoder that follows its lines' marks balances a body exactly when it dropped, or no line ends the stream, or every opening line is followed by, or is, a closing one |
| Synth.Drain | src/protocol/synth.rs:49-56 | empties the open set and emits one stop per block, ascending |
| Synth.ChatAgrees | src/protocol/openai/decode/mod.rs:75-130 | the chat decoder's starts and stops are exactly its changes to the open set |
| Synth.ChatKeepsOneEach | src/protocol/synth.rs:24-44 | lazy opening keeps at most one text and one anonymous thinking block open |
| ChatBalance.LineMoves | src/protocol/openai/decode/mod.rs:75-130 | whether a chat line opens, closes or ends is decided by the line and the tool indices seen before it |
| ChatBalance.ChatTracks | src/protocol/openai/decode/mod.rs:75-130 | after any frames, a block is open exactly when some line opened one and no line since closed it, and the stream is over exactly when some line ended it |
| ChatBalance.ChatBalancedIff | src/protocol/openai/decode/mod.rs:75-130 | which chat streams stop every block, read off their lines alone |
| ChatBalance.BareMarkerLeavesBlockOpen | src/protocol/openai/decode/mod.rs:81-84 | a text chunk and then the bare terminator leave the block unstopped |
| ChatBalance.TextAfterFinishReopens | src/protocol/openai/decode/mod.rs:98-128 | text after the finish reason reopens a block that nothing stops |
| OllamaDecode.LineAgrees | src/protocol/ollama_chat/decode/mod.rs:22-82 | the line decoder's starts and stops are exactly its changes to the open set |
| OllamaDecode.LineBalancedIff | src/protocol/ollama_chat/decode/mod.rs:22-82 | which line streams stop every block: dropped ones, ones without a done line, and ones on which no line after the last done line carries text, thinking or a tool call |
| OllamaDecode.LineDrainsAtEnd | src/protocol/ollama_chat/decode/mod.rs:70-82 | the done line itself always drains |
| OllamaDecode.QuietLinesBalance | src/run/events/stream.rs:100-114 | made deaf after its end, this decoder balances every body |
| ChatContents.ReasonIs | src/protocol/openai/decode/blocks.rs:84-104 | streamed refusal text outranks every reason; else each reason of the wire has its own meaning and an unknown one is kept |
| ChatContents.EventsTellTheLines | src/protocol/openai/decode/mod.rs:75-130 | the events of any stream say what its lines say, in order, each fragment of reasoning, content and arguments credited to the right block, exactly unless arguments come for a tool call that a finish reason has already closed |
| ChatContents.RevivedCallIsMisheard | src/protocol/openai/decode/blocks.rs:51-73 | two chunks on which they do not: a call, its finish, and then more of its arguments |
| ChatContents.StreamNeverEnds | src/protocol/openai/decode/mod.rs:11-12 | the decoder never emits the end |
| OllamaContents.EventsTellTheLines | src/protocol/ollama_chat/decode/mod.rs:22-113 | the events of any line stream say what its lines say: thinking and content, each call with its synthesized id and its own arguments, and for each done line its counts, then its reason |
| ChatIngress.StepInStep | src/ingress/openai_chat/encode.rs:20-55 | after any event, what a streaming client has accumulated equals the encoder's fold |
| ChatIngress.FoldIgnoresShape | src/ingress/openai_chat/encode.rs:20-55 | the folded state does not depend on the stream flag, the pending comments apart |
| ChatIngress.AggregateIsSilent | src/ingress/openai_chat/chunks.rs:18-32 | on the aggregate shape nothing is written before the end |
| ChatIngress.RunStamps | src/ingress/openai_chat/chunks.rs:18-55 | after any events the last chunk written bears the current id, model and time |
| ChatIngress.AggregateIsStreamAccumulated | src/ingress/openai_chat/chunks.rs:148-199 | for every event sequence the aggregate body is what the stream client accumulated, under the id, model and time of the stream's last chunk, and every adaptation has been exposed once |
| IngressEncoder.AsksUsageIs | src/ingress/state.rs:114-117 | the options ask for usage exactly when they are an object with that flag set to true |
| IngressEncoder.IngressState.ForRequest | src/ingress/state.rs:109-139 | the fresh state takes its shape knobs from the request and removes `stream_options` from it |
| IngressEncoder.IngressState.Comments | src/ingress/openai_chat/chunks.rs:73-79 | drains the pending adaptation names into comment lines, in order |
| IngressEncoder.IngressState.StartBlock | src/ingress/openai_chat/encode.rs:60-106 | each kind opens its slot, tool or stash block, and only a tool says so to the client |
| IngressEncoder.IngressState.AddFragment | src/ingress/openai_chat/encode.rs:113-147 | a fragment lands on the accumulator its slot names, and no other |
| IngressEncoder.IngressState.CloseBlock | src/ingress/state.rs:169-192 | closing removes the slot and parks a block only if it carries an opaque payload |
| IngressEncoder.IngressState.FinishReasoned | src/ingress/openai_chat/encode.rs:156-177 | a finish says a refusal's text first, then its reason, and records it |
| IngressEncoder.IngressState.FailWith | src/ingress/openai_chat/chunks.rs:114-132 | an error sets the status and the envelope, and is framed on the stream shape |
| IngressEncoder.IngressState.FinishStash | src/ingress/state.rs:201-213 | the payload is paired with every tool id, else with the text's content key, and nothing without blocks |
| IngressEncoder.IngressState.TakeStash | src/ingress/state.rs:150-152 | hands the finalized pairs over once |
| IngressEncoder.IngressState.Encode | src/ingress/openai_chat/encode.rs:20-55 | one event changes the state and writes the lines as the fold says |
| IngressEncoder.IngressState.EncodeAll | src/ingress/openai_chat/encode.rs:20-55 | a whole turn is the fold of its events |
| TurnEvents.OpenStartIs | src/ingress/openai_chat/encode.rs:60-147 | the block a delta belongs to: the last start at its index with no stop there since |
| ChatMeaning.TurnSpells | src/ingress/openai_chat/encode.rs:20-177 | of the events alone, on either shape: the folded text is the text deltas to open text blocks, each tool its start and the deltas to its block, the refusal the explanations, the finish, usage and error the last reported, and the parked blocks, in order, each redacted block at its start and each other block that carried an opaque payload at its stop |
| ChatMeaning.BodyIsSpelt | src/ingress/openai_chat/chunks.rs:148-199 | a state that spells the events makes the body they spell |
| ChatMeaning.ClientsGetTheMessage | src/ingress/openai_chat/chunks.rs:148-199 | both shapes hand the client that message, aggregate body and streamed chunks alike |
| ChatThrough.GistIsHeard | src/ingress/openai_chat/encode.rs:20-177 | all of the message is in what the events say: no block index is needed to make it |
| ChatThrough.SaidReachesTheClient | src/ingress/openai_chat/chunks.rs:148-199 | whatever the provider, both shapes hand the client the gist of what the events say: all the text, each call with its arguments joined, and the last reason, usage, error and head |
| ChatThrough.TraceTells | src/run/events/stream.rs:62-160 | the driver's whole trace says what the lines said and then its own verdict: a drop, a premature end, or nothing |
| ChatThrough.LinesReachTheClient | src/ingress/openai_chat/chunks.rs:148-199 | from a provider's body, however framed, chunked or cut off, to either client: the message holds exactly what the lines and the driver's verdict said |
| AnthIngress.FrameMatches | src/ingress/anthropic_messages/encode.rs:23-151 | one frame told to a client in step leaves it in step with the fold, per block index |
| AnthIngress.AggregateIsStreamAccumulated | src/ingress/anthropic_messages/encode.rs:168-196 | for every event sequence the aggregate content is the client's per-index accumulation in stop order; a clean stream is stopped, a failed one is not |
| AnthMeaning.TurnSpells | src/ingress/anthropic_messages/encode.rs:23-162 | of the events alone, on either shape: each content block is its start with the deltas to it, joined in the order of the stops, with stop reason, usage and error as last reported |
| AnthMeaning.ClientsGetTheMessage | src/ingress/anthropic_messages/encode.rs:23-196 | both shapes hand a messages client the message the events spell |
| AnthIngress.UnknownKindsLeaveNoTrace | src/ingress/anthropic_messages/encode.rs:85-151 | dropping every event of blocks this wire cannot carry changes no line, on either shape |
| AnthIngress.LastReportWins | src/ingress/anthropic_messages/acc.rs:123-139 | each carried counter is the last value any usage event reported |
| AnthIngress.UsageBeforeFinishIsTold | src/ingress/anthropic_messages/encode.rs:155-162 | usage reported before the finish is all told to a stream client |
| AnthIngress.LateUsageIsMissed | src/ingress/anthropic_messages/encode.rs:36-45 | with later usage the two shapes agree exactly when no rendered counter's last later report differs from what it was |
| AnthIngress.LateUsageExample | src/ingress/anthropic_messages/encode.rs:36-45 | a stream on which they differ |
| CrossChecks.ChatUsageComesTooLate | src/protocol/openai/decode/mod.rs:120-128 | the chat decoder reports usage behind the finish, so a streaming messages client is told only what was known before that chunk |
| AnthEncoder.AnthState.EmitFrame | src/ingress/anthropic_messages/frames.rs:19-30 | writes pending comments and the frame on the stream shape, nothing on the aggregate one |
| AnthEncoder.AnthState.StopBlock | src/ingress/anthropic_messages/encode.rs:136-151 | a stopped block joins the content and is told, an unknown one does neither |
| AnthEncoder.AnthState.AddUsage | src/ingress/anthropic_messages/acc.rs:123-139 | merges last-wins per field, leaving absent counters |
| AnthEncoder.AnthState.Encode | src/ingress/anthropic_messages/encode.rs:23-73 | one event changes the state and writes the lines as the fold says |
| AnthEncoder.AnthState.EncodeAll | src/ingress/anthropic_messages/encode.rs:23-73 | a whole turn is the fold of its events |
| Replay.Park | src/ingress/state.rs:147-152 | writing a turn's pairs leaves every stashable one in the stash and every other entry alone |
| Replay.Sign | src/ingress/reinject.rs:113-138 | sets the signature of every call bearing the id and touches nothing else |
| Replay.Inject | src/ingress/reinject.rs:113-138 | reasoning blocks lead in stash order, then the content with its signatures restored |
| Replay.CanonicalRequest.Reinject | src/ingress/reinject.rs:28-68 | joins every assistant turn in place, reports the adaptation exactly when some turn missed, and refuses with the first missed call when told to reject |
| Replay.BalancedTurnIsRecorded | src/ingress/state.rs:169-192 | after a balanced turn with distinct ids the payload carries each tool's accumulated signature |
| Replay.TurnPairsAgree | src/ingress/state.rs:201-213 | all pairs of a turn carry one payload |
| Replay.RecallRoundTrip | src/ingress/reinject.rs:71-108 | an echoed turn recalls exactly its parked blocks exactly when one of its keys can name a file |
| Replay.ReplayRoundTrip | src/ingress/reinject.rs:28-138 | on either client shape, a turn got whole and echoed comes back with its reasoning blocks first, its content untouched and its signatures restored |
| Replay.RecallTurnIs | src/ingress/reinject.rs:71-108 | a turn without tool calls is looked up under the key of its text, any other under its first tool id that has something stored |
| Replay.MissesIs | src/ingress/reinject.rs:28-68 | a miss is told of exactly an assistant turn with tool calls, asked for reasoning, that recalls nothing |
| ReplayMeaning.TurnTextIs | src/ingress/reinject.rs:71-108 | a turn's text is its text blocks joined, its ids those of its tool calls |
| ReplayMeaning.LeadIsReasoning | src/ingress/reinject.rs:113-138 | what leads an injected turn is the parked thinking and redacted blocks, in order |
| ReplayMeaning.EchoedTurnComesBack | src/ingress/reinject.rs:28-138 | of the events alone: a balanced turn that parked something and is echoed comes back with the thinking and redacted blocks its events spelt in front, and each call with the signature its deltas spelt |
| CrossChecks.ParkedPayloadReadsBack | src/ingress/reinject.rs:85-92 | whatever a turn parks, its JSON reads back as the same blocks |
| CrossChecks.ChatAnswersUnder | src/ingress/state.rs:143-145 | of the events alone: a chat aggregate is answered under the status of the turn's last error, 200 without one |
| CrossChecks.MessagesAnswerUnder | src/ingress/state.rs:143-145 | the same in the messages dialect |
| Replay.StashableIs | src/store/replay.rs:53-56 | a key can be a file name exactly when it is not empty, starts with no dot and holds no separator |
| StashProtocol.TempIsNoKey | src/store/replay.rs:53-56 | no temp name is a key's file name |
| StashProtocol.TempNameInjective | src/store/replay.rs:69-72 | temp names collide only when process and nonce both do |
| StashProtocol.StepKeeps | src/store/replay.rs:61-98 | every step of any writer, reader, pruner or dying process keeps the protocol invariant |
| StashProtocol.RecallIsWhole | src/store/replay.rs:83-85 | under every interleaving a recall is a miss or one whole payload some writer passed for that key |
| StashProtocol.TempsNeverCollide | src/store/replay.rs:28-31 | live writers never share a temp file, and none is a key |
| StashProtocol.RenamePublishes | src/store/replay.rs:61-79 | a rename that finds its temp file publishes the writer's whole payload |
| StashRegister.StepIsAtomic | src/store/replay.rs:61-98 | to every key every step of every client does what an atomic register would: only a rename that finds its temp file writes it, only an unlink of that name erases it |
| StashRegister.WritersComeAndGo | src/store/replay.rs:61-79 | a writer is at work from its call to its rename, its failure or the exit of its process, and no other |
| StashRegister.RecallReadsTheRegister | src/store/replay.rs:83-85 | a recall that opens what the register holds can, whatever is interleaved, be read to its end, and closes with exactly that |
| StashRegister.RecallMisses | src/store/replay.rs:83-85 | a recall of what the register does not hold misses at once |
| StashRegister.WriteGetsThrough | src/store/replay.rs:61-79 | from any reachable state a writer left to itself publishes its payload |
| StashFiles.ReplayStash.Prune | src/store/replay.rs:91-98 | the loop unlinks exactly the stale entries |
| StashFiles.ReplayStash.Stash | src/store/replay.rs:61-79 | an unusable key is refused untouched; else the payload is under the key, the temp name gone and the stale evicted, so a following recall finds it unless the injected clock already calls the fresh file stale, and finds every other fresh entry as before |
| StashFiles.OddTimesFold | src/store/replay.rs:101-110 | a file is stale exactly when the clock is more than seven days past its stamp, one before the epoch counting as the epoch; one whose stamp cannot be read never is |
| ConfigFold.TakeRow | src/config/partial/mod.rs:203-206 | lifts the first row of the name and leaves the rest in order |
| ConfigFold.MergeProviders | src/config/partial/mod.rs:182-198 | the walk that merges two provider lists |
| ConfigFold.FillMap | src/config/partial/mod.rs:212-217 | the higher layer's keys win, a lower-only key passes through |
| ConfigFold.FoldStep | src/config/partial/mod.rs:148-171 | the whole fold step, its loops included |
| LayerPriority.Outranks | src/config/partial/mod.rs:144-171 | in one step, for every scalar, row field, ingress field and map key: the first operand's value if it has one, else the second's |
| LayerPriority.FirstLayerWins | src/config/partial/mod.rs:144-171 | over any list of layers each of those is set exactly when some layer sets it, and then as the first such layer does |
| ConfigFold.MergedRow | src/config/partial/mod.rs:137-198 | a looked-up row is the field-wise merge of that name's rows |
| ConfigFold.MergedOrder | src/config/partial/mod.rs:174-198 | the higher layer's names in order, then the unmentioned lower ones in theirs |
| ConfigFold.MergeKeepsNamesUnique | src/config/partial/mod.rs:174-198 | unique names stay unique |
| ConfigFold.OrIngressAssociative | src/config/partial/ingress.rs:59-83 | the ingress table folds associatively, absent or not |
| ConfigFold.OrRowAssociative | src/config/partial/row.rs:92-112 | rows fold associatively, the preset mark included |
| ConfigFold.OrAssociative | src/config/partial/mod.rs:144-171 | the fold is associative on every three layers |
| ConfigFold.DefaultIsIdentity | src/config/partial/mod.rs:144-171 | a missing layer contributes nothing on either side |
| ConfigFold.LayersRegroup | src/config/partial/mod.rs:144-147 | any number of layers may be grouped anyhow |
| ConfigFold.FoldedRow | src/config/partial/row.rs:92-112 | a folded row merges every layer's row of that name and is a preset exactly when all of them are |
| Models.SelectIsHonest | src/canonical/model.rs:111-141 | a cached answer is a listed id, the seed itself when listed; a verbatim one is the seed and fits nothing; the one error is an empty seed on an empty list |
| Models.FitsIs | src/canonical/model.rs:127-137 | a seed fits an id exactly when it stands somewhere in it, case aside |
| Models.DefaultIs | src/canonical/model.rs:111-127 | with no seed: the remembered id if it is listed, else the first flagged default, else the first |
| Models.WindowIs | src/run/generate.rs:62-107 | the window is the pinned one, else the served one of the first listing, else the declared one |
| Models.AnswerIs | src/run/generate.rs:50-149 | what a request comes to: each error, else the status, the placed id and where it came from, its window, and a hint exactly on a 404 |
| Models.OnlySuccessTeaches | src/run/generate.rs:113-136 | outside 2xx the cache stays as it was; on a 2xx the id used is remembered and, when it was not listed, appended |
| Models.FirstFitWins | src/canonical/model.rs:128-139 | list order is authoritative among ids that fit |
| Models.Host.SendEncoded | src/run/generate.rs:50-149 | places the seed, states the window and, on a 2xx that teaches something, writes the cache once |
| Models.RunsKeepTheCacheUseful | src/run/generate.rs:113-136 | over every run a list only grows at its tail, keeps distinct ids, keeps every placed seed where it is and goes on remembering a listed id |
| Models.SuccessIsRemembered | src/run/generate.rs:113-136 | after a 2xx the id used is listed and is the default, and the same request again writes nothing |
| Routing.CheckPrefixes | src/config/resolve/mod.rs:154-168 | refuses exactly the lists with an empty prefix, naming the first such row |
| Routing.ScalarsAre | src/config/resolve/mod.rs:131-168 | the checks pass exactly when no scalar is out of range and no prefix is empty, and name the first that fails |
| Routing.ClaimsIs | src/config/resolve/mod.rs:242-252 | a row claims a model by alias, or by a prefix of it |
| Routing.PlacesIs | src/config/resolve/mod.rs:228-234 | a cache places a model when some listed id is it or holds it, case aside |
| Routing.RoutableIs | src/config/resolve/mod.rs:189-214 | a preset row is routable exactly when it has a credential, any other always |
| Routing.ResolveIs | src/config/resolve/mod.rs:31-117 | what resolving comes to: the routed row with the host override, and as seed the target of a claimed alias, else the model asked for |
| Routing.RouteIsGreedy | src/config/resolve/mod.rs:189-214 | which row is taken, in every case: by name the first of that name; by model the first routable claim, else the first routable row whose cache places it; with neither the first routable row; and each error exactly when no row qualifies |
| Routing.ClaimsIgnoreTheCache | src/config/resolve/mod.rs:170-188 | when any routable row claims the model no cache changes the choice |
| Routing.CacheRouteIsHonoured | src/config/resolve/mod.rs:43-77 | when the cache tier chose, alias substitution is the identity and the same cache places the seed as cached, never verbatim |
| Routing.HigherLayerWins | src/config/resolve/mod.rs:170-188 | a claim on a higher layer's row routes to that layer, whatever a lower layer ships |
| UrlCodec.EncodeText | src/auth/urlencode.rs:37-50 | the push loop percent-encodes byte by byte |
| UrlCodec.DecodeText | src/auth/urlencode.rs:53-80 | the index loop decodes escapes and plus, leaving the rest literal |
| UrlCodec.EncodedByteIs | src/auth/urlencode.rs:31-50 | the unreserved bytes stand for themselves, every other is its two upper-case hex digits |
| UrlCodec.EncodedIs | src/auth/urlencode.rs:37-50 | a text is encoded byte by byte, each where it stands |
| UrlCodec.DecodedIs | src/auth/urlencode.rs:52-80 | a whole escape is its byte, a plus a space, anything else itself |
| UrlCodec.DecodeEncode | src/auth/urlencode.rs:37-80 | decoding undoes encoding for every byte string |
| UrlCodec.DecodeLeavesTheRest | src/auth/urlencode.rs:52-80 | decoding changes a text exactly when it holds a plus or a whole escape |
| UrlCodec.QueryRoundTrip | src/auth/urlencode.rs:10-29 | every list of pairs survives the query string |
| UrlCodec.ParseCallback | src/auth/wire.rs:114-135 | the loop takes the last code, state and error and judges them in that order of refusal |
| UrlCodec.QueryIs | src/auth/wire.rs:137-144 | the query is what follows the first question mark in the second word of a line, none without one |
| UrlCodec.CallbackRoundTrip | src/auth/wire.rs:114-144 | through a request line, a callback is accepted exactly when nothing was denied, a code came and the state is the expected one |
| UrlCodec.ForgedStateIsRefused | src/auth/wire.rs:109-135 | any other state is a mismatch |
| RetryAfter.DaysAreCivil | src/canonical/retry_after.rs:76-88 | for every year from 1 to the last an i64 holds, the closed form is the recursive Gregorian day count wrapped to 64 bits, and so is that count exactly when it fits |
| RetryAfter.MonthsAbut | src/canonical/retry_after.rs:71-88 | the reference calendar is one: months and years abut |
| RetryAfter.DateMeansItsDelay | src/canonical/retry_after.rs:8-50 | a well-spelt date from year 1 on yields the capped distance to its moment, or none when a field, the day of the month or the moment is out of range, exactly unless its day count wraps onto a nearer day or its day is past its month's end; then it yields the delay to the day the wrap or the next month makes of it |
| RetryAfter.DayRollsOver | src/canonical/retry_after.rs:71-88 | a day past its month's end counts as the day as far into the next month |
| RetryAfter.PastDateRetriesAtOnce | src/canonical/retry_after.rs:6-23 | a real date now past is a delay of zero exactly when its moment is between 1970 and the last an i64 of seconds holds, else none |
| RetryAfter.FabricatedDelay | src/canonical/retry_after.rs:8-50 | a date in the year 50505469855535079 is answered with an hour |
| RetryAfter.UnrealDayIsAnswered | src/canonical/retry_after.rs:71-88 | 31 February 2030 is answered with the delay to 3 March |
| RetryAfter.Before1970IsNoDelay | src/canonical/retry_after.rs:6-50 | 31 December 1969 is no delay at all, whatever the clock |
| AsciiText.SignedParse | src/canonical/retry_after.rs:36 | a year reads back with its minus exactly when it is in range |
| RetryAfter.SecondsPassThrough | src/canonical/retry_after.rs:15-21 | bare seconds pass through unless they overflow 32 bits |
| Envelope.HeadEnd | src/transport/envelope.rs:92-96 | the end of whichever blank line ends first, none exactly when there is none |
| Envelope.HeadEndOfPrefix | src/transport/envelope.rs:92-96 | a shorter read sees the same end or none |
| Envelope.Respond | src/native/relay.rs:26-52 | the loop reads until the head parses and hands on the rest, with each failure as its error |
| Envelope.RelayFrom | src/native/relay.rs:26-52 | refused as oversized exactly when some read short of the head passes the ceiling; otherwise head and body are those of the whole output |
| Envelope.RelayIgnoresChunking | src/native/relay.rs:26-52 | within the ceiling every chunking yields one head and a body of exactly the bytes after it |
| Envelope.LongHeadsDependOnChunking | src/transport/envelope.rs:17-68 | beyond the ceiling one chunking parses and another is refused |
| Envelope.HeadReadsBack | src/transport/envelope.rs:59-87 | a written head reads back as its status, its first retry-after and where the body starts |
| Envelope.RetryAfterIs | src/transport/envelope.rs:78-81 | the retry-after of a head is what its first header of that name says, case and blanks aside, none without one |
| Envelope.StatusReadsBack | src/transport/envelope.rs:71-77 | a status line says its status exactly when that fits 16 bits |
| HttpRequests.Reader.ReadLine | src/run/masq/http.rs:88-92 | takes the bytes through the first LF, or all there are |
| HttpRequests.Reader.Read | src/run/masq/http.rs:43-86 | one request, a clean end, or the fault the grammar names, leaving the bytes after the body |
| HttpRequests.Reader.Connection | src/run/masq/listen.rs:139-158 | serves serially until hang-up, close, fault or a dead client |
| AsciiText.SpacesAre | src/run/masq/http.rs:48-71 | what counts as white space in a head |
| AsciiText.LowerIs | src/run/masq/http.rs:70 | header names are compared with the twenty-six capitals made small and nothing else |
| HttpRequests.HeaderIs | src/run/masq/http.rs:25-30 | a lookup finds the first header of the name |
| HttpRequests.BodyLengthIs | src/run/masq/http.rs:72-86 | no Content-Length is no body; a decimal one is its number up to 64 bits; one with any other byte is a fault |
| HttpRequests.WantsCloseIs | src/run/masq/http.rs:34-37 | a connection closes exactly on a first Connection header that says close, whatever its case |
| HttpRequests.LineFaults | src/run/masq/http.rs:43-57 | which fault a bad request line is |
| HttpRequests.HeaderFaults | src/run/masq/http.rs:58-71 | which fault a bad header line is, and where the head ends |
| HttpRequests.BodyFaults | src/run/masq/http.rs:72-86 | which fault a bad or short body is |
| HttpRequests.RequestReadsBack | src/run/masq/http.rs:43-86 | a well-formed request reads back as itself, consuming its head and Content-Length bytes |
| HttpRequests.ConnectionServesAll | src/run/masq/listen.rs:139-158 | over any concatenation of well-formed requests exactly they are served, up to one that closes, and then a clean end |
| HttpResponses.HttpRespond.Begin | src/run/masq/http.rs:131-143 | an SSE response starts with its head, an aggregate writes nothing yet |
| HttpResponses.HttpRespond.Chunk | src/run/masq/http.rs:145-158 | one chunked frame per event, or one more piece of the aggregate; dead exactly when the client could not take it all |
| HttpResponses.HttpRespond.End | src/run/masq/http.rs:160-176 | the last chunk, or the head and the buffered body |
| HttpResponses.CodingReadsBack | src/run/masq/http.rs:145-164 | the coded bytes decode up to the first empty chunk and leave the rest over |
| HttpResponses.CodingIsFaithful | src/run/masq/http.rs:145-164 | they decode to the concatenated chunks and nothing more exactly when none is empty |
| HttpResponses.SseResponseReadsBack | src/run/masq/http.rs:131-164 | a whole SSE response reads back as its status and a faithful chunked body |
| HttpResponses.AggregateReadsBack | src/run/masq/http.rs:165-176 | an aggregate response reads back as its status with the body right behind the head |
| ResponseHeads.SseHeadSays | src/run/masq/http.rs:131-143 | read as this file reads headers, a streamed response announces an event stream, uncached, in chunked coding, and nothing else |
| ResponseHeads.BodyHeadSays | src/run/masq/http.rs:165-176 | an aggregate response announces JSON and the exact length of its body |
| ResponseHeads.ReasonIs | src/run/masq/http.rs:178-192 | the phrase of each status this edge emits, none for any other |
| MasqWire.WrittenLinesReadBack | src/protocol/sse.rs:49-80 | written comment and frame lines frame back to exactly their frames |
| MasqWire.Put | src/run/masq/mod.rs:127-142 | one event's bytes begin the response if nothing has, join it, or are skipped when there are none; a client that could not take them could not take the whole response |
| MasqTurn.Turn | src/run/masq/mod.rs:115-153 | the client receives as much of the whole response as it has room for, the turn succeeds exactly when that is all of it, and the replay pairs are handed over exactly when everything before the end fitted |
| MasqTurn.Edge | src/run/masq/mod.rs:160-175 | a request refused at the edge is answered by an aggregate error envelope under the error's own status |
| MasqTurn.SaidIsText | src/run/masq/mod.rs:127-142 | skipping silent pieces loses no byte of what the encoder wrote |
| MasqTurn.EndSays | src/run/masq/mod.rs:143-146 | the end always says something, so every turn begins a response |
| MasqTurn.AggregateStatus | src/run/masq/mod.rs:127-142 | an aggregate response carries the status the whole turn came to |
| MasqTurn.TurnReadsBack | src/run/masq/mod.rs:115-153 | on either shape a whole response reads back as its status and, decoded, exactly the lines the encoder's fold wrote |
| ChatClient.RunStreams | src/ingress/openai_chat/chunks.rs:58-79 | the stream shape writes no body and no comment without a frame behind it |
| ChatClient.StreamedTurnIsHeard | src/run/masq/mod.rs:115-153 | from the socket's bytes, cut anywhere, a client finds exactly the chunks the fold wrote, and assembles from them the message the aggregate response carries |
| AnthTurn.Turn | src/run/masq/mod.rs:115-153 | the messages dialect's turn: as much of the response as fits, success exactly when it all does |
| AnthTurn.Edge | src/run/masq/mod.rs:160-175 | a refusal in the messages dialect is an aggregate error envelope under the error's own status |
| AnthTurn.SaidIsText | src/run/masq/mod.rs:127-142 | skipping silent pieces loses no byte of what the messages encoder wrote |
| AnthTurn.EventNameIs | src/ingress/anthropic_messages/encode.rs:23-73 | each frame is announced by the name of its kind and no other |
| AnthTurn.EndIsSilent | src/ingress/anthropic_messages/encode.rs:57-69 | the end says nothing exactly on a stream that failed |
| AnthTurn.EndSays | src/run/masq/mod.rs:142-146 | every turn begins a response all the same: a failed stream has told its error |
| AnthTurn.AggregateStatus | src/run/masq/mod.rs:127-142 | an aggregate messages response carries the status the whole turn came to |
| AnthTurn.TurnReadsBack | src/run/masq/mod.rs:115-153 | on either shape a messages response reads back as its status and, decoded, exactly the lines the fold wrote |
| AnthTurn.StreamedTurnIsHeard | src/run/masq/mod.rs:115-153 | from the socket's bytes, cut anywhere, a messages client finds exactly the frames the fold wrote, and assembles from them the content, stop reason and error the aggregate response carries |
| HttpResponses.LengthLineReadsBack | src/run/masq/http.rs:165-172 | the content-length line names the body's length |
| WireSerde.ContentRoundTrip | src/canonical/request_de.rs:48-257 | a content tree survives exactly when every server-tool result in it wears a dynamic tag |
| WireSerde.DecodedIsWellTagged | src/canonical/request_de.rs:156-257 | whatever decodes is such a tree |
| WireSerde.MessageReadsBack | src/canonical/request_de.rs:23-46 | decoding normalizes only the role of a user turn bearing a tool result |
| WireSerde.MessageDecodeIsIdempotent | src/canonical/request_de.rs:23-46 | whatever decodes, written and decoded again, is itself |
| WireSerde.ToolRoundTrip | src/canonical/request_de_tool.rs:45-106 | a tool survives exactly when its config does not claim `type` or `name` |
| WireSerde.KindRoundTrip | src/canonical/event_serde.rs:25-120 | a content kind survives exactly when the wire can tell it from the others |
| WireSerde.FirstKeyDecides | src/canonical/event_serde.rs:15-17 | an object whose first key is a known tag means what that field alone means and, with more keys, cannot be written back; under any other first key it is kept whole |
| WireSerde.DeltaRoundTrip | src/canonical/event_serde.rs:122-168 | a delta survives unless an unknown one reads as a known one |
| WireSerde.FinishRoundTrip | src/canonical/event_serde.rs:170-231 | a finish reason survives unless an unknown one is spelled like a known one |
| ChildReaders.StepKeeps | src/native/exec.rs:102-122 | every step of worker, consumer, timeout and drop keeps what is in flight in order and the child's bookkeeping right |
| ChildReaders.EveryRunIsLawful | src/native/transport/idle.rs:25-81 | over every interleaving the consumer is told a prefix of the chunks, then at most one error, then only the end |
| ChildReaders.CleanEndDeliversAll | src/native/transport/idle.rs:25-81 | with no timeout and no drop every chunk arrives in order |
| ChildReaders.ErrorsAreEarned | src/native/exec.rs:155-213 | over every run a stall is told only under a timer, and a complaint only of a child that failed and left exactly that text, after all its output |
| ChildReaders.VerdictIs | src/native/exec.rs:195-212 | a child ends quietly exactly when it exited with 0 or left no text |
| ChildReaders.ReadAheadIsBounded | src/native/exec.rs:102-122 | over every run the reader is never more than one item ahead of the consumer of a body, five of a child's |
| ChildReaders.WaitingMoves | src/native/transport/idle.rs:25-81 | no deadlock: while the consumer waits the worker can move or the wait can end, and under a timer it can always stall out |
| ChildReaders.ChildIsReapedOnce | src/native/exec.rs:155-223 | the child is waited on exactly once on every path, drop included, and stderr joined only if it was not killed |
| ChildReaders.ChunkReader.Reap | src/native/exec.rs:155-169 | marks the stream done and reaps by the kill or the clean path |
| ChildReaders.ChunkReader.Next | src/native/exec.rs:175-213 | returns the chunk, the error, the stall or the verdict, reaping as each demands |
| ChildReaders.ChunkReader.Drop | src/native/exec.rs:216-223 | kills and reaps an abandoned stream, once |
| ChildReaders.CallsAreSteps | src/native/exec.rs:175-223 | the iterator's calls are the consumer steps of the transition system |

## Left out

- Provider encode and decode bodies other than the chat-completions and ollama stream decoders: the streaming theorems hold for any decoder that keeps the contract. The claude_code `result` arm (src/protocol/claude_code/decode.rs:59-64) terminates without draining and does not keep its second clause, so only `BalancedIff` speaks of it.
- JSON text, base64, SHA-256 and f32 arithmetic: JSON is a datatype, a content key is an arbitrary function of the text, and a float is only known to be a number or not.
- UTF-8: field values and headers stay bytes, so replacement of invalid sequences is not modelled, and whether a request line decodes is a parameter. White space is the ASCII white space; the Unicode spaces that `trim` and `split_whitespace` also take are not.
- serde's alternative encodings of a derived struct or tag (an array in place of an object, an integer in place of a tag name).
- `Event` and `Usage` serde beyond content kinds, deltas and finish reasons.
- Network, TLS, process spawning, sockets, the clock, credential lookup and the file system's failures: they are parameters, or steps that may happen at any time.
- In the stash protocol the pruner's age test (it is in `StashFiles`): any name may be unlinked at any moment, which covers it. Live processes are taken to have distinct ids.
- The model-cache and credential file writes, which use one fixed temp name per provider: the stash protocol's result does not carry over to them.
- Gen-scalar take-offs of `body_defaults` and the completion of a row (src/config/resolve/row.rs): `Routing.Resolve` is the validation, routing and alias part.
- Request shaping in `send_encoded` (fill, preamble, strip, budget, headers): what sending came to is a parameter of the call.
- The read half of a masquerade turn (`prepare`), routes and the bearer check of the listener. In the turns the JSON text of a chunk, frame or body is a parameter: that it fits on a line, and that a client reads it back, is asked of the serializer.
- `envelope_request`, `Pkce`, the OAuth request builders, the text and pretty sinks, exit codes and CLI parsing: settled by reading single branches.
- Chunk extensions and trailers: the response writer emits none.
- RetryAfter.DateMeansItsDelay: does not speak of years before 1, for which src/canonical/retry_after.rs:71-75 carries no arithmetic.
- Integer widths other than those of `Retry-After`, content lengths and statuses: indices and counters are unbounded. An overflowing day count wraps, as a release build's does.
