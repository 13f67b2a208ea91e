# Verified model of TokenProxy's stream decoders, turn machines and history import

TokenProxy's executors turn unreliable upstream byte streams into OpenAI-shaped turns. This project models the
parts of it where a mistake costs money or data, and proves what they promise, for every input, every chunking and
every interleaving.

| component | modules |
|---|---|
| Kiro EventStream decoder, turn state machine, integrity gate | `Crc32`, `Framing`, `EventStream`, `KiroStop`, `KiroTurn`, `KiroTurnProofs`, `KiroTools`, `KiroStream`, `KiroRuns`, `KiroGate`, `KiroTransformer`; the laws that tell a run from its decoded events alone in `KiroReference`, `KiroLaws`, `KiroVerdict`, `KiroGateLaws` |
| Cursor's two response decoders, Composer streaming, AgentService queue | `CursorDecoders`, `CursorAgreement`, `CursorLaws`, `Composer`, `AgentQueue` |
| BaseExecutor's retry and fallback loop | `Retry` |
| Protobuf and envelope codecs (Devin, Windsurf, Cursor) | `Protobuf`, `Envelopes` |
| Codex look-ahead | `SseText`, `CodexPeek` |
| Grok CLI turn store | `GrokTurns` |
| History import and the live daily aggregate | `DailyCounters`, `DailyIncrements`, `DailyGrowth`, `DailyReceipts`, `LiveUsage`, `Projection`, `HistoryImport`, `HistoryProofs`, `HistoryLive`, `HistoryOutcome`, `HistoryRuns`, `HistoryCounts`, `HistoryReplay` |

`Bytes`, `Bits`, `Strings` and `Json` hold what they share. Code that the source writes as expressions is functions and lemmas;
code that changes state step by step is methods and classes (`Transformer`, `AgentStream`, `TurnStore`, `Database`,
the loops), each proved equal to a specification function whose properties are then proved as lemmas. Every function
that takes an `Env`, `Codec`, `Text`, `World` or decoder argument is proved for arbitrary library behaviour: JSON
parsing and printing, UTF-8, gzip, SHA-256, clocks, `fetch` replies, aborts and the answer of `isReplaySafeRejection`
are parameters. The only laws ever assumed about them are stated as `requires`: gunzip inverts gzip, `sorted` lists
every member once, SQLite reads back what it was given (for `HistoryOutcome.ImportCommitsIff` and what leads to it) and,
row by row, the numbers of a token object survive being written as JSON and read again (`HistoryCounts`).

Results that contradict what one might expect of the code:

- A Devin varint reads back exactly below 2^77 (`Protobuf.VarintRoundTrip`). A varint, string or message field survives
  exactly for field numbers below 2^28: from there on the 32-bit shift in the key goes negative
  (`Protobuf.VarintFieldRoundTripIff`, `Protobuf.MessageFieldRoundTripIff`); for double fields, which are only skipped,
  the exact condition is `Protobuf.DoubleFieldSkippedIff`.
- Cursor's JSON and SSE decoders disagree about tool calls exactly when a call is continued or finished again after
  its last fragment (`CursorAgreement.DecodersAgree`), for instance in every response with two frames that finish one
  call (`CursorAgreement.FinishedTwice`).
- Composer streaming gives the batch answer for every fragmentation of a text exactly when nothing that could have been
  sent just before a closing tag completes is missing from the front of the final answer (`Composer.AgreesIffSteady`,
  `Composer.SteadyIffAtTags`). A text with one tag always qualifies; `Composer.SecondTagDiverges` is one that does not.
- A history import's own receipt fails exactly when some usage row has no provider and a model literally called like a
  counter, such as `cost` or `requests` (`HistoryOutcome.ReceiptHoldsIffNoBadItem`, for stored days that a receipt can be
  taken of). Its other checks, the foreign keys apart, cannot fail once its rows are written
  (`HistoryOutcome.ImportCommitsIff`). `HistoryOutcome.CostSnapshotIsRefused` is a snapshot that no database accepts.
- Adding a request to a day can lower or destroy counters that a receipt asks for; `DailyGrowth.IncrementGrowsIff` and
  `LiveUsage.LiveGrowsIff` say exactly when. A row with minus one prompt tokens does it (`DailyGrowth.NegativeRowFalls`,
  `LiveUsage.NegativeRequestFalls`), and so does, in the live proxy, a dictionary where a counter belongs
  (`LiveUsage.DictionaryIsLost`). `HistoryRuns.ImportKeepsOtherIff` says exactly when one import spoils another.
- A read of Cursor's AgentService stream that waits when `close()` is called is woken by an error or not at all
  (`AgentQueue.ClosedReaderWaits`); before that every chunk, the end and the loss of the connection wake it
  (`AgentQueue.WaitingReadsAreServed`).

## Model

| member | source | states |
|---|---|---|
| `Crc32.TableEntry` | open-sse/executors/kiro.js:35-41 | a table entry is eight bit-serial shifts of its index |
| `Crc32.BuildTable` | open-sse/executors/kiro.js:35-41 | all 256 entries are such entries |
| `Crc32.ComputeCrc` | open-sse/executors/kiro.js:64-68 | the table-driven pass equals the bit-by-bit register of section 8 of RFC 1952 on every byte sequence |
| `Crc32.BurstDetected` | open-sse/executors/kiro.js:64-68 | any change confined to 32 consecutive bits changes the checksum, whatever surrounds it |
| `Framing.DrainAppend` | open-sse/executors/kiro.js:847-917 | decoding a buffer and then its continuation is decoding their concatenation, for every prefix-stable framing |
| `Framing.ChunkingIsInvisible` | open-sse/executors/kiro.js:847-917 | two ways of cutting the same stream end in the same decoder state, verdict and carried-over tail |
| `Framing.DrainFrames` | open-sse/executors/devin.js:353-376 | self-delimiting frames come out one by one in order and nothing of the tail is consumed |
| `EventStream.LookIsStable` | open-sse/executors/kiro.js:866-884 | the prelude's verdict never changes as bytes arrive, and every frame consumes bytes, so the frame loop terminates |
| `EventStream.ReadHeader` | open-sse/executors/kiro.js:1170-1211 | a header never reads outside the header region and always advances |
| `EventStream.ParseEventFrame` | open-sse/executors/kiro.js:1138-1222 | the offset-driven parser computes the recursive reference decoder, errors included |
| `EventStream.FrameRoundTrip` | open-sse/executors/kiro.js:1138-1222 | decoding an encoded Amazon Event Stream frame yields its headers by name (types 5, 8, 9 skipped by their width) and its payload: none when blank, the parsed value when its text is JSON, an error otherwise |
| `EventStream.HeadersByName` | open-sse/executors/kiro.js:1170-1211 | every header of an encoded frame is found under its own name with its own value, and one of a skipped type is not found |
| `EventStream.EncodedFrameDelimits` | open-sse/executors/kiro.js:866-884 | an encoded frame announces exactly its own length, whatever follows |
| `EventStream.AcceptedIsEncoded` | open-sse/executors/kiro.js:1138-1222 | conversely, every accepted frame is the encoding of some header list with distinct names and payload, so the header loop ends exactly at the region's end |
| `EventStream.DamagedFrameRejected` | open-sse/executors/kiro.js:1154-1159 | an accepted frame damaged within 32 consecutive bits of its body is rejected |
| `KiroStop.FoldIsFirstWorst` | open-sse/executors/kiro.js:135-148 | the surviving stop reason is the first one of highest severity |
| `KiroStop.RefusalWins` | open-sse/executors/kiro.js:122-148 | a refusal anywhere among the reasons decides the disposition |
| `KiroStop.BenignMeansOnlyBenign` | open-sse/executors/kiro.js:122-148 | a benign fold means only end_turn and tool_use were reported |
| `KiroStop.FailingIffBad` | open-sse/executors/kiro.js:124-133 | which reasons make a turn fail, by name: everything but none, end_turn, tool_use and the plain length stop; a truncation with tool calls is incomplete |
| `KiroTurnProofs.StepKeepsOpen` | open-sse/executors/kiro.js:714-846 | a frame leaves the turn open or ends it with one error and one report |
| `KiroTurnProofs.FinishEnds` | open-sse/executors/kiro.js:918-1055 | the end of the stream ends an open turn exactly once, as success or as failure |
| `KiroTools.FragmentCounted` | open-sse/executors/kiro.js:624-649 | a fragment keeps the byte counter equal to the cost of the buffered calls, one call per id, and reports an overflow exactly when the cost exceeds the bound |
| `KiroTools.RunCounted` | open-sse/executors/kiro.js:768-793 | so does every run of events, and reading stops only above the bound or at an upstream error |
| `KiroTools.StepCounted` | open-sse/executors/kiro.js:714-793 | an event stops the reading exactly when it is an upstream error or the buffered calls now exceed the bound |
| `KiroTools.FragmentAssembles` | open-sse/executors/kiro.js:630-649 | a fragment of any shape files at most its own piece under its own id |
| `KiroTools.RunAssembles` | open-sse/executors/kiro.js:768-793 | for every interleaving the buffer holds one call per id in order of first appearance, each built from its own pieces only |
| `KiroTools.EmitToolsDelivers` | open-sse/executors/kiro.js:661-713 | a client reassembles exactly the usable calls, in buffer order, numbered consecutively |
| `KiroTools.UnusableIsSkipped` | open-sse/executors/kiro.js:661-713 | dropping an unusable call changes no other call |
| `KiroTools.DeliveredCalls` | open-sse/executors/kiro.js:624-713 | after a run of events that succeeds the client has the usable assembled calls, numbered 0, 1, 2, ... |
| `KiroStream.DrainRunsEvents` | open-sse/executors/kiro.js:866-917 | reading bytes is running the decoded events, then failing if the bytes were corrupt |
| `KiroStream.OneEnding` | open-sse/executors/kiro.js:918-1101 | every run writes exactly one ending, reports exactly one terminal state, and nothing follows the ending on the wire |
| `KiroStream.ChunkingDoesNotMatter` | open-sse/executors/kiro.js:847-929 | within the buffer bound every chunking leads to the turn of the uncut body |
| `KiroStream.SmallBodiesFit` | open-sse/executors/kiro.js:847-856 | a body no longer than the bound stays within it under every chunking |
| `KiroStream.EncodedBodyDecodes` | open-sse/executors/kiro.js:866-917 | a body of encoded messages decodes to their events with nothing left over |
| `KiroStream.ReadsAreHeard` | open-sse/executors/kiro.js:1071-1101 | a read that completes a frame puts something on the wire, if only a heartbeat |
| `KiroRuns.RunFoldsReasons` | open-sse/executors/kiro.js:794-810 | the stop reason of a run is the severity fold of the reasons its events reported |
| `KiroRuns.FitsOrFails` | open-sse/executors/kiro.js:847-929 | a run is the run of the uncut body or, when the bound was exceeded, failed |
| `KiroRuns.RefusedRunFails` | open-sse/executors/kiro.js:930-957 | every run over a body that reports a refusal ends in failure |
| `KiroRuns.CleanRunSawOnlyCleanReasons` | open-sse/executors/kiro.js:999-1042 | a run that finishes with "stop" or "tool_calls" saw only end_turn and tool_use |
| `KiroLaws.CallsOnTheWire` | open-sse/executors/kiro.js:624-713 | however the body is cut, the calls a client puts together from a successful run are those owed for the pieces its events file, in order of first appearance, numbered from 0 |
| `KiroReference.OwedExactly` | open-sse/executors/kiro.js:650-713 | of the calls owed there is exactly one for every id whose joined text pieces, or last object, make an object (for tool_call one with a non-blank name and arguments), with its first name renamed and that object; none for any other id |
| `KiroLaws.UsableIsDeliverable` | open-sse/executors/kiro.js:650-682 | a call is emitted exactly when its joined pieces make such an object, and with that object |
| `KiroLaws.FragmentFiles` | open-sse/executors/kiro.js:624-649 | which piece a fragment files under which id, and whether it is taken, told from the fragments before it |
| `KiroLaws.StepTells` | open-sse/executors/kiro.js:730-767 | an event tells the client what it means: assistant text after stripping (an empty one after reasoning is skipped), code as it is, reasoning text; the event that stops a run tells nothing |
| `KiroLaws.NarrationOnTheWire` | open-sse/executors/kiro.js:730-767 | however the body is cut, the text and reasoning deltas on the wire are, in order, those its events mean: all of them in a successful run, those before the stopping event in the others |
| `KiroVerdict.RunRemembers` | open-sse/executors/kiro.js:768-846 | what a run remembers of its events: tool use, explicit stops, refused fragments, and the reasons they report |
| `KiroVerdict.VerdictFromEvents` | open-sse/executors/kiro.js:918-1055 | a body succeeds exactly when the stream ended properly with nothing corrupt or left over, every event was read, there was output or an explicit stop, no refused tool call without output, and no failing reason except a truncation after output; "tool_calls" is sent exactly when a call was delivered and nothing was cut off |
| `KiroVerdict.VerdictOnTheWire` | open-sse/executors/kiro.js:847-1101 | the same for every chunking, where exceeding the buffer bound fails the run |
| `KiroGate.ReadAttempt` | open-sse/executors/kiro.js:465-550 | the gate's read loop judges the whole wire or reports overflow, abort or read failure |
| `KiroGate.ReleasedIffSucceeded` | open-sse/executors/kiro.js:402-427 | bytes are released exactly when the transformer succeeded, they fit and do not look unfinished, and then they are all of the transformer's bytes |
| `KiroGate.GateNeverReleasesFailure` | open-sse/executors/kiro.js:402-464 | however the gate's own reads are interrupted, a failed run is never released |
| `KiroGateLaws.ObservesWhatWasSent` | open-sse/executors/kiro.js:173-189 | the gate judges exactly the text, reasoning and calls on the wire |
| `KiroGateLaws.RunIsLabelled` | open-sse/executors/kiro.js:918-1055 | every run that ends in an error carries a code that goes with its disposition |
| `KiroGateLaws.GateAnswers` | open-sse/executors/kiro.js:402-550 | the code of every refusal: overflow, the code the transformer failed with (a retryable failure as a missing terminal), an ellipsis or an unfinished final; every other run is released whole |
| `KiroTransformer.AddEach` | open-sse/executors/kiro.js:770-793 | the fragment loop computes the specified buffer and keeps the counter exact |
| `KiroTransformer.EmitEach` | open-sse/executors/kiro.js:661-713 | the emission loop delivers the usable calls and reports what it dropped |
| `KiroTransformer.ProcessEvent` | open-sse/executors/kiro.js:714-846 | an event's new state, and whether reading goes on, are the specified ones |
| `KiroTransformer.EndRun` | open-sse/executors/kiro.js:918-1055 | the state after the end of the stream or a read error is the specified one |
| `KiroTransformer.Transformer.TakeFrame` | open-sse/executors/kiro.js:866-915 | one pass of the frame loop shortens the buffer without changing what remains to be decoded, waits, or fails the turn |
| `KiroTransformer.Transformer.ProcessBytes` | open-sse/executors/kiro.js:847-917 | the mutable buffer and state after a chunk are those of the specification |
| `KiroTransformer.Transformer.Transform` | open-sse/executors/kiro.js:1071-1101 | the read loop computes the specified run and always ends the turn |
| `CursorDecoders.ReadFrame` | open-sse/executors/cursor.js:399-423 | a read frame advances within the buffer, and the end is reported exactly at the end |
| `CursorDecoders.TransformToJson` | open-sse/executors/cursor.js:1117-1273 | the JSON loop computes the specified answer |
| `CursorDecoders.TransformToSse` | open-sse/executors/cursor.js:1275-1515 | the SSE loop computes the specified chunks |
| `CursorLaws.AccumulatesReference` | open-sse/executors/cursor.js:1185-1196 | accumulating fragments one by one gives each id, in order of first appearance, its first name and all its arguments joined |
| `CursorLaws.CleanResponse` | open-sse/executors/cursor.js:1117-1273 | for every sequence of framed payloads without errors the content is their text in order, each id has one call with its first name and all its arguments, and the finish reason is "tool_calls" exactly when a fragment came |
| `CursorLaws.BrokenResponse` | open-sse/executors/cursor.js:1133-1137 | a response that breaks off inside a frame is refused as invalid, whatever came before |
| `CursorLaws.ErrorEndsResponse` | open-sse/executors/cursor.js:1144-1183 | the first error payload decides, whatever follows: it is the answer when nothing came before it, and ends the response with what came before otherwise |
| `CursorAgreement.RunsPair` | open-sse/executors/cursor.js:1117-1273 | the two loops, frame by frame, stop alike and hold the same text and calls |
| `CursorAgreement.SettledIffQuiet` | open-sse/executors/cursor.js:1165-1200 | the calls finalized early equal the accumulated ones exactly when no call got a fragment with arguments, or a second end mark, after its last fragment |
| `CursorAgreement.DecodersAgree` | open-sse/executors/cursor.js:1275-1515 | for every buffer both decoders give the same error reply, or the same text and finish reason, and then the same calls exactly when the fragments were quiet |
| `CursorAgreement.FinishedTwice` | open-sse/executors/cursor.js:1185-1210 | whenever two frames of a response finish one call, the decoders disagree about the calls |
| `Composer.ComputeEmittable` | open-sse/executors/cursor.js:346-352 | the countdown withholds the longest tail that is a sentinel prefix |
| `Composer.EmittableGrows` | open-sse/executors/cursor.js:346-352 | more visible text never takes back what could be sent |
| `Composer.PartialSentinelHeld` | open-sse/executors/cursor.js:346-352 | an unfinished leading sentinel is withheld entirely |
| `Composer.StreamComposer` | open-sse/executors/cursor.js:1291-1303 | the emitter loop's deltas concatenate to the specified text |
| `Composer.AgreesIffSteady` | open-sse/executors/cursor.js:1291-1303 | the deltas of every fragmentation of a text concatenate to the batch answer exactly when no prefix could show anything the answer does not begin with |
| `Composer.SteadyIffAtTags` | open-sse/executors/cursor.js:331-341 | for that it is enough to look at what could have been sent just before each closing tag completes |
| `Composer.StreamingRefinesBatch` | open-sse/executors/cursor.js:1481-1485 | for every fragmentation with at most one closing tag the deltas concatenate to the batch answer |
| `Composer.SentIsAlwaysAPrefix` | open-sse/executors/cursor.js:1432-1437 | for such texts what was sent is at every moment a prefix of the final visible text, which starts after the sentinel |
| `Composer.SecondTagDiverges` | open-sse/executors/cursor.js:331-341 | a text with two tags that is not one of them: the client is sent "a", the batch answer is "b" |
| `Composer.VisibleReads` | open-sse/executors/cursor.js:331-341 | what follows the last closing tag is visible, without its leading space and without a leading sentinel and the space after it |
| `Composer.NothingElseHeld` | open-sse/executors/cursor.js:346-352 | text is held back only when its end begins the sentinel, and then less than a sentinel of it |
| `AgentQueue.StepSafe` | open-sse/executors/cursor.js:681-767 | every socket event and every read keeps the queue conserved, bounded and consistent with its error |
| `AgentQueue.AcceptsPrefix` | open-sse/executors/cursor.js:744-754 | what is accepted is an initial part of what the socket delivers, and all of it until the stream closes |
| `AgentQueue.DeliveredIsBoundedPrefix` | open-sse/executors/cursor.js:744-794 | in every interleaving the chunks reads returned are an in-order prefix of those received and within the byte limit |
| `AgentQueue.FinishedMeansAllDelivered` | open-sse/executors/cursor.js:755-764 | once a run without error has reported the end, its reads returned exactly the chunks the socket delivered before its end event |
| `AgentQueue.CleanEndDelivers` | open-sse/executors/cursor.js:785-794 | after a clean end the queued chunks come out and the next read reports done |
| `AgentQueue.CleanRunDelivers` | open-sse/executors/cursor.js:744-794 | after any run that ended without error, resuming a woken read and reading on yields all chunks received before the end event and then done |
| `AgentQueue.UneventfulRunEndsCleanly` | open-sse/executors/cursor.js:732-764 | accepted headers, chunks within the limit with any reads among them and an end event make a run that ended without error with all chunks accepted |
| `AgentQueue.WaitingReadsAreServed` | open-sse/executors/cursor.js:674-679 | in every run without a call of close, a waiting read is on an open stream and is woken by the next chunk, end, lost connection or error |
| `AgentQueue.ClosedReaderWaits` | open-sse/executors/cursor.js:681-689 | a read that waits on a closed stream goes on waiting unless an error arrives |
| `AgentQueue.FailureIsFinal` | open-sse/executors/cursor.js:691-702 | after the first failure no read returns a chunk and every read throws that failure |
| `AgentQueue.AgentStream.HandleData` | open-sse/executors/cursor.js:744-754 | the data handler's new state is the specified one |
| `AgentQueue.AgentStream.HandleEnd` | open-sse/executors/cursor.js:755-764 | likewise for the end of the stream |
| `AgentQueue.AgentStream.HandleResponse` | open-sse/executors/cursor.js:732-743 | likewise for response headers |
| `AgentQueue.AgentStream.Fail` | open-sse/executors/cursor.js:691-702 | only the first failure is recorded; the queue is emptied and a waiting read is woken |
| `AgentQueue.AgentStream.BeginRead` | open-sse/executors/cursor.js:785-791 | a read returns, throws or waits as specified |
| `AgentQueue.AgentStream.ResumeRead` | open-sse/executors/cursor.js:791-793 | a woken read throws the error if there is one by then |
| `Retry.Execute` | open-sse/executors/base.js:256-448 | the loop terminates, its POSTs form a trace of the policy, and a response is returned only if it was not proved safe to replay, carried a Retry-After deadline on 429/503, or the retries of its URL were spent (by the configured attempts of its status, a veto or a negative delay) with no fallback left |
| `Retry.RepeatsUntilSpent` | open-sse/executors/base.js:283-307 | the next POST goes to the same URL exactly while the attempts configured for the status are not reached, nothing vetoed and the delay is not negative |
| `Retry.PostsAreCounted` | open-sse/executors/base.js:283-307 | the retry counter of a URL is the number of POSTs in the log that went to it |
| `Retry.EveryRepeatIsLicensed` | open-sse/executors/base.js:258-307 | every POST after the first directly follows a response proved safe to replay; none follows a transport error, an abort or a Retry-After deadline on 429/503, and none to the same URL follows a veto |
| `Retry.PostsPerUrl` | open-sse/executors/base.js:283-307 | no URL is retried more often than the largest attempts value of any status |
| `Retry.TotalPosts` | open-sse/executors/base.js:321-448 | a request costs at most fallbackCount * (1 + max attempts) POSTs |
| `Protobuf.WriteVarint` | open-sse/executors/devin.js:271-280 | the loop writes the base-128 encoding |
| `Protobuf.ScanVarint` | open-sse/executors/devin.js:236-247 | the offset-driven reader computes the reference reader |
| `Protobuf.VarintRoundTrip` | open-sse/executors/devin.js:236-280 | every value below 2^77 reads back with the right rest whatever follows; every larger one is refused |
| `Protobuf.ReadField` | open-sse/executors/devin.js:206-234 | a field that is read consumes bytes |
| `Protobuf.DecodeFields` | open-sse/executors/devin.js:206-234 | the field loop computes the reference decoder |
| `Protobuf.FieldsRoundTrip` | open-sse/executors/devin.js:206-270 | any concatenation of varint, double and message fields decodes to its varint and message fields in order |
| `Protobuf.VarintFieldRoundTripIff` | open-sse/executors/devin.js:257-260 | a varint field survives exactly for field numbers below 2^28 |
| `Protobuf.MessageFieldRoundTripIff` | open-sse/executors/devin.js:267-269 | so does a string or message field, whatever its content |
| `Protobuf.DoubleFieldSkippedIff` | open-sse/executors/devin.js:261-265 | a double field is skipped whole exactly when its number is below 2^28, or its key's low byte is a whole key, or a byte of its value ends the varint that the key has become |
| `Protobuf.SameBytes` | open-sse/executors/windsurf.js:131-140 | Windsurf's 32-bit encoder writes the same bytes as Devin's for every 32-bit value |
| `Protobuf.ScanVarint32` | open-sse/executors/windsurf.js:228-238 | the 32-bit reader computes its reference, shifts taken modulo 32 |
| `Protobuf.Varint32RoundTrip` | open-sse/executors/windsurf.js:131-238 | every value below 2^32 round-trips at the exact offset whatever follows |
| `Envelopes.ParseFrames` | open-sse/executors/devin.js:30-46 | the offset-driven frame loop computes the reference drain |
| `Envelopes.ReadAll` | open-sse/executors/devin.js:353-376 | the pending loop computes the reference delivery of the chunks |
| `Envelopes.EnvelopesRoundTrip` | open-sse/executors/devin.js:21-46 | however the framed stream is cut, exactly the framed messages come out in order and only the tail is kept |
| `Envelopes.StrictPrefixWaits` | open-sse/executors/devin.js:30-46 | a strict prefix of a frame is only waited for |
| `Envelopes.OversizeStopsReading` | open-sse/executors/devin.js:30-46 | under every chunking a length above the limit lets nothing through that was not framed before it: a refusing reader fails, the others deliver what came before and wait |
| `Envelopes.DevinRoundTrip` | open-sse/executors/devin.js:21-46 | payloads, compression and trailer flags survive Devin's framing up to 16 MiB under every chunking |
| `Envelopes.WindsurfRoundTrip` | open-sse/executors/windsurf.js:518-547 | every frame below 2^31 bytes comes out once, in order, with its flag |
| `Envelopes.AgentRoundTrip` | open-sse/executors/cursor.js:285-299 | Cursor's agent reader yields the decompressed bodies of the non-trailer frames in order |
| `SseText.NoEarlierSeparator` | open-sse/executors/codex.js:507 | text that arrives later never completes a separator in front of one that was complete |
| `SseText.SplitAppend` | open-sse/executors/codex.js:507-508 | splitting the carried-over rest plus new text continues the split of the whole text, CR and LF mixed and cut anywhere |
| `SseText.JoinedSplits` | open-sse/executors/codex.js:507-508 | blocks joined by blank lines, LF or CRLF, split back into themselves |
| `CodexPeek.DecodeChunk` | open-sse/executors/codex.js:504 | decoding a chunk continues the decoding of the bytes before it |
| `CodexPeek.FirstVerdict` | open-sse/executors/codex.js:509-513 | the block loop finds the first decisive block |
| `CodexPeek.FirstDecides` | open-sse/executors/codex.js:509-518 | the verdict is the classification of the first decisive block, none exactly when no block decides |
| `CodexPeek.Inspect` | open-sse/executors/codex.js:501-513 | after one chunk either the verdict of the whole visible text is known or the text seen so far decides nothing and the rest is carried over |
| `CodexPeek.AtEnd` | open-sse/executors/codex.js:498-500 | at the end of the body the flushed rest counts as a block |
| `CodexPeek.Peek` | open-sse/executors/codex.js:484-557 | for every chunking, with or without a read error, the verdict is that of the first decisive block within the first 256 KiB, and unless it is a failure the rebuilt body is the upstream body |
| `CodexPeek.OutputShieldsLaterFailures` | open-sse/executors/codex.js:281-285 | a failure after an output event is never surfaced |
| `CodexPeek.FailureIffAnnounced` | open-sse/executors/codex.js:268-298 | a block is called a failure exactly when it is no output, has a failure type, and some pattern equals its error code or, without a code, occurs in its message; the two flags say exactly which pattern lists fit |
| `CodexPeek.EventBlockReads` | open-sse/executors/codex.js:268-281 | a block of an event line and a data line is read as that type and that data |
| `CodexPeek.OutputIsSeen` | open-sse/executors/codex.js:279-285 | an event of one of the five output kinds with JSON data is output, whatever the data say |
| `GrokTurns.CountUserTurns` | open-sse/executors/grok-cli.js:94-109 | the counting loop counts the user turns, at least one |
| `GrokTurns.InputTurn` | open-sse/executors/grok-cli.js:94-109 | the count is the number of objects in the input with role user and type absent, empty or message, and 1 when there is none or no array |
| `GrokTurns.TurnStore.MakeRoom` | open-sse/executors/grok-cli.js:128-132 | the oldest entries go until one place is free |
| `GrokTurns.TurnStore.Resolve` | open-sse/executors/grok-cli.js:111-134 | the turn handed out and both maps afterwards are the specified ones |
| `GrokTurns.FreshTurn` | open-sse/executors/grok-cli.js:111-124 | a session never seen, or expired, gets the input's count |
| `GrokTurns.NextTurnIs` | open-sse/executors/grok-cli.js:117-128 | an unexpired one gets the larger of that count and its previous turn, plus one for a new request |
| `GrokTurns.TouchKeepsValid` | open-sse/executors/grok-cli.js:111-134 | a resolution keeps at most 5000 distinct sessions with positive turns, and stores the turn it returns |
| `GrokTurns.EveryRunIsBounded` | open-sse/executors/grok-cli.js:111-134 | after every run from the empty store at most 5000 distinct sessions are kept |
| `GrokTurns.TouchingStoredEvictsNobody` | open-sse/executors/grok-cli.js:124-132 | touching a stored session evicts nobody |
| `GrokTurns.TouchedSessionSurvives` | open-sse/executors/grok-cli.js:124-134 | a session that was given a turn stays stored while fewer than 5000 other sessions are touched, expired or not |
| `GrokTurns.Survives` | open-sse/executors/grok-cli.js:111-134 | while its entry is unexpired whenever it is touched, the turn of such a session never falls |
| `GrokTurns.LaterRequestsGetLargerTurns` | open-sse/executors/grok-cli.js:111-134 | over such a run every later new request of the session gets a strictly larger turn |
| `GrokTurns.RequestsKeepTheirTurn` | open-sse/executors/grok-cli.js:113-122 | the same request object is given its first turn for ever, at whatever time, with whatever input and session it comes back |
| `DailyCounters.FreshReceiptVerifies` | scripts/import-nine-router-history.py:366-401 | a receipt verifies against the day it was taken of exactly when dictionaries under counter names hold numbers only |
| `DailyCounters.GrowsTransitive` | scripts/import-nine-router-history.py:389-401 | growth of nested counters composes |
| `DailyCounters.GrowthKeepsBounds` | scripts/import-nine-router-history.py:389-401 | a receipt that verified goes on verifying while no counter falls, at every depth |
| `DailyCounters.ReceiptIsGrowth` | scripts/import-nine-router-history.py:366-401 | a receipt is met exactly by the days in which no counted number has fallen or disappeared since it was taken |
| `DailyIncrements.AddCounters` | scripts/import-nine-router-history.py:320-322 | each of the six counters rises by its amount, nothing else changes, and it fails exactly when some counter cannot be added to |
| `DailyIncrements.BumpBucket` | scripts/import-nine-router-history.py:324-328 | one bucket of one dimension gains the amounts and the notes |
| `DailyIncrements.IncrementDaily` | scripts/import-nine-router-history.py:300-363 | the day after one more request is the specified one |
| `DailyIncrements.TotalUpdate` | scripts/import-nine-router-history.py:324-328 | replacing one entry changes a counter's sum by exactly the difference |
| `DailyIncrements.IncrementShape` | scripts/import-nine-router-history.py:300-363 | entry by entry: the six counters rise, each dimension is bumped on its own, everything else stays |
| `DailyIncrements.IncrementBalance` | scripts/import-nine-router-history.py:330-358 | the day gains the amounts; in every dimension with a bucket for the request the bucket sum minus the day total is unchanged, in the others it falls by the amounts |
| `DailyIncrements.BucketNotes` | scripts/import-nine-router-history.py:330-358 | every bucket a request goes to names its model and provider, and its lost key and its endpoint where the dimension is about them |
| `DailyGrowth.IncrementGrowsIff` | scripts/import-nine-router-history.py:300-363 | a request lets no counted number of a day fall exactly when no counter it adds to meets a negative amount and no note it overwrites counts for more than its replacement |
| `DailyGrowth.CalmDayGrows` | scripts/import-nine-router-history.py:300-363 | a request with non-negative amounts lets a calm day, one with nothing that counts where notes are written or dictionaries misplaced, grow and leaves it calm |
| `DailyGrowth.NegativeRowFalls` | scripts/import-nine-router-history.py:320-322 | a row with minus one prompt tokens lowers a stored counter |
| `DailyReceipts.SoundStaysReceiptable` | scripts/import-nine-router-history.py:330-387 | a request that writes no notes into a bucket with a counter's name keeps its day receiptable |
| `DailyReceipts.SoundWhen` | scripts/import-nine-router-history.py:340-358 | that is every request, its model cell being receiptable, except one without a provider whose model, or one whose account, bears a counter's name |
| `DailyReceipts.CounterNamedModel` | scripts/import-nine-router-history.py:340-344 | a request without a provider whose model bears a counter's name makes the day's own receipt fail |
| `DailyReceipts.CostModelSpoilsEmptyDay` | scripts/import-nine-router-history.py:340-344 | for instance a model called "cost" on a day that holds nothing yet |
| `LiveUsage.AggregateEntry` | src/lib/db/repos/usageRepo.js:182-246 | the live proxy's update of a day is the specified one, and throws exactly when a dimension or bucket the request adds to holds a truthy value that is neither object nor array |
| `LiveUsage.LiveCounts` | src/lib/db/repos/usageRepo.js:182-246 | a live request adds its amounts to the day and to its own bucket of each dimension and to no other, and a day of numbers stays one |
| `LiveUsage.NumericDayUpdates` | src/lib/db/repos/usageRepo.js:182-246 | the update of such a day never throws |
| `LiveUsage.LiveNotes` | src/lib/db/repos/usageRepo.js:220-246 | every bucket a live request goes to names its model and provider, and what else its dimension is about |
| `LiveUsage.SameBuckets` | src/lib/db/repos/usageRepo.js:220-246 | importer and live update file the same request under the same provider, model, account and endpoint buckets, and under the same key bucket only for a key called legacy-unavailable |
| `LiveUsage.LiveGrowsIff` | src/lib/db/repos/usageRepo.js:182-246 | it lets no counted number of the day fall exactly when no counter meets a negative amount, no dictionary that counts sits where a counter belongs, and no note it overwrites or drops counts for more |
| `LiveUsage.CalmDayGrowsLive` | src/lib/db/repos/usageRepo.js:182-246 | a live request with non-negative amounts lets a calm day grow and leaves it calm |
| `LiveUsage.NegativeRequestFalls` | src/lib/db/repos/usageRepo.js:182-192 | a live request with minus one prompt tokens lowers a stored counter |
| `LiveUsage.DictionaryIsLost` | src/lib/db/repos/usageRepo.js:206-211 | a dictionary where a counter belongs is lost, with the number in it, to every live request |
| `Projection.SecretsStayOut` | scripts/import-nine-router-history.py:190-283 | rows that differ only in credentials, raw payloads and non-numeric token data have the same projection and the same archived form; only the digest stored beside it tells them apart |
| `Projection.LineageKept` | scripts/import-nine-router-history.py:224-234 | a projected request points at a projected account exactly when the original named an account with the same digest, in particular its own, and a request of nobody stays nobody's |
| `Projection.AccountIsInert` | scripts/import-nine-router-history.py:224-232 | an imported account is inactive, has empty data and a mapped id, and keeps every other column |
| `Projection.UsageColumns` | scripts/import-nine-router-history.py:233-254 | a projected usage row has no id and no key, a mapped connection and only the named numbers of its tokens, and keeps every other column |
| `Projection.RequestColumns` | scripts/import-nine-router-history.py:255-283 | statistics keep every column but the mapped ids; a detail row is projected exactly when its payload is an object, and then only the eight named members reach it |
| `Projection.ArchivedColumns` | scripts/import-nine-router-history.py:190-196 | the archived form keeps every column name, hides the opaque columns and whole configuration rows, and keeps every other history column |
| `HistoryImport.AmountsOf` | scripts/import-nine-router-history.py:311-318 | a usage row counts as one request and has all six counters; `HistoryCounts.AmountsFromCells` says which cells they come from |
| `HistoryCounts.AmountsFromCells` | scripts/import-nine-router-history.py:311-318 | each of the six counters comes from its own cell of the original row, the two cache counters from the token object |
| `HistoryCounts.KeysFromCells` | scripts/import-nine-router-history.py:330-358 | in each dimension the row goes to the bucket its own provider, model, account and endpoint cells name |
| `HistoryCounts.IncrementBucket` | scripts/import-nine-router-history.py:324-358 | a bucket gains the amounts exactly when the request goes to it |
| `HistoryCounts.RowsCounted` | scripts/import-nine-router-history.py:511-552 | over any rows every counter of every day, and of every bucket, rises by the sum of the named column over the rows of that day, and bucket |
| `HistoryCounts.ImportCounts` | scripts/import-nine-router-history.py:452-595 | the same for a committed import, from the database before it and the snapshot |
| `HistoryImport.ImportEntries` | scripts/import-nine-router-history.py:511-552 | the row loop imports the rows of one table one after the other, or fails |
| `HistoryImport.ImportTables` | scripts/import-nine-router-history.py:505-552 | the table loop imports the whole work list, or fails |
| `HistoryImport.Database.ApplySnapshot` | scripts/import-nine-router-history.py:452-595 | the transaction commits a verified import and in every other case leaves the committed database as it was |
| `HistoryProofs.RowSteps` | scripts/import-nine-router-history.py:511-552 | a row is tallied once, leaves one new archive record, and changes no stored row |
| `HistoryProofs.RowsArchived` | scripts/import-nine-router-history.py:533-552 | every row has its own archive record and no other record changes |
| `HistoryProofs.RowsBalance` | scripts/import-nine-router-history.py:528-530 | over all rows no day's byModel, byApiKey or byEndpoint buckets drift from the day in any counter, and the days gain one request per usage row |
| `HistoryProofs.RowsConserved` | scripts/import-nine-router-history.py:505-552 | each table's inserted plus archived rows are its source rows, and there are as many new archive records as source rows |
| `HistoryProofs.CountersConserved` | scripts/import-nine-router-history.py:553-595 | a reported import inserted all usage rows, reports the stored lifetime count before and after, raised it and the days' requests by exactly the number of usage rows, and unbalanced no day |
| `HistoryProofs.UsageRowsInserted` | scripts/import-nine-router-history.py:511-530 | no usage row is only archived |
| `HistoryProofs.RowDeltasAlwaysMatch` | scripts/import-nine-router-history.py:578-583 | the final comparison of table counts holds whenever the row loop got through |
| `HistoryProofs.OwnReceiptHoldsIff` | scripts/import-nine-router-history.py:562-577 | the check of the import's own receipt passes exactly when every touched day, as the row loop left it, is receiptable |
| `HistoryProofs.LiveKeepsVerified` | scripts/import-nine-router-history.py:404-449 | the verification of an import survives every step that leaves its records and rows alone and lowers no counter |
| `HistoryProofs.ReplayAccepted` | scripts/import-nine-router-history.py:404-477 | after any run of such steps re-applying the snapshot is accepted and leaves the database unchanged |
| `HistoryLive.RequestIsLive` | src/lib/db/repos/usageRepo.js:594-631 | with calm stored days, a request served by the live proxy with non-negative amounts is such a step and leaves the days calm |
| `HistoryLive.TextRowIsRegular` | scripts/import-nine-router-history.py:311-318 | a usage row with a text model, or none, and no negative amount is regular |
| `HistoryRuns.DaysAreFolded` | scripts/import-nine-router-history.py:511-552 | every day after an import is the stored day with the snapshot's rows of that day added one after the other |
| `HistoryRuns.ImportKeepsOtherIff` | scripts/import-nine-router-history.py:404-595 | a verified import is still verified after another source was imported exactly when the days of its receipt, with the other snapshot's rows added, still meet it |
| `HistoryRuns.ImportsCoexist` | scripts/import-nine-router-history.py:404-595 | with calm stored days and regular rows that is always so |
| `HistoryRuns.ImportStaysVerifiable` | scripts/import-nine-router-history.py:404-477 | with calm stored days and regular rows, whatever requests are served and whichever regular snapshots are applied afterwards, in any order, re-applying the snapshot is accepted and changes nothing |
| `HistoryOutcome.TouchedAreUsageDays` | scripts/import-nine-router-history.py:528-530 | the touched days are the days of the snapshot's usage rows |
| `HistoryOutcome.ReceiptHoldsIffNoBadItem` | scripts/import-nine-router-history.py:553-577 | when the stored days it adds to are receiptable, the import's own receipt holds exactly when no usage row lacks a provider and has a model called like a counter |
| `HistoryOutcome.CounterNamedModelNeverImports` | scripts/import-nine-router-history.py:452-595 | a snapshot with such a row is refused by every database that does not know it, whatever the database holds, and leaves it unchanged |
| `HistoryOutcome.CostSnapshotIsRefused` | scripts/import-nine-router-history.py:452-595 | for instance the snapshot whose only row has nothing but a model called "cost" |
| `HistoryOutcome.RowsAreRecorded` | scripts/import-nine-router-history.py:511-552 | every row's archive record has its archived form and digest, and its projection reads back |
| `HistoryOutcome.ImportCommitsIff` | scripts/import-nine-router-history.py:452-595 | an unknown snapshot whose rows can be written is committed exactly when it has no such row and the foreign keys hold |
| `HistoryReplay.RowsLand` | scripts/import-nine-router-history.py:511-552 | every row's record has the archived form, digest and disposition of the row, and stands for the projected row, which is stored under the id it was projected with or was given |
| `HistoryReplay.ReplayAcceptedIff` | scripts/import-nine-router-history.py:404-477 | whatever was written to the database since, re-applying a committed snapshot is accepted exactly when none of its records is missing, added or altered, their rows read back, and no counted number on its usage days and not the lifetime count has fallen |
| `HistoryReplay.NoSecondImport` | scripts/import-nine-router-history.py:452-477 | the same snapshot is refused under any other unused source id and changes nothing |

## Left out

- Kiro: usage, metering and metrics counters, event counts and the other diagnostic fields, error message texts, and the textual clean-up inside `normalizeStopReason` (a parameter); they do not influence any modelled decision.
- Kiro: `<thinking>` stripping and the short-final and ellipsis heuristics are arbitrary functions of the model, so the results hold whatever they do.
- Kiro: a response without a body, timeouts and the reason texts of cancellations.
- KiroStream.ChunkingDoesNotMatter: does not cover chunkings that exceed the buffer bound, because there the source's verdict depends on the chunk sizes; `KiroRuns.FitsOrFails` shows that such runs fail.
- Cursor: protobuf field extraction, JSON error detection and decompression are parameters of both decoders.
- Cursor: the two decoders on Composer models. `Composer` covers how visible text is cut out of the thinking stream and emitted; that JSON ignores it when there is ordinary text, and answers an error frame after it differently from SSE, is not modelled.
- AgentQueue: connection set-up, header promises, writing and timers; concurrent calls of `read`, which the callers never make.
- Retry: header and body construction, the substitution of an earlier error text for an empty final body, delays and timeouts; `DefaultExecutor`'s re-execution lies outside this loop.
- Protobuf: request builders, `decodeStringField` and `decodeCompletionChunk`, and the loss of precision when `Number()` converts a varint above 2^53.
- Envelopes.OversizeStopsReading: does not say which of the frames before an oversized one a refusing reader still delivers, because Devin's parser drops those of the same call.
- Codex: request preparation, the error responses built from a verdict, cancellation of the rebuilt stream, and bodies that never end; a body is a finite list of chunks with an end or a read error.
- Grok: everything but the turn counter.
- History import: reading the source snapshot (`inventory`), command-line handling and dry runs; blobs and float encodings of SQLite cells, the textual form of stored JSON, and column affinity, which `Env.store` stands for; id-collision statistics and the descriptive columns of the source record.
- History import: amounts are numbers; text in a numeric column makes the modelled import fail, although Python would concatenate it with a text counter.
- HistoryRuns.ImportStaysVerifiable: assumes calm days and regular rows, because otherwise an update can lower counters; `DailyGrowth.IncrementGrowsIff`, `LiveUsage.LiveGrowsIff` and `HistoryRuns.ImportKeepsOtherIff` are exact for one update and one import.
- LiveUsage: JavaScript's inherited properties as bucket names, days stored as arrays or plain values, amounts that are not numbers, and the reconciliation of an already recorded request, which may lower counters.
- The other executors (Qoder, Zed, Grok web, Perplexity, ZenMux, Trae, Devin CLI), credential refresh, the dashboard, the CLI, and provider and model tables: easier variants or plumbing.
