# Stream conversion, host callbacks and quota prediction: a verified model

This project models the parts of the CommandCode provider plugin whose correctness is
hardest to see from the code, and proves what they promise over all inputs, all runs or
all interleavings. Every lemma switches Dafny's automatic induction off
(`{:induction false}`), so each proof is its body.

**Stream converters.** Three incremental converters turn one LLM streaming protocol into
another. Each is a state machine (`ChatToResponses`, `ChatToClaude`, `ChatPassthrough`,
`ResponsesToClaude`, `MessagesToResponses`), a class that changes its fields in place and
is proved equal to it (`…Converter`, `…Converters`), and theorems over all streams. The
theorems measure the emitted events with clients written from the protocols alone
(`ResponsesProtocol`, `ClaudeProtocol`): a client that accepts a log certifies its order,
numbering and content; `ResponsesFocus` restates the Responses-to-Claude theorems over the
upstream events alone. `LineFeed`, `ChatPayloads`, `SseFraming` and `SseLines` cover the
byte level, `ToolNames` the flattening of tool declarations, `OutputAssembly` the shared
output assembler, `MessageBuilder` the grouping of request blocks.

What each converter must say is also stated over its input alone, without the functions it
is built from: `ToolDeclarations` (which declarations are accepted), `ChatToResponsesNames`
(how pieces make a name), `ChatToResponsesShape` (order, ids and statuses of the items),
`ChatToResponsesFailures` (when a stream fails, and why), `ChatToClaudeTold`,
`ResponsesTold` and `MessagesTold` (the events that frame a message).

**Host callbacks.** `HostBridge` (deadline, grace window, abandoned results, in-flight
count) and `StreamController` (generation-guarded timers) are step relations over their
goroutines, with inductive invariants over every interleaving and exact outcomes over the
actions taken. `StreamPump` is the read
loop between host and converter, as a method over any converter and any script of host
answers; `PumpedChat` and `ChatPassthroughConverter` run converters under it.

**Predictor and catalog.** `LeastSquares`, `BurnRate` and `EtaWalk` are the estimator in
exact reals; `SampleStore`, `SampleReplay`, `SampleRecovery` and `SampleStoreObject` the
sample store and its log, `SampleReports` what it holds in terms of the reports,
`SampleCompaction` and `CompactedRuns` its compaction; `FleetWalk` the fleet projection and
`FleetHours` its closed form; `Catalog` the dual-key model index.

Where a claim one would expect is not met by the code, the exact condition is proved and
a concrete input shows the failure: late content after response.completed
(`ChatToResponsesTail`), interleaved argument fragments and writes after the finish
(`ChatToClaudeRuns`), interleaved calls (`ResponsesFocus`), text behind the terminal event
(`ResponsesTail`), text deltas out of block order (`MessagesText`), the empty first data
line and the lone carriage return (`SseFraming`, `SseLines`), the in-flight count against
late closes (`HostBridge`), resets inside an hour (`EtaWalk`), NUL namespaces
(`ToolNames`), and key discipline of the message builder (`MessageGrouping`).

Where the code and its own comments differ the model follows the code: a trailing fit with
no sample in its window uses the whole series (`internal/predictor/model.go:114-123`; the
comment promises the last two points), end of input on the Responses leg synthesizes
`stop`, and progress after the finish re-arms the idle timer, not the grace timer.

Check everything with `dafny verify dfyconfig.toml`.

## Model

| member | source | states |
|---|---|---|
| `ToolNames.Build` | internal/adapter/shared/shared.go:1360-1453 | the build loop over any declaration list: it yields exactly the specified context and function list, or exactly the specified refusal |
| `ToolNames.BuildKeepsInvariant` | internal/adapter/shared/shared.go:1360-1453 | at every point of an accepted build the index, the Chat-name table and the local-name counts describe one set of distinct identities |
| `ToolNames.FlatteningIsReversible` | internal/adapter/shared/shared.go:1360-1481 | after any accepted build the emitted Chat names are pairwise distinct, and each resolves to the namespace and name it was flattened from |
| `ToolDeclarations.AcceptedExactly` | internal/adapter/shared/shared.go:1360-1453 | a declaration list is accepted exactly if every namespace is well shaped, every tool acceptable and no two tools of one key differ; what is declared upstream is then the function of every key, where it first appears |
| `ToolNames.ResolveCall` | internal/adapter/shared/shared.go:1461-1476 | whatever order the map is visited in: a namespaced call finds a declaration of that namespace and name, or none is declared, unless a NUL shifts the key's separator; a bare name resolves exactly when one declaration has that local name or a NUL-led namespace shadows it |
| `ToolNames.KeySplits` | internal/adapter/shared/shared.go:1395-1401 | two equal keys have the same namespace and name, or one of them holds a NUL that shifts the separator |
| `ToolNames.NulShiftsSeparator` | internal/adapter/shared/shared.go:1395-1401 | two different pairs with one key |
| `ToolNames.ShadowNeedsNul` | internal/adapter/shared/shared.go:1461-1476 | the bare-key lookup disagrees with that count only if a declared namespace begins with a NUL character |
| `ToolNames.NulNamespaceResolvesUndeclaredName` | internal/adapter/shared/shared.go:1461-1476 | the concrete declaration list on which it does disagree |
| `ResponsesProtocol.AcceptedIsNumbered` | internal/adapter/shared/shared.go:873-879 | a log the strict client accepts carries sequence numbers 1, 2, 3, … |
| `ResponsesProtocol.AcceptedIsTallied` | internal/adapter/shared/shared.go:901-951 | for every index of an accepted log: announced at most once, done at most once and only after being announced, with the client holding exactly the deltas sent to it |
| `ResponsesProtocol.AcceptedIsWellCompleted` | internal/adapter/shared/shared.go:1010-1018 | an accepted finished log has one completed event, before it every listed item was announced once and done once at its own index, and nothing else was announced |
| `ChatToResponsesSafety.TakeReasoningTracks` | internal/adapter/chatcompletions/stream.go:621-640 | thinking text from any tracked state is accepted by the client and keeps converter and client in step |
| `ChatToResponsesSafety.TakeContentTracks` | internal/adapter/chatcompletions/stream.go:641-661 | the same for message text |
| `ChatToResponsesSafety.TakeToolsTracks` | internal/adapter/chatcompletions/stream.go:662-729 | the same for every list of tool-call deltas |
| `ChatToResponsesSafety.FinishTracks` | internal/adapter/chatcompletions/stream.go:730-762 | the same for the finish_reason |
| `ChatToResponsesRuns.TerminalSeals` | internal/adapter/chatcompletions/stream.go:845-909 | a terminal does nothing, or ends the response with one completed event that lists exactly nextIndex items, item i being the announced one; after it nothing is open |
| `ChatToResponsesRuns.RunKeepsInvariant` | internal/adapter/chatcompletions/stream.go:589-769 | the state invariant holds after every chunk of every stream |
| `ChatToResponsesRuns.EveryRunIsAccepted` | internal/adapter/chatcompletions/stream.go:574-909 | for every stream of chunks: all events so far are accepted and, once completed, the log is well completed for good |
| `ChatToResponsesBytes.LineKeepsInvariant` | internal/adapter/chatcompletions/stream.go:574-603 | every line, [DONE] included, keeps the invariant |
| `ChatToResponsesBytes.FlushKeepsInvariant` | internal/adapter/chatcompletions/stream.go:913-922 | end of input without [DONE] keeps the invariant; it completes the response, with stop synthesized when no finish_reason is held |
| `ChatToResponsesBytes.EveryByteStreamIsAccepted` | internal/adapter/chatcompletions/stream.go:100-122 | the same safety for every byte stream, however it is cut into pieces |
| `ChatToResponsesBytes.FeedsRead` | internal/adapter/chatcompletions/stream.go:100-122 | feeding any cutting of the bytes is running the chunks they decode to, with the same state or the same failure |
| `ChatToResponsesBytes.EveryByteStreamCompletes` | internal/adapter/chatcompletions/stream.go:574-922 | every byte stream that is read to its end without failure completes its response, by the trailer, [DONE] or the flush: under the id and model of the first chunk with a choice, its output conveys all that the bytes carried up to the first finish_reason and lists it segment by segment under the ids, numbers and statuses due; it is incomplete exactly if that finish_reason is length; its usage is the last reported up to the chunk behind it |
| `ChatToResponsesContent.RunCarries` | internal/adapter/chatcompletions/stream.go:589-769 | while the response is open, its items hold exactly the upstream text, thinking and arguments so far |
| `ChatToResponsesContent.ArgumentsAreStreamed` | internal/adapter/chatcompletions/stream.go:696-728 | for each announced function call the argument deltas concatenate to the first argsSent bytes received; custom and unannounced calls emit none |
| `ChatToResponsesCalls.FragmentNames` | internal/adapter/chatcompletions/stream.go:662-703 | the converter's step on one fragment of a call is that of the call's own fragments: what names it is fixed once its name is a declared one or can no longer become one, and until then moves with each fragment |
| `ChatToResponsesCalls.RunNames` | internal/adapter/chatcompletions/stream.go:662-762 | in every run that is still open each call's id, name, kind and identity are those of its own fragments, whatever other calls came between |
| `ChatToResponsesNames.CutNameIsWhole` | internal/adapter/chatcompletions/stream.go:680-703 | a declared name cut into pieces, no shorter joining of which is declared and no later one of which starts with what came before, is found again whole: with its kind, its identity and the first id among the fragments up to the one that completes it |
| `ChatToResponsesNames.PieceExtends` | internal/adapter/chatcompletions/stream.go:680-694 | a repeated name changes nothing, a piece that starts with the name so far replaces it, any other piece is put behind it |
| `ChatToResponsesNames.FirstIdIsFirst` | internal/adapter/chatcompletions/stream.go:680-694 | the id is the first among the fragments that is not empty |
| `ChatToResponsesNames.UnknownNameIsFunction` | internal/adapter/chatcompletions/stream.go:694-703 | a first piece that no declared name starts with is the name at once, of a function without identity, whatever follows |
| `ChatToResponsesNames.DeclaredCallIsConveyed` | internal/adapter/chatcompletions/stream.go:680-762 | in every completed response a call whose pieces spell the flattened name of a declared tool stands as a call of that tool: its own name, namespace and kind, with its joined arguments |
| `ChatToResponsesShape.RunShaped` | internal/adapter/chatcompletions/stream.go:605-769 | in every run that is still open the items are the segments of the chunks in order: thinking, text and calls, each under the id its place or number gives |
| `ChatToResponsesShape.TerminalShows` | internal/adapter/chatcompletions/stream.go:845-909 | the terminal lists exactly these segments; only a message still growing has the status of the response, every other one is completed |
| `ChatToResponsesFailures.RunsExactly` | internal/adapter/chatcompletions/stream.go:662-762 | the chunks are converted without failure if and only if at the first finish_reason every call amounts to an item and behind it none of them gets arguments; the error names the fault |
| `ChatToResponsesFailures.EndsExactly` | internal/adapter/chatcompletions/stream.go:808-909 | [DONE] or end of input then passes if and only if a finish_reason came, or a choice came and every call is whole under a decided name; which error is reported otherwise |
| `ChatToResponsesFailures.ByteStreamsFailExactly` | internal/adapter/chatcompletions/stream.go:100-122 | so for any cutting of any bytes: read without failure if and only if the payloads decode, the chunks pass and the end does |
| `Common.DefaultArgsIs` | internal/adapter/shared/shared.go:132-142 | blank and null arguments, and only these, become the empty object |
| `ChatToResponsesContent.TrailerCompletes` | internal/adapter/chatcompletions/stream.go:595-606 | the first chunk after finish_reason completes a response whose messages in index order are all upstream content, whose reasoning items are all upstream thinking, and whose call items are exactly one for each upstream call, with its identity and all its arguments; the items stand in the order of the segments; the usage is that chunk's if it has one |
| `ChatToResponsesContent.EndCompletes` | internal/adapter/chatcompletions/stream.go:845-909 | [DONE] or end of input completes the same way when no trailer did |
| `ChatToResponsesContent.DoneIsTheTerminal` | internal/adapter/chatcompletions/stream.go:579-588 | [DONE] is the terminal: closing thinking first makes no difference |
| `ChatToResponsesTail.RunIsOrderly` | internal/adapter/chatcompletions/stream.go:730-762 | at every moment of every stream, a held finish_reason means a finished response whose terminal is still to come |
| `ChatToResponsesTail.QuietKeepsCompletedLast` | internal/adapter/chatcompletions/stream.go:595-603 | after the end, a chunk leaves response.completed the last event exactly when it says nothing: no text, no thinking, no call that announces or owes bytes |
| `ChatToResponsesTail.TrailerKeepsCompletedLast` | internal/adapter/chatcompletions/stream.go:595-603 | the same for the chunk that triggers the terminal |
| `ChatToResponsesTail.CompletedIsLastIffQuiet` | internal/adapter/chatcompletions/stream.go:595-603 | for every stream whose next chunk completes the response: completed is last afterwards if and only if that chunk is quiet |
| `ChatToResponsesTail.LateContentFollowsCompleted` | internal/adapter/chatcompletions/stream.go:595-603 | a concrete stream on which text follows response.completed |
| `ChatToResponsesConverter.StreamConverter.StopReasoning` | internal/adapter/chatcompletions/stream.go:776-789 | in place: closes the thinking item and stores it |
| `ChatToResponsesConverter.StreamConverter.CloseResponseText` | internal/adapter/chatcompletions/stream.go:798-806 | in place: closes the message item and stores it under the given status |
| `ChatToResponsesConverter.StreamConverter.TakeReasoning` | internal/adapter/chatcompletions/stream.go:621-640 | in place: the new state and exactly the new events of one thinking delta |
| `ChatToResponsesConverter.StreamConverter.TakeContent` | internal/adapter/chatcompletions/stream.go:641-661 | in place: the same for one text delta |
| `ChatToResponsesConverter.StreamConverter.TakeTool` | internal/adapter/chatcompletions/stream.go:662-729 | in place: the same for one tool-call delta, or its refusal with the state of a dead converter |
| `ChatToResponsesConverter.StreamConverter.Finish` | internal/adapter/chatcompletions/stream.go:730-762 | in place: the loop over the calls at finish_reason |
| `ChatToResponsesConverter.StreamConverter.CloseResponseTools` | internal/adapter/chatcompletions/stream.go:808-841 | in place: the closing loop over the calls, up to the first failure |
| `ChatToResponsesConverter.StreamConverter.CollectOutput` | internal/adapter/chatcompletions/stream.go:884-900 | the finished items in index order, gathered from the item map |
| `ChatToResponsesConverter.StreamConverter.ResponsesTerminal` | internal/adapter/chatcompletions/stream.go:845-909 | in place: the one-shot terminal |
| `ChatToResponsesConverter.StreamConverter.TakeChunk` | internal/adapter/chatcompletions/stream.go:589-769 | in place: one decoded chunk |
| `ChatToResponsesConverter.StreamConverter.ResponsesLine` | internal/adapter/chatcompletions/stream.go:574-593 | in place: one line of the stream |
| `ChatToResponsesConverter.StreamConverter.Feed` | internal/adapter/chatcompletions/stream.go:100-122 | the drain loop over the line buffer: state, buffer, events and error of the specified feed, for any piece of bytes |
| `ChatToResponsesConverter.StreamConverter.FlushWithError` | internal/adapter/chatcompletions/stream.go:913-922 | the one-shot flush at end of input |
| `LineFeed.DrainSplit` | internal/adapter/chatcompletions/stream.go:100-122 | draining two pieces in turn is draining them at once, including where an error or [DONE] stops the loop |
| `LineFeed.AnySplit` | internal/adapter/chatcompletions/stream.go:100-122 | for every handler and every cutting of the bytes, feeding the pieces equals feeding their concatenation |
| `ClaudeProtocol.AcceptedStartsInOrder` | internal/adapter/shared/shared.go:801-810 | in an accepted log block starts carry 0, 1, 2, … and only the newest block can be open |
| `ClaudeProtocol.AcceptedIsTallied` | internal/adapter/shared/shared.go:801-825 | each block was started once, stopped at most once, and holds exactly the deltas sent to it |
| `ClaudeProtocol.DanglingIsOpen` | internal/adapter/shared/shared.go:821-825 | with nothing dangling every started block was stopped exactly once |
| `ClaudeProtocol.EarlyIffNotFirst` | internal/adapter/shared/shared.go:788-797 | events precede message_start exactly when the log does not begin with it |
| `ChatToClaudeSafety.ThinkGood` | internal/adapter/chatcompletions/stream.go:441-453 | thinking goes to an open thinking block, all others being closed first |
| `ChatToClaudeSafety.SayGood` | internal/adapter/chatcompletions/stream.go:454-473 | text goes to an open text block, all others being closed first |
| `ChatToClaudeSafety.FragmentGood` | internal/adapter/chatcompletions/stream.go:474-491 | an argument fragment extends its call's block, and strays exactly when that call is not the last written to |
| `ChatToClaudeSafety.StopBlocksGood` | internal/adapter/chatcompletions/stream.go:549-561 | closing stops exactly the open block, once |
| `ChatToClaudeRuns.EveryRunKeepsDiscipline` | internal/adapter/chatcompletions/stream.go:403-498 | for every stream: starts in order, at most one block open, text and thinking only to the open block of their kind, at most one message_delta; the number of stray fragments is the number of times the upstream returns to an earlier call |
| `ChatToClaudeRuns.EveryRunConservesContent` | internal/adapter/chatcompletions/stream.go:441-491 | at every moment the text blocks hold all upstream text, the thinking blocks all thinking, and each call's block all its fragments |
| `ChatToClaudeRuns.TrailerTellsUsage` | internal/adapter/chatcompletions/stream.go:411-427 | the chunk after finish_reason sends the held message_delta, with the stop reason (calls outrank it) and usage received up to then |
| `ChatToClaudeRuns.DoneEndsCleanly` | internal/adapter/chatcompletions/stream.go:392-402 | [DONE] after any stream: every block stopped exactly once, message_stop last and once, message_delta exactly if a finish_reason came |
| `ChatToClaudeRuns.DoneConservesContent` | internal/adapter/chatcompletions/stream.go:392-402 | and the client still holds all text, all thinking and every call's fragments |
| `ChatToClaudeRuns.ArgumentsAreChecked` | internal/adapter/chatcompletions/stream.go:265-278 | over the chunks alone: [DONE] is accepted exactly when every call's joined arguments are valid JSON |
| `ChatToClaudeRuns.EofEndsOnlyAfterFinish` | internal/adapter/chatcompletions/stream.go:924-943 | end of input fails for want of a finish exactly when no finish_reason came, for its arguments exactly when one came and some call's joined arguments are not valid JSON, and succeeds otherwise, with one message_delta and one message_stop; a block is left open exactly when the upstream's cursor is still in one, which takes text, thinking or a new call after the finish |
| `ChatToClaudeRuns.LateTextDangles` | internal/adapter/chatcompletions/stream.go:924-943 | a concrete stream whose end leaves a block open |
| `ChatToClaudeTold.RunTells` | internal/adapter/chatcompletions/stream.go:403-440 | at every moment of every stream: message_start tells the first chunk with a choice, message_delta what was known with the chunk behind the first finish_reason, each at most once, and nothing else is sent but blocks |
| `ChatToClaudeTold.DoneTellsAll` | internal/adapter/chatcompletions/stream.go:392-402 | [DONE] after any stream with complete arguments: message_start, message_delta exactly if a finish_reason came, message_stop, in this order, with only blocks between them |
| `ChatToClaudeTold.EofTellsAll` | internal/adapter/chatcompletions/stream.go:924-943 | the same at end of input when a finish_reason came |
| `ChatToClaudeTold.CallsAreNamed` | internal/adapter/chatcompletions/stream.go:474-491 | at every moment each call is a block under the id and name of its first fragment, holding all its fragments |
| `ChatToClaudeRuns.InterleavedFragmentsStray` | internal/adapter/chatcompletions/stream.go:474-490 | a concrete stream of two interleaved calls whose third fragment reaches a stopped block |
| `ChatToClaudeBytes.FeedsRead` | internal/adapter/chatcompletions/stream.go:100-122 | feeding any cutting of the bytes is running the chunks they decode to, with the same state or the same failure |
| `ChatToClaudeBytes.EveryByteStreamKeepsDiscipline` | internal/adapter/chatcompletions/stream.go:387-407 | for every cutting of every byte stream, in terms of the chunks its bytes decode to: block discipline, the exact number of stray fragments, all content; the stream is done exactly if [DONE] follows and every call's arguments are valid JSON, then with message_delta exactly if a finish_reason came; it fails exactly with the first undecodable payload or on [DONE] behind incomplete arguments |
| `ChatToClaudeConverter.StreamConverter.StopBlocks` | internal/adapter/chatcompletions/stream.go:549-561 | in place: closes thinking, text, then calls in arrival order |
| `ChatToClaudeConverter.StreamConverter.ClaudeTerminal` | internal/adapter/chatcompletions/stream.go:502-525 | in place: the held message_delta, once |
| `ChatToClaudeConverter.StreamConverter.Write` | internal/adapter/chatcompletions/stream.go:441-491 | in place: the writing part of one choice |
| `ChatToClaudeConverter.StreamConverter.TakeChunk` | internal/adapter/chatcompletions/stream.go:403-498 | in place: one decoded chunk |
| `ChatToClaudeConverter.StreamConverter.ValidateAccumulatedTools` | internal/adapter/chatcompletions/stream.go:265-278 | true exactly when every call's accumulated arguments are valid JSON |
| `ChatToClaudeConverter.StreamConverter.ClaudeLine` | internal/adapter/chatcompletions/stream.go:387-407 | in place: one line |
| `ChatToClaudeConverter.StreamConverter.Feed` | internal/adapter/chatcompletions/stream.go:100-122 | the drain loop, for any piece of bytes |
| `ChatToClaudeConverter.StreamConverter.Flush` | internal/adapter/chatcompletions/stream.go:144-168 | the one-shot flush |
| `ChatToClaudeConverter.StreamConverter.FinalizeStream` | internal/adapter/chatcompletions/stream.go:924-943 | the finalizer the pump calls |
| `ChatPassthrough.RunForwards` | internal/adapter/chatcompletions/stream.go:208-250 | after any payloads: all were forwarded in order, unchanged unless the reasoning backfill applies; each call holds all its fragments; a finish was seen exactly when some chunk carried one |
| `ChatPassthrough.DoneChecksArguments` | internal/adapter/chatcompletions/stream.go:199-207 | [DONE] is accepted exactly when every call's joined arguments are valid JSON |
| `ChatPassthrough.EveryByteStreamIsForwarded` | internal/adapter/chatcompletions/stream.go:194-250 | for every cutting of every byte stream the client gets exactly the payloads before [DONE]; [DONE] with incomplete arguments is the only failure |
| `ChatPassthroughConverter.StreamConverter.PassthroughLine` | internal/adapter/chatcompletions/stream.go:194-250 | in place: one line |
| `ChatPassthroughConverter.StreamConverter.Feed` | internal/adapter/chatcompletions/stream.go:100-122 | the drain loop, for any piece of bytes |
| `ChatPassthroughConverter.StreamConverter.FinalizeStream` | internal/adapter/chatcompletions/stream.go:924-943 | end of input emits nothing and fails without a finish_reason |
| `SseFraming.NextIsFirst` | internal/adapter/shared/shared.go:47-86 | polling takes the frames of the whole buffer one by one |
| `SseFraming.DrainSplit` | internal/adapter/shared/shared.go:41-86 | frames polled before more bytes arrive are the first frames of all the bytes |
| `SseFraming.AnySplitFrames` | internal/adapter/shared/shared.go:41-86 | for every cutting of the bytes the frames are those of one push |
| `SseFraming.RawIsConserved` | internal/adapter/shared/shared.go:47-86 | with raw capture on, emitted raws, pending raw and buffer concatenate to the bytes pushed |
| `SseFraming.RenderedReadsBack` | internal/adapter/shared/shared.go:561-569 | rendering any list of clean events and framing the bytes gives the list back and leaves the framer as it was |
| `SseFraming.ReadsBackIffClean` | internal/adapter/shared/shared.go:561-569 | the round trip of one event holds if and only if it is clean: name and payload are one line each, the name has no space at either end (spaces as Go trims them, Unicode ones by their UTF-8 bytes), and the payload does not end in a carriage return |
| `SseFraming.DrainShrinks` | internal/adapter/shared/shared.go:47-86 | framing loses at least one byte of input per line |
| `SseFraming.DataLinesAreFramed` | internal/adapter/shared/shared.go:62-76 | what the framer holds after any data lines |
| `SseFraming.OtherLinesAreIgnored` | internal/adapter/shared/shared.go:62-76 | comments and lines of any other field leave no trace in the frames |
| `ChatPayloads.HeardLineByLine` | internal/adapter/chatcompletions/stream.go:180-190 | what the Chat bytes say, line by line: a data line's text after any spaces, up to [DONE]; an empty one says nothing |
| `SseFraming.FramedIsJoinedIff` | internal/adapter/shared/shared.go:62-76 | that is the standard's newline-joined data exactly when the first data line is not empty or is the only one |
| `SseFraming.LoneCarriageReturnIsData` | internal/adapter/shared/shared.go:47-60 | a concrete event with a lone carriage return, a line end in section 9.2.6 of the WHATWG HTML standard: it is data here |
| `SseLines.LinesAgreeIffPaired` | internal/adapter/shared/shared.go:47-60 | for every text of complete lines the framer's lines are the standard's (ended by CR LF, LF or CR) if and only if every carriage return is followed by a newline |
| `SseLines.DrainTakesLines` | internal/adapter/shared/shared.go:47-86 | draining such a text takes its framer lines one after another |
| `SseLines.PairedTextIsStandard` | internal/adapter/shared/shared.go:47-86 | so a text with paired carriage returns is framed line by line as the standard cuts it |
| `SseLines.EmptyFirstLineIsLost` | internal/adapter/shared/shared.go:62-76 | concrete bytes whose empty first data line is lost |
| `SseFraming.SseFramer.Push` | internal/adapter/shared/shared.go:41-43 | in place: bytes are appended to the buffer |
| `SseFraming.SseFramer.Next` | internal/adapter/shared/shared.go:47-86 | in place: one frame and the remaining framer, or none and the partial line kept |
| `ResponsesToClaude.EveryStreamKeepsDiscipline` | internal/adapter/responses/stream.go:327-627 | for every upstream stream before its terminal event: one block open at a time, starts in order, text only to the open text block; counted on the converter's own table, a write strays exactly when its block is not the newest, and every block holds exactly what was written to it |
| `ResponsesFocus.EveryStreamFollowsFocus` | internal/adapter/responses/stream.go:327-627 | the same in terms of the upstream events alone: the text blocks hold all text, the n-th call block has the n-th announced name and all fragments that carry its identifiers, and strays are the fragments of calls the upstream had left |
| `ResponsesFocus.NoStraysIffContiguous` | internal/adapter/responses/stream.go:515-541 | a stream has no stray fragment if and only if no text and no other call begins between a call's announcement and its last fragment |
| `ResponsesFocus.InterleavedCallsStray` | internal/adapter/responses/stream.go:515-541 | a concrete stream of two interleaved calls whose fragment reaches a stopped block |
| `ResponsesFocus.IdentifiersStay` | internal/adapter/responses/stream.go:131-150 | an identifier names the same call for good unless an event pairs identifiers of two known calls |
| `ResponsesToClaude.TerminalEndsCleanly` | internal/adapter/responses/stream.go:548-576 | the terminal event stops every block exactly once and sends one message_delta and one message_stop |
| `ResponsesToClaude.TextAfterTerminal` | internal/adapter/responses/stream.go:439-460 | text directly behind the terminal event is refused by the client exactly if the text block was the open one |
| `ResponsesTail.RefusedIffStaleText` | internal/adapter/responses/stream.go:439-610 | for every stream of events, with any number of terminal events anywhere: the client refuses what is sent if and only if text arrives for a text run that a terminal event has cut and that no second call, begun while another was open, has cleared |
| `ResponsesTail.OneCallDoesNotClear` | internal/adapter/responses/stream.go:439-610 | a call between the terminal event and the text does not help |
| `ResponsesFocus.TextBehindTerminalIsRefused` | internal/adapter/responses/stream.go:439-460 | a concrete stream on which it is |
| `ResponsesToClaude.ResolveBindsBoth` | internal/adapter/responses/stream.go:131-150 | both identifiers of an event name one call from then on; every other identifier keeps its call and none is added |
| `ResponsesToClaude.TrackerNextKeeps` | internal/adapter/responses/stream.go:105-150 | the table forgets no identifier, and a new block's identifier was unknown |
| `ResponsesTold.StreamTellsExactly` | internal/adapter/responses/stream.go:327-627 | for every stream the message-level events are exactly those its upstream events call for: start from the identity told by then, stop reason and usage of each terminal event |
| `ResponsesToClaude.EveryStreamAnnouncesOnce` | internal/adapter/responses/stream.go:105-150 | for every stream an identifier is announced at most once, and complete arguments are written only to a block that is still empty |
| `ResponsesToClaudeConverter.ToolCallTracker.Observe` | internal/adapter/responses/stream.go:105-117 | in place: sighting of an item event |
| `ResponsesToClaudeConverter.ToolCallTracker.StreamArgs` | internal/adapter/responses/stream.go:119-127 | in place: an argument fragment counts as delivered |
| `ResponsesToClaudeConverter.StreamConverter.CloseOpenBlocks` | internal/adapter/responses/stream.go:598-610 | in place: stops every open block |
| `ResponsesToClaudeConverter.StreamConverter.TextDelta` | internal/adapter/responses/stream.go:439-460 | in place: one text delta |
| `ResponsesToClaudeConverter.StreamConverter.OutputItem` | internal/adapter/responses/stream.go:465-509 | in place: one item event |
| `ResponsesToClaudeConverter.StreamConverter.ArgsFragment` | internal/adapter/responses/stream.go:515-541 | in place: one argument fragment |
| `ResponsesToClaudeConverter.StreamConverter.Terminal` | internal/adapter/responses/stream.go:548-576 | in place: the terminal event |
| `ResponsesToClaudeConverter.StreamConverter.ConvertEvent` | internal/adapter/responses/stream.go:327-416 | in place: one decoded event, and whether it was terminal |
| `OutputAssembly.RenderIsFull` | internal/adapter/shared/shared.go:2068-2083 | a rendered output has no hole, keeps every call in order, and holds all text exactly once: in the reserved slot, or leading, or not at all |
| `OutputAssembly.OutputAssembler.ReserveTextSlot` | internal/adapter/shared/shared.go:2018-2024 | in place: the slot is reserved once |
| `OutputAssembly.OutputAssembler.AppendFunctionCall` | internal/adapter/shared/shared.go:2034-2045 | in place: a call is appended |
| `OutputAssembly.OutputAssembler.Render` | internal/adapter/shared/shared.go:2068-2083 | in place: fills the reserved slot; the result is the full output |
| `SortedInts.SortedIsListing` | internal/adapter/messages/stream.go:465-470 | the sorted keys are increasing and are exactly the keys |
| `SortedInts.SortedIsUnique` | internal/adapter/messages/stream.go:465-483 | any increasing listing of the block indexes is the sorted one |
| `MessagesParity.OutputIsFold` | internal/adapter/messages/stream.go:465-483 | sorting the observed block indexes gives back the order of arrival, so the terminal output is that of the folded message |
| `MessagesParity.AnnouncedPositionsHold` | internal/adapter/messages/stream.go:316-408 | after any accepted stream with increasing block starts: the k-th announcement carried output_index k and describes item k of the terminal output, which has no other item |
| `MessagesParity.StreamEqualsBatch` | internal/adapter/messages/convert.go:161-201 | for every such stream the batch converter on the folded message gives the terminal output, up to re-encoding of arguments; it refuses exactly the messages with a block kind that the stream silently omits |
| `MessagesParity.RunArgsFollow` | internal/adapter/messages/stream.go:369-374 | at every moment the argument deltas sent for each call are its arguments |
| `MessagesText.RunTextFollows` | internal/adapter/messages/stream.go:358-368 | when each text delta addresses a text block that has started, and none before a block that text has reached, the text sent so far, all to the message's position, is the text of the folded message |
| `MessagesText.SentIsSpoken` | internal/adapter/messages/stream.go:358-368 | the text sent is always the deltas in their order of arrival |
| `MessagesText.SentIsFoldedIffInOrder` | internal/adapter/messages/stream.go:358-368 | that is the text of the folded message, whatever the texts of the deltas are, if and only if the deltas come in that order |
| `MessagesText.SwappedBlocks` | internal/adapter/messages/stream.go:358-368 | a concrete stream whose text is sent in one order and listed in another |
| `MessagesTold.BatchIs` | internal/adapter/messages/convert.go:161-201 | the batch converter refuses exactly unknown kinds; else its output lists the calls in order and one message, where the first text block stands, holding all text |
| `MessagesTold.RefusedExactly` | internal/adapter/messages/stream.go:316-394 | a stream with increasing block starts is refused exactly at argument text for no call of the message so far, or at the end while some call is incomplete, with that error |
| `MessagesTold.StopTellsAll` | internal/adapter/messages/stream.go:376-412 | message_stop after any such stream with complete arguments sends response.completed, incomplete exactly if the last stop reason is max_tokens, with the folded message's output under the identity last told |
| `MessagesConverters.SortKeys` | internal/adapter/messages/stream.go:465-470 | an increasing listing of exactly the keys, by repeated selection |
| `MessagesConverters.ClaudeToResponses` | internal/adapter/messages/convert.go:161-201 | the batch loop over the content blocks: the assembled output, or the first unknown kind |
| `MessagesConverters.StreamConverter.BlockStarted` | internal/adapter/messages/stream.go:326-353 | in place: one block start |
| `MessagesConverters.StreamConverter.CollectOutput` | internal/adapter/messages/stream.go:465-483 | the terminal output built over the sorted block indexes |
| `MessagesConverters.StreamConverter.DispatchResponses` | internal/adapter/messages/stream.go:316-394 | in place: one decoded event, or its refusal; incomplete arguments are refused only after response.completed has been emitted and the stream marked done |
| `MessageGrouping.GroupingIsFaithful` | internal/adapter/messages/request.go:124-150 | for every call sequence whose keys fix the role, only the user role having several keys: roles alternate, no message is empty, and flattening gives back the added (role, block) sequence |
| `MessageGrouping.GroupingIsUnique` | internal/adapter/messages/request.go:124-150 | two well-formed message lists that flatten alike are equal |
| `MessageGrouping.GroupingIsCanonical` | internal/adapter/messages/request.go:124-150 | so the builder's output is the only well-formed list that carries the added blocks |
| `MessageGrouping.FaithfulIffDisciplined` | internal/adapter/messages/request.go:124-137 | the builder is faithful on all sequences over some key and role pairs if and only if those pairs keep that discipline |
| `MessageGrouping.TranslatorsAreDisciplined` | internal/adapter/messages/request.go:252-291 | the three pairs both translators use do keep it |
| `MessageBuilder.MsgBuilder.Add` | internal/adapter/messages/request.go:130-137 | in place: one add |
| `MessageBuilder.MsgBuilder.Flush` | internal/adapter/messages/request.go:139-150 | in place: one flush; a lone text block becomes a bare string |
| `MessageBuilder.Assemble` | internal/adapter/messages/request.go:206-291 | any run of a translator's adds and its closing flush: well-formed messages that flatten to the calls |
| `HostBridge.ActKeepsInvariant` | internal/plugin/hostbridge.go:197-266 | every step of caller, callback goroutine and abandon goroutine, in any state, keeps the shared invariant |
| `HostBridge.CountIsExact` | internal/plugin/hostbridge.go:197-266 | over every interleaving: the in-flight count is the number of invocations that have not let go, so each did one Add and at most one Done; it is zero exactly when no callback is inside the host, no caller waits and no abandoned result is awaited or being closed |
| `HostBridge.StreamsAreOwned` | internal/plugin/hostbridge.go:342-390 | over every interleaving: a registered stream is never both returned and closed, and once the invocation is over it was given away exactly once |
| `HostBridge.InvocationsEnd` | internal/plugin/hostbridge.go:229-265 | for every list of actions that ends an invocation: without the deadline the caller gets the host's own reply and nothing is closed; with it the caller gets a timeout, and one close is sent exactly if it was a stream request whose reply names a stream |
| `HostBridge.CallsAreTheirActions` | internal/plugin/hostbridge.go:197-266 | in every interleaving of all goroutines an invocation is what its own actions made of it |
| `HostBridge.CallerIsNeverHeld` | internal/plugin/hostbridge.go:229-265 | from any reachable state the caller can return without a move of the host |
| `HostBridge.ZeroCountGap` | internal/plugin/hostbridge.go:243-246 | what a zero count leaves uncovered, exactly: a stream in the hands of a caller about to close a late result |
| `HostBridge.ZeroCountGapIsReachable` | internal/plugin/hostbridge.go:347-351 | an interleaving that reaches that gap |
| `HostBridge.InvocationsComeToRest` | internal/plugin/hostbridge.go:197-266 | every invocation that is not over can move, every move uses up a bounded budget, and an invocation at rest has released the count |
| `StreamController.ActKeepsInvariant` | internal/plugin/stream_controller.go:44-98 | every step of the pump goroutine and of the timer goroutines keeps the shared invariant |
| `StreamController.CountAndCause` | internal/plugin/stream_controller.go:50-98 | over every interleaving: the WaitGroup count is the number of pending timers plus running callbacks, and timers close upstream at most once, and only for the recorded cause |
| `StreamController.CauseIsFinal` | internal/plugin/stream_controller.go:71-81 | the cause is set at most once, never by a phase timer of an older generation and never after stop |
| `StreamController.FireIsExact` | internal/plugin/stream_controller.go:70-81 | after any run a timer that fires sets its own cause and sends the only close if and only if the owner has not stopped, no cause is set, and it is the total timer or that of the newest phase; otherwise it changes nothing |
| `StreamController.LimitsBite` | internal/plugin/stream_controller.go:50-81 | as long as the owner runs and no cause is set, the total limit and the newest phase's can each run out, and doing so stops the stream |
| `StreamController.OwnerIsNeverHeld` | internal/plugin/stream_controller.go:57-98 | until it stops the owner can always arm the next phase or stop |
| `StreamController.StopIsFinal` | internal/plugin/stream_controller.go:86-98 | after stop has returned nothing fires, nothing runs, nothing moves |
| `StreamController.StopReturns` | internal/plugin/stream_controller.go:86-98 | stop never waits for ever: while it waits some step is enabled, and every other step shrinks a bounded budget |
| `StreamPump.EmitAll` | internal/plugin/executor.go:637-644 | events are emitted in order up to the first refusal |
| `StreamPump.PumpRun.CloseStreams` | internal/plugin/executor.go:447-454 | the once-only guard: upstream then downstream, or nothing |
| `StreamPump.PumpRun.Loop` | internal/plugin/executor.go:481-562 | the read loop over any script of host answers and any converter: what is fed is the payloads of the reads consumed, within the limit; one read call each; what was emitted is what the converter made of them, up to a refusal; and the run ended for the reason its ending gives, seen at the read where it stopped |
| `StreamPump.PumpRun.PumpStream` | internal/plugin/executor.go:446-595 | every run explains its ending over the script: a timer's cause, a failed or erroneous read, the byte limit, a converter's or finalizer's error, a refused emit, or the end; the timers armed are those the feeds call for |
| `StreamPump.EveryRunClosesOnce` | internal/plugin/executor.go:446-595 | every such trace closes downstream once and upstream once, logs one finish record, stops the timers, and neither reads nor emits after the close |
| `StreamPump.GraceOnlyAtFirstFinish` | internal/plugin/executor.go:535-546 | in every run the grace timer is the last one armed if and only if no feed made progress after the one that first saw the finish |
| `StreamPump.ExplainedConcludes` | internal/plugin/executor.go:446-595 | a run without a label saw the end its cause names and sent all the converter owed for the reads consumed |
| `StreamPump.IdleForEveryRecord` | internal/plugin/executor.go:535-546 | the idle timer is armed once for every feed that got further than all before it |
| `PumpedChat.LabelFreeMeansFinished` | internal/plugin/executor.go:446-595 | Chat to Claude: a close without an error label means that the reads consumed held [DONE] or a finish_reason, and that the joined arguments of every call in them were valid JSON |
| `PumpedChat.LabelFreeRunsTellAll` | internal/plugin/executor.go:446-595 | end to end: such a run emitted one rendered Claude stream with exactly the message_start, message_delta and message_stop the upstream chunks call for, and all their content |
| `ChatPassthroughConverter.LabelFreeMeansFinished` | internal/adapter/chatcompletions/stream.go:924-943 | Chat to Chat: the same, read off the reads consumed, with every call's arguments complete |
| `LeastSquares.NumIsPairwise` | internal/predictor/model.go:132-165 | the slope's numerator is the sum over pairs of products of differences |
| `LeastSquares.DenIsPairwise` | internal/predictor/model.go:132-165 | its denominator is the sum over pairs of squared time differences |
| `LeastSquares.SecondPassesGuard` | internal/predictor/model.go:132-165 | the denominator exceeds the guard as soon as two stamps are a second apart |
| `LeastSquares.SlopeIsLeastSquares` | internal/predictor/model.go:132-165 | the slope with its intercept is the least-squares line: no line does better |
| `LeastSquares.LinearSlope` | internal/predictor/model.go:132-165 | on points of a line the slope is that of the line |
| `BurnRate.SegmentIsLongest` | internal/predictor/model.go:53-79 | the current segment is the longest suffix without a reset bump |
| `BurnRate.CurrentSegment` | internal/predictor/model.go:53-68 | the backwards loop finds that suffix |
| `BurnRate.Ols` | internal/predictor/model.go:132-165 | the accumulating loops give slope and fit quality of the formulas |
| `BurnRate.FitQuality` | internal/predictor/model.go:150-165 | the quality clamp never binds: a fit is never worse than the mean |
| `BurnRate.TrailingUses` | internal/predictor/model.go:111-128 | which samples a trailing fit uses on a series in time order; with none in the window, the whole series |
| `BurnRate.TrailingFit` | internal/predictor/model.go:111-128 | the cut-off loop and the two-sample fallback |
| `BurnRate.Estimate` | internal/predictor/model.go:85-101 | the two rates of a series |
| `BurnRate.RatesAreOrdered` | internal/predictor/model.go:85-101 | for every series rates are not negative and the optimistic rate never exceeds the conservative one |
| `BurnRate.RatesUseWindows` | internal/predictor/model.go:85-128 | with enough samples the optimistic rate is the slope of the last day, the conservative one the steeper of that and the last six hours', neither below zero; the quality is that of the six hours |
| `BurnRate.TooFewSamples` | internal/predictor/model.go:85-92 | with fewer than two samples, or fewer than two in the segment, there is no rate; the quality is 1 only for a segment of one or without spread in time |
| `BurnRate.LinearDrainIsExact` | internal/predictor/model.go:85-128 | on any steady drain both rates are the true burn |
| `BurnRate.FallingSlope` | internal/predictor/model.go:132-165 | a series that never rises has slope at most zero |
| `EtaWalk.MassWithout` | internal/predictor/model.go:171-185 | the order of summation over the profile does not matter |
| `EtaWalk.ShapeScale` | internal/predictor/model.go:171-185 | the scale, for map iteration in any order |
| `EtaWalk.WalkEta` | internal/predictor/model.go:194-236 | the hourly loop: ETA, exhaustion and burn of the specified walk |
| `EtaWalk.WalkIsFirstCrossing` | internal/predictor/model.go:194-236 | with no reset the walk stops at the first crossing of cumulative burn with what remains, or at the cap; it never burns more than remains and exactly that on exhaustion |
| `EtaWalk.FasterIsNotLater` | internal/predictor/model.go:194-236 | with or without a reset, the ETA does not increase with the rate, and exhaustion is kept |
| `EtaWalk.ResetIsCap` | internal/predictor/model.go:222-233 | a reset acts exactly as a cap at the first hour boundary not before it |
| `EtaWalk.ExhaustsLateIff` | internal/predictor/model.go:222-233 | a walk is reported as exhausting after its reset if and only if what remains runs out in the very hour that holds the reset (the first hour, for a reset already past), later than the reset |
| `EtaWalk.GridResetIsNotOverrun` | internal/predictor/model.go:222-233 | a future reset on the walk's hour grid is never overrun |
| `EtaWalk.ExhaustsAfterReset` | internal/predictor/model.go:222-233 | a concrete window reported as exhausting after its reset |
| `EtaWalk.DayBurnsRate` | internal/predictor/model.go:171-220 | for every profile any 24 consecutive unexhausted steps burn exactly 24 times the rate |
| `EtaWalk.HourBurnsItsPart` | internal/predictor/model.go:171-220 | the hour at any instant of any day burns the rate times 24 times that hour's part in the positive mass of the profile, the bare rate without one |
| `EtaWalk.WalkBurnsByProfile` | internal/predictor/model.go:194-220 | so for the walk: one more unexhausted hour burns that hour's part more |
| `EtaWalk.EtaIsExact` | internal/predictor/model.go:209-236 | an ETA is right to the nanosecond: at it the burn falls short of what was left by less than a nanosecond's |
| `EtaWalk.LessIsNotLater` | internal/predictor/model.go:194-236 | the ETA does not increase as less remains, and is now with nothing left |
| `SampleReplay.KeptTwice` | internal/predictor/store.go:161-170 | trimming as one goes equals trimming once at the newest sample |
| `SampleReplay.LiveWindows` | internal/predictor/store.go:63-108 | in every run each live series is its logged samples, in rising time, trimmed once; no sample is newer than the key's last observation |
| `SampleReports.ObservationIsStored` | internal/predictor/store.go:94-107 | a newer observation puts the value it carries for each of the four windows, at its instant with that allowance's cap and reset, at the end of that window's series; every other series stays |
| `SampleReports.SeriesAreReports` | internal/predictor/store.go:63-108 | in every run each live series is what upstream reported for that very window, as far as retention keeps it |
| `SampleReports.KeptIsNewest` | internal/predictor/store.go:161-170 | retention keeps exactly the values no older than the history before the newest |
| `SampleReports.LabelIsReported` | internal/predictor/store.go:70-76 | a key carries the label upstream last gave it, and none before |
| `SampleReplay.ReplayRebuildsWindows` | internal/predictor/store.go:298-355 | replaying all records ever queued and trimming once gives exactly the live window series |
| `SampleReplay.MergedIsBest` | internal/predictor/store.go:130-146 | merging keeps the last full value, or else the first partial one |
| `SampleReplay.ReplayedHour` | internal/predictor/store.go:298-325 | a replayed hour inside retention holds what the log's values for it merge to |
| `SampleRecovery.LiveHourIsBest` | internal/predictor/store.go:110-146 | in every run each hour that outlived the trims holds the last full value upstream reported for it, or else the first partial one |
| `SampleRecovery.ReplayRebuildsHours` | internal/predictor/store.go:298-355 | replaying the log at any later hour recovers exactly the hour buckets the live store would retain then |
| `SampleRecovery.ReplayedLabel` | internal/predictor/store.go:298-325 | a replayed label is the last one logged, or the placeholder once a sample was seen |
| `SampleRecovery.SuffixIngestedTwice` | internal/predictor/store.go:285-355 | ingesting any suffix of the log a second time leaves, after the sweep, the very same store |
| `SampleCompaction.ListingReadsBack` | internal/predictor/store.go:357-378 | any listing of any store without repeated instants, read back and swept: the swept windows and hours, the labels (a placeholder where samples had none), for each key the time of its newest sample |
| `SampleCompaction.CompactedLoadReadsBack` | internal/predictor/store.go:329-378 | whatever file was loaded, the file it is compacted to restores to the very store the load produced |
| `CompactedRuns.CompactionIsInvisible` | internal/predictor/store.go:357-378 | compacting after any number of observations, then appending all that is logged from then on, records the listing already covers included: every later restart recovers the very store the whole log would have given |
| `CompactedRuns.RestartedTime` | internal/predictor/store.go:308-316 | after a restart the time of a key's last observation is that of its newest logged sample: never later than the live one, and equal to it exactly if the last accepted observation carried some window |
| `SampleStoreObject.Compact` | internal/predictor/store.go:161-170 | in place on an array: the kept samples move to the front, in order |
| `SampleStoreObject.TrimHours` | internal/predictor/store.go:150-157 | deleting key by key leaves exactly the hours inside retention |
| `SampleStoreObject.Store.AddWindow` | internal/predictor/store.go:78-93 | in place: one window sample, unless its stamp is zero or the last one's |
| `SampleStoreObject.Store.MergeHour` | internal/predictor/store.go:130-146 | in place: one bucket, and whether it must persist |
| `SampleStoreObject.Store.Apply` | internal/predictor/store.go:63-122 | in place: one observation |
| `SampleStoreObject.Store.IngestRecord` | internal/predictor/store.go:298-325 | in place: one persisted record |
| `SampleStoreObject.Store.Load` | internal/predictor/store.go:273-289 | in place: a whole log |
| `SampleStoreObject.Store.TrimRetention` | internal/predictor/store.go:329-355 | in place: the sweep over both maps, in any iteration order |
| `SampleStoreObject.Store.SnapshotRecords` | internal/predictor/store.go:357-378 | the three listing loops, the maps walked in any order: a listing of the store |
| `SampleStoreObject.Store.DrainDirty` | internal/predictor/store.go:256-265 | hands over the queue and clears it |
| `FleetWalk.ProjectionIsOnePass` | internal/predictor/aggregate.go:114-162 | every hourly point computed from scratch is the next state of one incremental pass; past 744 hours the walk stands still |
| `FleetWalk.UsableIsBounded` | internal/predictor/aggregate.go:114-192 | at every instant usable dollars lie between 0 and the sum of what the windows can hold, max(0, initial, cap) each, whatever rates, gates and resets do |
| `FleetWalk.ShutGateFreezes` | internal/predictor/aggregate.go:135-173 | once a percent gate is empty with no reset before the target no window burns again: each is as it was or refilled by its own reset, and the account is not serving |
| `FleetWalk.PlainWalkIsLinear` | internal/predictor/aggregate.go:129-143 | without gates and resets the stepped walk is the straight line at flat rates, to the exact instant |
| `FleetWalk.AccountAnyOrder` | internal/predictor/aggregate.go:114-192 | the result does not depend on the iteration order of the window map |
| `FleetWalk.FleetIsBounded` | internal/predictor/aggregate.go:247-263 | every fleet point lies within the fleet's capacity and account count |
| `FleetHours.AccountAtHour` | internal/predictor/aggregate.go:114-192 | at every hour, for any windows, gates and resets, the walk finds the dollars and the serving flag that a closed form gives: each window burned once for every hour its gates were open since its refill |
| `FleetHours.FleetAddsUp` | internal/predictor/aggregate.go:247-263 | the fleet's dollars and serving accounts are the sums over its accounts, in any grouping |
| `FleetWalk.AccountState` | internal/predictor/aggregate.go:114-162 | the loop over an array of windows changed in place |
| `FleetWalk.TakeSnapshot` | internal/predictor/aggregate.go:178-192 | the closing loop: usable dollars and the serving flag |
| `FleetWalk.Project` | internal/predictor/aggregate.go:206-263 | the nested loops fill each grid point with the fleet's sum at that hour |
| `Catalog.BuildIsFates` | internal/catalog/catalog.go:242-338 | for every entry list: models, exclusions and duplicate warnings are the entries' fates in catalog order; no identifier is held twice and the index is exact |
| `Catalog.EveryEntryOnce` | internal/catalog/catalog.go:242-338 | every entry lands in exactly one of the three lists |
| `Catalog.RoutableExactly` | internal/catalog/catalog.go:242-374 | which entries become models, and as what record: route and endpoint of the override if there is one, the route on, the endpoint on the host, and both identifiers still free |
| `Catalog.ClashIsCrossRole` | internal/catalog/catalog.go:310-330 | a taken slot is always held through the other role, so the collision message names the contested identifier on both sides |
| `Catalog.NoPrefixNoCollision` | internal/catalog/catalog.go:310-330 | without a prefix no identifier is contested |
| `Catalog.LookupIsScan` | internal/catalog/catalog.go:442-447 | an exact, unambiguous index answers as a linear scan of the models |
| `Catalog.LookupAfterBuild` | internal/catalog/catalog.go:442-447 | after any build the lookup finds the one record holding the identifier, or fails as the scan does |
| `CatalogManager.Manager.Swap` | internal/catalog/catalog.go:242-338 | in place: the loop installs exactly the specified snapshot |
| `CatalogManager.Manager.Fail` | internal/catalog/catalog.go:226-236 | in place: nothing changes under the stale policy; otherwise index and models go together |
| `CatalogManager.Manager.Refresh` | internal/catalog/catalog.go:179-223 | in place: installs what the reply decodes to, or applies the stale policy and says why |
| `CatalogManager.Manager.SeedFrom` | internal/catalog/catalog.go:168-173 | in place: the other manager's raw entries rebuilt under this manager's own config |
| `CatalogManager.Manager.Lookup` | internal/catalog/catalog.go:442-447 | the linear scan's answer, and the only record holding the identifier |

## Left out

- JSON: decoding, validity, re-encoding and the reasoning backfill are function parameters; text is `seq<char>`, one char per byte.
- Event payloads: events are datatype values; their JSON rendering, item identifiers as strings and the response metadata are not spelled out.
- Progress counters of the stream snapshots: only the flags the pump reads are modelled; the pump takes progress as a parameter.
- Other routes of the converters: Messages to Chat and to Claude, Responses to Chat and to itself, and the batch converters other than claudeToResponses add only easier members.
- Redaction, error classification, stop-reason and thinking-level tables, request field mapping and option validation: finite tables and field copying.
- Typed errors: an error of a converter keeps its kind, not its message text.
- Integer width: counts and indexes are unbounded.
- Floating point: reals are exact, so rounding, `round2` and jitter are not modelled; clock readings are parameters.
- Host calls: read, emit and close results are scripts; the traffic inside one `StreamClose` issued for a late result is folded into one step of its caller.
- HostBridge.CountIsExact: counts the invocations of one bridge; WaitForInFlight's polling loop is left out.
- SampleRecovery.ReplayRebuildsHours: lastOK is not part of it; it is not logged, and CompactedRuns.RestartedTime says what a replay makes of it.
- CompactedRuns.CompactionIsInvisible: records keep their instants; the file rounds them down to whole seconds (`internal/predictor/persist.go:35`), so samples of one second collapse there. A failed append is not modelled.
- HourProfile and the read-only accessors of the store: plain listings.
- collectInputs, the ETA and risk fields of the fleet view: sums and comparisons over results modelled elsewhere.
- Catalog URL parsing is the parameter `escapes`; thinking metadata of a record is not carried; the branch for an entry without a route is dead, since every entry resolves to one.
- Concurrency of the store, catalog and converters: they run under one mutex or on one goroutine, so their methods are atomic here.
- Management routes, configuration loading, quota fetching, persistence files, UI pages: plumbing outside the core.
