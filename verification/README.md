# Verified model of the code harness

A Dafny model of the deterministic logic of a coding agent: how it runs tool
calls, follows streams, keeps its conversation and its log, and edits, searches
and pages text. The whole project is one Dafny program, listed in
`dfyconfig.toml`.

## What is modelled

**Turn engine** (`ToolEnv`, `Gatekeeper`, `ToolScheduler`, `SchedulerSafety`,
`ToolProvenance`, `Serializability`, `BatchRunner`, `ToolCallAssembly`, `TurnLoop`, `TurnStop`, `TurnHistory`).
A batch of tool calls is a state machine over explicit moves: fetch, admit, one
step of some execution, collect, emit, stop. Tools, approvals and hooks are
oracles over a world of three parts. Executions take many steps, so they
interleave. Safety statements hold in every reachable state, each result is traced
to the steps of its tool in the run or to what refused its call, and serializability
compares every interleaving with running the calls one by one. The imperative
scheduler is proved to be a run of the machine, and the turn loop inherits its
theorems. A stop may be first seen by any of the numbered checks of the stop token.

**Stream parsers** (`SseSpec`, `SseParser`, `SseBoundary`, `SsePayloads`, `McpFraming`,
`McpAnswers`, `Text`).
Event streams and line-framed server output are read chunk by chunk; what they
deliver does not depend on the chunks, with the exact exception for event
streams.

**Archive writer** (`Crc32`, `FrameCheck`, `ZipSpec`, `ZipReader`, `ZipRoundTrip`).
The writer is checked against a reader written from the PKWARE APPNOTE, and the
checksum against its algebra and against polynomial division as ISO 3309 states it.

**Records and context** (`RecordJson`, `RecordRoundTrip`, `WireFormat`, `EventLog`, `Context`,
`Agent`). Records and their JSON values, the log and its replay, the cached token
count through compaction, and the agent's operations over all of them, whether or
not its log can be read.

**Text tools** (`ReplaceSpec`, `EditFile`, `LineTools`, `Grep`, `GrepLimits`,
`EditStats`) and **directory keys** (`WorkdirKey`).

Code that updates state in place is a class or a method with loops, proved equal
to a function of its inputs; the laws are lemmas about those functions.

## Where the code differs from what one might expect

- An event stream that is cut between the CR and the LF of a pair, after a line
  that leaves data pending, closes the event early (`SseBoundary.ChunkingIff`
  says when that shows).
- A malformed line of a server stays in the buffer, so every later request meets
  it again (`McpFraming.PoisonedRequests`).
- A delta that arrives before the start of its index is dropped or kept depending
  on other indices (`ToolCallAssembly.InterleavingIgnoredIff`).
- A stop that comes before the first call of the last step's batch ends a turn in
  `MaxSteps`, not in `Aborted` (`TurnLoop.RunTurn` says exactly when,
  `ToolScheduler.StoppedAtOnce` that a batch can end so).
- `ToolOutput.h` says that empty text yields one empty line; the code yields none
  (`Lines.SplitLines`). Joining lines by LF loses an empty last line
  (`Lines.JoinedSplitsIff`).
- Output of exactly the maximum length is already cut (`ToolOutput.TruncatedBound`),
  and a result limit is announced also when the last result reaches it
  (`GrepLimits.LimitKeepsPrefix`).
- Group separators of a search are missing between adjacent results of two files
  (`GrepLimits.NoSeparatorBetweenFiles`).
- Overlapping occurrences do not make an edit ambiguous
  (`ReplaceSpec.OverlapCountsOnce`), and the reverse edit need not undo one
  (`EditFile.EditUndoneIff`).
- Compaction can separate a tool message from its call
  (`Compactor.CompactionKeepsAnswers`).
- Of the conversation the log holds prompts and skill messages only, and it is told
  neither of clearing nor of compaction. So a resume brings back less than was said,
  and after a clear or a compaction also messages that were dropped
  (`Agent.ResumeAfterPrompt`, `Agent.Agent.ClearContext`).

## Model

| member | source | states |
|---|---|---|
| ToolScheduler.RunWellFormed | Source/CodeHarness/Engine/ToolScheduler.cpp:185-269 | in every state of every interleaving of launches, work, collection and stops, the window is a contiguous run of concurrency-safe calls no longer than the limit, and the phase tells exactly which calls are announced, pending and answered |
| ToolScheduler.StoppedAtOnce | Source/CodeHarness/Engine/ToolScheduler.cpp:226-229 | a stop seen before the first call ends the batch: no call is announced or answered and the world stays |
| ToolScheduler.NeverStuck | Source/CodeHarness/Engine/ToolScheduler.cpp:197-268 | no interleaving gets stuck: until the batch has ended the main thread or some future can move |
| SchedulerSafety.AllTogether | Source/CodeHarness/Engine/ToolScheduler.cpp:197-258 | concurrency happens: calls that are all concurrency-safe, are no more than maxConcurrentTools and meet no refusal can be executing all at once |
| SchedulerSafety.ResultsInOrder | Source/CodeHarness/Engine/ToolScheduler.cpp:197-268 | in every reachable state each started call has at most one result event, in call order; the results returned are the ones announced; at most max(1, limit) started calls are unanswered, none at the end; without a stop every call is answered |
| SchedulerSafety.OverlapOnlyInWindow | Source/CodeHarness/Engine/ToolScheduler.cpp:232-258 | two executions i < j overlap only if every call from i to j is concurrency-safe, screened and unblocked, and j - i is below maxConcurrentTools |
| SchedulerSafety.SerialLimit | Source/CodeHarness/Engine/ToolScheduler.cpp:178-190 | with a limit of 1 or less no two executions ever overlap |
| SchedulerSafety.PermissionBeforeExecution | Source/CodeHarness/Engine/ToolScheduler.cpp:92-124 | when a call begins executing, the gate has already allowed that call if it needs permission, the hooks have let it pass, and no answer against it is given before or after |
| SchedulerSafety.GateRule | Source/CodeHarness/Permission/PermissionGate.cpp:15-53 | the gate allows a call that needs permission only in Yolo mode or when an installed callback said yes to its own arguments; Auto counts as Manual |
| SchedulerSafety.ApprovalBehindExecution | Source/CodeHarness/Permission/PermissionGate.cpp:46-53 | in Manual or Auto mode a call that needs permission begins only if, earlier in the run, the approval callback was asked about that very call and said yes |
| ToolProvenance.ResolveSays | Source/CodeHarness/Engine/ToolScheduler.cpp:51-90 | a call resolves to the first tool of its name, with null for empty arguments and the parsed ones otherwise; the error result names the parse error, the missing tool or the tool's own refusal |
| ToolProvenance.ScreenSays | Source/CodeHarness/Engine/ToolScheduler.cpp:92-124 | screening does exactly what gate and hooks say: Yolo mode and calls that need no permission pass unasked, a missing callback denies, a yes of the callback to the call's own arguments lets it pass on the world it leaves; then the matching hooks run one after another up to the first that blocks; the refusals' texts |
| ToolProvenance.ScreeningTold | Source/CodeHarness/Engine/ToolScheduler.cpp:92-124 | the events of an admission tell whether the gate was asked, what it said, and whether the hooks blocked |
| ToolProvenance.TriggerBlockSays | Source/CodeHarness/Hooks/HookEngine.cpp:258-272 | there are worlds, one per hook, such that each matching hook ran on the one before it and did not block, up to the first that blocks or the end |
| ToolProvenance.TriggerSays | Source/CodeHarness/Hooks/HookEngine.cpp:241-256 | there are worlds, one per informational hook, such that each hook that matches the outcome ran on the one before it |
| ToolProvenance.ResultsSourced | Source/CodeHarness/Engine/ToolScheduler.cpp:126-268 | in every state of every interleaving each result is either what its own resolution refused, what gate or hooks refused at its own admission, or what its tool returned: there are moves of the run that began the execution and took the tool step by step, on the worlds of the run, to a reply, and the result is the reply's result, error status or exception text |
| ToolProvenance.MoveLeaves | Source/CodeHarness/Engine/ToolScheduler.cpp:185-268 | what every possible move of every interleaving leaves: admission the world that gate and hooks leave and a call that waits, executes or is refused; a step of an execution the tool's own world; an announcement the result of the next call and the world the informational hooks leave; other moves nothing |
| ToolEnv.BlockComesFromAHook | Source/CodeHarness/Hooks/HookEngine.cpp:258-272 | a call is blocked if and only if some matching hook blocked it after every matching hook before it did not; failed hooks never block; the reason is that hook's |
| Gatekeeper.PermissionGate.ShouldRun | Source/CodeHarness/Permission/PermissionGate.cpp:15-53 | the gate's field update and answer: warns once in Auto mode, then acts as Manual; a missing callback denies |
| Gatekeeper.RunPreHooks | Source/CodeHarness/Hooks/HookEngine.cpp:258-272 | the loop over hooks gives the first blocking decision of a matching hook and the world the hooks before it left |
| Gatekeeper.RunPostHooks | Source/CodeHarness/Hooks/HookEngine.cpp:241-256 | the loop runs every matching hook once, in order |
| Gatekeeper.PreparedToolCall.constructor | Source/CodeHarness/Engine/ToolScheduler.cpp:51-90 | resolution fills the fields: empty arguments stand for null; parse error, missing tool and refused resolution are error results |
| Gatekeeper.PreparedToolCall.ApplyPermissionAndPreHook | Source/CodeHarness/Engine/ToolScheduler.cpp:92-124 | updates the prepared call in place to exactly the screening the scheduler theorems are about |
| Serializability.Serializable | Source/CodeHarness/Engine/ToolScheduler.cpp:185-269 | if executions act on the files only, concurrency-safe ones change nothing, and approvals and hooks keep to their own part of the world, every ended interleaving gives the results and the world of running its calls one by one; all calls without a stop, a prefix with one |
| Serializability.InterleavingsAgree | Source/CodeHarness/Engine/ToolScheduler.cpp:185-269 | two interleavings of one batch that were not stopped end with equal results and equal worlds |
| Serializability.OneSequentialOutcome | Source/CodeHarness/Engine/ToolScheduler.cpp:185-269 | the sequential reference has at most one outcome |
| Serializability.RunFollows | Source/CodeHarness/Engine/ToolScheduler.cpp:185-269 | the simulation: at every step of a run the collected results and the world are those of a sequential run of the collected calls, with the window still to come |
| BatchRunner.RunToolCallBatch | Source/CodeHarness/Engine/ToolScheduler.cpp:185-269 | the loop with its window, its flushes at barriers and at the limit, and a stop first seen by any of its checks, is a run of the step relation that ends, so all statements about runs hold of it; it answers exactly the calls in front of the stop; each result is what its tool returned in that run or the refusal its call met (ToolProvenance.AllSourced) |
| BatchRunner.FlushConcurrent | Source/CodeHarness/Engine/ToolScheduler.cpp:197-224 | flushing launches the window, lets the executions step in any order and emits their results in call order |
| ToolCallAssembly.AssembledIs | Source/CodeHarness/Engine/Loop.cpp:75-100 | each pending call is described by its own effective events: the last start gives id and name, the arguments are the deltas that found a slot, joined |
| ToolCallAssembly.LosesLeading | Source/CodeHarness/Engine/Loop.cpp:89-100 | an index loses at most deltas in front of its first start, the earliest ones |
| ToolCallAssembly.LosesAll | Source/CodeHarness/Engine/Loop.cpp:89-100 | without a start at a larger index it loses all of them |
| ToolCallAssembly.InterleavingIgnoredIff | Source/CodeHarness/Engine/Loop.cpp:75-100 | all streams with the same events per index give the same pending calls if and only if, for every index, the deltas in front of its first start add no text or no larger index is started |
| ToolCallAssembly.SizeIs | Source/CodeHarness/Engine/Loop.cpp:77-85 | the number of slots is one more than the highest index that is validly started, so never above 64 |
| ToolCallAssembly.InterleavingIgnored | Source/CodeHarness/Engine/Loop.cpp:75-100 | in particular two streams with the same events per index, each index beginning with its start, give the same pending calls |
| ToolCallAssembly.DeltaBeforeStart | Source/CodeHarness/Engine/Loop.cpp:96-99 | a concrete pair of streams in which a delta before the start of its index is lost or kept depending on another index |
| ToolCallAssembly.DescribedArguments | Source/CodeHarness/Engine/Loop.cpp:96-99 | the arguments of a call are the concatenation of its deltas |
| ToolCallAssembly.DescribedIdentity | Source/CodeHarness/Engine/Loop.cpp:86-87 | id and name of a call are those of its last start; without a start they are empty |
| ToolCallAssembly.IndexLimit | Source/CodeHarness/Engine/Loop.cpp:77-87 | indices 0 to 63 are accepted, a start there makes room with empty calls, any other index is ignored |
| ToolCallAssembly.NamedKept | Source/CodeHarness/Engine/Loop.cpp:156-157 | exactly the calls with a name are kept, in the order of their indices |
| ToolCallAssembly.RunCallbacks | Source/CodeHarness/Engine/Loop.cpp:75-100 | the callbacks that resize and append compute the assembled calls |
| TurnLoop.RunTurn | Source/CodeHarness/Engine/Loop.cpp:45-224 | by position: behind the input history there is for every step an assistant message with the generated thinking, then the generated text, each unless empty, and exactly the named assembled calls in index order; behind it message j has role Tool, the id of call j and as its content that call's result; answers exist only if the model finished to call tools. The answers are the first results of one batch run on the world the step before left, so each is what its tool returned or the refusal it met; if the environment is separated they are those of running the calls one by one. Each step was generated from exactly the history before it, every usage count is the sum over the steps, and a turn went on behind a step only if tools were run or the continue hook said so. For a stop first seen by any check: the last step has exactly the answers the stop leaves it; a turn that made a check behind it ends in MaxSteps if and only if it made maxSteps steps and the stop came in front of the last batch's first call, and in Aborted otherwise; if the environment is separated, result and world are those of the turn with the same stop and calls run one by one |
| TurnLoop.RunsToolsIff | Source/CodeHarness/Engine/Loop.cpp:178-179 | tools run exactly when the model finished to call tools and some assembled call has a name |
| TurnLoop.ReasonGiven | Source/CodeHarness/Engine/Loop.cpp:183-186 | the continue hook is told max_tokens, end_turn or other |
| TurnLoop.RunBatch | Source/CodeHarness/Engine/Loop.cpp:204-206 | a batch answers exactly the calls in front of the stop, with their sequential outcome, by a run in which each result is what its tool returned or the refusal it met |
| TurnLoop.RunCalls | Source/CodeHarness/Engine/Loop.cpp:204-219 | the calls of one step: as many answers enter the history as the stop leaves, and the turn is aborted if and only if the batch had more results |
| TurnLoop.AppendResults | Source/CodeHarness/Engine/Loop.cpp:206-219 | answers enter the history one by one up to the first check that sees a stop |
| TurnStop.StopTruncates | Source/CodeHarness/Engine/Loop.cpp:45-224 | whichever check first sees a stop, the turn ends, makes no more steps and its history is a beginning of the history without a stop; a turn that completes or fails ends exactly as without it |
| TurnHistory.ToolMessagesAnswer | Source/CodeHarness/Engine/Loop.cpp:204-219 | every tool message of a turn answers, by position, the matching call of the assistant message before it |
| TurnHistory.EveryCallAnsweredOnce | Source/CodeHarness/Engine/Loop.cpp:178-220 | in a fully answered step the assistant message is followed by one answer per call, in order, and then by the next assistant message or the end |
| TurnHistory.TurnKeepsHistory | Source/CodeHarness/Engine/Loop.cpp:34-35 | a turn keeps a history in which every tool message has its call |
| SseParser.SseParser.Feed | Source/CodeHarness/Llm/SseParser.cpp:6-9 | appends to the buffer |
| SseParser.SseParser.TryExtractLine | Source/CodeHarness/Llm/SseParser.cpp:70-100 | takes the first line and its terminator off the buffer, or nothing when there is no terminator |
| SseParser.SseParser.NextEvent | Source/CodeHarness/Llm/SseParser.cpp:11-55 | returns the first event of the drained stream and leaves the state from which the rest drains to the rest |
| SseParser.SseParser.Reset | Source/CodeHarness/Llm/SseParser.cpp:62-68 | back to the initial state |
| SseParser.SseParser.OnChunk | Source/CodeHarness/Llm/OpenAiProvider.cpp:133-141 | feeding a chunk and draining it gives exactly the events of that chunk, in order |
| SseChunks.DrainTwice | Source/CodeHarness/Llm/SseParser.cpp:11-100 | draining before and after more data arrives equals draining once, unless the boundary splits a CR LF pair while data is pending |
| SseChunks.ChunkingIgnored | Source/CodeHarness/Llm/SseParser.cpp:6-100 | for chunks whose boundaries are harmless, feeding and draining chunk by chunk gives the same events and done flag as feeding the whole stream |
| SseChunks.WholePairsAreHarmless | Source/CodeHarness/Llm/SseParser.cpp:86-91 | boundaries that split no CR LF pair are harmless |
| SseBoundary.BoundaryIsSafeIff | Source/CodeHarness/Llm/SseParser.cpp:11-91 | for two chunks events and done flag agree with the uncut stream if and only if the boundary does not cut a CR LF pair with data pending, or the first complete blank or data line of what follows the LF is blank |
| SseBoundary.ChunkingIff | Source/CodeHarness/Llm/SseParser.cpp:6-100 | for any list of chunks, every beginning of it gives the events and done flag of its text in one piece if and only if every boundary is such |
| SseChunks.SafeForAllIff | Source/CodeHarness/Llm/SseParser.cpp:86-91 | a boundary is safe for every continuation if and only if it does not follow a CR with data pending |
| SseChunks.SplitPairExample | Source/CodeHarness/Llm/SseParser.cpp:86-91 | a concrete stream whose events change when a CR LF pair is split |
| SseChunks.LfCompletesPair | Source/CodeHarness/Llm/SseParser.cpp:70-100 | fed together with its CR, the LF of a pair adds nothing |
| SsePayloads.ReadsDataLine | Source/CodeHarness/Llm/SseParser.cpp:35-50 | a complete data line adds its value to the collected data, behind an LF if there is some already; of spaces behind the colon exactly one goes |
| SsePayloads.ReadsOtherLine | Source/CodeHarness/Llm/SseParser.cpp:35-55 | a complete line of another field, and a comment, changes nothing |
| SsePayloads.ReadsIdleBlankLine | Source/CodeHarness/Llm/SseParser.cpp:19-36 | a blank line without collected data changes nothing |
| SsePayloads.ReadsNoPartialLine | Source/CodeHarness/Llm/SseParser.cpp:70-100 | an unfinished line stays in the buffer |
| SsePayloads.ReadsEndMarker | Source/CodeHarness/Llm/SseParser.cpp:22-33 | the blank line behind collected data that is the end marker ends the stream; what follows is not read |
| SsePayloads.StreamReads | Source/CodeHarness/Llm/SseParser.cpp:11-55 | payloads without CR, written as data lines with or without a space behind the colon and a blank line, with LF, CR or CR LF as terminator, are read one by one, each less one leading space per line if there is no separating one, up to the first that is the end marker (WHATWG HTML sections 9.2.5 and 9.2.6) |
| SsePayloads.StreamRoundTrip | Source/CodeHarness/Llm/SseParser.cpp:11-55 | so they parse back unchanged and in order, with the space, or without it if none of their lines begins with a space |
| SsePayloads.BehindColon | Source/CodeHarness/Llm/SseParser.cpp:41-45 | written without the space a payload is received unchanged if and only if none of its lines begins with a space |
| SsePayloads.ChunkedRoundTrip | Source/CodeHarness/Llm/SseParser.cpp:6-100 | and so in any chunks that cut no CR LF pair, which are all chunks when the terminator is one character |
| SsePayloads.EventsAreCarried | Source/CodeHarness/Llm/SseParser.cpp:11-55 | every event the parser produces is free of CR and is not the end marker |
| SsePayloads.RoundTripIff | Source/CodeHarness/Llm/SseParser.cpp:11-55 | a list of payloads survives encoding and parsing if and only if each is free of CR, none is the end marker and, written without the space, no line begins with a space |
| McpFraming.StdioMcpClient.ScanBuffer | Source/CodeHarness/Mcp/StdioMcpClient.cpp:130-166 | the scan over buffered lines finds the first decisive line; what was looked at is erased, except when a malformed line ends the scan |
| McpFraming.StdioMcpClient.WaitForResponse | Source/CodeHarness/Mcp/StdioMcpClient.cpp:111-177 | the waiting loop over drained chunks, stop requests, exits and the deadline equals its value-level description |
| McpFraming.StdioMcpClient.Request | Source/CodeHarness/Mcp/StdioMcpClient.cpp:95-109 | every request takes a new id, also when sending fails |
| McpFraming.ScanAppend | Source/CodeHarness/Mcp/StdioMcpClient.cpp:130-166 | what a scan finds does not change when more output arrives behind it |
| McpFraming.ChunkingIgnored | Source/CodeHarness/Mcp/StdioMcpClient.cpp:115-173 | for any chunking and whatever ends the wait (exit of the server, stop, failed drain, deadline), the outcome is that of the first decisive line of the output that may be heard; on a match exactly the bytes after that line stay buffered or unread |
| McpFraming.SameOutputSameOutcome | Source/CodeHarness/Mcp/StdioMcpClient.cpp:115-173 | two chunkings of the same output decide alike; without a decisive line each ends by what cut it off, with the same bytes buffered |
| McpFraming.FirstDecisiveLine | Source/CodeHarness/Mcp/StdioMcpClient.cpp:130-164 | the decisive line is the first complete line that is malformed or carries the id; all lines before it are empty or of other ids |
| McpFraming.MalformedPoisons | Source/CodeHarness/Mcp/StdioMcpClient.cpp:143-151 | a malformed outcome leaves the malformed line in the buffer |
| McpFraming.PoisonedRequests | Source/CodeHarness/Mcp/StdioMcpClient.cpp:95-156 | no sequence of requests gets past that line: every request that drains is answered at once, at most as many as there are lines in front of it by a message, all others by the malformed line |
| McpFraming.PoisonForever | Source/CodeHarness/Mcp/StdioMcpClient.cpp:143-156 | from then on a wait that drains ends at once, by a message in front of that line or by the line again, which stays |
| McpAnswers.WaitAnswers | Source/CodeHarness/Mcp/StdioMcpClient.cpp:111-177 | in terms of lines and JSON members only: a wait is decided by the first complete line it may hear that is not empty and either does not parse or is an object with the request's id modulo 2^32; such an object with an error gives the error, with a result the result, with neither a missing result; lines with another id are passed over, and only the bytes behind the deciding line remain; without a deciding line the outcome is that of the pass that ended the wait, with all that was drained from standard error when the server has exited or the deadline comes |
| McpAnswers.AnswersOne | Source/CodeHarness/Mcp/StdioMcpClient.cpp:153-164 | no line answers two requests with different ids, nor one request in two ways |
| McpAnswers.RequestsAnswered | Source/CodeHarness/Mcp/StdioMcpClient.cpp:95-177 | among requests with different ids every answer comes from a line that carries its own request's id and could answer no other |
| FrameCheck.ChecksumIsFrameCheck | Source/CodeHarness/Rpc/CoreApi.cpp:169-181 | for every message the checksum is the frame check sequence of ISO 3309: the complement of the remainder of the message's polynomial, its first 32 bits complemented, on division by the degree-32 generator, bit for bit |
| Crc32.Crc32 | Source/CodeHarness/Rpc/CoreApi.cpp:169-181 | the nested loops compute the register function with its initial and final mask, which is that frame check sequence (FrameCheck.ChecksumIsFrameCheck) |
| Crc32.RegisterInjective | Source/CodeHarness/Rpc/CoreApi.cpp:172-179 | equal bytes never merge two register values |
| Crc32.RegisterOnto | Source/CodeHarness/Rpc/CoreApi.cpp:172-179 | every register value is reached from some register, so bytes act on the register as a bijection |
| Crc32.RegisterLinear | Source/CodeHarness/Rpc/CoreApi.cpp:172-179 | the register after two messages combined by exclusive or is the exclusive or of the registers |
| Crc32.Affine | Source/CodeHarness/Rpc/CoreApi.cpp:169-181 | the checksum is affine on messages of one length |
| Crc32.RegisterOfWord | Source/CodeHarness/Rpc/CoreApi.cpp:172-179 | up to four bytes act as eight steps per byte on one packed word |
| Crc32.BurstDetected | Source/CodeHarness/Rpc/CoreApi.cpp:169-181 | any change confined to 32 consecutive bits, wherever they start, changes the checksum |
| Crc32.LongerBurstUnseen | Source/CodeHarness/Rpc/CoreApi.cpp:169-181 | a concrete change of 33 consecutive bits does not |
| Crc32.ByteChangeDetected | Source/CodeHarness/Rpc/CoreApi.cpp:169-181 | any change of one byte changes the checksum |
| ZipWriter.BuildStoreZip | Source/CodeHarness/Rpc/CoreApi.cpp:222-285 | the two loops that append field by field produce exactly the archive value, with every cast's truncation, which a reader with signatures and frame check of its own reads back (ZipRoundTrip.RoundTripIff) |
| ZipWriter.AppendLe16 | Source/CodeHarness/Rpc/CoreApi.cpp:155-159 | low byte first |
| ZipWriter.AppendLe32 | Source/CodeHarness/Rpc/CoreApi.cpp:161-167 | low byte first |
| Bytes8.ValueCounts | Source/CodeHarness/Rpc/CoreApi.cpp:155-167 | the numbers that bytes stand for count up from zero |
| ZipRoundTrip.RoundTripIff | Source/CodeHarness/Rpc/CoreApi.cpp:222-285 | while local section and directory fit 32 bits, a reader after APPNOTE sections 4.3.7, 4.3.12 and 4.3.16 recovers exactly the entries if and only if names and entry count fit 16 bits |
| ZipRoundTrip.RoundTrip | Source/CodeHarness/Rpc/CoreApi.cpp:222-285 | the reader recovers exactly the given entries in order |
| ZipRoundTrip.OffsetsPoint | Source/CodeHarness/Rpc/CoreApi.cpp:239-268 | every directory record carries the position of its own local header in the archive, its size and its name |
| ZipRoundTrip.ReaderLimits | Source/CodeHarness/Rpc/CoreApi.cpp:249-263 | no archive reads as more than 65535 entries or as names longer than 65535 bytes |
| ZipRoundTrip.DamageDetected | Source/CodeHarness/Rpc/CoreApi.cpp:169-181 | overwriting an entry's contents within 32 consecutive bits makes the archive unreadable, never wrong |
| ZipReader.LocalReadsBack | Source/CodeHarness/Rpc/CoreApi.cpp:242-253 | every field of the local header reads back at the offset of section 4.3.7: signature, version 20, no flags, stored, no time or date, frame check, sizes, name length, no extra field |
| ZipReader.CentralReadsBack | Source/CodeHarness/Rpc/CoreApi.cpp:260-276 | every field of the directory record reads back at the offset of section 4.3.12, with disk, attributes, comment and extra field empty and the local header's offset |
| ZipReader.EndReadsBack | Source/CodeHarness/Rpc/CoreApi.cpp:278-285 | every field of the end record reads back at the offset of section 4.3.16: entry counts, size and offset of the directory |
| EditFile.Execute | Source/CodeHarness/Tools/EditFile.cpp:50-119 | every outcome of an edit in order of precedence, beginning with a missing host; a completed edit writes the text with all counted occurrences replaced |
| EditFile.OutcomeIff | Source/CodeHarness/Tools/EditFile.cpp:50-119 | when each outcome comes about, as conditions on the arguments and on where the old string occurs: missing host, path or old string, equal strings, unreadable file, no occurrence, two occurrences apart without replace_all, failed write, completed edit |
| EditFile.CountOccurrences | Source/CodeHarness/Tools/EditFile.cpp:72-81 | the counting loop gives the number of leftmost non-overlapping occurrences |
| EditFile.Rewrite | Source/CodeHarness/Tools/EditFile.cpp:92-115 | the rewriting loop gives the replaced text and replaces as many as were counted, also when it stops after the only one |
| EditFile.ReplaceAll | Source/CodeHarness/Skills/SkillRegistry.cpp:45-65 | the second implementation computes the same replacement; an empty pattern leaves the text |
| ReplaceSpec.NextMatch | Source/CodeHarness/Tools/EditFile.cpp:97-108 | one search step: text before the leftmost match is kept, the match is replaced, the rest follows |
| ReplaceSpec.LengthAddsUp | Source/CodeHarness/Tools/EditFile.cpp:92-94 | the length changes by the count times the difference of the two strings' lengths |
| ReplaceSpec.CountIsMost | Source/CodeHarness/Tools/EditFile.cpp:72-81 | no set of disjoint occurrences is larger than the count |
| ReplaceSpec.CountIsReached | Source/CodeHarness/Tools/EditFile.cpp:72-81 | and one has exactly that size |
| ReplaceSpec.SeveralMeansApart | Source/CodeHarness/Tools/EditFile.cpp:87-90 | an edit is refused as ambiguous exactly when two occurrences lie apart |
| ReplaceSpec.NoneMeansNowhere | Source/CodeHarness/Tools/EditFile.cpp:83-86 | an edit is refused as not found exactly when the string occurs nowhere |
| ReplaceSpec.OverlapCountsOnce | Source/CodeHarness/Tools/EditFile.cpp:72-90 | two overlapping places count once and do not make an edit ambiguous |
| ReplaceSpec.UndoIff | Source/CodeHarness/Tools/EditFile.cpp:92-115 | replacing back restores the text if and only if, walking over it as the replacement does, the new string turns up only where it was put; it then makes as many replacements |
| ReplaceSpec.ReplaceCanBeUndone | Source/CodeHarness/Tools/EditFile.cpp:92-115 | in particular if the new string has a character the text lacks, replacing back restores the text with as many replacements |
| ReplaceSpec.UndoCanFail | Source/CodeHarness/Tools/EditFile.cpp:92-115 | a concrete text that replacing back does not restore |
| EditFile.EditIsPrecise | Source/CodeHarness/Tools/EditFile.cpp:83-119 | a completed edit made at least one replacement, sizes add up, and without replace_all all occurrences overlap one another |
| EditFile.EditUndoneIff | Source/CodeHarness/Tools/EditFile.cpp:50-119 | the reverse edit of a completed edit restores the file with as many changes if and only if the edit did not only delete and its new string turns up only where it was put |
| EditFile.EditCanBeUndone | Source/CodeHarness/Tools/EditFile.cpp:50-119 | in particular if the edit brought in a character the file lacks |
| RecordJson.MessageToJson | Source/CodeHarness/Records/RecordJson.cpp:117-145 | the loops that fill content and calls build the message's JSON value |
| RecordJson.MessageFromJson | Source/CodeHarness/Records/RecordJson.cpp:147-188 | reading a message, with the first failure in reading order |
| RecordJson.WireRecordToJson | Source/CodeHarness/Records/RecordJson.cpp:317-357 | the members set one after another for each of the four kinds |
| RecordJson.ParseWireRecord | Source/CodeHarness/Records/RecordJson.cpp:359-439 | reading a record from a JSON value, with every error case |
| WireFormat.PartMembers | Source/CodeHarness/Records/RecordJson.cpp:44-75 | the members of a content part by name; an optional one is left out when it has no value |
| WireFormat.MessageMembers | Source/CodeHarness/Records/RecordJson.cpp:117-145 | the members of a message by name; call id and calls only if there are any |
| WireFormat.EventMembers | Source/CodeHarness/Records/RecordJson.cpp:190-238 | an event is one member named by its kind that holds its parts by name |
| WireFormat.RecordMembers | Source/CodeHarness/Records/RecordJson.cpp:317-357 | the members of a record by name, exactly these |
| WireFormat.PartDefaults | Source/CodeHarness/Records/RecordJson.cpp:76-115 | a part needs its type only; unknown types and a missing one are errors |
| WireFormat.MessageDefaults | Source/CodeHarness/Records/RecordJson.cpp:147-188 | a message needs its role only; unknown roles and a missing one are errors |
| WireFormat.RecordDefaults | Source/CodeHarness/Records/RecordJson.cpp:359-439 | a prompt or cancellation needs its type only, a message and an event also what they carry; the errors otherwise |
| WireFormat.EventDefaults | Source/CodeHarness/Records/RecordJson.cpp:233-314 | of an event every part may be missing; unknown kinds and an empty object are errors |
| RecordRoundTrip.PartRoundTrip | Source/CodeHarness/Records/RecordJson.cpp:44-115 | every content part reads back unchanged |
| RecordRoundTrip.MessageRoundTrip | Source/CodeHarness/Records/RecordJson.cpp:117-188 | every message reads back unchanged, with parts, call id and calls |
| RecordRoundTrip.EventRoundTrip | Source/CodeHarness/Records/RecordJson.cpp:190-315 | every loop event reads back unchanged |
| RecordRoundTrip.RecordRoundTripUpTo | Source/CodeHarness/Records/RecordJson.cpp:317-439 | every record reads back with an empty protocol replaced and its origin reduced to 0 or 1 |
| RecordRoundTrip.RecordRoundTripIff | Source/CodeHarness/Records/RecordJson.cpp:317-439 | a record reads back unchanged if and only if its protocol is not empty and its origin is 0 or 1 |
| RecordRoundTrip.RereadingIsStable | Source/CodeHarness/Records/RecordJson.cpp:317-439 | what is read and written again is the same JSON value |
| RecordRoundTrip.UnknownMembersIgnored | Source/CodeHarness/Records/RecordJson.cpp:359-439 | members with other names do not change how a record reads |
| RecordRoundTrip.ExtraEventMember | Source/CodeHarness/Records/RecordJson.cpp:240-314 | an extra member of an event object is ignored if it sorts behind the event's kind and makes it unreadable otherwise |
| JsonAccess.FirstKey | Source/CodeHarness/Records/RecordJson.cpp:240-243 | iteration meets the least key first |
| EventLog.AgentRecords.Log | Source/CodeHarness/Records/AgentRecords.cpp:46-61 | appends one record unless replaying, detached, closed or refused by the host; the log then holds exactly that record more; a log that cannot be read stays so |
| EventLog.AgentRecords.Read | Source/CodeHarness/Records/FilePersistence.cpp:43-84 | all records in order, empty lines skipped, or the number and the failure of the first line that is not JSON or not a record; a detached or closed log and a host that cannot read fail before that |
| EventLog.AgentRecords.Replay | Source/CodeHarness/Records/AgentRecords.cpp:92-118 | the callback sees every record in order until it fails; nothing it tries to log is written; the flag is reset |
| EventLog.ReadSnoc | Source/CodeHarness/Records/FilePersistence.cpp:20-84 | a line appended by logging reads back as its record behind the records before it, or the log fails to read as before |
| EventLog.RecordsAre | Source/CodeHarness/Records/FilePersistence.cpp:43-84 | a log reads as the records of its lines that are not empty, in order, or fails with what is wrong with the first line that is not a record |
| EventLog.FoldWalks | Source/CodeHarness/Records/AgentRecords.cpp:104-116 | the callback is applied to the records in order, each time to the state it left before, up to the end or the first failure |
| TokenEstimate.EstimateMessage | Source/CodeHarness/Context/TokenEstimate.cpp:41-53 | the loop adds overhead, text, calls and call id |
| TokenEstimate.EstimateTokens | Source/CodeHarness/Context/TokenEstimate.cpp:55-63 | the loop adds the messages' estimates |
| TokenEstimate.TokensConcat | Source/CodeHarness/Context/TokenEstimate.cpp:55-63 | the estimate of two histories in a row is the sum |
| TokenEstimate.ThinkingIsFree | Source/CodeHarness/Llm/MessageJson.cpp:20-45 | think parts add nothing to the text an estimate sees |
| TokenEstimate.VisibleText | Source/CodeHarness/Llm/MessageJson.cpp:20-45 | the visible text is what the parts show, joined by LF, without the empty ones in front: texts as they are, images and videos by address, reasoning not at all |
| TokenEstimate.MessageNotUnderestimated | Source/CodeHarness/Context/TokenEstimate.cpp:23-53 | the estimate is at least a quarter of the visible characters and exceeds it by no more than overheads and rounding |
| ContextMemory.ContextMemory.Append | Source/CodeHarness/Context/ContextMemory.cpp:10-14 | the cached count stays what a recount gives |
| ContextMemory.ContextMemory.ReplaceAll | Source/CodeHarness/Context/ContextMemory.cpp:16-20 | the cached count is recomputed for the new messages |
| ContextMemory.ContextMemory.Clear | Source/CodeHarness/Context/ContextMemory.cpp:22-26 | no messages and a count of zero |
| Compactor.ShouldCompactIff | Source/CodeHarness/Context/Compactor.cpp:47-55 | compaction is due exactly when a window is set and the used tokens reach the threshold without its fraction, for thresholds of either sign |
| Compactor.BuildCompactedHistory | Source/CodeHarness/Context/Compactor.cpp:57-85 | one summary message unless the summary is empty, then the last retainTail messages verbatim |
| Compactor.Compact | Source/CodeHarness/Context/Compactor.cpp:87-150 | every outcome of a compaction pass, with the provider asked about the transcript of the prefix only |
| Compactor.CompactionIff | Source/CodeHarness/Context/Compactor.cpp:87-150 | when each outcome comes about: no provider, negative tail, history no longer than the tail, failed or empty summary, and a summary of the prefix with the number of messages it replaces |
| Compactor.TranscriptIs | Source/CodeHarness/Context/Compactor.cpp:28-36 | the provider sees one paragraph per message of the prefix, with the name of its role and its visible text, in order |
| Compactor.TailKept | Source/CodeHarness/Context/Compactor.cpp:72-80 | the messages kept are the last retainTail ones, all if there are fewer, none for a negative number |
| Compactor.CompactionAccount | Source/CodeHarness/Context/Compactor.cpp:87-150 | the reported count is the new history's; the count changes by the summary's estimate less the prefix's; the tail is kept verbatim |
| Compactor.CompactionKeepsAnswers | Source/CodeHarness/Context/Compactor.cpp:76-84 | compaction keeps every tool message with its call if and only if the tail does not begin with a tool message |
| Agent.Agent.StartTurn | Source/CodeHarness/Agent/Agent.cpp:41-184 | refused prompts change nothing; otherwise budget, compaction, turn id, drained skill content, status and the two log records |
| Agent.Agent.CompactBetweenTurns | Source/CodeHarness/Agent/Agent.cpp:86-131 | compacts when history and prompt reach the threshold; a failed compaction leaves the history |
| Agent.Agent.DuringTurn | Source/CodeHarness/Agent/Agent.cpp:192-202 | every dispatched event is logged in order, and every call of Cancel while the turn is on |
| Agent.Agent.FinishTurn | Source/CodeHarness/Agent/Agent.cpp:209-227 | the turn's history replaces the agent's and the agent is idle |
| Agent.EffectivePromptIs | Source/CodeHarness/Agent/Agent.cpp:148-160 | the index of the skills stands behind the system prompt and queued prompt skills behind that after a blank line; without skills there is the prompt alone |
| Agent.BudgetIs | Source/CodeHarness/Agent/Agent.cpp:41-86 | the model's window counts only if none was set by a call or in the configuration |
| Agent.CompactsIff | Source/CodeHarness/Agent/Agent.cpp:95-134 | the conversation is compacted exactly when a window is set, the conversation and the prompt reach the threshold and the provider summarizes a non-empty prefix |
| Agent.BetweenTurnsIs | Source/CodeHarness/Agent/Agent.cpp:116-122 | then the turn starts from one summary message and the last retainTail messages, otherwise from the conversation as it is |
| Agent.TurnRecordsAre | Source/CodeHarness/Agent/Agent.cpp:167-182 | a prompt logs the turn under its number, the prompt message, and then what happened in order |
| Agent.StopIsFirst | Source/CodeHarness/Agent/Agent.cpp:231-248 | the check that sees the stop is that of the first call of Cancel |
| Agent.Agent.Prompt | Source/CodeHarness/Agent/Agent.cpp:41-229 | after a prompt: compacted history, the prompt as a user message, messages of the turn's steps, laid out as TurnLoop.RunTurn says; one turn id used; the log grew by exactly the turn's records, or is unreadable as before; the turn made no step exactly when maxSteps is not positive, Cancel came before its first check or the first generation fails; in a separated environment it ends as the turn with its calls run one by one and the same cancels; the log reproduces the conversation exactly when it held the conversation the turn started from and the turn made no step |
| Agent.Agent.Cancel | Source/CodeHarness/Agent/Agent.cpp:231-248 | stops and logs only while a turn is on |
| Agent.Agent.ClearContext | Source/CodeHarness/Agent/Agent.cpp:250-253 | forgets the conversation; the log is not told, so a resume brings back what it holds |
| Agent.Agent.AppendSkillMessage | Source/CodeHarness/Agent/Agent.cpp:363-380 | a skill message enters conversation and log, so the log reproduces the conversation as it did before |
| Agent.Agent.AppendSystem | Source/CodeHarness/Agent/Agent.cpp:384-389 | prompt skills queue, separated by a blank line |
| Agent.Agent.Resume | Source/CodeHarness/Agent/Agent.cpp:419-448 | replaying the log makes the conversation exactly its messages, with the right cached count, and leaves the log as it is; it succeeds exactly when the log is there, open and readable, and otherwise leaves the conversation empty |
| Agent.PromptKeepsAnswers | Source/CodeHarness/Agent/Agent.cpp:41-229 | a prompt keeps every tool message with its call if and only if no compaction kept a tail beginning with a tool message |
| Agent.ResumeAfterPrompt | Source/CodeHarness/Agent/Agent.cpp:160-176 | of a turn only the prompt message comes back on a resume; the conversation is reproduced if and only if the log held the conversation the turn started from, which it does not after a clear or a compaction that changed something, and the turn made no step |
| Lines.SplitLines | Source/CodeHarness/Tools/ToolOutput.cpp:10-38 | LF ends a line, one CR before it is dropped, an unterminated last line counts, the empty text has no line |
| Lines.TerminatedSplitsIff | Source/CodeHarness/Tools/ToolOutput.cpp:10-38 | lines written with terminators split back if and only if none contains LF or ends in CR |
| Lines.CrLfSplits | Source/CodeHarness/Tools/ToolOutput.cpp:17-29 | lines written with CR LF split back whenever none contains LF, also lines that end in CR: exactly one is dropped |
| Lines.JoinedSplits | Source/CodeHarness/Tools/ToolOutput.cpp:10-38 | lines without LF and without a CR at the end, joined by LF, split back, less an empty last line |
| Lines.JoinedSplitsIff | Source/CodeHarness/Tools/ToolOutput.cpp:10-38 | any lines joined by LF split back if and only if none contains LF or ends in CR, and the last, if any, is not empty |
| ToolOutput.NumberLines | Source/CodeHarness/Tools/ToolOutput.cpp:40-48 | the loop writes every line behind its own number |
| ToolOutput.NumberedIs | Source/CodeHarness/Tools/ToolOutput.cpp:45-45 | every line stands, unchanged, behind its own number in decimal digits and a tab |
| ToolOutput.NumeralIs | Source/CodeHarness/Tools/ToolOutput.cpp:45-45 | numbers are written in decimal digits without leading zeros, behind a minus when negative |
| ToolOutput.TruncateOutput | Source/CodeHarness/Tools/ToolOutput.cpp:50-76 | the loop equals a cut of the clipped, terminated lines; the unsigned subtraction never wraps |
| ToolOutput.TruncatedBound | Source/CodeHarness/Tools/ToolOutput.cpp:50-76 | output is cut exactly when its clipped lines reach max characters; what is kept is their beginning before the notice, max characters, or one less exactly when the last would be an LF |
| ToolOutput.ClipIs | Source/CodeHarness/Tools/ToolOutput.cpp:54-61 | a line longer than the width keeps its first width characters and says so |
| ToolOutput.NoticeIs | Source/CodeHarness/Tools/ToolOutput.cpp:71-71 | the notice names the limit in decimal digits |
| ToolOutput.ShownWhole | Source/CodeHarness/Tools/ToolOutput.cpp:50-76 | short enough output of clean lines passes through unchanged |
| ToolOutput.ReadFile | Source/CodeHarness/Tools/ReadFile.cpp:52-94 | the clamps of offset and count give the page; every error case |
| ToolOutput.PageShows | Source/CodeHarness/Tools/ReadFile.cpp:60-91 | a page leaves out exactly the lines in front of the offset, a negative one counting from the end, and shows as many of the others as were asked for, at most 1000, or all if none was |
| ToolOutput.PagesCoverFile | Source/CodeHarness/Tools/ReadFile.cpp:74-91 | pages of n lines, 1 to 1000, one after another and before any cut, are the fully numbered file |
| ToolOutput.ShownPagesCoverFile | Source/CodeHarness/Tools/ReadFile.cpp:74-93 | what consecutive reads show is the fully numbered file, while the pages read and the numbered lines stay below the output limits and no line ends in a CR of its own |
| ToolOutput.TailIsEnd | Source/CodeHarness/Tools/ReadFile.cpp:78-83 | a negative offset shows the end of the file under the same numbers |
| ToolOutput.PageShownWhole | Source/CodeHarness/Tools/ReadFile.cpp:90-93 | a page within the limits whose lines fit is shown without a cut |
| Grep.Kinds | Source/CodeHarness/Tools/Grep.cpp:179-196 | a line is a match exactly if it matches, context exactly if it does not but lies within before and after of some match, for any before and after |
| Grep.MarkLines | Source/CodeHarness/Tools/Grep.cpp:179-196 | the in-place marking loops compute those marks and the number of matches |
| Grep.MarkWindow | Source/CodeHarness/Tools/Grep.cpp:184-195 | one match marks its window without turning a match into context |
| Grep.CountIs | Source/CodeHarness/Tools/Grep.cpp:184-187 | the number of matches is that of the lines that match |
| Grep.ReachIs | Source/CodeHarness/Tools/Grep.cpp:117-124 | the reach in front of and behind a match is its own option, or the one for both sides if that is set and larger |
| Grep.FlatIs | Source/CodeHarness/Tools/Grep.cpp:177-196 | every line goes by its path, its number from 1 and its text, as a match or as context within reach |
| Grep.FormatIs | Source/CodeHarness/Tools/Grep.cpp:232-240 | a match shows path, number and text between colons, context between hyphens, the number only if asked for |
| Grep.FileItemSays | Source/CodeHarness/Tools/Grep.cpp:198-218 | a file with matches gives its path, or its path and the number of its matching lines |
| Grep.RenderSnoc | Source/CodeHarness/Tools/Grep.cpp:228-231 | results follow one another, with a line of two hyphens in front of a new group unless it is the first result |
| Grep.OutputIs | Source/CodeHarness/Tools/Grep.cpp:158-162 | below the limit the output is all results, followed by the notice of an interruption, or the notice that there are none |
| Grep.LimitNoticeIs | Source/CodeHarness/Tools/Grep.cpp:250-251 | the notice of the limit names it |
| Grep.Search | Source/CodeHarness/Tools/Grep.cpp:144-256 | the whole search: output, notice, interruption, empty result, truncation |
| GrepLimits.LimitKeepsPrefix | Source/CodeHarness/Tools/Grep.cpp:238-252 | a positive limit keeps the first headLimit results, a prefix of the unlimited output, and adds its notice exactly when there are at least that many |
| GrepLimits.GroupStart | Source/CodeHarness/Tools/Grep.cpp:219-229 | a marked line opens a group exactly when the line searched before it, in whatever file, is not marked |
| GrepLimits.NoSeparatorBetweenFiles | Source/CodeHarness/Tools/Grep.cpp:219-229 | so results of two files can follow one another without a separator |
| EditStats.SplitLines | Source/CodeHarness/Tui/Components/ToolCallCard.cpp:152-174 | the lines of the text without the blank ones at the end |
| EditStats.SpacesAre | Source/CodeHarness/Tui/Components/ToolCallCard.cpp:145-150 | blank lines are those of blank, tab, LF, vertical tab, form feed and CR only |
| EditStats.ComputeEditStats | Source/CodeHarness/Tui/Components/ToolCallCard.cpp:240-262 | added and removed are the lines beyond those the edit keeps |
| EditStats.KeptIsMost | Source/CodeHarness/Tui/Components/ToolCallCard.cpp:247-261 | no single replaced block keeps more lines and one keeps as many, so no other has fewer added or removed lines |
| EditStats.UnchangedIff | Source/CodeHarness/Tui/Components/ToolCallCard.cpp:261-261 | both counts are zero if and only if the line lists are equal |
| EditStats.KeptSymmetric | Source/CodeHarness/Tui/Components/ToolCallCard.cpp:240-262 | swapping the texts swaps the counts |
| Fnv1a.Fnv1a64 | Source/CodeHarness/Session/WorkdirKey.cpp:54-66 | the loop computes the FNV-1a state modulo 2^64 |
| Fnv1a.KnownHashes | Source/CodeHarness/Session/WorkdirKey.cpp:54-62 | the hashes of the empty text, of a and of ab are the published ones |
| Fnv1a.TimesInjective | Source/CodeHarness/Session/WorkdirKey.cpp:61-61 | multiplication by the prime is injective modulo 2^64 |
| Fnv1a.HashInjective | Source/CodeHarness/Session/WorkdirKey.cpp:58-62 | equal input never merges two states |
| Fnv1a.OneByteApart | Source/CodeHarness/Session/WorkdirKey.cpp:54-62 | texts of one length differing in one byte have different hashes |
| Fnv1a.HexInjective | Source/CodeHarness/Session/WorkdirKey.cpp:65-65 | fixed-width hexadecimal digits determine the number |
| Fnv1a.HexReads | Source/CodeHarness/Session/WorkdirKey.cpp:63-63 | the digits are hexadecimal in lower case and read as the number |
| WorkdirKey.Sanitize | Source/CodeHarness/Session/WorkdirKey.cpp:23-52 | the loops collapse separators and trim underscores |
| WorkdirKey.IllegalAre | Source/CodeHarness/Session/WorkdirKey.cpp:13-21 | the characters replaced, as characters |
| WorkdirKey.CollapseIs | Source/CodeHarness/Session/WorkdirKey.cpp:27-42 | between two legal parts a run of illegal characters, however long, becomes one underscore, or nothing if the part before it is empty or ends in one; legal characters stay |
| WorkdirKey.TrimmedIs | Source/CodeHarness/Session/WorkdirKey.cpp:43-50 | trimming takes all underscores off both ends and nothing else |
| WorkdirKey.EncodeWorkdirKey | Source/CodeHarness/Session/WorkdirKey.cpp:68-77 | sanitized part, hyphen and hash, or the hash alone |
| WorkdirKey.KeyIs | Source/CodeHarness/Session/WorkdirKey.cpp:68-77 | a key is the sanitized part, a hyphen and sixteen hexadecimal digits that read as the hash of the path, or the digits alone if nothing readable is left |
| WorkdirKey.SanitizedTidy | Source/CodeHarness/Session/WorkdirKey.cpp:23-52 | the sanitized part has no illegal character and no underscore at either end |
| WorkdirKey.SanitizedFixedIff | Source/CodeHarness/Session/WorkdirKey.cpp:23-52 | sanitizing leaves a path alone if and only if it is already so |
| WorkdirKey.SanitizeIdempotent | Source/CodeHarness/Session/WorkdirKey.cpp:23-52 | sanitizing twice is sanitizing once |
| WorkdirKey.SanitizeKeepsLetters | Source/CodeHarness/Session/WorkdirKey.cpp:23-52 | no readable character is lost, added or moved |
| WorkdirKey.OneByteApartKeys | Source/CodeHarness/Session/WorkdirKey.cpp:54-77 | working directories of one length differing in one byte have different keys |

## Left out

- User interface, sockets, process handling, file system and clock: they appear as parameters (what a read gave, what a poll drained, a time stamp, whether a stop is seen by now).
- JSON text, regular expressions, globs and UTF-8: parsing is an oracle or the model works on JSON values, and a line comes with its answer whether it matches. JSON values have no floating-point numbers here, so a tool argument or a server's answer that holds one is outside the model.
- Tools that watch the stop token while they execute: an execution sees its arguments and the world only.
- Providers that depend on more than the history and the step number, and exceptions for lack of memory.
- Loop hooks before and after a step, the Stop and StopFailure hooks, compaction hooks and the dispatch of events to listeners.
- `HookEngine::RunOne` beyond its outcome (failed, allowed, blocked with a reason): it starts a process.
- Allocation, `reserve` and logging of warnings; 64-bit overflow of token and usage counters.
- Grep.Search: begins with the sorted candidates; argument errors and the choice of files are not part of it, and sums of line number and context stay unbounded integers.
- McpAnswers.RequestsAnswered: ids are 32-bit integers; the counter's overflow behind the last one is not modelled.
- Agent.Agent.Prompt: the events dispatched during the turn are a parameter that is not tied to the turn's own steps. Skills activated by a tool during a turn are not modelled, because the turn's history replaces theirs.
- EventLog.AgentRecords.Log: an append that fails leaves the file as it was; one that fails after writing part of a line is not modelled.
- EventLog.AgentRecords.Replay: the callback is a function of its own state, which names the records it would log, instead of arbitrary code.
- Compactor.ShouldCompactIff: the threshold is a real number, so floating-point rounding of the product is not modelled.
- ZipRoundTrip.RoundTripIff: archives whose sections exceed 32 bits are not characterised; their offsets are truncated and what a reader finds depends on the contents. The reader takes stored entries only.
- BatchRunner.RunToolCallBatch: assumes that every execution ends, through a rank on its local state, as does TurnLoop.RunTurn; the scheduler waits for its futures without a time limit.
- Serializability.Serializable: assumes that approvals, hooks and tools act on separate parts of the world; nothing is claimed for hooks that change what tools read.
- Event router, configuration files, session store, command line, skill variables beyond replacement, capability tables: plumbing, or properties that one branch settles.
