# Verification of the AI reply pipeline

A Dafny model of the pipeline that answers customers: vendor byte streams, failover, stitching of
partial answers, tool chains, the closing of a run, the outbox many workers drain, and the two stores
around it. Vendors, tools, clocks and the database are arbitrary scripts, so each theorem holds for
every behaviour of them. `dafny verify dfyconfig.toml` checks everything.

| file | what it models |
|---|---|
| `Text.dfy`, `Contract.dfy` | strings as the backend uses them; types shared by the adapters |
| `Sse.dfy`, `SseRoundTrip.dfy` | the incremental frame parser, against sections 9.2.5 and 9.2.6 of the WHATWG HTML Living Standard as the code narrows them |
| `Anthropic.dfy`, `OpenAi.dfy`, `Gemini.dfy` | the folds that turn frames into text, tool calls and a result |
| `Sanitize.dfy` | masking of what looks like a key in error details |
| `Prompt.dfy` | the two scanners of the prompt template language |
| `Attempts.dfy` | configuration check, attempt list, and the non-streaming calls |
| `StreamTask.dfy` | the spawned tasks that relay a stream: retry, failover, hang-up |
| `Generate.dfy` | continuation stitching and tool-call accumulation over retries |
| `ToolChain.dfy`, `Closing.dfy` | a run: tool rounds, recheck, one message, record, deletion |
| `Outbox.dfy` | claiming and coalescing by many workers, over all schedules |
| `PromptStore.dfy` | saves and restores interleaved statement by statement |
| `Paging.dfy` | cursors and pages of the usage and audit lists |
| `Pipeline.dfy` | the layers joined, from the bytes of a vendor to the reply |

Code that updates state is modelled by methods and classes proved against functions or predicates;
the theorems about those are lemmas, among them, for each branch of a main operation, one that says what
it gives without naming the function the operation is proved against. JSON text is an arbitrary parser and printer; a lemma that needs
them to be inverse says so.

## What turned out to be different from expectation

Each of these is a lemma with an exact condition, and a concrete run or input in which it happens.

- Streams in which a CRLF blank line comes before an LF blank line are framed differently under different
  chunkings, because the LF blank line is searched over the whole buffer first
  (`Sse.ChunkingIrrelevantIffOrderly`, `SseRoundTrip.MixedStreamDeliversOtherFrames`).
- The failover task can end without any terminal event, after a delta, and without a usage row; the
  generation then takes the truncated text as its reply (`StreamTask.TranscriptIsSafe`,
  `Generate.TruncatedReplyIff`, `Generate.TruncatedReplyExists`).
- A retriable error in mid-stream before the first delta does not reach the next provider on the last
  retry, while a refused open fails over even when its error is not retriable, although the comment in
  the code speaks of failover before the first delta in general (`StreamTask.SearchEndsIff`,
  `StreamTask.RetriableErrorStopsTheSearch`, `StreamTask.RefusedOpenFailsOver`).
- Tool calls collected from a broken stream stay collected, so a retry can execute them twice
  (`StreamTask.CallsFromOneStreamIff`, `StreamTask.CallSentTwice`, `Generate.CallsOfLastStreamIff`,
  `Generate.CallCollectedTwice`, `ToolChain.CallExecutedTwice`).
- OpenAI calls are lost when the finish reason is not `tool_calls`, and arguments that do not parse are
  an error when streamed but the empty object otherwise (`OpenAi.StreamedEqualsWholeIff`,
  `OpenAi.CallIsLost`, `OpenAi.BadArgumentsDiffer`).
- Streamed Gemini ids can collide and differ from those of the whole answer, and a chunk without
  candidates ends the answer (`Gemini.StreamedIdsDistinctIff`, `Gemini.IdsCollide`,
  `Gemini.StreamedAgainstWhole`, `Gemini.ReadUpToFirstEnd`, `Gemini.AnswerCutOff`).
- The answers of tools are sent back without the assistant message that asked for them, and a request
  whose start could not be marked stays pending although its tool ran (`ToolChain.RunToolChain`,
  `ToolChain.SettledIff`, `ToolChain.StaysPendingThoughRun`).
- A run that ends unconfigured or with an internal error after using tools leaves a row that waits for
  approval for ever (`Closing.ForgottenRowIff`, `Closing.RowForgotten`).
- Nothing is locked between recheck and commit, and a failed look counts as seeing nothing, so an answer
  can land behind a newer message, an open escalation or another reply (`Closing.LateAnswerIff`,
  `Closing.AnswerBehindAllThree`, `Closing.AnswerThoughLookFailed`); the
  apology ignores the recheck (`Closing.ApologyIgnoresRecheck`, `Closing.ApologyBehindEscalation`).
- The loser of a race for the first prompt version can get a database error instead of a conflict
  (`PromptStore.LoserOfTheRace`, `PromptStore.BothLosersExist`).
- A cursor that cannot be read gives the first page of the usage list but is refused by the audit list
  (`Paging.UsageList`, `Paging.AuditList`, `Paging.UnreadableCursor`).

## Model

| member | source | states |
|---|---|---|
| Sse.FindBoundary | backend/crates/ai-providers/src/sse.rs:50-58 | a boundary leaves at least its two characters in the buffer, so the extraction loop always makes progress |
| Sse.ParseFrame | backend/crates/ai-providers/src/sse.rs:60-99 | the line loop gives the joined data lines with the last event name, an empty frame for comments alone, or a non-retriable error |
| Sse.FrameStream.Next | backend/crates/ai-providers/src/sse.rs:26-48 | each poll ends and delivers exactly the next frame or failure of what remains; the end is reported only when nothing remains |
| Sse.BoundaryStable | backend/crates/ai-providers/src/sse.rs:50-58 | in an orderly stream a boundary once visible does not move when more characters arrive |
| Sse.ChunkingIsIrrelevant | backend/crates/ai-providers/src/sse.rs:9-58 | for an orderly stream the frames depend only on the concatenated characters, for every division into chunks (empty and one-character ones too) and any failed reads between them |
| Sse.OneTerminatorIsOrderly | backend/crates/ai-providers/src/sse.rs:50-58 | LF-only and CRLF-only streams are orderly |
| Sse.ChunkingIrrelevantIffOrderly | backend/crates/ai-providers/src/sse.rs:50-58 | exact condition: all chunkings cut a stream into the same raw frames if and only if no CRLF blank line comes before an LF blank line; otherwise a differing chunking is constructed |
| SseRoundTrip.ParseBlock | backend/crates/ai-providers/src/sse.rs:60-103 | one printed event, with or without the line break its predecessor leaves over, parses to that event; a heartbeat is dropped |
| SseRoundTrip.FramesOfPrint | backend/crates/ai-providers/src/sse.rs:9-103 | a printed list of events and heartbeats is framed into exactly the events, in order |
| SseRoundTrip.RoundTrip | backend/crates/ai-providers/src/sse.rs:9-103 | printing events mixed with heartbeats, LF or CRLF, and parsing under any chunking and any failed reads gives exactly those events back |
| SseRoundTrip.MixedStreamDeliversOtherFrames | backend/crates/ai-providers/src/sse.rs:26-58 | a concrete stream, CRLF blank line before LF blank line, that delivers one frame in one piece and two frames when divided behind the first blank line |
| Sse.FrameWithoutData | backend/crates/ai-providers/src/sse.rs:86-99 | a frame without data lines is dropped if it holds a comment, and otherwise a non-retriable error |
| Sse.ReadFailureIsRetriable | backend/crates/ai-providers/src/sse.rs:26-48 | a failed read is delivered as a retriable error in its place, and reading goes on behind it |
| Anthropic.ReadMessage | backend/crates/ai-providers/src/anthropic.rs:248-270 | the non-streaming extraction gives the text of all text blocks in order, the tool calls in order, and the mapped finish reason |
| Anthropic.StreamFold.OnFrame | backend/crates/ai-providers/src/anthropic.rs:412-574 | each frame emits and updates what its signal calls for; an upstream error passes through and changes nothing |
| Anthropic.FoldRelevant | backend/crates/ai-providers/src/anthropic.rs:423-566 | pings and other unknown frames change nothing wherever they stand |
| Anthropic.ToolFragments | backend/crates/ai-providers/src/anthropic.rs:473-503 | argument fragments of a block accumulate to their concatenation and emit nothing |
| Anthropic.StreamedEqualsWhole | backend/crates/ai-providers/src/anthropic.rs:248-574 | for every message and every split of text and JSON into deltas the stream conveys the same content, calls, finish, model and usage as the whole message |
| Anthropic.DecodeSent | backend/crates/ai-providers/src/anthropic.rs:412-566 | a frame that holds the fields of a signal carries it, whatever other fields it has at any depth |
| Anthropic.TextStartIsIgnored | backend/crates/ai-providers/src/anthropic.rs:442-465 | the start of a text block, with whatever fields, tells the adapter nothing |
| Anthropic.BytesConveyMessage | backend/crates/ai-providers/src/anthropic.rs:392-574 | the same from bytes, for all frames the adapter reads as these signals: any chunking, any heartbeats, any pings |
| Anthropic.StopWords | backend/crates/ai-providers/src/anthropic.rs:248-253 | each stop word of the vendor has its named reason, and every other word none of its own |
| Anthropic.GarbledFrameIsFatal | backend/crates/ai-providers/src/anthropic.rs:412-574 | a known frame whose text is not JSON is a non-retriable error and leaves the fold as it was |
| Anthropic.BadArgumentsBecomeEmpty | backend/crates/ai-providers/src/anthropic.rs:504-529 | streamed arguments that are not JSON become the empty object |
| OpenAi.ReadAnswer | backend/crates/ai-providers/src/openai.rs:116-154 | the non-streaming extraction: calls without id or name are skipped, arguments that do not parse become the empty object |
| OpenAi.Adapter.AddFragment | backend/crates/ai-providers/src/openai.rs:445-490 | the three parts of a fragment, applied one by one, have the effect of the whole fragment on its own index only |
| OpenAi.Adapter.TakeCalls | backend/crates/ai-providers/src/openai.rs:498-534 | the accumulators are emptied and each index is emitted once, lowest first |
| OpenAi.Adapter.OnPart | backend/crates/ai-providers/src/openai.rs:426-552 | one chunk: its delta, its fragments, the flush at the tool-call finish, then usage and model |
| OpenAi.Adapter.OnFrame | backend/crates/ai-providers/src/openai.rs:406-566 | one frame in, its events out, including the end marker and malformed frames |
| OpenAi.GatheredAt | backend/crates/ai-providers/src/openai.rs:445-490 | an accumulator exists exactly when a fragment of its index said something, and holds the last id, the last name and all argument fragments of that index in arrival order |
| OpenAi.InterleavingIsIrrelevant | backend/crates/ai-providers/src/openai.rs:445-490 | any interleaving that keeps the order within each index gathers the same accumulators |
| OpenAi.AscendingUnique | backend/crates/ai-providers/src/openai.rs:499-504 | the tree map is walked in the one ascending order of its keys |
| OpenAi.EventsOfCalls | backend/crates/ai-providers/src/openai.rs:504-530 | the flush yields the calls, each with its own arguments, and no error exactly when all arguments parse |
| OpenAi.FoldOpen | backend/crates/ai-providers/src/openai.rs:426-552 | until the answer stops, text passes through in order, no call is emitted, and usage, model and fragments are remembered |
| OpenAi.StreamedEqualsWholeIff | backend/crates/ai-providers/src/openai.rs:116-154 | exact condition: the stream conveys what the whole answer means if and only if an answer that stopped for tool calls has only arguments that parse, and any other answer has no calls (they would be lost) |
| OpenAi.CallIsLost | backend/crates/ai-providers/src/openai.rs:498-534 | a concrete answer whose one call never comes out of the stream, because it stopped for another reason |
| OpenAi.BadArgumentsDiffer | backend/crates/ai-providers/src/openai.rs:504-530 | a concrete answer whose arguments do not parse: an error when streamed, the empty object when sent whole |
| OpenAi.SignalComesBack | backend/crates/ai-providers/src/openai.rs:413-552 | a frame that holds the fields of a chunk carries its text, fragments, finish, usage and model, whatever other fields it has at any depth |
| OpenAi.BytesConveyAnswerIff | backend/crates/ai-providers/src/openai.rs:386-566 | the same exact condition from bytes, for all frames the adapter reads as these chunks: any interleaving of fragments, any heartbeats, any chunking |
| OpenAi.StopWords | backend/crates/ai-providers/src/openai.rs:492-497 | each finish word of the vendor has its named reason, and every other word none of its own |
| OpenAi.CallOfAnswer | backend/crates/ai-providers/src/openai.rs:116-154 | the k-th call of a whole answer is skipped exactly without id or name, and else comes out in its place with its own arguments |
| OpenAi.GarbledIsFatal | backend/crates/ai-providers/src/openai.rs:504-566 | a frame that is not JSON and arguments that are not are non-retriable errors |
| Gemini.ReadParts | backend/crates/ai-providers/src/gemini.rs:366-388 | text of the parts in order and a call for each function call, its id made from its name and position |
| Gemini.ReadWhole | backend/crates/ai-providers/src/gemini.rs:364-415 | the whole extraction: text, calls, mapped finish reason, reported usage and the requested model |
| Gemini.Adapter.OnChunk | backend/crates/ai-providers/src/gemini.rs:697-789 | one chunk: its deltas and calls, then a `Done` if it has a finish reason or no candidates; usage is handed out once |
| Gemini.Adapter.OnFrame | backend/crates/ai-providers/src/gemini.rs:697-789 | one frame: an upstream error passes, text that is not JSON is a non-retriable error, and anything else is handled as the chunk it holds |
| Gemini.ChunkComesBack | backend/crates/ai-providers/src/gemini.rs:707-775 | a frame that holds the fields of a chunk is read as that chunk, whatever other fields it has |
| Gemini.IdInjective | backend/crates/ai-providers/src/gemini.rs:379-383 | a made-up id determines its name and position, even when names contain the separator |
| Gemini.WholeIdsDistinct | backend/crates/ai-providers/src/gemini.rs:372-388 | in a non-streaming answer all ids differ |
| Gemini.StreamedIdsDistinctIff | backend/crates/ai-providers/src/gemini.rs:725-745 | exact condition: streamed ids are distinct if and only if no two chunks call the same function at the same position |
| Gemini.IdsCollide | backend/crates/ai-providers/src/gemini.rs:725-745 | a concrete stream whose two different calls get the same id |
| Gemini.ReadUpToFirstEnd | backend/crates/ai-providers/src/gemini.rs:717-775 | a reader that stops at the first `Done` gets the chunks up to the first one with a finish reason or without candidates, so a usage-only chunk cuts the answer off there |
| Gemini.AnswerCutOff | backend/crates/ai-providers/src/gemini.rs:765-773 | a concrete stream whose first chunk only reports usage, and whose text is never read |
| Gemini.StreamedAgainstWhole | backend/crates/ai-providers/src/gemini.rs:364-415 | a streamed response conveys the text, finish, usage and model of the whole one, and the same functions and arguments in order; it conveys just what the whole one means, ids included, if and only if calls come only in chunks before which no part was sent |
| Gemini.BytesConveyWholeIff | backend/crates/ai-providers/src/gemini.rs:697-789 | the same exact condition from bytes, for all frames the adapter reads as these chunks: any heartbeats, any chunking |
| Gemini.StopWords | backend/crates/ai-providers/src/gemini.rs:177-184 | each finish reason of the vendor has its named reason, and every other word none of its own |
| Sanitize.SanitizeErrorDetail | backend/crates/ai-providers/src/contract.rs:150-181 | the buffering loop masks exactly the maximal runs that look like keys and cuts at 200 characters |
| Sanitize.LooksLikeKey | backend/crates/ai-providers/src/contract.rs:157-160 | the test on a buffered run: length, an upper-case letter and a digit |
| Sanitize.SanitizedIsSafe | backend/crates/ai-providers/src/contract.rs:145-181 | for every input at most 200 ASCII characters come out and no stretch of them looks like a key, even after the cut |
| Sanitize.SanitizeIsIdempotent | backend/crates/ai-providers/src/contract.rs:150-181 | sanitizing twice is sanitizing once |
| Sanitize.RedactKeepsIff | backend/crates/ai-providers/src/contract.rs:154-179 | masking leaves a text alone if and only if nothing in it looks like a key |
| Sanitize.SanitizeKeepsIff | backend/crates/ai-providers/src/contract.rs:150-181 | a detail comes out unchanged if and only if it is short ASCII without anything like a key |
| Sanitize.OnlyAsciiIs | backend/crates/ai-providers/src/contract.rs:150-154 | position by position: exactly the characters that are not ASCII are removed, the others stay in order |
| Sanitize.RunIsMasked | backend/crates/ai-providers/src/contract.rs:154-179 | wherever it stands, a maximal run of letters and digits is masked if it looks like a key and kept if not, without effect on what is around it |
| Sanitize.SecretIff | backend/crates/ai-providers/src/contract.rs:157-160 | a key has twenty characters or more, an upper-case letter and a digit |
| Prompt.IsValidVariableName | backend/crates/modules/ai/src/prompt_validate.rs:41-56 | a name is accepted exactly when it starts with a lower-case letter and goes on with lower-case letters, digits or underscores |
| Prompt.RenderPrompt | backend/crates/modules/ai/src/prompt_validate.rs:186-249 | the single pass equals rendering one tokenisation that does not depend on the variables, and recognises exactly its placeholder spans |
| Prompt.ValidatePrompt | backend/crates/modules/ai/src/prompt_validate.rs:58-170 | the issues are exactly those of the tokens, in order, and the placeholder spans recognised are the same as when rendering |
| Prompt.OutsideSource | backend/crates/modules/ai/src/prompt_validate.rs:186-249 | the tokens, written out again, are the content |
| Prompt.RenderUnbound | backend/crates/modules/ai/src/prompt_validate.rs:186-249 | rendering with no variables is the identity |
| Prompt.TokensOfPrint | backend/crates/modules/ai/src/prompt_validate.rs:195-249 | printing a template and tokenising it gives back its literals and placeholders |
| Prompt.AcceptedIff | backend/crates/modules/ai/src/prompt_validate.rs:58-170 | validation accepts a content if and only if it is not blank, within the limit, and the print of a template of brace-free literals and catalog variables |
| Prompt.RenderTemplate | backend/crates/modules/ai/src/prompt_validate.rs:186-249 | a template's tokens render to its literals with each variable's value, values not scanned again |
| Prompt.AcceptedRenders | backend/crates/modules/ai/src/prompt_validate.rs:58-249 | an accepted content rendered with the catalog bound has every placeholder substituted |
| Prompt.OutsideCovers | backend/crates/modules/ai/src/prompt_validate.rs:186-249 | position by position: each token stands where the content has it, a placeholder ends at the first closing behind its opening, and an opening is left open only where another opening or the end comes first |
| Prompt.SpansAreClosed | backend/crates/modules/ai/src/prompt_validate.rs:186-249 | every span is an opening, a name without doubled braces, and a closing |
| Prompt.NameIssueIff | backend/crates/modules/ai/src/prompt_validate.rs:102-140 | an empty, invalid or unknown name is reported, at its opening, if and only if a placeholder has such a name |
| Prompt.BracesAreReported | backend/crates/modules/ai/src/prompt_validate.rs:58-170 | doubled braces belong to a placeholder or are reported there (or one character before, where three stand together), and what is reported as left open or stray is so |
| Prompt.ContentIssueIff | backend/crates/modules/ai/src/prompt_validate.rs:58-80 | exactly blank contents are reported as missing and exactly those above 8000 as too long |
| Prompt.RenderSplits | backend/crates/modules/ai/src/prompt_validate.rs:186-249 | around any placeholder the rendering is what precedes it rendered, its value if its name is valid and bound or else its source, and what follows it rendered |
| Prompt.RenderUntouched | backend/crates/modules/ai/src/prompt_validate.rs:186-249 | a content none of whose placeholders names a bound variable is rendered as it is |
| Attempts.Validate | backend/crates/modules/ai/src/model.rs:44-101 | no complaint exactly when all pairs are usable, distinct and at most four, and the limits are in range; a complaint is true, and everything checked before it is in order |
| Attempts.CheckFallback | backend/crates/modules/ai/src/model.rs:71-98 | a fallback passes only if it is usable and differs from the primary pair and every other fallback |
| Attempts.Assemble | backend/crates/modules/ai/src/service.rs:233-284 | the list holds the pairs that can be read and have a key, in order; a lookup that breaks ends the call |
| Attempts.RunAttempts | backend/crates/modules/ai/src/service.rs:91-182 | the calls made are the possible ones in order up to the first success or non-retriable error; that one, or else the last error, is returned |
| Attempts.ChoiceIsUnique | backend/crates/modules/ai/src/service.rs:99-182 | replies alone determine which calls are made and what is returned |
| Attempts.ValidatedCallsAreBounded | backend/crates/modules/ai/src/service.rs:233-284 | when the stored fallbacks are those of a validated configuration, the attempts assembled from them all differ and at most twelve calls are made |
| Attempts.ReadableIs | backend/crates/modules/ai/src/service.rs:233-284 | exactly the stored fallbacks that can be read are used, in order |
| Attempts.TriedIff | backend/crates/modules/ai/src/service.rs:233-284 | the k-th pair is tried, in its place, if and only if a key was found for it |
| Attempts.TriedCount | backend/crates/modules/ai/src/service.rs:233-284 | as many pairs are tried as keys were found |
| Attempts.OrderIs | backend/crates/modules/ai/src/service.rs:91-182 | the possible calls are exactly three for each attempt with a registered provider, attempt by attempt |
| Attempts.ReportIsOfLastCall | backend/crates/modules/ai/src/service.rs:99-182 | what is reported is the reply or error of the last call made, under its own provider and model; not configured means that none was made |
| StreamTask.Pump | backend/crates/modules/ai/src/service.rs:764-960 | one opened stream is relayed event by event; the accumulators always equal what was sent, and the stream either decides, was cut by a hang-up, or leaves the search open |
| StreamTask.RunStream | backend/crates/modules/ai/src/service.rs:732-990 | for every attempt list, script and hang-up the receiver gets a prefix of one transcript, fixed by the path through retries and failover, and exactly the usage rows of that path are written; a receiver found gone is recorded only at a delta |
| StreamTask.SearchEndsIff | backend/crates/modules/ai/src/service.rs:741-870 | while a registered provider is left and no delta was relayed, the search ends if and only if the last stream gave its result, or an error that cannot be retried or came on the last retry |
| StreamTask.RetriableErrorStopsTheSearch | backend/crates/modules/ai/src/service.rs:855-880 | a concrete world in which a retriable error ends the search although a provider is left |
| StreamTask.RefusedOpenFailsOver | backend/crates/modules/ai/src/service.rs:741-940 | a concrete world in which an open refused for good goes on to the next provider, which answers |
| StreamTask.TranscriptIsSafe | backend/crates/modules/ai/src/service.rs:732-990 | one terminal event at most and nothing after it; all deltas from the last opened stream; `Done` holds exactly the sent text and calls; the terminal event is missing exactly when that stream fell silent after a delta |
| StreamTask.DeliveredIsSafe | backend/crates/modules/ai/src/service.rs:732-990 | hanging up early keeps all that on a prefix |
| StreamTask.OpensBounded | backend/crates/modules/ai/src/service.rs:741-770 | at most three opens per attempt |
| StreamTask.RelayIs | backend/crates/modules/ai/src/service.rs:764-870 | what is relayed of an opened stream are its events before its first end, one by one; it ends with that end, or silently if there is none |
| StreamTask.TranscriptEndsIn | backend/crates/modules/ai/src/service.rs:732-990 | the last event is the deciding stream's own result or error category; when no provider is left, the category of the last refused open, or unavailability if none was refused |
| StreamTask.BilledIs | backend/crates/modules/ai/src/service.rs:732-990 | the usage row names the receiver's leaving, or the result with its provider and model, or the error with its category under the attempt that gave it; silence leaves no row |
| StreamTask.CallsFromOneStreamIff | backend/crates/modules/ai/src/service.rs:790-830 | the calls sent are those of the last stream alone if and only if no abandoned stream had relayed one |
| StreamTask.CallSentTwice | backend/crates/modules/ai/src/service.rs:770-880 | a concrete world in which one call of one answer is sent twice |
| StreamTask.RunStreamWithOverride | backend/crates/modules/ai/src/service.rs:1094-1321 | the fixed-provider task sends a prefix of its transcript, and writes exactly the usage row that its end or the hang-up calls for |
| StreamTask.OverrideAlwaysCloses | backend/crates/modules/ai/src/service.rs:1094-1321 | the fixed-provider task always ends with exactly one terminal event, and its `Done` holds exactly what was sent |
| StreamTask.OverrideMirrors | backend/crates/modules/ai/src/service.rs:1094-1321 | before its last event the fixed-provider task sends exactly what the vendor sent before its first end |
| StreamTask.OverrideEndsIn | backend/crates/modules/ai/src/service.rs:1094-1321 | its last event is an error of category `c` if and only if the provider is unknown or the stream silent and `c` is unavailability, or the open was refused or the stream ended with category `c`; else it is the vendor's own result |
| StreamTask.OverrideBilledIs | backend/crates/modules/ai/src/service.rs:1094-1321 | its usage row says what that last event says, under its own provider; an unknown provider leaves none |
| Generate.RequestFor | backend/crates/modules/ai/src/engine.rs:302-322 | a request is the conversation plus, if the text so far is not blank, that text and the continue instruction |
| Generate.ReadStream | backend/crates/modules/ai/src/engine.rs:346-421 | a stream is read up to its first error or superseding check, and the accumulators equal what was taken |
| Generate.Generate | backend/crates/modules/ai/src/engine.rs:256-488 | at most three rounds; each request carries exactly the text received before it; a reply's text is the concatenation of every delta of every round; every way of ending is classified exactly |
| Generate.TakenIsFirst | backend/crates/modules/ai/src/engine.rs:346-421 | reading stops just behind the first error or superseding check and nowhere else |
| Generate.CallsAreTheEvents | backend/crates/modules/ai/src/engine.rs:400-415 | when results repeat their stream's calls, the collected calls are every call event of all rounds, once, in order |
| Generate.CallsOfLastStreamIff | backend/crates/modules/ai/src/engine.rs:275-292 | calls are not cleared between attempts: a reply has just the finishing stream's calls if and only if no broken stream had sent one |
| Generate.CallCollectedTwice | backend/crates/modules/ai/src/engine.rs:400-470 | a concrete run, on streams the fixed-provider task sends, whose reply carries twice the call that its last stream made once |
| Generate.ServedReply | backend/crates/modules/ai/src/engine.rs:292-488 | on top of either relaying task the reply is exactly the text and calls sent, with at most nine vendor opens per listed provider |
| Generate.TruncatedReplyIff | backend/crates/modules/ai/src/engine.rs:424-455 | a reply rests on a stream that never said it was done if and only if the failover task served it and the last vendor fell silent after a delta |
| Generate.TruncatedReplyExists | backend/crates/modules/ai/src/engine.rs:424-455 | a concrete run in which the truncated text of a silent vendor becomes the reply |
| Generate.RequestsCarryTheText | backend/crates/modules/ai/src/engine.rs:302-322 | over every run: the first request is the conversation alone, and a later one carries behind it all text received so far as the assistant's, then the instruction to go on, unless that text is blank |
| Generate.EndIsLastTaken | backend/crates/modules/ai/src/engine.rs:346-455 | a round ends with the category of the last event taken, with the check at the last delta taken, or with its stream |
| Generate.EndingIs | backend/crates/modules/ai/src/engine.rs:256-488 | over every run: which of reply, empty-reply error, supersession, vendor error, timeout or refusal it ends in, with exactly the text, calls and flags received |
| Generate.MetaIsOfLastResult | backend/crates/modules/ai/src/engine.rs:400-415 | provider, model, usage and the length flag are those of the last result seen |
| Generate.RefusalEndsAtOnce | backend/crates/modules/ai/src/engine.rs:424-488 | a fixed provider that refuses for good is asked exactly once, and the run fails with that provider's own category |
| ToolChain.Store.EnsureProvisional | backend/crates/modules/ai/src/generation_record.rs:53-73 | inserts the provisional row only if absent |
| ToolChain.Store.InsertRecord | backend/crates/modules/ai/src/generation_record.rs:77-121 | inserts or completes the row |
| ToolChain.Store.InsertRequest | backend/crates/modules/ai/src/engine.rs:631-648 | a request is stored only if its generation row exists |
| ToolChain.HandleCall | backend/crates/modules/ai/src/engine.rs:603-881 | one call is refused, parked or executed with exactly one row under the next number, or the run aborts leaving what the failed step left; its generation row is always there first, so the foreign key never refuses |
| ToolChain.HandleRound | backend/crates/modules/ai/src/engine.rs:599-885 | the calls of a round, up to the maximum, are settled in order and answered, unless one parks or the database fails; the local counter stays equal to the number of rows |
| ToolChain.RunToolChain | backend/crates/modules/ai/src/engine.rs:568-893 | every run is one of: a result, waiting for approval, a database error; each request to the provider carries an answer with the right call id for every settled call, and offers tools only while numbers remain |
| ToolChain.RequestsAreNumbered | backend/crates/modules/ai/src/engine.rs:568-893 | numbers are 0 to k-1 with k at most the maximum, each row is the call asked for, and at most one waits, only as the last |
| ToolChain.SettledIff | backend/crates/modules/ai/src/engine.rs:806-846 | every other request is settled if and only if it was refused or could be marked as started |
| ToolChain.StaysPendingThoughRun | backend/crates/modules/ai/src/engine.rs:806-846 | a whole run in which a tool runs and its result is sent on while its request stays pending |
| ToolChain.CallExecutedTwice | backend/crates/modules/ai/src/engine.rs:568-893 | a whole chain, on the reply of that run, in which the tool runs twice |
| ToolChain.PlaceholderIff | backend/crates/modules/ai/src/engine.rs:571-580 | the placeholder error survives if and only if every round asks for tools and all numbered calls settle |
| ToolChain.NeverThePlaceholder | backend/crates/modules/ai/src/engine.rs:570-580 | if a provider offered no tools asks for none, the chain ends within max+1 rounds with a real result, a waiting request or a database error |
| ToolChain.StatusFollowsValidation | backend/crates/modules/ai/src/engine.rs:603-881 | a request is refused if and only if its call is unknown or does not fit its schema, waits if and only if it needs approval, and a started and finished one has the status of its execution |
| ToolChain.ProviderIsAsked | backend/crates/modules/ai/src/engine.rs:568-893 | behind the conversation each settled call has one tool message, with its id and the text its own validation and execution call for; tools are offered exactly while numbers remain |
| ToolChain.EndsForAReason | backend/crates/modules/ai/src/engine.rs:603-881 | a run waits behind a call that needs approval, and fails in the database only behind a step that failed |
| Closing.Recheck | backend/crates/modules/ai/src/engine.rs:980-1002 | the three looks in order; a look that fails counts as having seen nothing |
| Closing.CloseWaiting | backend/crates/modules/ai/src/engine.rs:898-980 | a waiting run posts the holding message, records it and deletes its event, unless the database stops it |
| Closing.PostReply | backend/crates/modules/ai/src/engine.rs:1040-1157 | a reply that nothing superseded is posted, then recorded |
| Closing.DropReply | backend/crates/modules/ai/src/engine.rs:1158-1225 | a superseded reply is dropped, and recorded with the reason |
| Closing.CloseUnconfigured | backend/crates/modules/ai/src/engine.rs:1226-1256 | without a provider the platform's assistant posts at most one acknowledgement and records nothing |
| Closing.CloseSilently | backend/crates/modules/ai/src/engine.rs:1226-1256 | a tenant's assistant without a provider, or a run that broke internally, only deletes its event |
| Closing.CloseSuperseded | backend/crates/modules/ai/src/engine.rs:1158-1225 | a run superseded while generating posts nothing and records whether it was an escalation or a newer message |
| Closing.CloseFailed | backend/crates/modules/ai/src/engine.rs:1257-1425 | a run that failed at the provider adds the apology, or records that it could not |
| Closing.CloseEnded | backend/crates/modules/ai/src/engine.rs:980-1435 | the recheck comes before anything is posted and no provider is asked after it |
| Closing.RunGeneration | backend/crates/modules/ai/src/engine.rs:498-1435 | a run returns success exactly when it has deleted its event as its last act; messages, record and recheck are exactly those its end calls for |
| Closing.AnswerOnlyAfterCleanRecheck | backend/crates/modules/ai/src/engine.rs:980-1105 | in the trace of any run, as `RunGeneration` leaves it, an answer is the chain's reply, stands directly behind a recheck that saw nothing, with every question to the provider before that recheck, and is the only message |
| Closing.AnswerIff | backend/crates/modules/ai/src/engine.rs:980-1105 | a run posts an answer if and only if its chain gave a reply, the looks in its trace saw nothing, and the insert worked |
| Closing.AnswerIsToTheLastMessage | backend/crates/modules/ai/src/engine.rs:980-1002 | if the look for newer messages worked, an answer in a run's trace means that none existed during any provider round |
| Closing.LateAnswerIff | backend/crates/modules/ai/src/engine.rs:980-1105 | exact condition, for a newer message, an open escalation and another reply alike: an answer lands behind it if and only if the look for it failed although it was there up to the commit, or it appeared between that look and the commit |
| Closing.AnswerBehindAllThree | backend/crates/modules/ai/src/engine.rs:498-1435 | a whole successful run whose answer is posted while a newer message, an escalation and another reply are all there |
| Closing.AnswerThoughLookFailed | backend/crates/modules/ai/src/engine.rs:980-1105 | a whole successful run that answers although a newer message was there from the start, because just the look for it failed |
| Closing.ApologyIgnoresRecheck | backend/crates/modules/ai/src/engine.rs:1257-1325 | a run posts the apology behind looks that saw something if and only if its chain ended in a provider error, something superseded it, and the insert worked |
| Closing.ApologyBehindEscalation | backend/crates/modules/ai/src/engine.rs:498-1435 | a whole run that sees an escalation and apologises all the same |
| Closing.ForgottenRowIff | backend/crates/modules/ai/src/engine.rs:1226-1435 | exact condition: a run that used tools and deleted its event leaves a row that claims to wait for approval, with no request waiting, if and only if it ended unconfigured or on an internal error, or its record could not be written |
| Closing.RowForgotten | backend/crates/modules/ai/src/engine.rs:498-1435 | a whole successful run that leaves such a row |
| Closing.RecordIs | backend/crates/modules/ai/src/engine.rs:898-1435 | over the trace of any run: success is recorded if and only if an answer was posted; a dropped reply is recorded as escalated exactly when the look for escalations saw one, else as superseded, and nothing was posted; the other ends likewise |
| Closing.RunRecords | backend/crates/modules/ai/src/engine.rs:898-1435 | exactly which runs record an outcome |
| Closing.PostIs | backend/crates/modules/ai/src/engine.rs:898-1435 | exactly which runs post a message, of which kind and with which text |
| Closing.FailureIs | backend/crates/modules/ai/src/engine.rs:498-1435 | a run keeps its event exactly when it fails, only the database makes it fail, and a successful one has posted what its end calls for |
| Outbox.Table.Insert | backend/crates/modules/ai/src/agent_responder.rs:17-34 | a new event is added unclaimed under a fresh id |
| Outbox.Table.ClaimOldest | backend/crates/modules/ai/src/agent_responder.rs:17-34 | an idle worker claims the oldest unclaimed event not locked by others, one never claimed before |
| Outbox.Table.CoalesceOlder | backend/crates/modules/ai/src/agent_responder.rs:89-102 | exactly the strictly older unclaimed messages of the same conversation are deleted |
| Outbox.Table.FinishEvent | backend/crates/modules/ai/src/agent_responder.rs:17-46 | the worker's event is deleted, or stays claimed for good after an error or a crash |
| Outbox.Table.Run | backend/crates/modules/ai/src/agent_responder.rs:411-426 | any schedule of arrivals and workers keeps the invariant |
| Outbox.ClaimKeeps | backend/crates/modules/ai/src/agent_responder.rs:17-34 | a claim keeps table and history in agreement |
| Outbox.CoalesceKeeps | backend/crates/modules/ai/src/agent_responder.rs:89-102 | coalescing keeps table and history in agreement |
| Outbox.FinishKeeps | backend/crates/modules/ai/src/agent_responder.rs:70-76 | finishing, failing and crashing keep table and history in agreement |
| Outbox.ClaimedByOne | backend/crates/modules/ai/src/agent_responder.rs:17-34 | over the whole history an event has one claimer at most |
| Outbox.NeverHeldTwice | backend/crates/modules/ai/src/agent_responder.rs:17-34 | no two workers hold the same event |
| Outbox.EveryEventAccounted | backend/crates/modules/ai/src/agent_responder.rs:17-102 | in every reachable state an event is exactly one of: waiting unclaimed, claimed once, or coalesced into a claimed message of its conversation created strictly later |
| Outbox.NothingOlderIsLeft | backend/crates/modules/ai/src/agent_responder.rs:89-102 | after coalescing no older unclaimed message of the conversation is left, and every other row is |
| Outbox.ClaimableIff | backend/crates/modules/ai/src/agent_responder.rs:17-34 | customer messages and tool decisions can be claimed, if unclaimed and not locked, and nothing else |
| PromptStore.Store.LoadForUpdate | backend/crates/modules/ai/src/prompt_store.rs:74-150 | the locking read waits for a lock on an existing row only, and a wrong base is a conflict |
| PromptStore.Store.InsertPrompt | backend/crates/modules/ai/src/prompt_store.rs:119-132 | the first save inserts the prompt row under the unique key, which may already be taken |
| PromptStore.Store.InsertVersion | backend/crates/modules/ai/src/prompt_store.rs:143-198 | equal content is a no-op, otherwise the next version is written |
| PromptStore.Store.Commit | backend/crates/modules/ai/src/prompt_routes.rs:559-604 | writes become visible only at the commit |
| PromptStore.Store.Step | backend/crates/modules/ai/src/prompt_store.rs:107-205 | one statement of one transaction, or the arrival of a request |
| PromptStore.ApplyKeeps | backend/crates/modules/ai/src/prompt_store.rs:107-205 | every statement of every transaction keeps the numbering and adds at most the next version |
| PromptStore.RunKeeps | backend/crates/modules/ai/src/prompt_store.rs:107-205 | over all interleavings the stored versions are exactly 1 to the active one, each created by exactly one transaction |
| PromptStore.VersionsNeverChange | backend/crates/modules/ai/src/prompt_store.rs:166-190 | a stored version never changes or disappears |
| PromptStore.OneCreationPerBase | backend/crates/modules/ai/src/prompt_store.rs:133-141 | two requests with the same base never both report a new version, and one that does reports the next number |
| PromptStore.VersionsAreRequested | backend/crates/modules/ai/src/prompt_store.rs:156-180 | every stored version was created by a request that asked for just its content |
| PromptStore.RestoreTakesEffect | backend/crates/modules/ai/src/prompt_routes.rs:513-604 | a successful restore, new version or no-op, leaves the active content equal to the content of its source |
| PromptStore.LockedSaveHasNoConflict | backend/crates/modules/ai/src/prompt_store.rs:182-191 | under the lock the unique key on versions is never violated |
| PromptStore.LoserOfTheRace | backend/crates/modules/ai/src/prompt_store.rs:117-141 | of the saves that race for the first version, every valid loser without database trouble ends in a database error if and only if it read before the winner's commit, else in a conflict |
| PromptStore.BothLosersExist | backend/crates/modules/ai/src/prompt_store.rs:117-141 | schedules that reach both ends of the race |
| PromptStore.TurnedAwayIff | backend/crates/modules/ai/src/prompt_routes.rs:513-557 | over all schedules a request ends as not found if and only if it restores a number not stored when it arrived, and as invalid if and only if it is not so and its content is not valid |
| PromptStore.RequestEndsWell | backend/crates/modules/ai/src/prompt_routes.rs:513-604 | a valid save or restore that runs alone in any reachable state conflicts on another base, changes nothing if the active content is equal, and else creates the next version, with that content and for a restore its source's number |
| Paging.HexRoundTrip | backend/crates/modules/ai/src/usage.rs:94-100 | hexadecimal text decodes to the bytes it was made from |
| Paging.CursorRoundTrip | backend/crates/modules/ai/src/usage.rs:94-106 | decoding an encoded cursor gives back its pair |
| Paging.UnreadableCursor | backend/crates/modules/ai/src/usage.rs:99-106 | a cursor that cannot be read, whatever the formats are |
| Paging.NewestUnique | backend/crates/modules/ai/src/usage.rs:200-202 | the newest-first order of a filtered table is one definite list |
| Paging.AfterRow | backend/crates/modules/ai/src/usage.rs:191-198 | the rows behind a row's cursor are exactly those that follow it in the list |
| Paging.UsageList | backend/crates/modules/ai/src/usage.rs:163-234 | a page is the next stretch of the list with a cursor exactly when more follows; a cursor that cannot be read counts as none |
| Paging.ListEntries | backend/crates/modules/audit/src/queries.rs:38-105 | the over-fetched row is dropped again: exactly the first rows up to the limit |
| Paging.PageOfRows | backend/crates/modules/audit/src/routes.rs:98-119 | given one row more than the page, the page and its cursor are those of the list |
| Paging.AuditList | backend/crates/modules/audit/src/routes.rs:141-175 | despite the double over-fetch the page is the same stretch of the list; a cursor that cannot be read is refused |
| Paging.PageOfChain | backend/crates/modules/ai/src/usage.rs:216-233 | page k starts where k full pages end |
| Paging.ChainCovers | backend/crates/modules/ai/src/usage.rs:216-233 | the pages so far are a prefix of the list, nothing lost or repeated |
| Paging.PagesAreTheList | backend/crates/modules/ai/src/usage.rs:163-234 | following cursors to the end gives the whole filtered list, newest first, each row once, for every limit of at least one, and the chain ends |
| Paging.PageShows | backend/crates/modules/ai/src/usage.rs:163-234 | a page holds rows of the table that match its filter and lie behind its cursor, newest first, at most as many as asked for, and all of them if there is no next page |
| Paging.UsageRowMatches | backend/crates/modules/ai/src/usage.rs:172-190 | a usage row matches if and only if it is the tenant's and lies in the dates asked for |
| Paging.AuditRowMatches | backend/crates/modules/audit/src/queries.rs:38-90 | an audit row matches if and only if it is in the tenant, dates, categories and by the actor asked for |
| Pipeline.RelayConveys | backend/crates/modules/ai/src/service.rs:764-850 | a vendor stream that conveys an answer is relayed whole: its text, its calls, and its result to end with |
| Pipeline.FixedConveys | backend/crates/modules/ai/src/service.rs:1094-1321 | the fixed-provider task sends all of it, closed by the matching result |
| Pipeline.FailoverConveys | backend/crates/modules/ai/src/service.rs:732-990 | so does the failover task when its first stream conveys the answer, and it opens no other |
| Pipeline.StreamToReply | backend/crates/modules/ai/src/engine.rs:292-455 | a generation whose first stream sends an answer, in time and not superseded, opens no other stream and replies with that answer, or with an error if it has neither text nor calls |
| Pipeline.AnthropicBytesToReply | backend/crates/ai-providers/src/anthropic.rs:392-574 | from bytes to reply: over either task, the reply to a streamed message is the reply to the same message sent whole |
| Pipeline.OpenAiBytesToReply | backend/crates/ai-providers/src/openai.rs:386-566 | the same for OpenAI, under the exact condition on which its stream conveys the answer |
| Pipeline.GeminiBytesToReply | backend/crates/ai-providers/src/gemini.rs:697-789 | the same for Gemini, under the exact condition on which its stream conveys the response |

## Left out

- Sse.ChunkingIrrelevantIffOrderly: compares the raw frames before parsing; different raw frames of some
  disorderly stream may still parse to the same events. A multi-byte character split over two chunks, which the
  code decodes chunk by chunk, is outside the ASCII model.
- Prompt.ValidatePrompt: positions in issues are counted in characters, while the code reports byte offsets; the two
  agree on ASCII.
- Closing.RunGeneration: broadcasts, citations, confidence scores, the outbound copy for one channel and the
  cancelling of waiting requests are not part of the tables.
- PromptStore.Store.Step: version numbers are unbounded; the column is a 32-bit integer. Content limits enforced by
  the table are part of the arbitrary database failures.
- Outbox.Table.Run: a worker is any process that runs one event at a time; the gates between claim and run only decide
  whether the event is deleted.
- Attempts.Validate: a temperature that is not a number passes the comparison in the code; temperatures are real
  numbers here.
- Paging.UsageList: the filters are conditions on rows, not SQL text; LIKE patterns are prefixes.
- HTTP, headers, request bodies, tracing, metrics, delays between retries, and the mapping of transport errors to
  categories.
- JSON, RFC 3339, UUID and UTF-8 text: arbitrary functions with inverse laws where a lemma needs them.
- Tool execution, escalation routing, knowledge retrieval, rate limits, billing and presence: arbitrary results.
- Follow-up generation after a tool decision, assembling the prompt input, listing prompt versions, and saving usage
  rows: they repeat patterns already covered or only map a list.
- Router, permissions, frontend, widget and load tests.
