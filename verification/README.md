# Verified model of the morign backend's core

A Dafny model of the parts of the backend whose correctness is not visible from any one function,
with proofs of what they promise. `dafny verify dfyconfig.toml` checks everything.

| file | what it models |
|---|---|
| `Turns.dfy`, `TurnKeys.dfy` | idempotent chat turns: many requests, processes and crashes racing on rows with a unique key |
| `AgentLoop.dfy`, `ToolExecutor.dfy` | bounded rounds of a model call and a concurrent batch of tool calls, streamed and not |
| `AnthropicMessages.dfy`, `AnthropicStream.dfy`, `OpenAiStream.dfy`, `LineReader.dfy` | the transcript in Anthropic's format, the two stream accumulators, and the reading of lines they share |
| `Truncation.dfy`, `ToolRecords.dfy` | truncated previews of tool results, the stored full texts, and paging them back |
| `Registry.dfy` | the tool registry and its authorization policy |
| `History.dfy` | the bounded conversation history and the wire sequence built from it |
| `CorpusImport.dfy`, `ImportWorker.dfy` | the import of uploaded files by a worker that may die at any point |
| `SplitBytes.dfy`, `Rerank.dfy` | splitting messages between UTF-8 characters; reranking through a cache |
| `Llm.dfy`, `Text.dfy`, `Wrappers.dfy` | messages, events, pairing, strings and result types shared by the rest |

Code that changes state step by step is modelled by classes and methods with loops, each proved
equal to a function of the old state; the properties are then lemmas about those functions. What a
function decides, renders or routes is stated once more on its inputs and outputs alone, over whole
runs where there are runs, so that no definition is its own only witness.
Schedules, faults, crashes, lost replies, model answers and tool outcomes are parameters, so every
statement holds for all of them.

## What the proofs found

Beside each of these stands the exact condition under which the code behaves; where the condition
does not itself name an input that fails, a lemma gives one.

- A retry of a failed turn reads the row and then updates it unconditionally, so two retries can
  both proceed (`Turns.TwoRetriesBothProceed`). The executions of a key form a strict chain exactly
  when the row is still failed or cancelled at the moment it is marked (`Turns.MarkKeepsChainExactly`).
- The text shown to the model is the bounded preview plus the handle notice. It passes the limit
  whenever it carries a handle, at every limit the setting can hold
  (`Truncation.ShownPassesTheLimitExactly`, with an example in `Truncation.ShownMayPassTheLimit`).
- The key of a web request joins lists with commas and parts with NUL characters, so different
  requests can share one (`TurnKeys.DifferentRequestsShareAKey`); `TurnKeys.KeysMeetExactly` and
  `TurnKeys.KeyIdentifiesRequest` say which.
- Listing and invoking compute their policies separately, and a tool name that two channels hold up
  to case gets whichever owner a map iteration meets last. They agree for every order exactly when
  the name is not ambiguous (`Registry.SeparatePoliciesAgreeExactly`).
- Removing a server deletes the lower-cased categories of its tools, and so silences the tools of a
  server whose name differs in case alone (`Registry.RemovingOneSilencesAnother`). For this reason
  adding and removing a server restores the categories only when no new name equals a categorized
  one up to case (`Registry.RemovingUndoesAdding`).
- A server turned down for a taken tool name may leave an empty container for its channel; nobody
  can observe it (`Registry.RejectionIsInvisible`).
- A prompt sent again is recognised as a retry only if the stored exchange fits the history budget;
  otherwise the request goes out without any history and as a new question (`History.ResendingSends`).
- A row whose document is stored but whose vector fails is reported as failed, and as skipped on the
  next run (`CorpusImport.UnvectoredIsSkippedLater`). The successes count the new documents exactly
  when this happens to no first row of a key (`CorpusImport.SuccessesCountNewDocsExactly`).
- A stream that ends without a closing chunk, or without `message_stop`, loses the calls it
  accumulated (`OpenAiStream.CallsLostAtTheEnd`, `AnthropicStream.CallsLostWithoutStop`). A chunk
  without calls behind one with calls is taken for the end of the stream, so a chunk of reasoning
  between two chunks of one call cuts its arguments short (`OpenAiStream.CallsCutShort`). The calls
  of the whole response arrive exactly under the conditions of `OpenAiStream.CallsArriveExactly` and
  `AnthropicStream.CallsArriveExactly`.
- Calls with untrimmed or empty ids come out of the Anthropic translation with results that do not
  match (`AnthropicMessages.PairingSurvivesExactly`).

## Model

| member | source | states |
|---|---|---|
| Turns.EveryRunKeepsInv | pkg/web/api/handle_turn.go:48-110 | in every interleaving of requests, finishes, abandonments, crashes, reclaims, refused calls and lost replies: rows have unique ids, requests that collided or are in flight find their own key's row, and every row carries its creator's digest and owner and exactly what its last write left |
| Turns.AtMostOneGrantBeforeFailure | pkg/web/api/handle_turn.go:48-85 | until some finish records failed or cancelled for a key, its row is marked running at most once; every mark is the creator's own or comes after such a finish |
| Turns.ReplaysAreFaithful | pkg/web/api/handle_turn.go:61-110 | a replayed answer is the answer argument of the error-free finish that last wrote the row, and goes to the creator's digest only |
| Turns.LookupsFollowTheLastWrite | pkg/web/api/handle_turn.go:58-85 | in every run, a request that collided is turned away for another digest or owner than the creator's; else it gets the answer of an error-free finish that wrote last, runs again after a failure or a cancellation before any tool ran, and is turned away in all other cases |
| Turns.OneProcessRunsAreChains | pkg/web/api/handle_turn.go:74-110 | with one process, and no write between a retry's read and its mark, no key has two executors and each execution but the first follows a failed or cancelled finish of the one before |
| Turns.FinalFinishesAreFinal | pkg/web/api/handle_turn.go:88-110 | in those runs, a turn that finished without an error, or was cancelled after a tool ran, is never marked running nor finished again |
| Turns.MarkKeepsChainExactly | pkg/web/api/handle_turn.go:77-81 | a retry's mark keeps the chain if and only if the row is still failed or cancelled |
| Turns.SettledForever | pkg/services/stores/convo_x.go:741-758 | in those runs, restarts included, a succeeded or interrupted row is never rewritten |
| Turns.TwoRetriesBothProceed | pkg/web/api/handle_turn.go:74-81 | a nine-step run, without any crash, after which two requests of one key execute at once |
| Turns.TurnStore.CreateTurn | pkg/services/stores/convo_x.go:717-730 | inserts a queued row only for a fresh, non-empty key; tells a duplicate from other errors; changes nothing else |
| Turns.TurnStore.GetTurnByIdempotencyKey | pkg/services/stores/convo_x.go:733-739 | the key's row, or why there is none |
| Turns.TurnStore.UpdateTurnStatus | pkg/services/stores/convo_x.go:742-744 | status and result of exactly the row with the id, or no change |
| Turns.TurnStore.ReclaimInterruptedTurns | pkg/services/stores/convo_x.go:748-758 | exactly the queued and running rows become interrupted, everything else kept; returns how many |
| Turns.AcquireTurn | pkg/web/api/handle_turn.go:48-85 | undisturbed, it is three steps of the protocol, and its gate is where the request comes to rest |
| Turns.SoloAcquires | pkg/web/api/handle_turn.go:48-85 | what these steps come to when nothing fails, for every row and request: the gate, and the rows afterwards |
| Turns.FinishTurn | pkg/web/api/handle_turn.go:90-110 | succeeded with the answer, failed with the error, interrupted if cancelled after a tool ran, else cancelled: written to exactly this turn's row, and only if there is a turn and the store takes it |
| TurnKeys.KeysMeetExactly | pkg/web/api/handle_turn.go:112-135 | for any two first-time web requests whose hashed texts do not collide: one key if and only if the text before the digest and the digested parts agree |
| TurnKeys.SomeDigestKeepsApart | pkg/web/api/handle_turn.go:112-135 | for any two requests some function to 64 characters has no such collision, so the hypothesis can be met |
| TurnKeys.OnePlainListPerText | pkg/web/api/handle_turn.go:240-245 | every list joins to the text of exactly one list without commas in its elements that is not a single empty string |
| TurnKeys.KeyIdentifiesRequest | pkg/web/api/handle_turn.go:237-251 | without NUL characters and collisions, first-time requests share a key if and only if owner, session and prompt are the same and the skill and MCP lists join alike; so among such plain lists the key identifies the request |
| TurnKeys.DifferentRequestsShareAKey | pkg/web/api/handle_turn.go:157-160 | three pairs of different requests with one key, whatever the hash: no skill and one empty skill, a comma inside a skill, a NUL inside a skill |
| TurnKeys.RetriesStandAlone | pkg/web/api/handle_turn.go:237-251 | for any hash of this length, a retry's key differs from every first-time key and from every retry with another nonce |
| TurnKeys.ReplaysAnswerTheSameQuestion | pkg/web/api/handle_turn.go:61-76 | in every run, an answer replayed to a web request is that of the last error-free finish of a turn created for the same digested parts: without NUL characters, for the same prompt and session and lists that join alike |
| Truncation.DecMonotone | pkg/services/agent/tool_executor.go:333-347 | a larger number never prints shorter, so a notice reserved for the limit is long enough |
| Truncation.SplitFits | pkg/services/agent/tool_executor.go:336-347 | head, notice and tail together stay within the limit, and reach it with the notice reserved; the tail is never empty and the head three times as long, up to rounding |
| Truncation.NoticeTells | pkg/services/agent/tool_executor.go:351-364 | the numbers that can be read off a notice are the lengths of head, tail and text, in this order; the shortest notice has none |
| Truncation.PreviewIsBounded | pkg/services/agent/tool_executor.go:173-188 | for every text and positive limit the preview has at most that many characters; it is the text iff it fits, else a disjoint head and tail, three to one, around the most informative notice that leaves room, from which their true lengths can be read, or a prefix iff no notice leaves room |
| Truncation.ShownPassesTheLimitExactly | pkg/services/agent/tool_executor.go:113-141 | for every positive limit the setting can hold, the shown text passes it if and only if the result is too long, not itself a read-back, and was stored: whenever it carries a handle; and by no more than the handle notice |
| Truncation.ShownMayPassTheLimit | pkg/services/agent/tool_executor.go:134-141 | a concrete text and limit for which the shown text is longer than the limit |
| Truncation.DecReadsBack | pkg/services/agent/tool_executor.go:137-141 | a printed handle stands for exactly the number it was printed from |
| Truncation.NoticeNamesHandle | pkg/services/agent/tool_executor.go:137-141 | whatever text stands before it, and even if that mentions handles, the handle read off a message that ends with the notice is the printed one |
| Truncation.NoticeNamesReader | pkg/services/agent/tool_executor.go:137-141 | the notice names the tool that reads the handle |
| ToolRecords.StepKeeps | pkg/services/stores/convo_record_x.go:68-102 | a spill or an upsert, whether its calls work, fail or lose their reply, changes neither text nor owner nor session of any stored record |
| ToolRecords.ContentNeverChanges | pkg/services/stores/convo_record_x.go:68-102 | nor does any sequence of them |
| ToolRecords.OnlyItsOwnReads | pkg/services/stores/convo_record_x.go:68-157 | after any spills and upserts a stored text is there, and a scope may read it if and only if it has a turn and is of the session and owner that stored it |
| ToolRecords.UpsertsLand | pkg/services/stores/convo_record_x.go:82-116 | an upsert that lands leaves a row of the call with its status and code and every other row alone, and adds one exactly when the call had none |
| ToolRecords.PageIsWhatWasAsked | pkg/services/stores/convo_record_x.go:118-157 | a page begins at the offset moved into the text, and has as many characters as were asked for if so many are left: 4000 if none were asked for, at most 8000 |
| ToolRecords.PagesAreNeverCut | pkg/services/stores/convo_record_x.go:118-157 | every page is shown to the model whole if and only if truncation is off or its limit is at least 8000 |
| ToolRecords.RecordStore.SpillToolResult | pkg/services/stores/convo_record_x.go:68-80 | succeeds iff the context has a turn and a session and the insert is acknowledged; the handle is then new and reads exactly the stored text; a lost reply leaves a row without a handle |
| ToolRecords.RecordStore.UpsertToolRecord | pkg/services/stores/convo_record_x.go:82-102 | refreshes status and code of one row of the call if there is one, else adds one, and changes nothing if the lookup fails or the write does not land; all texts stay |
| ToolRecords.RecordStore.FindToolRecord | pkg/services/stores/convo_record_x.go:105-116 | some row of the turn and call, or none exists, or the lookup failed |
| ToolRecords.RecordStore.ReadToolRecord | pkg/services/stores/convo_record_x.go:118-157 | a page and the total length, for the same session and owner only; a failing lookup is told apart from a refusal |
| ToolRecords.ReadAll | pkg/services/stores/convo_record_x.go:118-177 | paging from 0 by returned lengths up to the total the first page returned, with any limits and with other calls' writes before each page, ends with exactly the full text |
| ToolExecutor.ToolSeqCounter.Next | pkg/services/agent/tool_seq.go:29-31 | reserves the next numbers and returns the first |
| ToolExecutor.ResultsMatchCalls | pkg/services/agent/tool_executor.go:70-95 | whatever each call's outcome, result i belongs to call i and carries its number |
| ToolExecutor.BatchTells | pkg/services/agent/tool_executor.go:55-108 | for every mix of outcomes, the i-th event and the i-th tool message of a batch carry one result of the i-th call, whose status, code, text, termination flag, arguments and number tell how it came out |
| ToolExecutor.BatchTextsAreBounded | pkg/services/agent/tool_executor.go:113-135 | under a limit no tool message is longer than it, error texts included, but for the handle notice of a stored text |
| ToolExecutor.BatchIsPaired | pkg/services/agent/tool_executor.go:60-105 | the messages of a batch are one asking message and exactly its answers |
| ToolExecutor.Dispatch | pkg/services/agent/tool_executor.go:66-84 | for every completion order the slots come out the same, a lost goroutine's empty |
| ToolExecutor.Collect | pkg/services/agent/tool_executor.go:86-107 | one event and one tool message per call, in call order, empty slots filled with an error; terminates iff all results do |
| ToolExecutor.ExecuteToolCalls | pkg/services/agent/tool_executor.go:55-108 | for every schedule and mix of outcomes, the batch of the specification; the counter moves on by the number of calls |
| ToolExecutor.SpillToolResult | pkg/services/agent/tool_executor.go:113-135 | the text carries a handle iff the full text had to be stored and its row was acknowledged, and that handle reads the full text; only a lost reply leaves a row without a handle |
| ToolExecutor.BatchShows | pkg/services/agent/tool_executor.go:86-135 | the message of a call that returned shows the preview of its text, with its handle if it got one |
| ToolExecutor.ShownHandleReadsBack | pkg/services/agent/tool_executor.go:55-135 | end to end: in a batch with any outcomes, faults and completion order, the message of a call that returned is its preview, with a handle iff the text had to be stored and its row was acknowledged; after any operations the handle read off the message reads back the full text page by page |
| AgentLoop.RunIsBounded | pkg/services/agent/agent_loop.go:60-108 | a run makes at most MaxLoop model calls |
| AgentLoop.RunIsPlayedInRounds | pkg/services/agent/agent_loop.go:60-108 | round by round, on the model's replies and the tools' outcomes: each round is played on the transcript that the rounds before it left; it ends the run iff its reply fails, has no calls, or all its calls terminate; and a run that no round ends makes every round it is allowed |
| AgentLoop.RunKeepsPairing | pkg/services/agent/agent_loop.go:60-108 | after any run every asking message is followed at once by exactly its answers, and the transcript only grew |
| AgentLoop.RunNumbersItsCalls | pkg/services/agent/tool_seq.go:9-31 | with one counter the results of a whole run are numbered from its value without gap or repeat |
| AgentLoop.LoopsAgree | pkg/services/agent/agent_loop.go:60-142 | if the plain call is the fold of the stream, both loops build the same transcript and results in the same number of rounds, fail alike, and the plain answer is the end of the streamed one |
| AgentLoop.PlainRunsAlike | pkg/services/agent/agent_loop.go:113-142 | every plain run, whatever the model: at most MaxLoop rounds, a well-paired transcript that only grew, results numbered from the counter without gap or repeat |
| AgentLoop.PlainRunIsPlayedInRounds | pkg/services/agent/agent_loop.go:113-142 | the same for the plain loop, with the answer of the call that ends it |
| AgentLoop.Run | pkg/services/agent/agent_loop.go:60-108 | for every completion order it yields the whole run of the specification iff the consumer accepts every event of it, else the part up to and including the first event that the consumer does not accept |
| AgentLoop.Consume | pkg/services/agent/agent_loop.go:66-81 | passes the stream on in order, and keeps its thinking and the calls of its last done event |
| AgentLoop.RunNonStreaming | pkg/services/agent/agent_loop.go:113-142 | for every completion order the answer, transcript and callback events of the specification |
| AgentLoop.StreamChat | pkg/services/agent/stream.go:18-36 | the answer is the concatenation of all deltas of the run; fails iff the model failed or the rounds ran out |
| AnthropicMessages.ConvertKeepsBlocks | pkg/services/llm/anthropic.go:548-637 | reading the output gives each message's own blocks from its own side, once and in order |
| AnthropicMessages.TranslationTells | pkg/services/llm/anthropic.go:548-657 | the output read front to back is what the transcript says message by message, by its fields: results from the user's side, the words and thoughts of each user from the user's and of each assistant message from the assistant's, and its calls, numbered if they have no id |
| AnthropicMessages.TranslationIsMerged | pkg/services/llm/anthropic.go:560-635 | every assistant message with anything to say becomes exactly one output message; a result starts one only where there is no user message to add it to, and no message is empty |
| AnthropicMessages.SystemTextTells | pkg/services/llm/anthropic.go:555-558 | the system text grows message by message, by the content of the system messages that are not blank |
| AnthropicMessages.PairingSurvivesExactly | pkg/services/llm/anthropic.go:548-657 | a well-paired transcript stays well paired, each use message followed by exactly its results in order, if and only if every call id is trimmed and not empty |
| AnthropicMessages.ToAnthropicMessages | pkg/services/llm/anthropic.go:548-637 | the translation loop, with in-place merging of results, has all three properties, and the system text joins the non-blank system messages |
| AnthropicStream.CallsCollectKeptFragments | pkg/services/llm/anthropic.go:346-440 | with sequential blocks, call i holds the kept fragments of its own block in arrival order |
| AnthropicStream.CallsAreRebuiltExactly | pkg/services/llm/anthropic.go:346-440 | with sequential blocks, every call's arguments are all its fragments if and only if none starts like a stray thinking field |
| AnthropicStream.CallsNameTheirStarts | pkg/services/llm/anthropic.go:351-366 | in every stream there is one call per started block, with its name and its id, or an id made of its index |
| AnthropicStream.HandleStreamEvent | pkg/services/llm/anthropic.go:346-478 | a fragment goes to the last call started, unless it is dropped; usage keeps the input count from the start of the message; the stop reason is normalised |
| LineReader.StopIsUnique | pkg/services/llm/openai.go:246-380 | input and consumer leave one place and one way to stop reading, in either accumulator |
| AnthropicStream.ParseStream | pkg/services/llm/anthropic.go:228-281 | reads up to the first line that ends the stream, by `message_stop`, the end mark or the consumer, or to the end of the input, and pushes exactly the events of the lines read |
| AnthropicStream.StopsTellWhy | pkg/services/llm/anthropic.go:236-281 | the last line read tells why reading stopped: `message_stop`, the end mark, a refused event, else the end of the input; no earlier line is an end mark or a `message_stop` |
| AnthropicStream.LinesArePassedOn | pkg/services/llm/anthropic.go:346-470 | each stream event is passed on by itself: text, thinking, calls so far, usage and stop reason |
| AnthropicStream.DoneReports | pkg/services/llm/anthropic.go:406-453 | the event that ends a response reports the input tokens of the last message start, the output tokens of the last delta and their sum, and a stop reason that names tools exactly when a call had started before the last delta and the turn did not simply end |
| AnthropicStream.ResponseIsStreamed | pkg/services/llm/anthropic.go:228-281 | what is pushed streams exactly the text and thinking read; total = input + output on every event; unless a message starts, all events but perhaps the last were accepted |
| AnthropicStream.ResponseIsClosed | pkg/services/llm/anthropic.go:228-281 | at most one event is done and it is last: at `message_stop` with all accumulated calls, at the end with none; none is done when the consumer stopped or reading failed |
| AnthropicStream.CallsArriveAtTheStop | pkg/services/llm/anthropic.go:236-281 | what a consumer that never stops gets: the calls accumulated at the first `message_stop` before the end mark and the end of the input, or none if there is no such line |
| AnthropicStream.CallsArriveExactly | pkg/services/llm/anthropic.go:236-281 | it gets the calls of the whole response if and only if the response has none, or there is such a `message_stop` and no event behind it starts a call or carries a fragment that would be kept |
| AnthropicStream.CallsLostWithoutStop | pkg/services/llm/anthropic.go:238-245 | a response whose accumulated call never reaches the consumer |
| OpenAiStream.CallsAreRebuilt | pkg/services/llm/openai.go:312-326 | the fragments read can be accumulated iff no index skips, and then each call is the concatenation of its fragments in arrival order under its first id and type |
| OpenAiStream.ParseStream | pkg/services/llm/openai.go:237-380 | reads up to the first line that ends the stream, by a closing chunk, the end mark, an error or the consumer, or to the end of the input, and pushes exactly the events of the lines read |
| OpenAiStream.StopsTellWhy | pkg/services/llm/openai.go:246-380 | the last line read tells why reading stopped: the end mark, broken JSON, a skipped index, a refused event, a closing chunk, else the end of the input; no earlier line is an end mark or broken |
| OpenAiStream.LinesArePassedOn | pkg/services/llm/openai.go:312-360 | each chunk is passed on as one event with its content, reasoning, finish reason and usage and the calls accumulated so far, done exactly when it closes the stream |
| OpenAiStream.ResponseIsStreamed | pkg/services/llm/openai.go:246-380 | what is pushed streams exactly the content and reasoning read; all events but perhaps the last were accepted; at most one is done and it is last: the first chunk that meets the end rule, with all calls, or an empty event at the end |
| OpenAiStream.CallsArriveAtTheClose | pkg/services/llm/openai.go:246-380 | what a consumer that never stops gets of a response without broken lines or skipped indices: the calls accumulated at the first chunk that has a finish reason or comes without calls behind one with calls, or none if there is no such chunk before the end mark |
| OpenAiStream.CallsArriveExactly | pkg/services/llm/openai.go:246-380 | it gets the calls of the whole response if and only if the response has none, or there is such a chunk and no fragment behind the first one opens a call or carries a name or arguments |
| OpenAiStream.CallsCutShort | pkg/services/llm/openai.go:350-362 | a response with a chunk of reasoning between two chunks of one call, without any fault, whose call arrives without the rest of its arguments |
| OpenAiStream.CallsLostAtTheEnd | pkg/services/llm/openai.go:248-256 | a response whose accumulated call never reaches the consumer |
| Registry.ReachableIsValid | pkg/services/tools/registry.go:89-100 | in every registry reachable by registering, adding, removing and dropping: descriptors and invokers name the same tools, categories belong to them, servers' tool lists are listed, unrestricted and disjoint |
| Registry.VisibleIsCallable | pkg/services/tools/registry.go:102-148 | in every reachable registry and under one policy, a name reaches an invoker iff a tool of that name up to case is listed |
| Registry.RefusalsTellWhy | pkg/services/tools/registry.go:104-148 | in every reachable registry a name is not found iff neither the global tools nor any channel's has it up to case; every other name that reaches nothing is denied |
| Registry.ToolsFollowTheirClass | pkg/services/tools/policy.go:103-117 | once a global tool is there it is listed and callable for everyone if public or from a global server, and for keepers only if restricted, over any operations that neither bind its name anew nor remove a server that holds it |
| Registry.NewToolsAreOpen | pkg/services/tools/registry.go:91-100 | a tool registered at run time is public, and each tool of a new global server is open to all under its server's prefix |
| Registry.ChannelToolsStayInTheirChannel | pkg/services/tools/policy.go:112-113 | a tool that one channel alone holds, and no global class settles, is listed and callable in that channel only |
| Registry.AddedChannelToolIsReached | pkg/services/tools/registry.go:122-140 | a call of a channel's new tool from that channel reaches the server's tool of its original name, even where a global tool has the same name |
| Registry.AddedGlobalToolIsReached | pkg/services/tools/registry.go:140-148 | a call of a new global tool, from any channel that has none of its name, likewise |
| Registry.SeparatePoliciesAgreeExactly | pkg/services/tools/policy.go:35-117 | under every two separately computed policies of one context, listing and invoking agree on a name iff it is not ambiguous between channels |
| Registry.CaseDifferingChannelsAreAmbiguous | pkg/services/tools/policy.go:61-71 | two channels that differ in case alone make a reachable registry ambiguous |
| Registry.RemovingUndoesAdding | pkg/services/tools/registry.go:289-414 | a global server added and removed: tools in their order, invokers, servers, channels as before; the whole registry iff no new name had a category up to case |
| Registry.RejectionIsInvisible | pkg/services/tools/registry.go:289-390 | a rejected server changes no context's tools or calls; the state changes only by an empty container, exactly when a channel's first server had a taken tool name |
| Registry.RemovalExactly | pkg/services/tools/registry.go:572-608 | after a removal every name is callable as before, except those that match a removed name up to case, which are callable only where the context's channel owns them |
| Registry.RemovingOneSilencesAnother | pkg/services/tools/registry.go:588-592 | a reachable registry in which removing one server makes another's registered tool uncallable |
| Registry.RestrictedToolsStayRestricted | pkg/services/tools/registry.go:150-189 | over any run in which nothing takes its name up to case, a keeper tool is listed and callable for keepers only |
| Registry.PublicToolsStayPublic | pkg/services/tools/policy.go:105-110 | over any such run a public built-in tool is listed and callable for every context |
| Registry.BuiltInsFollowTheirClass | pkg/services/tools/registry.go:150-189 | both at once, for every class |
| Registry.AddsExactly | pkg/services/tools/registry.go:289-414 | which server is turned down and for which reason, in the order of the checks |
| Registry.ToolRegistry.RegisterInvoker | pkg/services/tools/registry.go:91-100 | a public tool, or nothing for an empty name or a missing invoker |
| Registry.ToolRegistry.RegisterToolsLocked | pkg/services/tools/registry.go:376-414 | registers all tools of the listing, or none if one of their names is reserved or in use |
| Registry.ToolRegistry.AddServer | pkg/services/tools/registry.go:289-373 | the whole new registry and the reason of a rejection, in the order the checks are made |
| Registry.ToolRegistry.RemoveServer | pkg/services/tools/registry.go:572-608 | the whole new registry, or no change for an unknown server |
| Registry.ToolRegistry.RemoveChannelTools | pkg/services/tools/registry.go:417-435 | drops exactly the channel's container |
| Registry.ToolRegistry.PolicyFor | pkg/services/tools/policy.go:35-80 | for every iteration order: each channel tool is owned by a channel that holds it, and all else is determined |
| Registry.ToolRegistry.ToolsFor | pkg/services/tools/registry.go:218-246 | the allowed ones of the global, restricted and own channel's tools, in order |
| Registry.ToolRegistry.Invoke | pkg/services/tools/registry.go:104-148 | empty, unknown and denied names are told apart; a permitted call reaches the channel's own invoker before a global one |
| History.ListIsWindowOfLog | pkg/services/stores/conversation.go:148-186 | the stored list is the last 25 of all items ever added, each run of one prompt collapsed to its latest item |
| History.ListIsBounded | pkg/services/stores/conversation.go:148-186 | it has at most 25 items, never one prompt twice in a row, and ends with the newest item |
| History.Conversation.AddHistory | pkg/services/stores/conversation.go:148-186 | replaces the last item of the same prompt or appends, then drops the oldest beyond 25 |
| History.AddAll | pkg/services/stores/conversation.go:148-186 | any run of additions leaves the window of the collapsed log |
| History.RecentIsLongest | pkg/models/aigc/history.go:107-119 | an end of the items is among the recent ones if and only if it fits the budget |
| History.TokensAreBytesSent | pkg/models/aigc/history.go:27-34 | the budget measures what is sent: the tokens of a history are the UTF-8 bytes of the messages it is rendered to |
| History.BytesAreCounted | pkg/models/aigc/history.go:27-34 | the length counts the bytes of a text's UTF-8 encoding, which is valid |
| History.RecentlyWithTokens | pkg/models/aigc/history.go:107-119 | the backward loop finds the longest end that fits, for every size |
| History.HistoryMessages | pkg/web/api/prompt.go:136-152 | renders every exchange, without the last one when it is to be skipped |
| History.ChatMessages | pkg/web/api/prompt.go:123-132 | system, history, activation and question, in this order |
| History.WireTells | pkg/web/api/prompt.go:119-152 | what is sent is the system message, then exactly the prompts and answers of the history that are not empty, in order and in their own roles, then the activation, and last the prompt |
| History.Conversation.PrepareChatRequest | pkg/web/api/handle_convo.go:84-108 | decides retry and skipping on the budgeted history alone: an unreadable or empty list sends no history, and regenerating is a retry even then |
| History.RequestsSend | pkg/web/api/handle_convo.go:84-108 | for every conversation, prompt and flag: which history is sent, and whether the request counts as a retry |
| History.ResendingSends | pkg/web/api/handle_convo.go:84-108 | a repeated prompt is recognised iff its exchange fits; then the longest earlier history that fits alongside it is sent, else none |
| History.ResendingRepeatsTheFirst | pkg/web/api/handle_convo.go:84-108 | the second send drops only oldest history of the first; it equals the first iff that history fits together with the exchange and did not fill the list |
| History.TurnsExtendTheWire | pkg/web/api/prompt.go:119-132 | when nothing is cut, the next request's sequence is the previous one, the answer and the new question |
| History.WireIsPaired | pkg/web/api/prompt.go:123-152 | what is sent contains no unanswered call |
| CorpusImport.ReportsAddUp | pkg/services/stores/corpus_x.go:175-278 | whatever fails, total = success + failed + skipped = rows read, and the details are the first problems in file order, at most 500 |
| CorpusImport.ProblemsInFileOrder | pkg/services/stores/corpus_x.go:189-278 | each detail names a row of the file by line and title, no row twice, in the order of the file, its reason cut to 200 characters |
| CorpusImport.CountsTellTheRows | pkg/services/stores/corpus_x.go:179-239 | when nothing fails: failed counts the invalid rows, success the first valid rows of new keys, skipped the rest |
| CorpusImport.EveryRowIsReported | pkg/services/stores/corpus_x.go:175-242 | whatever fails, which counter each row moves and which problem it leaves, by the rows and faults up to it |
| CorpusImport.DocsComeFromRows | pkg/services/stores/corpus_x.go:179-239 | whatever fails, every document was there before or holds the title, heading and content of some valid row |
| CorpusImport.RunKeepsUnique | pkg/services/stores/corpus_x.go:207-239 | whatever fails, documents are only added and (title, heading) stays unique |
| CorpusImport.FirstOccurrenceWins | pkg/services/stores/corpus_x.go:179-239 | the documents added are the first valid row of each new (title, heading), in file order |
| CorpusImport.RunImports | pkg/services/stores/corpus_x.go:337-358 | failing vectors do not change which documents an import leaves |
| CorpusImport.ImportingAgain | pkg/services/stores/corpus_x.go:158-242 | importing any stretch of rows again after all rows up to any point gives the documents of one import up to the further end |
| CorpusImport.SuccessesAreNewDocs | pkg/services/stores/corpus_x.go:218-229 | whatever fails, the documents grow by the successes and by the rows that are the first to store their key while their vector fails |
| CorpusImport.SuccessesCountNewDocsExactly | pkg/services/stores/corpus_x.go:218-229 | the successes count the new documents if and only if no row that is the first to store its key loses its vector |
| CorpusImport.UnvectoredIsSkippedLater | pkg/services/stores/corpus_x.go:207-229 | a new row whose vector fails is reported as failed with its document stored, and the next attempt skips it as a duplicate |
| ImportWorker.CorpusStore.ClaimImportTask | pkg/services/stores/corpus_x.go:136-155 | claims the earliest pending task, and none only if none is pending |
| ImportWorker.CorpusStore.ProcessImportTask | pkg/services/stores/corpus_x.go:158-242 | for every fault and every point of death: the documents of the rows it got through, and the finished record only after all of them |
| ImportWorker.CorpusStore.RecoverImportTasks | pkg/services/stores/corpus_x.go:245-257 | exactly the tasks under way become pending |
| ImportWorker.RunWorker | pkg/services/stores/import_worker.go:31-57 | every life of the worker, however it ends, leaves the documents of an uninterrupted import up to some row, and an undisturbed life finishes every task |
| ImportWorker.Serve | pkg/services/stores/import_worker.go:31-57 | any uploads and process lives, dying anywhere and losing final writes, and then one undisturbed life: exactly the documents of one uninterrupted import of all rows, and every task finished and accounted for, succeeded iff its file was empty or was read to its end behind a proper head |
| SplitBytes.SplitByBytes | pkg/services/channels/wecom/websocket.go:570-590 | the two nested loops end and compute the split |
| SplitBytes.SplitMakesUpTheText | pkg/services/channels/feishu/websocket.go:451-471 | for any bytes the pieces concatenate to the text, none is too long, and none is empty unless the text is |
| SplitBytes.SplitKeepsCharactersExactly | pkg/services/channels/wecom/websocket.go:570-590 | every piece of a valid text is valid UTF-8 if and only if the text is short or no character is longer than the limit |
| SplitBytes.SafeLimits | pkg/services/channels/wecom/websocket.go:580-585 | a limit never cuts a character of any valid text if and only if it is at least 4 |
| SplitBytes.SplitIsFull | pkg/services/channels/wecom/websocket.go:570-590 | no piece has room for the first character of the next |
| SplitBytes.SplitIsShort | pkg/services/channels/wecom/websocket.go:580-585 | n bytes of valid text need at most n / (limit - 3) pieces, rounded up |
| Rerank.RerankRebuildFromCache | pkg/services/stores/capability_x.go:327-338 | for each id in order its first candidate, if there is one |
| Rerank.SelectingFollowsThePicks | pkg/services/stores/capability_x.go:255-277 | picks are taken in order, each giving the candidate of its number, or nothing if there is none |
| Rerank.RebuildingIsFaithfulExactly | pkg/services/stores/capability_x.go:261-277 | rebuilding gives back every result, repeats and skipped picks included, if and only if equal ids mean equal candidates |
| Rerank.RebuildingRestricts | pkg/services/stores/capability_x.go:327-338 | over other candidates: the cached order, restricted to the ids still present |
| Rerank.SecondCallAgrees | pkg/services/stores/capability_x.go:199-212 | after a result that is not empty the next call gives the same result whatever the model says, and over other candidates what is still present, or what the model says if nothing is |
| Rerank.CapabilityStore.RerankCapabilities | pkg/services/stores/capability_x.go:199-281 | cache hit, failure, empty and selected results, and the new cache |

## Left out

- Turns.AtMostOneGrantBeforeFailure: no liveness is claimed, because some requests return without finishing their turn and their row stays running until a reclaim.
- Turns.OneProcessRunsAreChains: the hypothesis that nobody rewrites the row between a retry's read and its mark is needed; without it the statement is false, as `Turns.TwoRetriesBothProceed` shows.
- Turns.TurnStore.UpdateTurnStatus: status and result are one row write; the generated update first reads the row, and other columns are not modelled.
- TurnKeys.KeyIdentifiesRequest: SHA-256 is any function to 64 characters that does not collide on the texts of the two requests, and the owner is already a string. Requests with NUL characters are covered by `TurnKeys.KeysMeetExactly` only.
- Turns: a channel's own key derivation and the session and source columns.
- AgentLoop.Run: arguments are values; sharing of the backing array between message slices is not modelled. MaxLoop's default of 5 is set before the loop.
- AgentLoop.StreamChat: callbacks that are not set.
- ToolExecutor.CallTool: the wording of error texts, the JSON parser and hooks that rewrite arguments or results are parameters; durations are left out.
- Truncation.DecReadsBack: handles are printed as decimal numbers, which stand in for the text form of the original's object ids.
- Truncation.PreviewIsBounded: texts are sequences of characters; bytes that are not valid UTF-8 are not modelled.
- ToolRecords.ReadAll: how the tool's result map turns into text, and the JSON fallback for an empty page. Its page lookups work; a failing one is an error of `ReadToolRecord` that the caller may repeat.
- ToolRecords: sequence number, arguments and duration columns; the event adapter's call of the upsert is the `UpsertToolRecord` step.
- AnthropicMessages.ToAnthropicMessages: rendering of call arguments as JSON is a parameter.
- AnthropicStream.ParseStream: the answer of the consumer to the event of `message_start` is ignored, as in the code, so nothing is claimed about pushes after that stop. An unfinished last line is not modelled.
- OpenAiStream.ParseStream: parsing of lines into chunks, logging, and an unfinished last line.
- Registry: locking and lock order; each public operation is one step, connecting to a server and listing its tools is a parameter, and closing connections is left out. Channel containers are values of a map, not shared objects. Letter case is that of ASCII names: beyond ASCII the two case functions of the original differ for a few letters. Custom descriptions and input schemas do not affect names and are left out.
- Registry.ToolRegistry.constructor: which built-in tools exist is a parameter, with any non-empty names.
- History: Redis errors, expiry and JSON; adding an item is one step. Concurrent additions to one conversation are not modelled.
- ImportWorker.RunWorker: one process at a time, recovery itself succeeds, and the endless loop is cut after any number of ticks; no other writer touches the documents. A claim that fails is a tick without one.
- ImportWorker.Serve: rows whose lookup or insert fails are excluded by hypothesis, since such a row is reported and not tried again.
- CorpusImport: the CSV reader; a file is its head, its rows and whether it breaks off.
- SplitBytes.SplitByBytes: a positive limit is required for texts longer than it, because with a limit of 0 the loop appends empty pieces forever; both callers pass constants.
- Rerank.CapabilityStore.RerankCapabilities: cache expiry, a missing cache, and collisions of the query hash; parsing the model's reply gives its picks or an error.
- HTTP handlers, event writing, channel connections, OAuth, settings, logging, generated stores, embeddings, vector search, memory scoring, skills and prompt texts: plumbing or external.
