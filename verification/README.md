# Prism: protocol translation, modelled and proved

Prism sits between agents, model providers and editors. Most of what can go
wrong in it goes wrong where one protocol becomes another, or where two things
happen at once. This project models that part in Dafny and proves what the
code promises about it, for every input, every event sequence and every
interleaving.

- **The Anthropic request** (`AnthropicBlocks`, `MessageMerge`,
  `ToolReferences`, `PrepareMessages`, `PassEffects`, `PreparedContent`,
  `HistoryMapping`, `RequestContent`, `RequestInk`, `RequestWords`,
  `CacheBreakpoints`): a
  history is mapped, merged, demoted, merged again, deduplicated, given tool
  references, shifted, stripped, trimmed and capped. The result is a legal
  request, and it still holds what the history said: every word, every part of
  the user's, the thinking, the results, and the calls that are answered.
- **The Anthropic response** (`ThinkingLayout`, `ResponseStream`): a response
  is split for storage and laid out again for the next request, and the
  streaming reader agrees with the batch reader.
- **The statistics cache** (`StatsCache`): a coalescing cache with generations,
  as a step machine and as the class that takes its steps.
- **The stateful Interactions chain** (`InteractionsChain`): the client sends
  only new items and relies on what the server holds; the server's transcript
  is ghost state.
- **The editor bridge** (`TurnStream`, `ConversationFollower`, `TurnHandoff`,
  `HandoffDecisions`, `TurnTranslation`, `TurnMessages`, `ToolLifecycle`,
  `TurnShown`, `TurnCost`, `LiveOutput`, `SourceLinks`): the line reader, the
  WebSocket queue with its wakeups, the handoff between them by sequence
  number, and the translator with its messages, tool calls, costs, output and
  links.
- **The repair script** (`RestoreReplies`), **error facts** (`ErrorFacts`) and
  **model profiles** (`ModelProfiles`).

Code that changes things step by step is a method or a class here, with its
loops, and its contract ties it to a specification function or to a step of a
machine. The properties are lemmas about those functions and machines.

Conventions. Text is `seq<char>`; the UTF-8 decoder is concatenation. JSON
parsing and stringifying are function parameters or opaque strings. Money is
`real`: the rounding of floating-point sums is not modelled. `Map` and `Set`
of the source are `map` and `set`, and a `Map` whose order matters is a
sequence. Tool call ids are non-empty and distinct within one assistant turn
where the order of thinking depends on them. The clock, the network, the
fetchers and the person at the editor are steps that may happen at any time.

Where the code and what is said about it part:

- A fallback resets `sawContent` in the stream (`src/providers/anthropic.ts:2372`)
  and not in the batch reader (`src/providers/anthropic.ts:1656`), so the two
  place thinking differently after some fallbacks. `StreamMatchesBatch` says
  exactly when, and `FallbackAfterTextParts` is such a response.
- A plan's decision that carries a sub-agent id names another call than the plan
  was opened under (`src/acp/TurnTranslator.ts:584`); `DecisionMeetsItsPlan`
  says exactly when they meet. The schema allows such a decision, but the service
  sends none for a plan it proposed on the same stream: it decides its own plans
  without a sub-agent id, and forwards a sub-agent's decisions but no plan
  proposals (`src/services/harnesses/lifecycle/PlanModeController.ts:119-129`,
  `src/services/orchestrator/SubAgentTelemetryEmitter.ts:390-408`).
- A sub-agent's completion is counted when its call is known, not when it was
  spawned: a call of that id announced by anything will do. `TurnCostIsTheSum`
  follows the code, `CountedExactlyWhenSpawned` says exactly when the two are the
  same, and `CountedWithoutSpawning` is a run on which they are not.

`AppliedIsAccepted` is about profiles of any shape, and for one that accepts
neither the mode asked for nor `auto` it leaves a rejected `auto`. The service
builds no such profile: `BuiltLeavesNothingRejected` has no condition.

## Model

| member | source | states |
|---|---|---|
| `PrepareMessages.PreparedIsLegal` | src/providers/anthropic.ts:1189-1569 | For every history, model and tool-loading mode the prepared messages are legal: empty or starting with the user, no two neighbours of one role, every system message behind a user turn and last or before the assistant, every assistant turn with a call directly followed by a user turn with a result, no result id twice in a turn, no placeholder, no trailing whitespace in an assistant text |
| `PrepareMessages.PassedIsLegal` | src/providers/anthropic.ts:1457-1568 | The same of the passes alone, for any mapped messages without system turns on models that take none: no pass undoes what an earlier one established |
| `PrepareMessages.CappingKeepsLegal` | src/providers/anthropic.ts:1554-1566 | The continuation turn keeps all of it, and on a model that rejects prefill the request never ends with the assistant |
| `PrepareMessages.DemotingPlacesSystems` | src/providers/anthropic.ts:1467-1476 | Demoting the misplaced system turns of alternating messages leaves every remaining one placed, though demotions change the neighbours |
| `PrepareMessages.SystemsEnforcedIsPlaced` | src/providers/anthropic.ts:1465-1480 | Merging again after the demotion keeps alternation and placement together |
| `PrepareMessages.MergingKeepsPlaced` | src/providers/anthropic.ts:1477-1479 | Merging never displaces a placed system turn |
| `PrepareMessages.DeduplicatingIsDistinct` | src/providers/anthropic.ts:1487-1498 | After deduplication no result id is left twice, and every id that had a result still has one |
| `PreparedContent.FirstResultIsKept` | src/providers/anthropic.ts:1490-1496 | Of several results of one call it is the first that is sent, as it was |
| `PrepareMessages.AttachingKeepsResultIds` | src/providers/anthropic.ts:1500-1501 | Attaching tool references afterwards neither adds, drops nor reorders result ids, so it cannot undo deduplication |
| `PrepareMessages.UserPassIsClean` | src/providers/anthropic.ts:1482-1501 | A user turn after both passes holds each result once and no placeholder, and is still a user turn |
| `PrepareMessages.ShiftingStartsWithUser` | src/providers/anthropic.ts:1503-1506 | Dropping a leading assistant turn of alternating, placed messages leaves a user turn first, with placement and clean user turns intact |
| `PrepareMessages.StrippingAnswersCalls` | src/providers/anthropic.ts:1508-1536 | After stripping, every call left is answered by the next turn, roles are the same, and every turn but the assistant's is the same |
| `PrepareMessages.TrimmingKeepsLegal` | src/providers/anthropic.ts:1538-1552 | Trimming cleans every assistant text and disturbs no call and no answer |
| `PrepareMessages.EnforceSystemPlacement` | src/providers/anthropic.ts:1465-1480 | The indexed loop, which demotes in place while it scans, is the demotion of exactly the turns misplaced at first, and a second merge only if there were any |
| `PrepareMessages.DeduplicateResults` | src/providers/anthropic.ts:1487-1498 | The filter with its `seen` set keeps everything but later results of an id already seen |
| `PrepareMessages.StripOrphans` | src/providers/anthropic.ts:1508-1536 | The in-place loop strips exactly the assistant turns whose calls the next turn does not answer |
| `PrepareMessages.TrimAssistantTexts` | src/providers/anthropic.ts:1538-1552 | The in-place loop trims every assistant text block and nothing else |
| `PrepareMessages.PassUserTurns` | src/providers/anthropic.ts:1487-1501 | Deduplication and attachment, turn by turn |
| `HistoryMapping.LayoutIsAPermutation` | src/providers/anthropic.ts:1152-1179 | A laid-out turn holds all its stored thinking, its texts and its calls, each exactly once, wherever the stored anchors point |
| `HistoryMapping.MappedInOrder` | src/providers/anthropic.ts:1201-1456 | The mapped messages are, one each and in order, the messages of the history but those of unknown roles and a system message it starts with: each of its role (a system message stays one only where the model takes them), with exactly its own calls, result, tool changes and attachments, a system message with its own content, no other empty, turn-scoped only as a system message that is; the one in front of this turn's own context is tagged, on its last block that takes a cache marker, and no other |
| `HistoryMapping.SystemPromptIsTheFirst` | src/providers/anthropic.ts:1200-1210 | The system prompt is the content of the first message exactly when that is a system message with something in it |
| `HistoryMapping.CallsAndResultsAreMapped` | src/providers/anthropic.ts:1230-1342 | Over the whole history no call and no result is lost, added, changed or moved by the mapping |
| `HistoryMapping.LeadingRunIsCut` | src/providers/anthropic.ts:1503-1506 | The mapped messages behind the assistant ones they start with are those of the history behind its leading run |
| `RequestWords.EveryWordIsSent` | src/providers/anthropic.ts:1189-1569 | What the user, the assistant and the system said behind the leading assistant messages of the history is in the request: of each message that says something its content, without the space around it, is an unbroken part of a text by the same speaker, all in order and none within another |
| `RequestWords.WordsExist` | src/providers/anthropic.ts:1222-1455 | Every history has such words, so the theorem is about every history |
| `RequestWords.PassesKeepTheWords` | src/providers/anthropic.ts:1457-1568 | Whatever is merged, demoted, deduplicated, shifted, stripped and trimmed, the texts of any mapped messages behind the leading run keep every word they carry |
| `RequestWords.TrimmedIsCore` | src/providers/anthropic.ts:1426-1437 | Trimmed at both ends a content is its words |
| `RequestInk.AssistantSaysTheSame` | src/providers/anthropic.ts:1189-1569 | Space apart, the assistant turns of the request say exactly what the assistant said behind the leading run, attached texts included: every letter, in order, and not one more |
| `RequestInk.PassesKeepInk` | src/providers/anthropic.ts:1457-1568 | The passes keep that of any mapped messages |
| `RequestContent.AllUserPartsAreSent` | src/providers/anthropic.ts:1189-1569 | Whatever the user said or attached, over the whole history, is in the user turns of the request, in order, each part a block of its own |
| `RequestContent.UserWordsAreSent` | src/providers/anthropic.ts:1189-1569 | So is the text of every single user message of the history, wherever it stands and whatever is attached |
| `RequestContent.CallsAreSent` | src/providers/anthropic.ts:1508-1536 | The calls of the history behind its leading run, in order, cut into the turns of the request: a turn holds all of its calls if the next turn answers it, and none otherwise |
| `RequestContent.ThinkingIsSent` | src/providers/anthropic.ts:1145-1151 | The thinking of the request, byte for byte, cut message by message: of each message behind the leading run all that is stored with it, each block once, and nothing else |
| `RequestContent.EveryResultIsSent` | src/providers/anthropic.ts:1482-1501 | The request answers a call id if and only if a tool message of the history does |
| `PassEffects.DemotingTurns` | src/providers/anthropic.ts:1072-1090 | A misplaced system turn becomes a user turn with its blocks but the tool changes, or a space when nothing is left, and is no longer turn-scoped |
| `PassEffects.StrippingTurns` | src/providers/anthropic.ts:1508-1536 | An answered turn is untouched; an unanswered one loses its calls and nothing else, or becomes a space |
| `PassEffects.DeduplicatingTurns` | src/providers/anthropic.ts:1487-1498 | What is left is in order, everything but results is left, and of each id its first result |
| `PassEffects.TrimmingTurns` | src/providers/anthropic.ts:1538-1552 | Each text of an assistant turn becomes itself without the space at its end, or one space; every other block, the tags and every other turn stay |
| `PassEffects.TrimmingIsUnique` | src/providers/anthropic.ts:1543-1549 | There is only one such text |
| `PassEffects.ContinuationIsAdded` | src/providers/anthropic.ts:1554-1566 | One turn saying `Continue.` is added exactly when the request would end with the assistant on a model that rejects prefill, and no other turn ever |
| `PrepareMessages.RunPasses` | src/providers/anthropic.ts:1457-1568 | The sequence of passes is their composition |
| `PrepareMessages.Prepare` | src/providers/anthropic.ts:1189-1569 | The whole preparation returns the extracted system prompt and a legal request |
| `PrepareMessages.MovingMarkSkipsTurnScoped` | src/providers/anthropic.ts:1882-1891 | On prepared messages the moving cache marker never lands on a turn-scoped message |
| `PreparedContent.NothingSaidIsLost` | src/providers/anthropic.ts:1457-1568 | Every block of every user turn, results and placeholders apart, is in the request, in order, whatever is merged, demoted, stripped or shifted |
| `PreparedContent.ThinkingIsReplayed` | src/providers/anthropic.ts:1145-1151 | The thinking of the request is, byte for byte and in order, all the thinking of the mapped history but that of the assistant messages it starts with |
| `PreparedContent.AnsweredCallsAreSent` | src/providers/anthropic.ts:1508-1536 | Up to stripping no call is lost but those of the leading assistant messages; the request then holds all calls of a turn exactly when the turn is answered |
| `PreparedContent.StoredTurnIsReplayed` | src/providers/anthropic.ts:1297-1325 | A canonical response with calls, split, stored and mapped again, is the response block for block |
| `PreparedContent.StoredThoughtIsReplayed` | src/providers/anthropic.ts:1394-1412 | So is a canonical response of thinking and text alone |
| `MessageMerge.MergeConsecutiveSameRole` | src/providers/anthropic.ts:1099-1135 | The reduce that mutates its accumulator computes the merge |
| `MessageMerge.MergedAlternates` | src/providers/anthropic.ts:1099-1135 | No two neighbours of a merged list share a role; it is empty only if the input is |
| `MessageMerge.MergingTwiceChangesNothing` | src/providers/anthropic.ts:1099-1135 | Merging is idempotent |
| `MessageMerge.RunMergesToOne` | src/providers/anthropic.ts:1102-1109 | A run of one role is one turn, turn-scoped exactly if every part is |
| `MessageMerge.PlainRunIsOneText` | src/providers/anthropic.ts:1111-1117 | A run of strings that are not the user's is one string, its parts in order with a blank line between each two |
| `MessageMerge.MergeSplitsAtRoleChange` | src/providers/anthropic.ts:1099-1135 | Where the role changes, what comes before and after is merged on its own |
| `MessageMerge.AppendingKeepsCachedPrefix` | src/providers/anthropic.ts:1092-1098 | The role and block stream of the merged messages, cut after the last user turn, stays a prefix when any messages are appended |
| `MessageMerge.UserBlocksAreKept` | src/providers/anthropic.ts:1092-1098 | Every user block is sent as a block of its own, in order; merging joins none and adds none |
| `ToolReferences.AttachToolReferences` | src/providers/anthropic.ts:839-891 | The splicing loop computes the attachment |
| `ToolReferences.AttachInPlace` | src/providers/anthropic.ts:855-888 | One attachment, spliced into the output in place |
| `ToolReferences.AttachedBlockByBlock` | src/providers/anthropic.ts:839-891 | Attaching one by one with splices gives every other block in order, each result rendered with the names of exactly the attachments that chose it, in order |
| `ToolReferences.NoPlaceholderIsLeft` | src/providers/anthropic.ts:846-854 | No placeholder survives |
| `ToolReferences.ClaimedResultHoldsOnlyReferences` | src/providers/anthropic.ts:866-887 | A result that is given references holds those it had and one for each name given, in order, and nothing else, under its id and with its marks; its old text, or its old parts stringified when they are not all references, is the block right after it |
| `ToolReferences.EveryAttachmentLands` | src/providers/anthropic.ts:855-864 | In a turn with a result every placeholder's names go to one result, that of its call or else the last, and to no other |
| `ToolReferences.EveryPlaceholderIsReferred` | src/providers/anthropic.ts:855-887 | In a turn with a result, all names of every placeholder are referred to, in order, in the result of its call, or in the last result if that call has none |
| `ToolReferences.TargetMoves` | src/providers/anthropic.ts:856-859 | Earlier splices never change which result a later placeholder finds |
| `ThinkingLayout.ExtractResponseContent` | src/providers/anthropic.ts:1632-1729 | The loop with its pending placements splits the response into the text, the replayable thinking after the last fallback with its anchors, and the calls |
| `ThinkingLayout.LayoutAssistantTurn` | src/providers/anthropic.ts:1152-1179 | The queues by tool id compute the layout |
| `ThinkingLayout.LayoutKeepsInterleaving` | src/providers/anthropic.ts:1145-1179 | Splitting any response and laying it out again keeps the exact interleaving of replayable thinking and calls after the last fallback, each once and verbatim |
| `ThinkingLayout.CanonicalTurnComesBack` | src/providers/anthropic.ts:1145-1179 | A canonical response (thinking, at most one text, then thinking and calls) comes back as it was |
| `ThinkingLayout.SplittingKeepsOrder` | src/providers/anthropic.ts:1651-1694 | Whatever was taken before, the anchors the splitter leaves let the layout restore the order |
| `ThinkingLayout.TextIsComplete` | src/providers/anthropic.ts:1696-1697 | The text stored is all text of the response, in order, a declining model's included |
| `ThinkingLayout.PlacePending` | src/providers/anthropic.ts:1687-1694 | Placing the pending blocks one by one anchors every trailing block in front of the call |
| `ThinkingLayout.SortThinking` | src/providers/anthropic.ts:1157-1173 | The three-way sort puts each block where its anchor says, keeping the order within each place |
| `ResponseStream.StreamMatchesBatch` | src/providers/anthropic.ts:2290-2602 | On every well-formed stream, fallbacks included, routing the streamed chunks gives the same text, thinking with placement and calls as extracting the assembled blocks, unless a declining model left content and the answer opens with replayable thinking: exactly then they differ |
| `ResponseStream.StreamMatchesBatchWithoutFallback` | src/providers/anthropic.ts:2290-2602 | In particular they agree on every response without a fallback |
| `ResponseStream.TextAndCallsAlwaysMatch` | src/providers/anthropic.ts:2357-2373 | Text and calls agree on every response, fallbacks included |
| `ResponseStream.FallbackAfterTextParts` | src/providers/anthropic.ts:2372-2373 | A response on which they differ: text, a fallback, then signed thinking |
| `ResponseStream.FinishedStreamIsLive` | src/services/harnesses/lifecycle/StreamChunkRouter.ts:186-226 | The router, which anchors trailing thinking when a call starts and drops a declining model's thinking and calls, makes of a finished stream the live reading of its blocks |
| `ResponseStream.StreamIsLiveFold` | src/services/harnesses/lifecycle/StreamChunkRouter.ts:301-662 | At every event, even in the middle of a block, what was streamed and routed so far is what the blocks assembled so far say |
| `ResponseStream.EarlierContentMattersToThinking` | src/providers/anthropic.ts:1680-1683 | Content before the answer changes the split exactly when the answer opens with replayable thinking |
| `ResponseStream.GenerateTextStream` | src/providers/anthropic.ts:2290-2602 | The event loop over its local variables yields the chunks of the stream |
| `CacheBreakpoints.ApplyCacheBreakpoints` | src/providers/anthropic.ts:1863-1917 | The payload edits compute the marked payload |
| `CacheBreakpoints.MarkLastMessage` | src/providers/anthropic.ts:1890-1916 | The walk back over turn-scoped messages and unmarkable blocks finds the moving mark |
| `CacheBreakpoints.MarkCacheBoundary` | src/providers/anthropic.ts:1920-1932 | The scan marks the first tagged block, unless it is marked already or may not be |
| `CacheBreakpoints.TagCacheBoundary` | src/providers/anthropic.ts:1827-1840 | The last markable block is tagged; a non-blank string becomes a block first |
| `CacheBreakpoints.MarkingErases` | src/providers/anthropic.ts:1842-1917 | Erasing the markers, a string standing for its one block, gives back the original payload |
| `CacheBreakpoints.AtMostFourMarksAreAdded` | src/providers/anthropic.ts:1842-1862 | At most four markers are added |
| `CacheBreakpoints.MarksGoWhereTheyMay` | src/providers/anthropic.ts:1820-1825 | No marker is put on a thinking block or blank text of a message, or on a deferred tool |
| `CacheBreakpoints.ToolsAndSystemAreMarked` | src/providers/anthropic.ts:1864-1880 | The last tool that is not deferred is marked, and a system prompt becomes its one marked block, unless it is blank |
| `CacheBreakpoints.BoundaryMarkIsSet` | src/providers/anthropic.ts:1920-1932 | The first tagged block of the messages, wherever it is, is marked afterwards whenever it may be: it is not thinking, and not text without anything in it |
| `CacheBreakpoints.AcceptingMayBeMarked` | src/providers/anthropic.ts:1820-1825 | A marker may go on anything but thinking and text that is empty or only space |
| `HistoryMapping.TaggingTagsTheLast` | src/providers/anthropic.ts:1827-1840 | Tagging a message tags its last block that takes a marker, whenever there is one, and no other |
| `CacheBreakpoints.MovingMarkIsSet` | src/providers/anthropic.ts:1890-1916 | The moving mark is set whenever the last message that is not turn-scoped has a block for it, and then on the last such block |
| `CacheBreakpoints.MovingMarkIsOutsideTurnScope` | src/providers/anthropic.ts:1882-1891 | The moving mark is never on a turn-scoped message when the first is not one |
| `StatsCache.EveryRunKeepsInv` | src/caches/StatsCache.ts:43-85 | Over every interleaving of calls, completions, failures, clears and clock ticks: no caller gets a value from a fetch started before the last clear preceding its call; a hit's value was delivered by such a fetch less than the time to live before the call, by the clock of those two moments; every entry is what a fetch of its generation delivered, under the time of that delivery; and no two fetches of one key and generation are in flight together |
| `StatsCache.StepKeepsInv` | src/caches/StatsCache.ts:43-108 | Each of the five events keeps that invariant |
| `StatsCache.CallStaysCurrent` | src/caches/StatsCache.ts:43-85 | What a caller was given stays current for its call, whatever happens later |
| `StatsCache.DeliveredValueIsServed` | src/caches/StatsCache.ts:47-76 | What a fetch that no clear overtook delivers is served with its age, and no fetch of its key begins, whatever happens before the next clear, as long as every call of the key is in time; the first that is not fetches anew |
| `StatsCache.CallsCoalesce` | src/caches/StatsCache.ts:57-84 | While such a fetch is in flight, calls of its key join it and start no other |
| `StatsCache.SupersededFetchChangesNothing` | src/caches/StatsCache.ts:60-64 | A fetch from before a clear changes neither cache nor in-flight map when it settles |
| `StatsCache.StatsCacheManager.GetOrFetch` | src/caches/StatsCache.ts:43-85 | The method takes the call step on its fields, and records how the call was answered |
| `StatsCache.StatsCacheManager.OnResolved` | src/caches/StatsCache.ts:67-76 | The fulfilment callback takes the resolve step |
| `StatsCache.StatsCacheManager.OnRejected` | src/caches/StatsCache.ts:77-80 | The rejection callback takes the reject step |
| `StatsCache.StatsCacheManager.Clear` | src/caches/StatsCache.ts:104-108 | The method takes the clear step |
| `StatsCache.StatsCacheManager.Settle` | src/caches/StatsCache.ts:61-65 | Only the promise still registered is removed |
| `InteractionsChain.EveryRunAddsUp` | src/providers/google-interactions.ts:162-254 | Over every run of requests, concurrent, failed and aborted ones on one key included, each continued request's held items and its new steps are exactly the steps of its non-assistant messages |
| `InteractionsChain.StepKeepsInv` | src/providers/google-interactions.ts:162-254 | Every event keeps: for each chain the server holds exactly its recorded non-assistant items, and every planned request adds up |
| `InteractionsChain.PlanAddsUp` | src/providers/google-interactions.ts:92-115 | A plan made from such chains adds up |
| `InteractionsChain.ContinuationAddsUp` | src/providers/google-interactions.ts:103-114 | The items of a recorded prefix and the new steps are the items of the whole conversation |
| `InteractionsChain.PlanIsUnique` | src/providers/google-interactions.ts:92-115 | There is only one correct plan for a chain and messages: a different cut or a refusal would be wrong |
| `InteractionsChain.ServerHoldsWhatWasSaid` | src/providers/google-interactions.ts:62-86 | Over every run, what the server holds for an accepted request says what the messages say, one step each and in order, the model's own apart: a tool's message is the result of its own call under its own name, a user or system message its own text |
| `InteractionsChain.StepSaysItsMessage` | src/providers/google-interactions.ts:62-86 | A message can be sent exactly if it is a tool's that names its call or a user's or the system's with content, and its step then says just that |
| `InteractionsChain.RecordedIsContinued` | src/providers/google-interactions.ts:103-114 | What a run recorded is continued by any request that extends it by the model's turns and new items, with the new items alone |
| `InteractionsChain.Interactions.PlanInteractionRequest` | src/providers/google-interactions.ts:92-115 | The index scan returns that plan, and none when the request cannot continue or be sent |
| `InteractionsChain.Interactions.EndRun` | src/providers/google-interactions.ts:249-254 | A finished run records its messages under its key if the server named the interaction |
| `InteractionsChain.MapInputSteps` | src/providers/google-interactions.ts:62-86 | All messages become steps, or there is none |
| `TurnHandoff.EditorSeesUnbrokenPrefix` | src/acp/PrismAcpAgent.ts:434-461 | At every moment of every run, with cancellation, failures and the pump reading on after settling, what the stream showed followed by what the socket showed is an unbroken prefix of what the log has to show, each event once |
| `TurnHandoff.EveryRunKeepsInv` | src/acp/PrismAcpAgent.ts:426-461 | The invariant behind it: shown and queued events are those of the log up to a point, and the cursor separates what the stream showed from what the socket replays |
| `HandoffDecisions.SettlingDecides` | src/acp/PrismAcpAgent.ts:451-461 | When the prompt settles after any run, the status is asked exactly if the turn was not cancelled, showed no error and its stream did not fail |
| `HandoffDecisions.StatusDecides` | src/acp/PrismAcpAgent.ts:546 | With the status in, the socket is followed exactly if more is to come and the turn was not cancelled, from the greatest sequence number the stream showed; else the prompt is over |
| `HandoffDecisions.CaughtUpIsComplete` | src/acp/PrismAcpAgent.ts:549-563 | Once the socket has read the whole log and the queue is empty, what the stream and the socket showed is all the log has to show, in order, each event once |
| `HandoffDecisions.FollowingCatchesUp` | src/acp/PrismAcpAgent.ts:549-563 | From any state of following, reading on gets there |
| `HandoffDecisions.EveryRunHoldsFlags` | src/acp/PrismAcpAgent.ts:434-449 | Cancelled, ended, failed, over its grace: each flag is set exactly if the step that sets it happened |
| `HandoffDecisions.LogIsEmitted` | src/acp/PrismAcpAgent.ts:426-461 | The log is what the server emitted, in order |
| `HandoffDecisions.EveryRunHoldsErrors` | src/acp/PrismAcpAgent.ts:456-458 | An error is noted exactly if the stream or the socket showed one |
| `HandoffDecisions.EveryRunHoldsCursor` | src/acp/PrismAcpAgent.ts:552 | Until the follow begins the cursor is the greatest sequence number shown, none if none was |
| `TurnHandoff.ReplayStartsWhereStreamEnded` | src/acp/PrismAcpAgent.ts:549-563 | Exactly the events the stream did not show are replayed |
| `TurnHandoff.StepKeepsInv` | src/acp/PrismAcpAgent.ts:426-583 | Every step of stream, socket, server and person keeps it |
| `TurnHandoff.RunningTurn.OnStreamEvent` | src/acp/PrismAcpAgent.ts:434-442 | The pump's loop body takes one pump step |
| `TurnHandoff.RunningTurn.Settle` | src/acp/PrismAcpAgent.ts:451-461 | Winning the race settles the prompt and decides whether to follow |
| `TurnHandoff.RunningTurn.StartFollowing` | src/acp/PrismAcpAgent.ts:538-553 | The status check subscribes after the cursor of that moment, or ends the prompt |
| `TurnHandoff.RunningTurn.FollowOne` | src/acp/PrismAcpAgent.ts:552-563 | The follower's loop body takes one step |
| `ConversationFollower.NoWakeupIsLost` | src/acp/PrismHttpClient.ts:265-314 | In every run: yielded and queued frames are the accepted ones in order, a parked consumer has an empty queue, an open socket and no abort pending |
| `ConversationFollower.EveryFrameIsYielded` | src/acp/PrismHttpClient.ts:276-309 | A closed follower's turns yield every frame that came in with an event, in order, and it returns |
| `ConversationFollower.EveryRunAccountsFor` | src/acp/PrismHttpClient.ts:265-314 | In every run, yielded and queued are exactly the frames that came in with an event, in order; it is closed or aborted exactly if that happened |
| `ConversationFollower.WaitingFrameIsNext` | src/acp/PrismHttpClient.ts:299-302 | The oldest frame waiting is the next one yielded |
| `ConversationFollower.ReturnsOnlyWhenDrained` | src/acp/PrismHttpClient.ts:299-305 | It returns only with every accepted frame yielded and the socket closed or the signal aborted |
| `ConversationFollower.ClosedFollowerDrains` | src/acp/PrismHttpClient.ts:299-309 | Once closed it yields all that is queued and returns, without another wakeup |
| `ConversationFollower.Follower.TakeTurn` | src/acp/PrismHttpClient.ts:299-309 | One turn of the generator loop takes the advance step: a frame, or parked or returned with nothing left |
| `ConversationFollower.Follower.OnMessage` | src/acp/PrismHttpClient.ts:276-290 | The message callback queues an accepted frame and wakes the consumer |
| `ConversationFollower.Follower.OnClosed` | src/acp/PrismHttpClient.ts:291-296 | Closing wakes the consumer |
| `ConversationFollower.Follower.OnAbort` | src/acp/PrismHttpClient.ts:297 | So does aborting |
| `TurnStream.StreamAgentTurn` | src/acp/PrismHttpClient.ts:183-206 | The events are those of parsing each line of the whole text, the last unterminated one included, however the body is cut into chunks (the `data:` lines of section 9.2 of the WHATWG HTML Living Standard) |
| `TurnStream.DrainLines` | src/acp/PrismHttpClient.ts:190-198 | The inner loop takes every complete line and leaves the rest, whatever follows |
| `TurnStream.FirstLineEnds` | src/acp/PrismHttpClient.ts:191-194 | A line feed ends the first line of any text |
| `TurnStream.DataLineYields` | src/acp/PrismHttpClient.ts:209-220 | A line `data:` and a payload, with or without one space between and a carriage return behind, yields exactly the event of that payload, if the protocol knows it, whatever follows |
| `TurnStream.OtherLineYieldsNothing` | src/acp/PrismHttpClient.ts:209-211 | Any other line yields nothing |
| `ToolLifecycle.EditorShowsTheCalls` | src/acp/TurnTranslator.ts:207-330 | After every event sequence an editor that applies the updates shows exactly the translator's calls, with their titles and statuses, and never got an update of an unknown call |
| `ToolLifecycle.EveryUpdateIsAnnounced` | src/acp/TurnTranslator.ts:333-360 | Every tool_call_update names an id announced by an earlier tool_call |
| `ToolLifecycle.EveryStepIsFaithful` | src/acp/TurnTranslator.ts:207-330 | Every single event keeps the editor's calls and the translator's the same |
| `ToolLifecycle.ToolEventShows` | src/acp/TurnTranslator.ts:415-458 | After any events, a tool event with an id makes the editor show that call in the event's status under its newest title, and changes no other call |
| `TurnShown.CallEventShows` | src/acp/TurnTranslator.ts:207-330 | After any events, each event about a call it names (code, tools, sub-agents, approvals, decisions, plans) makes of the calls the editor shows exactly what a plain table of titles and statuses says |
| `TurnShown.OtherEventsShowNothing` | src/acp/TurnTranslator.ts:207-330 | Every other event but `done` and `error` leaves them as they are |
| `TurnShown.FinishedToolCarries` | src/acp/TurnTranslator.ts:439-455 | When a known tool finishes its update carries what it returned, or the end of all it printed since it was announced, or nothing |
| `TurnShown.ReportIsSent` | src/acp/TurnTranslator.ts:395-413 | A report on a known call (a code run, a sub-agent, a decision) is one update of it with what it reports; on an unknown one nothing is sent |
| `TurnShown.OpeningCarries` | src/acp/TurnTranslator.ts:377-393 | Opened code and plans carry their text, an approval its reasons |
| `TurnShown.EveryEventAsks` | src/acp/TurnTranslator.ts:549-623 | Approvals, plans to approve and questions ask the person; a decision withdraws what is open for its call; nothing else does either |
| `TurnShown.NamelessIsOpened` | src/acp/TurnTranslator.ts:333-360 | An event that names no call and finds none open opens one under its tool's name and a count |
| `TurnShown.ClaimsAreRead` | src/acp/TurnTranslator.ts:468-473 | A provider's own call runs while there is neither a result nor a claim, and fails exactly if either says so |
| `TurnShown.CodeIdsDiffer` | src/acp/TurnTranslator.ts:377-380 | No two code runs share an id |
| `TurnMessages.EverythingSaidIsSent` | src/acp/TurnTranslator.ts:207-330 | Over every run, the texts, thoughts, images, plans and modes sent are exactly those of the events that carry them, refusal notes included, in order; empty texts and images are not sent |
| `TurnMessages.EveryTotalIsSent` | src/acp/TurnTranslator.ts:632-645 | Over every run, a usage update is sent for each context budget and each untagged usage report once a budget is known, with the last budget's tokens and window and the session's cost so far, and no other |
| `TurnMessages.OutcomeIsOfTheEvents` | src/acp/TurnTranslator.ts:211-323 | The outcome is that of the events: done, refused and limited if an event said so, the last error, the last conversation named |
| `TurnMessages.CostIsReported` | src/acp/TurnTranslator.ts:625-630 | The cost in it is the cost at the last event that counts one |
| `ToolLifecycle.AfterDone` | src/acp/TurnTranslator.ts:306-320 | A `done` completes every open call but the sub-agents and touches no other, as the editor sees it |
| `ToolLifecycle.AfterError` | src/acp/TurnTranslator.ts:321-323 | An `error` fails every open call |
| `ToolLifecycle.AfterCancelling` | src/acp/TurnTranslator.ts:671-679 | So do the updates of a cancelled turn, each of a known call |
| `ToolLifecycle.DecisionFindsItsApproval` | src/acp/TurnTranslator.ts:549-598 | A decision, however many events later, names the call its approval was opened under and moves it |
| `ToolLifecycle.DecisionMeetsItsPlan` | src/acp/TurnTranslator.ts:600-623 | A plan's decision names the call it was opened under exactly when it carries no sub-agent id |
| `ToolLifecycle.CallsStayKnown` | src/acp/TurnTranslator.ts:333-360 | A call once announced stays known |
| `LiveOutput.ShownOutputIsTheTail` | src/acp/TurnTranslator.ts:475-490 | After every event sequence a call's output is the last 16000 characters of all that was printed for it, by its id or as the newest open call of its tool, since it was last announced, whatever came in between |
| `LiveOutput.PrintIsShown` | src/acp/TurnTranslator.ts:475-490 | The update each print sends holds exactly that |
| `ToolLifecycle.NewestOpenIsLast` | src/acp/TurnTranslator.ts:460-466 | An event without an id goes to the open call of its tool announced last, and to none exactly when none is open |
| `ToolLifecycle.NewestSeqIsMaximum` | src/acp/TurnTranslator.ts:207-210 | The subscription cursor is the greatest sequence number seen, none exactly when none was |
| `TurnCost.TurnCostIsTheSum` | src/acp/TurnTranslator.ts:297-320 | For every event sequence the reported cost is the sum over the turns, cut at `done`, of the last cost reported in each, plus the costs of the sub-agent completions whose call was announced |
| `TurnCost.TurnCostIsNullExactly` | src/acp/TurnTranslator.ts:625-630 | It is null exactly when no turn and no counted sub-agent reported one |
| `TurnCost.CountedExactlyWhenSpawned` | src/acp/TurnTranslator.ts:492-526 | A sub-agent's completion counts exactly when it was spawned before, if and only if it was spawned or nothing but a spawn first announced a call of its id |
| `TurnCost.SubAgentCostsAreOfTheSpawned` | src/acp/TurnTranslator.ts:514-526 | The completions counted over a run are those of spawned sub-agents if and only if none completes, never spawned, under an id something else announced first |
| `TurnCost.CountedWithoutSpawning` | src/acp/TurnTranslator.ts:514-520 | A run on which they differ: an approval of a call named like a sub-agent, then that sub-agent's completion, is counted though nothing was spawned |
| `TurnCost.SpawnedIsCounted` | src/acp/TurnTranslator.ts:492-526 | In particular they agree as long as no tool, approval or plan goes by the sub-agent's id |
| `TurnCost.KnownIsNamed` | src/acp/TurnTranslator.ts:333-360 | An id is known only because some event named it |
| `TurnCost.OperationsBillApart` | src/acp/TurnTranslator.ts:297-304 | Usage tagged with an operation could as well not have been sent: every later state is the same |
| `TurnCost.EveryRunCounts` | src/acp/TurnTranslator.ts:297-320 | The two running totals are, after every event, the ended turns with the sub-agents and the turn that runs |
| `TurnCost.TurnsAreTheEvents` | src/acp/TurnTranslator.ts:306-319 | The turns are the events, cut after every `done` and nowhere else |
| `SourceLinks.EverySourceIsLinkedOnce` | src/acp/TurnTranslator.ts:366-375 | Over every run the links sent are the addresses cited, each once, in the order of first mention |
| `SourceLinks.LinksAreNamed` | src/acp/TurnTranslator.ts:366-375 | A link is called by the title of the first source with its address, or by the address when that has none |
| `TurnTranslation.TurnTranslator.Translate` | src/acp/TurnTranslator.ts:207-330 | The method takes one event's step on the object's fields, and keeps the newest sequence number |
| `TurnTranslation.TurnTranslator.EnsureTool` | src/acp/TurnTranslator.ts:333-360 | An unknown call is announced and kept under its id, an anonymous one under its tool's name and a count |
| `TurnTranslation.TurnTranslator.ToolEvent` | src/acp/TurnTranslator.ts:415-458 | Title, status and content move as the event says, announced first if new |
| `TurnTranslation.TurnTranslator.NewestOpenTool` | src/acp/TurnTranslator.ts:460-466 | The scan finds the newest open call of a tool |
| `TurnTranslation.TurnTranslator.ToolOutput` | src/acp/TurnTranslator.ts:475-490 | Printed output goes to its call, known ones only, cut to its tail |
| `TurnTranslation.TurnTranslator.CompleteSubAgent` | src/acp/TurnTranslator.ts:514-535 | A known sub-agent's report closes its call and counts its cost |
| `TurnTranslation.TurnTranslator.Approve` | src/acp/TurnTranslator.ts:549-581 | An approval's call is announced if new, set pending and asked about |
| `TurnTranslation.TurnTranslator.Decide` | src/acp/TurnTranslator.ts:583-598 | A decision withdraws the question and moves the call if it is known |
| `TurnTranslation.TurnTranslator.ProposePlan` | src/acp/TurnTranslator.ts:600-623 | A plan to approve opens a call under its id |
| `TurnTranslation.TurnTranslator.EndTurn` | src/acp/TurnTranslator.ts:306-320 | `done` closes the running cost and the open calls |
| `TurnTranslation.TurnTranslator.FinishOpenTools` | src/acp/TurnTranslator.ts:657-679 | Every open call is closed with one update, sub-agents spared when the turn completed |
| `TurnTranslation.CloseTools` | src/acp/TurnTranslator.ts:657-669 | The loop over the calls closes exactly the open ones, one update each, in order |
| `TurnTranslation.Ensuring` | src/acp/TurnTranslator.ts:333-360 | The id returned is known, under itself; without an announcement nothing changed |
| `RestoreReplies.RestoringTwiceChangesNothing` | scripts/restore-image-only-replies.ts:215-249 | With the same storage checks a second run inserts nothing |
| `RestoreReplies.RestoringRepairs` | scripts/restore-image-only-replies.ts:215-249 | The original messages stay a subsequence in order, and every inserted reply directly follows a user message of its own, with its prompt, that no assistant message answered |
| `RestoreReplies.EveryReplyIsSettled` | scripts/restore-image-only-replies.ts:215-249 | After the run every reply is stored, gone from storage or without a matching prompt |
| `RestoreReplies.MissingIsPutBack` | scripts/restore-image-only-replies.ts:146-249 | A reply with an image shown nowhere, none gone, goes right behind the newest user message with its prompt that no assistant answered and that was not sent more than five seconds after it; it is an empty assistant message with its images, time, request and thinking. Any other reply is not put back |
| `RestoreReplies.InsertingUnmatches` | scripts/restore-image-only-replies.ts:146-160 | An insertion never gives an unmatched reply a match |
| `RestoreReplies.AnsweredUserIndex` | scripts/restore-image-only-replies.ts:146-160 | The loop returns the newest unanswered matching user message, -1 if there is none |
| `RestoreReplies.RestoreConversation` | scripts/restore-image-only-replies.ts:215-249 | The splicing loop with its growing set of stored images computes the restoration, and counts its insertions |
| `ErrorFacts.StatusIsNearest` | src/protocol/errors.ts:40-76 | On every error graph, cyclic ones included, the status chosen is the first of a nearest visited layer that reports one other than 500; only when no visited layer does, the first status at all |
| `ErrorFacts.VisitedAreNearest` | src/protocol/errors.ts:40-69 | At most six layers are visited, each once, in nondecreasing distance from the thrown error, and no reachable layer nearer than a visited one is left out |
| `ErrorFacts.FactsAreCollected` | src/protocol/errors.ts:50-71 | Of exactly the visited layers: every status from 100 to 599 under either name, every type under either, every code and name, the messages in order, and the first provider that is not this service |
| `ErrorFacts.LinksAreThree` | src/protocol/errors.ts:66 | One step away from a layer are its original error, its cause and its body, and nothing else |
| `ErrorFacts.CollectFacts` | src/protocol/errors.ts:40-71 | The queue loop terminates and collects the facts of exactly those layers, in that order |
| `ModelProfiles.EffortsOfIsVocabulary` | src/providers/ModelProfiles.ts:149-156 | The vocabulary holds exactly the known catalog levels, and none if thinking can be disabled, each once, in order of effort |
| `ModelProfiles.ClampIsNearestAbove` | src/providers/ModelProfiles.ts:271-282 | The clamp returns the least accepted effort at or above the request, else the ceiling |
| `ModelProfiles.ClampIsMonotone` | src/providers/ModelProfiles.ts:271-282 | A stronger request never gets a weaker effort |
| `ModelProfiles.ApplyModelProfile` | src/providers/ModelProfiles.ts:289-323 | The edits of a local copy compute the applied options; unchanged options are returned as they were |
| `ModelProfiles.AppliedIsAccepted` | src/providers/ModelProfiles.ts:289-323 | For any profile at all, built or not: no rejected parameter and no unaccepted effort is left, and the tool choice left is accepted exactly when the mode asked for is, or the profile takes `auto` |
| `ModelProfiles.BuiltLeavesNothingRejected` | src/providers/ModelProfiles.ts:195-323 | For every provider, catalog record and options no rejected parameter, unaccepted effort or known but unaccepted tool-choice mode is left, what was accepted is kept, and applying again changes nothing |
| `ModelProfiles.BuiltTakesOut` | src/providers/ModelProfiles.ts:195-323 | Provider by provider and flag by flag: of the sampling options exactly those the model takes are left, with their values, a tool choice it does not take becomes `auto`, and nothing else changes |
| `ModelProfiles.EffortsAreWithin` | src/providers/ModelProfiles.ts:271-309 | Each effort asked for is kept if it is off, unbounded or accepted, dropped if unknown, else clamped to the least accepted one at or above it |
| `ModelProfiles.UnknownModelKeepsAll` | src/providers/ModelProfiles.ts:199-208 | A model the catalog does not know keeps all sampling options and efforts |
| `ModelProfiles.GetModelProfile` | src/providers/ModelProfiles.ts:195-260 | The profile filled field by field is the built one; its efforts are a vocabulary in order, and it accepts `auto` |
| `ModelProfiles.ApplyingTwiceChangesNothing` | src/providers/ModelProfiles.ts:289-323 | Applying a profile twice is applying it once |

## Left out

- `HistoryMapping.MappedInOrder`: media, documents and files arrive as finished blocks; their conversion, resizing and upload are not modelled. Message content is text: content of other types is not modelled, and a call without id or name, whose id comes from the clock, has an id given to it.
- `ThinkingLayout.ExtractResponseContent`: citations, the merged thinking text of older documents and the name of the fallback model are not returned; they are independent of the split.
- `ResponseStream.GenerateTextStream`: usage, refusals, diagnostics, live thinking text, server-tool output, progress counts, aborts and retries are not in the chunks, and a call whose arguments fail to parse or break their schema is not flagged. The router here keeps every call; the one at `src/services/harnesses/lifecycle/StreamChunkRouter.ts:429` also drops calls whose tool the request does not offer. The stream is well-formed: blocks open and close one at a time.
- `ToolReferences.AttachToolReferences`: the warning for a turn without any result is not modelled; its placeholders are dropped, as in the code.
- `CacheBreakpoints.AtMostFourMarksAreAdded`: the payload's other fields and the length of a marker's life are not modelled.
- `InteractionsChain.EveryRunAddsUp`: what a run streams to its caller is not modelled, only what it sends, what the server accepts and what is recorded. The message list is not changed during a run, and a created interaction holds the items it continues and the steps sent.
- `StatsCache.EveryRunKeepsInv`: the change-stream subscription is any number of clears at any time; building cache keys is left out.
- `TurnHandoff.EditorSeesUnbrokenPrefix`: sequence numbers strictly increase, and a subscription replays exactly the events after its cursor. The server's buffer may have overflowed or never kept an event; `catchUp`, which covers that from stored messages, is left out. Translating an event and sending its updates is one step.
- `TurnHandoff.RunningTurn.Settle`: the stop reason, the recorded cost, the previous stream and the queue of permission requests are left out.
- `TurnHandoff.RunningTurn.FollowOne`: the idle state update and the error event that abort the following are a step of their own, which may come at any time, so that the results hold for those runs and more.
- `ConversationFollower.NoWakeupIsLost`: the socket's handshake and its closing by the consumer are left out; a frame that is not accepted is one without an event.
- `TurnTranslation.TurnTranslator.Translate`: tool kinds, file locations, raw inputs and outputs, fences, truncation and previews of the shown text are left out, and texts composed from counts and durations arrive composed. What a provider's status text means is given with the event.
- `TurnTranslation.TurnTranslator.EnsureTool`: the announcement's kind, raw input and locations, which nothing later depends on.
- `TurnTranslation.TurnTranslator.ToolEvent`: raw input and output, locations, and the truncation of what a call returned.
- `TurnTranslation.TurnTranslator.ToolOutput`: the fence around the shown output.
- `TurnTranslation.TurnTranslator.Approve`: the diff preview, raw input and locations of the request.
- `TurnTranslation.TurnTranslator.FinishOpenTools`: also stands for cancelling, which differs only in its status and its note.
- `ErrorFacts.CollectFacts`: the classification by error text that follows is left out, as is deciding what counts as an object.
- `RestoreReplies.RestoreConversation`: finding the replies, grouping them by conversation and writing back are left out; the storage check is a predicate, and the random message id is not modelled.
- `ModelProfiles.ApplyModelProfile`: caching, cache life, guided tool arguments and budgets of a profile are left out, as is the catalog itself: a record may be any.
- Request building, service tiers, tool schemas, usage merging, routes, storage, authentication, other providers and the boot of the service.
