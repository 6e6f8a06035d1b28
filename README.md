# gekkochat.io core, modelled in Dafny

gekkochat.io is a chat front end and API for questions about listed
companies. A question is classified by a language model as being about an
earnings call, a financial metric or something else. The handler then
extracts the companies and their stock symbols, fetches earnings-call
transcripts or financial statements, summarizes them with the model, and
optionally rewrites the answer in the voice of Gordon Gekko. In the browser,
a chat context keeps the conversation, saves it to the user's document once
it has four messages, and lists the saved chats without duplicates.

This project models the deterministic logic under that glue, one Dafny module
per source file:

- `text.dfy` (`Text`): the JavaScript string operations the core relies on:
  `trim` with its whitespace set, ASCII `toLowerCase`, `includes`,
  `Array.prototype.join` and `filter` on truthiness.
- `split_into_chunks.dfy` (`SplitIntoChunks`): `splitIntoChunks`. The
  regular-expression split follows the ECMAScript split algorithm, and the
  greedy packing loop is an imperative method proved against a specification
  function.
- `openai.dfy` (`OpenAi`): the checks the model helpers apply to a reply:
  the classifier's allow-list, the metric normaliser, the array-or-empty
  company fallback and the default call time. It also covers
  `summarizeTranscriptInChunks`, meaning the 6000-character slicing loop,
  the sentinel filter, the fixed fallback and the `"\n"` join.
- `chat_context.dfy` (`ChatContext`): the `ChatProvider` state as a class
  `ChatSession` with fields `messages`, `savedChats`, `chatId` and
  `isGekko`. Each method is tied to a transition function on a `Session`
  value, and lemmas prove what a conversation of four or more messages
  leaves behind.
- `saved_chats_modal.dfy` (`SavedChatsModal`): the `uniqueChats` filter,
  proved equal to a reference "first occurrence per key" walk, and the
  empty-list placeholder.
- `chatbot_route.dfy` (`ChatbotRoute`): the `POST` handler. `Answer` is the
  decision table, and the method `Post` with its loops is proved equal to
  it. Every language-model, data-provider and rewrite call is a field of the
  `Oracles` value and returns an `Outcome`: its value, or the message of the
  exception it throws. Awaiting steps one after another is `Sequence`: the
  first exception ends the loop. The outer `catch` turns an escaped exception
  into an `error` body.

## Model

| member | source | states |
|---|---|---|
| Text.Trim | src/lib/openai.ts:59 | the result is a slice of the input that neither starts nor ends with white space, and everything cut off before and after it is white space |
| Text.TrimEmptyIff | src/utils/splitIntoChunks.ts:18 | a string trims to empty exactly when all of its characters are white space |
| Text.TrimIdempotent | src/utils/splitIntoChunks.ts:18-19 | trimming a trimmed string changes nothing |
| Text.Lower | src/lib/openai.ts:100 | lower-casing keeps the length and maps each character on its own |
| Text.Contains | src/lib/openai.ts:251 | `includes` holds exactly when the needle occurs at some position |
| Text.Join | src/lib/openai.ts:262 | joining one element gives that element; the join is empty exactly when there is nothing to join, a single empty element, or only empty elements and an empty separator |
| Text.JoinSnoc | src/app/api/chatbot/route.ts:119-126 | appending an element to a non-empty list appends the separator and that element to the join |
| Text.Truthy | src/lib/openai.ts:256 | the filter keeps no empty string and never adds any |
| Text.TruthyAppend | src/lib/openai.ts:256 | the filter keeps order: filtering a concatenation concatenates the filtered parts |
| Text.TruthyMembers | src/lib/openai.ts:256 | a string survives exactly when it is non-empty and was in the list |
| SplitIntoChunks.SplitFrom | src/utils/splitIntoChunks.ts:6 | a scan from any position yields at least one piece |
| SplitIntoChunks.SplitSentences | src/utils/splitIntoChunks.ts:6 | the split always yields at least one piece, as `String.prototype.split` does |
| SplitIntoChunks.SplitRoundTrip | src/utils/splitIntoChunks.ts:6 | putting the pieces back together, with the consumed newlines restored, gives the text back |
| SplitIntoChunks.PiecesShape | src/utils/splitIntoChunks.ts:6 | a '.' can only end a piece, and a newline can only start one |
| SplitIntoChunks.PiecesAfterPeriod | src/utils/splitIntoChunks.ts:6 | the first piece never starts with a newline; a later piece that does follows a piece ending in '.'; the piece after a '.'-ended piece is never empty |
| SplitIntoChunks.PackStep | src/utils/splitIntoChunks.ts:10-14 | one iteration closes at most the current run, and the piece always ends the new current run |
| SplitIntoChunks.Pack | src/utils/splitIntoChunks.ts:8-15 | the loop closes at most one run per piece, and the last piece ends the current run |
| SplitIntoChunks.Emitted | src/utils/splitIntoChunks.ts:11-19 | the chunks begin with the trimmed closed runs, one each, and add at most the last chunk |
| SplitIntoChunks.ChunksOf | src/utils/splitIntoChunks.ts:1-23 | there is at most one chunk more than there are pieces |
| SplitIntoChunks.PackCovers | src/utils/splitIntoChunks.ts:8-15 | no piece is split, dropped or reordered: the runs laid end to end are the pieces |
| SplitIntoChunks.PackGreedy | src/utils/splitIntoChunks.ts:9-14 | a new chunk starts exactly when the next piece would push the chunk past the limit (strict `>`); every other piece fitted |
| SplitIntoChunks.RunsBounded | src/utils/splitIntoChunks.ts:10-14 | a greedy run of two or more pieces stays within the limit |
| SplitIntoChunks.ChunksBounded | src/utils/splitIntoChunks.ts:8-20 | a chunk exceeds the limit only when it comes from a single piece |
| SplitIntoChunks.ChunksTrimmed | src/utils/splitIntoChunks.ts:11-19 | every chunk equals its own trim |
| SplitIntoChunks.ChunksAreRuns | src/utils/splitIntoChunks.ts:8-20 | chunk i is the trimmed concatenation of run i; only a white-space tail run is dropped; the runs concatenate to the concatenated pieces |
| SplitIntoChunks.ConcatFlatten | src/utils/splitIntoChunks.ts:14 | concatenating the pieces equals concatenating the run texts |
| SplitIntoChunks.EmptyTextNoChunks | src/utils/splitIntoChunks.ts:17-22 | for a non-negative limit, the empty text yields no chunk |
| SplitIntoChunks.FirstPieceTooLong | src/utils/splitIntoChunks.ts:10-12 | when the first piece alone exceeds the limit, the first chunk is `""` |
| SplitIntoChunks.SplitIntoChunks | src/utils/splitIntoChunks.ts:1-23 | the loop returns exactly `ChunksOf(text, maxChunkSize)`, the specification the lemmas above are about |
| SplitIntoChunks.EmptyChunksEmitted | src/utils/splitIntoChunks.ts:10-12 | as written, `"ab\n\ncd"` with limit 1 gives `["", "ab", "", "cd"]`: empty chunks appear in the middle of the list too |
| SplitIntoChunks.ExampleSplit | src/utils/splitIntoChunks.ts:6 | `"ab\n\ncd"` splits into `["ab", "", "cd"]` |
| SplitIntoChunks.ExamplePack | src/utils/splitIntoChunks.ts:8-15 | the packing of those pieces with limit 1 closes an empty run, then `["ab"]`, then `[""]` |
| SplitIntoChunks.PackOfThree | src/utils/splitIntoChunks.ts:8-15 | three pieces, none of which fits with the one before, pack into one run each, behind an empty first run |
| SplitIntoChunks.EmittedOfSingletons | src/utils/splitIntoChunks.ts:11-19 | the chunks of such a packing are `""`, the first piece, `""` and the last piece |
| SplitIntoChunks.SplitIntoNonEmptyChunks | src/utils/splitIntoChunks.ts:1-23 | the corrected loop returns the chunks of `ChunksOf` without the empty ones, in order, each non-empty and trimmed |
| SplitIntoChunks.NonEmptyEmitted | src/utils/splitIntoChunks.ts:10-20 | the corrected chunks are the non-empty pushed chunks, then the last chunk when it does not trim to empty |
| SplitIntoChunks.NonEmptyChunksTrimmed | src/utils/splitIntoChunks.ts:11-19 | every corrected chunk is non-empty and trimmed |
| OpenAi.Classify | src/lib/openai.ts:58-64 | a success is the label equal to the trimmed reply; a failure means no label matches and carries `Unexpected classification result: ` followed by the untrimmed reply |
| OpenAi.ClassifyExactly | src/lib/openai.ts:58-61 | the classification is a given label exactly when the trimmed reply is that label |
| OpenAi.ClassifyLabel | src/lib/openai.ts:16-18 | each of the three labels classifies as itself |
| OpenAi.NormalizeMetric | src/lib/openai.ts:100 | the metric is the trimmed reply with each character lower-cased, position by position: no surrounding white space and no upper-case ASCII letter |
| OpenAi.NormalizeMetricIdempotent | src/lib/openai.ts:100 | normalising a metric again changes nothing |
| OpenAi.ExtractCompanies | src/lib/openai.ts:138-157 | the parsed trimmed reply when it is an array; the empty list when it is not an array or does not parse |
| OpenAi.ExtractEarningsCallTime | src/lib/openai.ts:203-211 | the parsed reply, or no year, no quarter and `multiple` false when it does not parse |
| OpenAi.Slices | src/lib/openai.ts:221-231 | there are no slices exactly when the transcript is empty |
| OpenAi.SlicesShape | src/lib/openai.ts:221-231 | the slices concatenate to the transcript; there are ceil(length / 6000) of them, none empty, none longer than 6000, all but the last exactly 6000 |
| OpenAi.SliceTranscript | src/lib/openai.ts:228-231 | the slicing loop returns exactly `Slices(transcript)` |
| OpenAi.ChunkReplies | src/lib/openai.ts:233-247 | there is one reply per slice, and reply i is the model's answer for slice i with index i |
| OpenAi.ChunkSummary | src/lib/openai.ts:249-251 | a chunk summary is dropped exactly when its trimmed reply contains the sentinel; otherwise it is the trimmed reply |
| OpenAi.Summaries | src/lib/openai.ts:233-253 | one summary per reply, summary i being that of reply i |
| OpenAi.SummaryTexts | src/lib/openai.ts:256 | one string per summary: the summary, or `""` for `null` |
| OpenAi.KeptSummaries | src/lib/openai.ts:256 | the filter keeps no empty summary and never adds any |
| OpenAi.KeptSummariesMembers | src/lib/openai.ts:256 | a string survives exactly when it is non-empty and was one of the summaries |
| OpenAi.KeptSummariesAppend | src/lib/openai.ts:256 | the filter keeps chunk order: filtering a concatenation concatenates the filtered parts |
| OpenAi.CombineSummaries | src/lib/openai.ts:255-274 | with no surviving summary the result is the fixed message; otherwise it is the trimmed answer of the final pass, given the survivors in chunk order joined by "\n" |
| OpenAi.NoSurvivorNoFinalPass | src/lib/openai.ts:256-259 | when every summary is dropped or empty, the result is the fixed message and the final pass is not consulted |
| OpenAi.EmptyTranscriptSummary | src/lib/openai.ts:228-259 | an empty transcript gives the fixed message |
| OpenAi.SummarizeTranscriptInChunks | src/lib/openai.ts:217-275 | the method returns `CombineSummaries` of the per-slice replies |
| ChatContext.WithNewChat | src/context/ChatContext.tsx:84-99 | the list is unchanged exactly when some chat already has identical messages; otherwise the new chat is appended at the end; afterwards such a chat exists |
| ChatContext.WithNewChatKeepsDistinct | src/context/ChatContext.tsx:84-97 | saving keeps the saved message lists pairwise distinct |
| ChatContext.WithMessages | src/context/ChatContext.tsx:118-120 | only chats whose id matches get the new messages; ids, names, the other chats and the length are unchanged |
| ChatContext.WithMessagesOverwrites | src/context/ChatContext.tsx:118-123 | the later of two updates of the same chat wins |
| ChatContext.WithMessagesAbsent | src/context/ChatContext.tsx:118-120 | updating an id that no saved chat has changes nothing |
| ChatContext.WithLastContent | src/context/ChatContext.tsx:165-169 | only a trailing assistant message changes, and only in its content; the length never changes |
| ChatContext.LastContentWins | src/context/ChatContext.tsx:163-169 | the later of two last-message updates wins |
| ChatContext.PersistedChats | src/context/ChatContext.tsx:106-128 | without an active chat or a user document nothing changes; otherwise the active chat gets the messages |
| ChatContext.AfterAddMessage | src/context/ChatContext.tsx:130-161 | one message is appended; a chat id appears exactly when a fresh conversation reaches four messages; an active chat is persisted from four messages on; the saved list changes only when the user can save, and then only for an active chat at four or more messages or a fresh conversation at exactly four |
| ChatContext.AfterMessages | src/context/ChatContext.tsx:130-161 | a series of `addMessage` calls adds one message each, keeps the style flag, and saves nothing without a user document |
| ChatContext.MessagesAppended | src/context/ChatContext.tsx:137-138 | a sequence of `addMessage` calls appends exactly those messages in order |
| ChatContext.ConversationUnsaved | src/context/ChatContext.tsx:145-147 | a fresh conversation of fewer than four messages saves nothing and gets no chat id |
| ChatContext.ConversationCreated | src/context/ChatContext.tsx:146-156 | the fourth message creates the chat named after the first message, holding the four messages, with the fresh id as `chatId` |
| ChatContext.CreatedChatTracks | src/context/ChatContext.tsx:94-99 | a newly saved chat with a fresh id holds its messages |
| ChatContext.ActiveMessageTracks | src/context/ChatContext.tsx:140-144 | each later message keeps the saved chat holding the whole conversation |
| ChatContext.ConversationSaved | src/context/ChatContext.tsx:137-159 | after four or more messages from a fresh start, `chatId` is the id minted at the fourth message; every saved chat with that id holds the whole conversation; such a chat exists when the user can save and the first four messages repeat no saved chat |
| ChatContext.DuplicateConversationNotSaved | src/context/ChatContext.tsx:84-99 | when the first four messages repeat a saved chat, `chatId` is still the fresh id, the saved list never changes and no saved chat has that id, so the rest of the conversation is not written |
| ChatContext.ChatSession.constructor | src/context/ChatContext.tsx:47-71 | the session starts with no messages, no chat id, `isGekko` true and the user's saved chats (none when signed out or without a document) |
| ChatContext.ChatSession.SaveNewChat | src/context/ChatContext.tsx:73-104 | the saved list becomes `WithNewChat` of the old one when a user document exists, else stays |
| ChatContext.ChatSession.UpdateChatMessages | src/context/ChatContext.tsx:106-128 | the saved list becomes `PersistedChats` of the old state |
| ChatContext.ChatSession.AddMessage | src/context/ChatContext.tsx:130-161 | the new state is `AfterAddMessage` of the old state and the new message |
| ChatContext.ChatSession.UpdateLastMessage | src/context/ChatContext.tsx:163-182 | the messages become `WithLastContent`; an active chat is persisted; chat id and style are unchanged |
| ChatContext.ChatSession.ClearMessages | src/context/ChatContext.tsx:184-187 | no messages and no active chat remain |
| ChatContext.ChatSession.LoadChat | src/context/ChatContext.tsx:219-222 | the chat's id becomes active and its messages are shown |
| ChatContext.ChatSession.ToggleGekkoStyle | src/context/ChatContext.tsx:197-199 | the style flag is negated |
| SavedChatsModal.FindIndex | src/app/components/SavedChatsModal.tsx:18-21 | the index found has the key and no earlier chat has it; -1 means no chat has it |
| SavedChatsModal.FindIndexOfMember | src/app/components/SavedChatsModal.tsx:17-21 | a chat's key is found at or before the chat, at a chat that is its own first occurrence |
| SavedChatsModal.UniqueChats | src/app/components/SavedChatsModal.tsx:15-22 | the filter never adds a chat |
| SavedChatsModal.FirstIndexIff | src/app/components/SavedChatsModal.tsx:15-22 | a chat passes the filter exactly when no earlier chat has its name and message count |
| SavedChatsModal.KeptFromIsFirstOccurrences | src/app/components/SavedChatsModal.tsx:15-22 | the filter over a suffix equals the reference walk started with the keys of the prefix |
| SavedChatsModal.UniqueChatsIsFirstOccurrences | src/app/components/SavedChatsModal.tsx:15-22 | `uniqueChats` equals the reference "keep the first chat of each key" walk |
| SavedChatsModal.FirstOccurrencesShape | src/app/components/SavedChatsModal.tsx:15-22 | the reference walk yields a subsequence with distinct keys, none of them already seen, covering every key not seen before |
| SavedChatsModal.FirstOccurrencesOfDistinct | src/app/components/SavedChatsModal.tsx:15-22 | a list with distinct, unseen keys passes the walk unchanged |
| SavedChatsModal.UniqueChatsSubsequence | src/app/components/SavedChatsModal.tsx:15-22 | the kept chats are a subsequence of the saved chats, in order |
| SavedChatsModal.UniqueChatsDistinct | src/app/components/SavedChatsModal.tsx:15-22 | no two kept chats share both name and message count |
| SavedChatsModal.UniqueChatsIdempotent | src/app/components/SavedChatsModal.tsx:15-22 | filtering the kept chats again changes nothing |
| SavedChatsModal.KeptFromHas | src/app/components/SavedChatsModal.tsx:17-21 | a chat that is the first of its key is kept |
| SavedChatsModal.UniqueChatsCovers | src/app/components/SavedChatsModal.tsx:17-21 | every saved chat has a kept chat with the same key, its first occurrence |
| SavedChatsModal.RenderChats | src/app/components/SavedChatsModal.tsx:10-36 | the placeholder appears exactly for an empty list, with its fixed text; otherwise one button per kept chat, at least one |
| ChatbotRoute.Styled | src/app/api/chatbot/route.ts:30-33 | a plain request keeps the message; a Gekko request gets the rewrite's outcome, a value or an exception |
| ChatbotRoute.EffectiveYear | src/app/api/chatbot/route.ts:81 | an absent year or the year 0 becomes 2024; any other year is kept |
| ChatbotRoute.Symbols | src/app/api/chatbot/route.ts:71 | one symbol per company, in company order |
| ChatbotRoute.CompanyNameIsFirst | src/app/api/chatbot/route.ts:103-104 | the display name is that of the first company with the symbol, or the symbol when that name is empty or no company has it |
| ChatbotRoute.StatementFor | src/app/api/chatbot/route.ts:164-172 | a statement is fetched exactly for the four known endpoint names |
| ChatbotRoute.Sequence | src/app/api/chatbot/route.ts:90-128 | awaiting steps in order succeeds exactly when every step does, with at most one value per step |
| ChatbotRoute.SequenceAppend | src/app/api/chatbot/route.ts:90-128 | awaiting two lists of steps is awaiting the first, then the second |
| ChatbotRoute.SequencePrefixFailure | src/app/api/chatbot/route.ts:90-128 | once a prefix has thrown, the later steps change nothing |
| ChatbotRoute.SequenceFirstFailure | src/app/api/chatbot/route.ts:90-128 | the exception is that of the first step that throws |
| ChatbotRoute.SequenceAll | src/app/api/chatbot/route.ts:111-119 | when every step has a value, the result is those values in order |
| ChatbotRoute.SequenceValues | src/app/api/chatbot/route.ts:90-128 | every value in the result is some step's value |
| ChatbotRoute.SequenceEmptyIff | src/app/api/chatbot/route.ts:98-101 | the result is empty exactly when every step succeeds without a value |
| ChatbotRoute.CompanyCalls | src/app/api/chatbot/route.ts:94-96 | `multiple` selects the batch fetch with the effective year; otherwise the single fetch gets the extracted year and quarter as they are |
| ChatbotRoute.CallSummaries | src/app/api/chatbot/route.ts:109-123 | the inner loop succeeds exactly when every summariser call does; then entry i is call i's chunk summaries joined by a blank line |
| ChatbotRoute.CompanyBlock | src/app/api/chatbot/route.ts:94-127 | a company has no block and no exception exactly when its fetch returns no calls; a throwing fetch or summariser is the block's exception; otherwise the block is `**name**: ` followed by the per-call summaries joined by a blank line, and never empty |
| ChatbotRoute.CallSummariesFirstFailure | src/app/api/chatbot/route.ts:109-123 | the inner loop's exception is that of the first call whose summariser throws |
| ChatbotRoute.CompanyBlocks | src/app/api/chatbot/route.ts:90-128 | the outer loop succeeds exactly when every symbol's block does, with at most one block per symbol |
| ChatbotRoute.CompanyBlocksAppend | src/app/api/chatbot/route.ts:90-128 | the blocks of two lists of symbols are those of the first, then those of the second, and the first exception wins |
| ChatbotRoute.CompanyBlocksSingle | src/app/api/chatbot/route.ts:94-127 | one symbol contributes its block, nothing, or its exception |
| ChatbotRoute.CompanyBlocksFirstFailure | src/app/api/chatbot/route.ts:90-128 | the exception is that of the first symbol whose fetch or summaries throw |
| ChatbotRoute.CompanyBlocksNonEmpty | src/app/api/chatbot/route.ts:127 | every block has text |
| ChatbotRoute.CompanyBlocksEmptyIff | src/app/api/chatbot/route.ts:90-132 | there is no block and no exception exactly when no symbol has a call |
| ChatbotRoute.EarningsSummary | src/app/api/chatbot/route.ts:76-142 | a throwing time extraction or loop is the summary's exception; otherwise no summary exactly when no symbol has a call, else the blocks joined by a blank line |
| ChatbotRoute.SymbolAnswer | src/app/api/chatbot/route.ts:163-201 | a symbol answers exactly when the endpoint is known, its fetch succeeds with data, and the summary and the rewrite succeed, and then the answer is the rewrite of that summary; any of them throwing is swallowed |
| ChatbotRoute.FirstAnswer | src/app/api/chatbot/route.ts:162-202 | an answer found is the answer of one of the symbols |
| ChatbotRoute.FirstAnswerIsFirst | src/app/api/chatbot/route.ts:162-202 | no answer exactly when no symbol yields one; otherwise the answer of the first symbol that does |
| ChatbotRoute.UnknownEndpointNoAnswer | src/app/api/chatbot/route.ts:162-181 | an unknown endpoint leaves the data empty, so no symbol answers |
| ChatbotRoute.FirstAnswerPrefix | src/app/api/chatbot/route.ts:195 | once a prefix of the symbols has answered, the later symbols are not consulted |
| ChatbotRoute.MetricResponse | src/app/api/chatbot/route.ts:143-210 | a body from the metric branch is labelled `financial_metric` or `error` |
| ChatbotRoute.Answer | src/app/api/chatbot/route.ts:24-229 | a labelled body carries one of the three query types or `error` |
| ChatbotRoute.ThrowsAreCaught | src/app/api/chatbot/route.ts:221-228 | a body from the `try` is the answer; an exception becomes an `error` body with its rewritten message; the handler rejects only when that rewrite throws |
| ChatbotRoute.InvalidBodyIsError | src/app/api/chatbot/route.ts:26 | a request body that does not parse ends in the error body for the parse exception |
| ChatbotRoute.QueryTypeAbsentIff | src/app/api/chatbot/route.ts:29-37 | the body lacks `queryType` exactly when no question was asked and the fixed prompt was styled without a throw |
| ChatbotRoute.EmptyQuestionNotClassified | src/app/api/chatbot/route.ts:29-37 | an empty or missing question gets the (styled) fixed message, whatever the classifier would say |
| ChatbotRoute.ClassifyFailureIsError | src/app/api/chatbot/route.ts:40 | a classification that throws ends in the error body for its exception |
| ChatbotRoute.OtherSkipsExtraction | src/app/api/chatbot/route.ts:40-49 | an `other` question answers `other` with the generic or the rewritten answer, or the error body when that call throws, and the answer does not depend on extraction, the fetches or the endpoint choice |
| ChatbotRoute.ExtractionFailureIsError | src/app/api/chatbot/route.ts:53 | a company extraction that throws ends in the error body for its exception |
| ChatbotRoute.NoCompaniesIsError | src/app/api/chatbot/route.ts:53-70 | no companies answers `error` with the plain message, or the Gekko message styled by the rewrite |
| ChatbotRoute.EarningsCallAnswer | src/app/api/chatbot/route.ts:76-142 | when nothing throws, an earnings-call question answers the (styled) joined blocks, or the no-meaningful-data message exactly when no symbol has calls |
| ChatbotRoute.EarningsFailureIsError | src/app/api/chatbot/route.ts:78-128 | a throwing time extraction, call fetch or transcript summary ends in the error body for the first such exception |
| ChatbotRoute.MetricFirstSymbolWins | src/app/api/chatbot/route.ts:143-202 | a metric question answers with the summary of the first symbol that yields one |
| ChatbotRoute.MetricErrors | src/app/api/chatbot/route.ts:145-210 | a throwing endpoint choice gives the error body for it; a missing metric or endpoint gives the no-metric error; an unknown endpoint or no answering symbol gives the no-data error |
| ChatbotRoute.SummarizeCompany | src/app/api/chatbot/route.ts:93-127 | one pass of the per-symbol loop returns exactly `CompanyBlock` |
| ChatbotRoute.SummarizeCompanies | src/app/api/chatbot/route.ts:88-128 | the per-symbol loop collects exactly `CompanyBlocks`, skipping symbols without calls |
| ChatbotRoute.AnswerEarningsCall | src/app/api/chatbot/route.ts:76-142 | the earnings-call branch returns exactly `EarningsResponse` |
| ChatbotRoute.FindMetricAnswer | src/app/api/chatbot/route.ts:161-202 | the metric loop returns exactly `FirstAnswer` |
| ChatbotRoute.AnswerFinancialMetric | src/app/api/chatbot/route.ts:143-210 | the financial-metric branch returns exactly `MetricResponse` |
| ChatbotRoute.Try | src/app/api/chatbot/route.ts:25-220 | the `try` block returns exactly `Attempt` |
| ChatbotRoute.Post | src/app/api/chatbot/route.ts:24-229 | the handler returns exactly `Answer(body, o)`, the decision table the lemmas above are about |

## Left out

- Language-model calls, prompts, the financial-data REST client and Firestore are not modelled. Their results are parameters: `parse`, `chunkReply` and `finalPass` in `OpenAi`, and the fields of `Oracles` and `CallSources` in `ChatbotRoute`. The user document is the `canPersist` flag of `ChatSession`.
- `Promise.all` over the transcript slices is an order-preserving sequential map. The helpers in `OpenAi` do not model a throwing model call; the route's `summarizeTranscript` field does.
- Lengths count characters, not UTF-16 code units. `toLowerCase` is modelled on ASCII letters only.
- `setQuerying` and `setTyping` only set a flag, so they are not modelled.
- `ChatContext.ChatSession.constructor`: the state is the one after `fetchSavedChats` has run; the fetch's timing and its error path (which keeps the list as it was) are not modelled.
- React's deferred state updates are not modelled. Each method sees the state left by the previous one, and `setChatId` within `addMessage` takes effect at once.
- Message objects are values. The in-place write to `lastMessage.content` in `updateLastMessage` also alters the message object that the previous list shares; the model does not capture that aliasing.
- `ChatContext.ChatSession.SaveNewChat` does not model the separate copies of the saved list. The source appends to the Firestore copy and to the local state copy; the model keeps one list, assuming the two agree.
- `delay(500)` between summaries is timing only, and the `console` calls are logging only.
- HTTP status codes are not modelled. The handler always answers with a JSON body, and `Answer` is a `Failure` only when the `catch` block's own rewrite throws, which makes `POST` reject.
- The `GET` health check is not modelled.
- `src/lib/findCompanySymbols.ts` and `src/lib/fmpClient.ts` are not part of this model.
- The handler imports `fetchKeyMetrics`, `fetchIncomeStatement`, `fetchBalanceSheet` and `fetchCashFlowStatement` (src/app/api/chatbot/route.ts:12-19, called at 164-171). `src/lib/fmpClient.ts` does not export them; it exports only `fetchCompanyList`, `fetchSingleEarningsCall` and `fetchBatchEarningsCalls`. The four statement fetches are therefore the one `fetchStatement` field, modelled against the interface the handler calls.
- The handler imports `determineTargetEndpoint`, `summarizeFinancialMetrics` and `answerGenericPrompt`, which `src/lib/openai.ts` does not define. It calls the Gekko rewrite with two arguments and `.join`s the summariser's result. The route is therefore modelled against the interface it calls: `summarizeTranscript` returns a list of chunk summaries, and `rewrite` takes a flag. It is not composed with the `OpenAi` model.
- The route's "query type could not be identified" branch (src/app/api/chatbot/route.ts:211-215) is not modelled. The `classify` oracle, like `classifyQuery`, only ever succeeds with one of the three labels, so that branch cannot be reached.
- `request.json()` is the `Outcome<Request>` that `Answer` and `Post` take: a body that does not parse is the exception it throws. The field types of the parsed body are not checked, as in the source.
- `SplitIntoChunks.PiecesShape`: a newline that directly follows a period is not consumed by the split. The empty look-behind match wins at that position, so the newline stays at the start of the next piece; `PiecesAfterPeriod` proves that this is the only way a piece can start with a newline. The model follows the code, so "no piece contains a newline" holds only up to that case.

## Findings

| source | as written | input that shows it | evidently intended | confidence | as-written member | corrected member |
|---|---|---|---|---|---|---|
| src/utils/splitIntoChunks.ts:10-12 | a chunk is pushed whenever the next piece does not fit, even when the current chunk is empty or only white space, so `""` can be emitted anywhere in the list | `splitIntoChunks("ab\n\ncd", 1)` gives `["", "ab", "", "cd"]` | only non-empty chunks are emitted, as the final `trim().length > 0` test does for the last chunk | not executed | SplitIntoChunks.EmptyChunksEmitted | SplitIntoChunks.SplitIntoNonEmptyChunks |
