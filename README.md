# maubot ChatGPT plugin — a Dafny model of its orchestration core

This project models the request engine of the maubot ChatGPT plugin
(`chatgpt/bot.py`, `chatgpt/services/ai_service.py`,
`chatgpt/services/electricity_service.py`) and proves properties of it.

- **Inputs.** The plugin answers a Matrix message that mentions the bot, replies to one
  of its replies, or uses the `!chatgpt` command.
- **History.** It rebuilds the conversation from the reply chain (`History`, `Bot`).
- **Model selection.** It picks a model from the first `!model` token, then routes the
  request to OpenAI or Mistral by allow-list (`Conversation`, `AIService`).
- **Streaming.** It streams the answer into throttled edits of one placeholder reply
  (`Streaming`, `Bot.ChatBot`). It collects tool-call fragments into
  `collected_functions`.
- **Tools.** It writes a status line, calls the tools, appends one assistant/tool message
  pair per call, and continues the conversation recursively (`ToolPhase`, `Bot`).
- **Reply record.** Every edit goes through `_edit`. `_edit` records the text in
  `assistant_replies`, a FIFO-bounded insertion-ordered dict (`OrderedMaps`,
  `ReplyCache`).
- **Electricity prices.** One of the tools, the electricity price service, is modelled
  on its own (`ElectricityService`). It covers the `today`/`tomorrow` keywords, the
  per-date cache, the error text and the price report.

Python's `str.strip` and `''.join` are in `PyStrings`, the message and exception values
in `ChatTypes`, and Option/Result in `Wrappers`. `SeqFacts` holds small sequence facts
used by the proofs.

**Shape of the model.** The bot object is the class `Bot.ChatBot`. Its fields are
`replies` (`assistant_replies`) and `lastEditTime` (`_last_edit_time`). Two logs stand
for the transport: `edits` (what `_edit` hands to `send_message`) and `repliesSent`
(what `evt.reply` sends). Each loop of the source is a method proved equal to a
specification function:

| method | specification function |
|---|---|
| `Bot.ChatBot.StreamReply` | `RunStream` |
| `ToolPhase.DispatchCalls` | `Dispatch` |
| `ToolPhase.BuildStatusLine` | `StatusLine` |
| `Streaming.AccumulateFragments` | `IngestAll` |
| `Conversation.ScanForOverride` | `OverrideScan` |
| `AIService.CreateChatCompletion` | `Route` |
| `Bot.ChatBot.GetConversationHistory` | `Walk` |
| `ElectricityService.BuildReport` | `Report` |

The lemmas are about those functions.

**Rounds.** A request, with all its recursive continuations, is the function
`Bot.RequestTrace` over a sequence of `Round`s. Each call of `chat_gpt_request` consumes
one round: the date and time text, an optional client exception, and the stream, with a
clock reading per element. `Bot.ChatBot.ChatGptRequest` is proved to write exactly the
trace's texts into the reply and to leave the record as `ApplyEdits` of those edits.

**Exceptions that escape.** Several exceptions leave `chat_gpt_request`. They are
modelled as `Failed(fault)` outcomes:

- `pattern.search(None)` in the override scan;
- `json.loads` in the status line;
- a tool fragment before any id;
- arguments for an id never named;
- `available_functions.keys()` after the first failed call turned it into a string;
- a malformed stream element.

One consequence is proved as `Bot.ContinuationRaises` and `Bot.ToolRoundRaises`. After a
round of tool calls, the continuation receives `messages[:-1]`. That list still holds the
first call's assistant message, whose content is None. Unless an earlier message carries
an override token, the next round's override scan reaches that message and raises. So a
request that calls tools ends with that exception after the status line, and writes
nothing more.

**Behaviour of the code worth noting:**

- A failing `get_event` raises out of the history walk. It does not end the walk with a
  partial history.
- The chunk loop reads the whole stream. It does not stop at the first `finish_reason`.
- A status-line argument text that is not JSON aborts the request.
- After the first failing tool call, the next lookup raises.
- The override scan runs on every continuation.
- The continuation drops the last tool message.
- A continuation's conversation holds two developer messages: its own, and the earlier
  round's, which `messages[:-1]` carries as history (`chatgpt/bot.py:234`). A first round
  holds exactly one (`History.WalkHasNoDeveloper`).

## Model

| member | source | states |
|---|---|---|
| OrderedMaps.Empty | chatgpt/bot.py:24 | `{}` is a valid ordered map with no keys |
| OrderedMaps.Get | chatgpt/bot.py:262 | `d.get(k, default)`: the stored value when `k` is present, else the default |
| OrderedMaps.Put | chatgpt/bot.py:341 | after `d[k] = v`, `k` maps to `v`; a present key keeps its place in the order, a new key is appended at the end; keys stay distinct and agree with the map |
| OrderedMaps.PutOthers | chatgpt/bot.py:341 | assigning one key leaves every other key's presence and value unchanged |
| OrderedMaps.RemoveFirst | chatgpt/bot.py:343-345 | `del d[next(iter(d))]` removes the earliest inserted key from the order and the map and keeps the rest of the order |
| OrderedMaps.RemoveFirstOthers | chatgpt/bot.py:343-345 | dropping the earliest key leaves every other key's presence and value unchanged |
| OrderedMaps.Size | chatgpt/bot.py:343 | `len(d)`: the number of keys; CacheStores and ApplyEditsBound bound it by `max_messages` |
| ReplyCache.CachePut | chatgpt/bot.py:341-345 | the bookkeeping of one `_edit` keeps the record a valid ordered map that grows by at most one entry |
| ReplyCache.ApplyEdits | chatgpt/bot.py:341-345 | the record after a series of `_edit` calls, applied in order, is a valid ordered map; the ApplyEdits* and FifoWindow rows state what it holds |
| ReplyCache.CacheStores | chatgpt/bot.py:341-345 | with `max_messages >= 1` and the bound already kept, an edit stores its text under the edited reply and the record stays within `max_messages` |
| ReplyCache.CacheKeepsOthers | chatgpt/bot.py:341-345 | an edit leaves every other recorded reply's text as it was; at most the earliest recorded reply is dropped, and a record with room drops nothing |
| ReplyCache.CacheOverwrite | chatgpt/bot.py:341 | editing a reply already on record keeps the order and evicts nothing |
| ReplyCache.CacheEvictsOldest | chatgpt/bot.py:343-345 | a new reply on a full record evicts exactly the earliest inserted reply and is appended last |
| ReplyCache.ApplyEditsBound | chatgpt/bot.py:343-345 | any series of edits keeps the record within `max_messages` |
| ReplyCache.ApplyEditsLast | chatgpt/bot.py:341 | after a request's edits, its reply maps to the last text written into it |
| ReplyCache.ApplyEditsAppend | chatgpt/bot.py:341-345 | applying two series of edits in turn equals applying their concatenation |
| ReplyCache.FifoWindow | chatgpt/bot.py:341-345 | edits of distinct replies starting from an empty record leave exactly the latest `max_messages` reply ids, oldest first (strict FIFO eviction) |
| ReplyCache.FifoWindowUpTo | chatgpt/bot.py:341-345 | the same window holds after every prefix of the edits |
| ReplyCache.Stamp | chatgpt/bot.py:186 | one edit record per text written into a request's reply |
| ReplyCache.StampAt | chatgpt/bot.py:186 | edit `i` of a request targets that request's reply and carries text `i` |
| ReplyCache.StampAppend | chatgpt/bot.py:193 | the edit records of two runs of texts are those of the concatenated texts |
| PyStrings.IsSpace | chatgpt/bot.py:283 | Python 3's `str.isspace`: ASCII whitespace, the separators U+001C to U+001F and the Unicode space characters, the set `strip` removes |
| PyStrings.TrimStart | chatgpt/bot.py:130 | `lstrip` yields a suffix that does not start with whitespace |
| PyStrings.TrimStartSpace | chatgpt/bot.py:130 | `lstrip` removes only whitespace |
| PyStrings.TrimEnd | chatgpt/bot.py:130 | `rstrip` yields a prefix that does not end with whitespace |
| PyStrings.TrimEndSpace | chatgpt/bot.py:130 | `rstrip` removes only whitespace |
| PyStrings.Strip | chatgpt/bot.py:283 | `strip` yields the contiguous part of the text right after its leading whitespace |
| PyStrings.StripEnds | chatgpt/bot.py:283 | what `strip` keeps neither starts nor ends with whitespace |
| PyStrings.StripRemovesOnlySpace | chatgpt/bot.py:283 | only whitespace lies before and after what `strip` keeps |
| PyStrings.StripNoSurroundingSpace | chatgpt/bot.py:283 | text without surrounding whitespace is left unchanged |
| PyStrings.StripIdempotent | chatgpt/bot.py:283 | stripping twice equals stripping once |
| PyStrings.Join | chatgpt/bot.py:180 | joining no parts gives the empty text |
| PyStrings.JoinAppend | chatgpt/bot.py:170 | joining one more part appends it to the joined text |
| Conversation.RunLength | chatgpt/bot.py:65 | a greedy character-class run: every character in it is in the class and the next one is not |
| Conversation.RunLengthExact | chatgpt/bot.py:65 | that run length is the only length with that property |
| Conversation.SenderHandle | chatgpt/bot.py:64-67 | a non-empty handle `h` means the sender starts with `@h:` and `h` is alphanumeric |
| Conversation.SenderHandleIff | chatgpt/bot.py:64-67 | the handle is `h` exactly when the sender starts with `@h:` for a non-empty alphanumeric `h` |
| Conversation.SenderHandleEmptyIff | chatgpt/bot.py:67 | the handle is empty exactly when `^@([a-zA-Z0-9]+):` does not match |
| Conversation.CloseAfter | chatgpt/bot.py:252 | the lazy `.*?</a>` ends at an occurrence of `</a>` |
| Conversation.CloseAfterIsFirst | chatgpt/bot.py:252 | no newline and no earlier `</a>` precedes that occurrence |
| Conversation.SeparatorLength | chatgpt/bot.py:252 | the optional `:? ?` after the tag takes at most two characters |
| Conversation.MatchAfterOpen | chatgpt/bot.py:252 | a mention match covers the opening tag and `</a>` and stays within the text |
| Conversation.MentionAt | chatgpt/bot.py:252 | a bot-mention match at the start of the text covers at least the bot's anchor tag and `</a>` |
| Conversation.StripMentions | chatgpt/bot.py:264 | `userIdPattern.sub('', s)` never makes the text longer |
| Conversation.StripMentionsUnchangedIff | chatgpt/bot.py:315-316 | removing mentions leaves the text unchanged exactly when the pattern finds no mention |
| Conversation.StripMentionsShorter | chatgpt/bot.py:316 | a text with a mention gets strictly shorter |
| Conversation.StripLeadingMention | chatgpt/bot.py:310-316 | a leading `<a href="https://matrix.to/#/bot">…</a>` whose text is on one line and holds no `</a>` is removed together with the optional `:` and ` ` |
| Conversation.CloseTagBefore | chatgpt/bot.py:252 | an occurrence of `</a>` that starts before a following `</a>` lies entirely before it |
| Conversation.ContainsMention | chatgpt/bot.py:315 | `pattern.search(formatted_body)` succeeds: a mention match starts at some position; StripMentionsUnchangedIff ties it to `pattern.sub` |
| Conversation.Assemble | chatgpt/bot.py:76-120 | the conversation is the developer message, then the history in order, then the user message with the sender handle and the query |
| Conversation.AssembleOneDeveloper | chatgpt/bot.py:76-120 | with a history free of developer messages, the conversation holds exactly one developer message |
| Conversation.DeveloperPrompt | chatgpt/bot.py:76-78 | the developer message with the date and time inserted; DeveloperPromptNoToken shows its fixed text holds no override token |
| Conversation.FindToken | chatgpt/bot.py:123-127 | `pattern.search` finds the leftmost `![\w-]` start, and there is none before it |
| Conversation.TokenWord | chatgpt/bot.py:129 | the model name is the greedy, non-empty `[\w-]+` run right after the `!` |
| Conversation.RemoveToken | chatgpt/bot.py:130 | `re.sub(pattern, "", content, count=1).strip()` with the first match at `i`: that token removed, then stripped |
| Conversation.ScanFrom | chatgpt/bot.py:124-131 | the loop from message `i` on: it raises at a content-None message, stops at the first message with a token, and otherwise keeps the default model; ScanFirstMatch, ScanNoMatch and ScanReachesNone state it |
| Conversation.OverrideScan | chatgpt/bot.py:122-131 | the scan from the first message with the configured model as default; ScanForOverride's loop computes it |
| Conversation.ScanForOverride | chatgpt/bot.py:123-131 | the loop with its `break` computes the override scan: the model and the rewritten messages, or the index where content None raises |
| Conversation.ScanFirstMatch | chatgpt/bot.py:125-131 | the first message in order with a token sets the model to its word; only that message changes, to its content with the first token removed and stripped |
| Conversation.ScanNoMatch | chatgpt/bot.py:124-131 | without any token the model stays the configured default and no message changes |
| Conversation.ScanReachesNone | chatgpt/bot.py:126-127 | a message with content None reached before any match makes the scan raise at its index |
| AIService.IsMistralModel | chatgpt/services/ai_service.py:38-47 | membership in `mistral_allowed_models`; Route sends exactly these models to Mistral |
| AIService.ToMistralMessage | chatgpt/services/ai_service.py:75-78 | a `developer` message becomes `system`, `name` is removed, everything else is kept |
| AIService.ToMistral | chatgpt/services/ai_service.py:73-79 | every message is rewritten position by position, in order |
| AIService.Route | chatgpt/services/ai_service.py:68-97 | rejection exactly for a model in neither allow-list, with the OpenAI error text; otherwise Mistral exactly for a Mistral model, with rewritten messages and no tools, else OpenAI with the messages and tools as given |
| AIService.CreateChatCompletion | chatgpt/services/ai_service.py:49-97 | the method, with its rewrite loop, makes the request `Route` describes or raises its `ValueError` text |
| AIService.ProcessChunk | chatgpt/services/ai_service.py:99-120 | Mistral elements give their delta and finish reason and no tool calls; OpenAI elements give the first choice's content, finish reason and tool calls; an element of the other shape or without choices raises |
| Streaming.EmptyAccumulator | chatgpt/bot.py:149 | `collected_functions` starts empty |
| Streaming.Ingest | chatgpt/bot.py:158-167 | one fragment keeps `collected_functions` a valid ordered map |
| Streaming.IngestSpec | chatgpt/bot.py:158-167 | fragment semantics: an id sets `tool_call_id`; a name (re)starts that id's entry with empty arguments; arguments are appended to the current entry; other entries are untouched; raises exactly when no id is bound yet or the entry is missing |
| Streaming.IngestAll | chatgpt/bot.py:158-167 | all fragments of a chunk keep the map valid |
| Streaming.AccumulateFragments | chatgpt/bot.py:158-167 | the `for tool_call in tool_calls` loop computes `IngestAll` |
| Streaming.IngestAllStops | chatgpt/bot.py:158-167 | once a fragment raises, the later ones are never looked at |
| Streaming.AssembleCall | chatgpt/bot.py:157-167 | a call named by its first fragment and continued by nameless fragments assembles to that name with all argument text concatenated in arrival order |
| Streaming.EditText | chatgpt/bot.py:180-185 | the edit text is the joined deltas, with `…` unless the finish reason is truthy and not `tool_calls` |
| Streaming.ShouldEdit | chatgpt/bot.py:172-176 | a chunk may edit when no edit was made yet, when at least one second (1000 ms) has passed since the last, or when it has a truthy finish reason; StepSpec states the effect |
| Streaming.Step | chatgpt/bot.py:153-186 | one chunk keeps the stream state valid |
| Streaming.StepSpec | chatgpt/bot.py:153-186 | one chunk appends its truthy delta, collects its fragments (raising exactly when that raises), and edits the reply and records the clock exactly when the one-second throttle or a finish reason allows |
| Streaming.Absorb | chatgpt/bot.py:157-170 | collecting a chunk changes neither the edit time nor the edits |
| Streaming.Throttle | chatgpt/bot.py:172-186 | the throttle changes neither the text parts nor the collected calls |
| Streaming.AbsorbChunk | chatgpt/bot.py:157-170 | the method computes `Absorb` |
| Streaming.RunStream | chatgpt/bot.py:152-186 | a run over the stream keeps the state valid |
| Streaming.RunStreamStops | chatgpt/bot.py:152-186 | after an element raises, the rest of the stream is never read |
| Streaming.RunStreamText | chatgpt/bot.py:169-180 | without an exception the collected text is every delta of the stream, in order |
| Streaming.RunStreamExtendsEdits | chatgpt/bot.py:186 | edits are only appended during a stream |
| Streaming.FinalEditPlain | chatgpt/bot.py:184-186 | a stream whose last element finishes with a reason other than `tool_calls` ends with an edit of the whole text without `…` |
| ToolPhase.StatusPiecesIff | chatgpt/bot.py:188-192 | the status line is built exactly when every call's arguments decode; otherwise the error names the first call whose arguments do not decode |
| ToolPhase.BuildStatusLine | chatgpt/bot.py:188-192 | the loop computes the status line `Calling functions: name(args) …`, with `args` rendered by Python's `str`, or the decoding error |
| ToolPhase.StatusLine | chatgpt/bot.py:188-193 | `Calling functions: ` followed by `name(args) ` for each call in collected order, with `args` the decoded arguments rendered by Python's `str` (not the `repr` of the `KeyError` text), or the decoding error; StatusPiecesIff characterises it |
| ToolPhase.CallArgs | chatgpt/bot.py:201-205 | decoded object arguments get `user` set to the sender and keep every other key; anything else becomes `[]` |
| ToolPhase.CallTool | chatgpt/bot.py:201-212 | a call succeeds exactly when the tool exists, its arguments decoded to an object, and it returns; otherwise the response is `Function error: ` with the exception text: `KeyError`'s repr of the name for an unknown tool, the `TypeError` of `**[]` for arguments that are `[]`, else what the tool raised |
| ToolPhase.ToolPair | chatgpt/bot.py:214-231 | the two messages appended for one call; PairsAt states their fields |
| ToolPhase.DispatchOne | chatgpt/bot.py:200-231 | one iteration: raises once `available_functions` has become a string, otherwise calls the tool and appends its pair |
| ToolPhase.Dispatch | chatgpt/bot.py:200-231 | the loop over all collected calls; DispatchAppendsPairs and FailureBeforeLastRaises state it |
| ToolPhase.DispatchCalls | chatgpt/bot.py:200-231 | the loop computes `Dispatch` |
| ToolPhase.DispatchPrefixIff | chatgpt/bot.py:200-231 | the first `n` calls go through exactly when every call before the last of them succeeded; then exactly their pairs were appended |
| ToolPhase.DispatchAppendsPairs | chatgpt/bot.py:200-231 | the whole round goes through exactly when no call but the last fails, and then the messages grow by one pair per call in collected order |
| ToolPhase.FailureBeforeLastRaises | chatgpt/bot.py:207-211 | a failing call that is not the last makes the round raise |
| ToolPhase.PairsAt | chatgpt/bot.py:214-231 | pair `i` is the assistant message with content None and the call descriptor, then the tool message with the call's id, name and response |
| ToolPhase.Continuation | chatgpt/bot.py:234 | `messages[:-1]` is everything but the last message |
| ToolPhase.ContinuationDropsLastResult | chatgpt/bot.py:214-234 | the continuation keeps the round's messages, drops the last call's tool message, and ends with that call's assistant message (content None) |
| ToolPhase.ContinuationFirstCall | chatgpt/bot.py:214-234 | the continuation keeps the round's messages followed by the first call's assistant message, whose content is None |
| History.ReplyTarget | chatgpt/bot.py:267-270 | the walk, and the handlers' reply check (bot.py:288-289), follow `in_reply_to` exactly when it is present and non-empty |
| History.Entry | chatgpt/bot.py:257-265 | the dict one message event contributes; HistoryEntries states its fields |
| History.Walk | chatgpt/bot.py:239-272 | the history from an event back along the reply chain, oldest first, failing on a missing event or a cycle; WalkIsEntriesOfChain, HistoryEntries and WalkStep state it |
| History.WalkIdsIsChain | chatgpt/bot.py:254-270 | the fetched events form the reply chain from the start event back to the first event without a reply target, oldest first |
| History.WalkIsEntriesOfChain | chatgpt/bot.py:254-272 | the history is the entries of the chain's message events in chain order; it fails exactly when fetching the chain fails, with the same error |
| History.EntriesOfCount | chatgpt/bot.py:256-265 | there is one entry per message event of the chain, in order |
| History.WalkHasNoDeveloper | chatgpt/bot.py:256-265 | a successful walk yields no developer entry, so every conversation assembled from it holds exactly one developer message |
| History.MessageIdsAreMessages | chatgpt/bot.py:256 | only `m.room.message` events contribute entries |
| History.HistoryEntries | chatgpt/bot.py:256-265 | entry `i` has role `assistant` when the bot sent event `i` and `user` otherwise; its name is the sender handle; its content is the recorded reply text or `body` for the bot, and the shown text without bot mentions for a user |
| History.WalkStep | chatgpt/bot.py:254-270 | the history from an event is the history from its reply target with this event's entry after it |
| Bot.InitialStream | chatgpt/bot.py:148-150 | a request starts streaming with no text, no calls and no edits |
| Bot.ClientErrorText | chatgpt/bot.py:140-145 | a `ValueError` is written as its bare text, any other exception behind `API Error: `; PrepareRound states it |
| Bot.RequestTrace | chatgpt/bot.py:55-237 | the texts a request with all its continuations writes, its final edit time and how it ends; RequestEndsWithAnswer, DirectAnswer and ContinuationRaises state it, ChatGptRequest computes it |
| Bot.AfterStream | chatgpt/bot.py:188-237 | the plain final edit when no tool was called, otherwise the status line, the calls and the continuation; AfterStreamEndsWithAnswer and ToolRoundRaises state it |
| Bot.PrepareRound | chatgpt/bot.py:59-146 | a round that stops before streaming writes at most one text and keeps the edit time; it writes nothing exactly when it fails (the override scan raised), and otherwise ends refused with that text; a round that streams had no client exception |
| Bot.PrepareRoundCases | chatgpt/bot.py:122-146 | an override scan that raises writes nothing and fails with that exception; a rejected model writes `Route`'s `ValueError` text; a client `ValueError` writes its bare text and any other client exception `API Error: ` and its text; otherwise the request made is `Route` of the scanned conversation, with tools only for a non-Mistral model |
| Bot.RequestEndsWithAnswer | chatgpt/bot.py:55-237 | however many tool rounds it takes, a request that ends with an answer has made the plain answer its last edit |
| Bot.AfterStreamEndsWithAnswer | chatgpt/bot.py:188-237 | the same, from the end of a stream |
| Bot.DirectAnswer | chatgpt/bot.py:148-237 | a round that streams without an exception and collects no call answers with all its deltas concatenated, after its throttled edits |
| Bot.DeveloperPromptNoToken | chatgpt/bot.py:77 | the developer message has no override token unless the date or time text has one |
| Bot.ContinuationRaises | chatgpt/bot.py:125-127 | the continuation's override scan reaches the first call's assistant message with content None and raises, writing nothing, unless an earlier message carries a token |
| Bot.ToolRoundRaises | chatgpt/bot.py:188-234 | a tool round that gets through its calls writes the status line and ends with that exception |
| Bot.ChatBot.constructor | chatgpt/bot.py:22-27 | no recorded replies, no edit time, nothing sent |
| Bot.ChatBot.Edit | chatgpt/bot.py:325-345 | the edit is sent, the record becomes `CachePut` of it, the `max_messages` bound is kept, and nothing else changes |
| Bot.ChatBot.EmitEdit | chatgpt/bot.py:178-186 | one throttled edit: the edit time is set, the text is sent and recorded, and the edit log and record stay those of the request's edits so far |
| Bot.ChatBot.ThrottleEdit | chatgpt/bot.py:172-186 | the throttle edits exactly as `Throttle` says and keeps log and record in step |
| Bot.ChatBot.HandleChunk | chatgpt/bot.py:153-186 | one pass of the chunk loop computes `Step`; an exception changes nothing |
| Bot.ChatBot.StreamReply | chatgpt/bot.py:148-186 | the chunk loop computes `RunStream`; the edits sent and the record are exactly those of the stream's edit texts |
| Bot.ChatBot.PrepareRequest | chatgpt/bot.py:59-146 | computes `PrepareRound`; a request that streams has changed nothing, one that stops has sent and recorded its text |
| Bot.ChatBot.ChatGptRequest | chatgpt/bot.py:55-237 | the outcome, edit time, edits sent and record are those of `RequestTrace` over the rounds |
| Bot.ChatBot.FinishRound | chatgpt/bot.py:188-237 | the tool phase or the final edit, as `AfterStream` says, with edits and record kept in step |
| Bot.ChatBot.GetConversationHistory | chatgpt/bot.py:239-272 | the loop computes `Walk` from the event over the current record |
| Bot.ChatBot.Trigger | chatgpt/bot.py:308-316 | a text message whose shown text mentions the bot or which replies to a recorded reply triggers a request, on the shown text without mentions; OnMessage ignores exactly the others |
| Bot.ChatBot.Respond | chatgpt/bot.py:288-295 | a failed walk changes nothing; otherwise the placeholder is sent, the request's texts are written and recorded, and the edit time is the request's last edit time, carried over to the next response |
| Bot.ChatBot.OnMessage | chatgpt/bot.py:297-323 | the bot ignores exactly the events that neither mention it nor reply to a recorded reply; otherwise it sends the placeholder and runs the request on the mention-stripped text |
| Bot.ChatBot.ChatGptHandler | chatgpt/bot.py:274-295 | an empty stripped query gets the prompt reply and changes nothing else; otherwise the request runs on the stripped query |
| ElectricityService.NextDay | chatgpt/services/electricity_service.py:31-34 | the next day is a valid later date, and it fails only on 9999-12-31 |
| ElectricityService.NextDayIsSuccessor | chatgpt/services/electricity_service.py:33 | no valid date lies strictly between a day and the next |
| ElectricityService.FormatDate | chatgpt/services/electricity_service.py:30 | `strftime('%Y-%m-%d')`; FormatDateReadsBack and FormatDateInjective state it |
| ElectricityService.NatToString | chatgpt/services/electricity_service.py:30 | a non-empty run of decimal digits |
| ElectricityService.NatToStringValue | chatgpt/services/electricity_service.py:30 | the digits denote the number, in no more than `k` digits when it is below `10^k` |
| ElectricityService.ZeroPadValue | chatgpt/services/electricity_service.py:30 | zero-padding to the field width keeps the number and gives exactly that width |
| ElectricityService.FormatDateReadsBack | chatgpt/services/electricity_service.py:30 | `%Y-%m-%d` is ten characters with dashes at 4 and 7, and year, month and day read back from the digit groups |
| ElectricityService.FormatDateInjective | chatgpt/services/electricity_service.py:28-34 | different dates give different keys |
| ElectricityService.NormaliseDate | chatgpt/services/electricity_service.py:28-34 | the cache key for the date argument; NormaliseDateCases and NormaliseDateStable state it |
| ElectricityService.NormaliseDateCases | chatgpt/services/electricity_service.py:28-34 | `today` becomes today's date, `tomorrow` the next day's, anything else is kept; only `tomorrow` on the last representable day raises |
| ElectricityService.NormaliseDateStable | chatgpt/services/electricity_service.py:28-37 | a normalised key normalises to itself |
| ElectricityService.Label | chatgpt/services/electricity_service.py:66-69 | "Kalliimpi" exactly above the average, "Halvempi" exactly below, nothing exactly at it |
| ElectricityService.Prices | chatgpt/services/electricity_service.py:50 | price `i` is row `i`'s price times the VAT multiplier |
| ElectricityService.SumBounds | chatgpt/services/electricity_service.py:51 | the sum lies between count times the lowest and count times the highest price |
| ElectricityService.AverageWithin | chatgpt/services/electricity_service.py:51 | the average lies between the lowest and the highest price |
| ElectricityService.LinesAppend | chatgpt/services/electricity_service.py:63-70 | each row contributes its own line, in row order |
| ElectricityService.Header | chatgpt/services/electricity_service.py:53-61 | the opening paragraph with the unrounded average and the VAT percentage rounded to two places |
| ElectricityService.PriceLine | chatgpt/services/electricity_service.py:63-70 | `time: price c/kWh` with the rounded price, then the label comparing it with the average (see Label) |
| ElectricityService.Report | chatgpt/services/electricity_service.py:49-70 | the header followed by one line per row; BuildReport computes it |
| ElectricityService.FetchErrorText | chatgpt/services/electricity_service.py:45-47 | the text for a status other than 200, with the date and the status code; FetchUncached returns it without caching |
| ElectricityService.BuildReport | chatgpt/services/electricity_service.py:49-70 | the loop builds the header followed by one line per row |
| ElectricityService.PriceService.constructor | chatgpt/services/electricity_service.py:8-15 | the multiplier as given and an empty cache |
| ElectricityService.PriceService.FetchUncached | chatgpt/services/electricity_service.py:42-75 | one request for the date's URL; a non-200 status returns the error text uncached; an empty body raises `ZeroDivisionError`; otherwise the report is cached under the date and returned |
| ElectricityService.PriceService.FetchPrices | chatgpt/services/electricity_service.py:17-75 | a keyword overflow raises and changes nothing; a cached date returns the cached text without a request; otherwise as `FetchUncached`; entries are never changed or removed, and a cached date's text is what the call returned |

## Left out

- The Matrix transport is reduced to logs of what is sent. This covers `send_message`, `set_edit`, `markdown.render` (the HTML body) and `evt.reply`. The reply's event id is a parameter, and events are read from a map.
- Plugin start-up and configuration loading are not modelled (bot.py:29-53, `config.py`). Neither is the construction of the OpenAI and Mistral clients (ai_service.py:13-36). The configuration is the `Config` and `Service` values.
- The network calls are not modelled: `chat.completions.create`, `chat_stream` and `requests.get`. The client call's result is the `Request` value. Its failure is `Round.clientError`, a `ValueError` or another exception with its text, and the stream is `Round.chunks`. Errors raised while iterating the stream are not modelled.
- A tool-call delta whose `function` is None raises `AttributeError` at bot.py:162. `Fragment` holds the optional name and arguments but has no state for a missing `function` object, so this case is not modelled.
- The tool oracle `Env.invoke` is only called with a decoded object of keyword arguments. Whether a tool accepts the extra `user` keyword is part of that oracle.
- The tools (`get_weather`, and `fetch_prices` as seen from the bot) are the oracle `Env.invoke` inside the tool phase. `chatgpt/services/weather_service.py` is not part of this model.
- `json.loads` is the oracle `Env.parse`. Python's `str` of a decoded value, as the status line's f-string renders it, is the oracle `Env.str`. Python's `repr`, used for the `KeyError` text of an unknown tool, is the oracle `Env.repr`. `json.dumps(function_args)` is kept as the decoded value itself.
- Clocks are parameters, not modelled. `datetime.now` with the Helsinki offset and its `strftime` texts are given per round as text. `time.time()` is one integer reading in milliseconds per stream element, used for both calls at bot.py:174 and 178. `datetime.today()` is the `today` parameter of `FetchPrices`.
- Concurrency is not modelled. The async handlers run one at a time, so two requests interleaving on `_last_edit_time` and `assistant_replies` are not covered.
- Recursion depth: the unbounded recursion of `chat_gpt_request` is bounded by the rounds supplied. Running out of rounds is the model-only outcome `OutOfRounds`.
- A reply chain that loops back makes the source's `while` loop run forever. The model returns `Cycle` instead.
- The `try`/`except` around `''.join` at bot.py:179-182 is not modelled, because joining strings cannot raise there.
- The regex class `\w` of `![\w-]+` is taken over ASCII letters, digits and `_`. Unicode word characters are not modelled.
- Conversation.ScanForOverride: the source rewrites the matched message dict in place, and the caller sees the change. The model returns the rewritten list instead.
- AIService.CreateChatCompletion: the source mutates the caller's message dicts in place, so the history is rewritten too. The model returns the rewritten list.
- The second allow-list check at ai_service.py:69-70 can never fail. It is kept, and `Route` shows the branch is dead.
- Bot.ChatBot.OnMessage: states the outcome and the placeholder but not the edits. Those are stated by Bot.ChatBot.Respond, which it calls.
- Bot.ChatBot.ChatGptHandler: states the outcome and the prompt reply but not the edits. Those are stated by Bot.ChatBot.Respond, which it calls.
- Electricity prices are exact reals, not floats. Python's `round(x, 2)` and float-to-text conversion are the oracle `Format`.
- Not modelled in the electricity service:
  - `float(item['hinta'])` parsing: the row carries the price;
  - decoding `response.json()`;
  - exceptions from `requests`;
  - the `print` at electricity_service.py:38.
- The `user` argument of `fetch_prices` is unused, as in the source.
- `strftime('%Y')` is modelled as four digits for years below 1000. Python's output for those years depends on the platform.
