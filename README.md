# BrainLoop AI chat core, modelled in Dafny

BrainLoop AI is a Next.js chatbot. Signed-in users keep conversations, and each
conversation holds a list of messages. Replies come from DeepSeek through
OpenRouter, from an OpenAI stream, from Gemini, or from canned text. This
project models the parts of the repository that decide what happens:

- **The conversation store** (`lib/conversation-service.ts`). It is a class
  whose two tables are sequence fields. Each operation takes the backend's
  answer as an input.
- **The request shaping of the HTTP routes.** These are chat (OpenRouter),
  chat/stream, gemini, chat/enhanced and conversations. The stream route's body
  is modelled as server-sent event frames: `data: {"content": ...}` events, then
  a final `data: [DONE]` event. The frames the handler enqueues are proved to
  decode to exactly the relayed contents.
- **The client controllers.** These are the plain chat window, the streaming
  chat window with its conversation sidebar, the message input and the typing
  animation. Each is a class whose methods change its state step by step.
- **The shared message types, configuration and AI-service catalogue**
  (`types/chat.ts`, `lib/config.ts`, `lib/ai-service.ts`).

Effects are inputs of the members that model them. These are what the network
answers, what the store's backend reports, whether authentication succeeded,
the clock and the random fallback index. Nothing here is executed.

Some behaviour of the store worth knowing before reading the contracts:

- `addMessage` does not touch the conversation's `updated_at`, so `AddMessage`
  leaves every conversation unchanged.
- `createConversation` checks only the user id, not the title. The title is
  checked by the conversations route, and the streaming window always passes
  "New Chat".
- `addMessage` does not check the content; an empty message is stored.
- `getConversations` has no owner filter, and the row-level policy of the
  backend is not part of this model. `GetConversations` therefore returns the
  whole table.

## Model

| member | source | states |
|---|---|---|
| Basics.OrElse | app/api/chat/route.ts:46 | `a \|\| b` for an optional string: the value when it is present and non-empty, the fallback otherwise |
| Basics.TrimStart | components/message-input.tsx:15 | drops exactly the leading ECMAScript whitespace: a suffix, not starting with whitespace, empty iff the text is blank |
| Basics.TrimEnd | components/message-input.tsx:15 | drops exactly the trailing whitespace: a prefix, not ending with whitespace, empty iff the text is blank |
| Basics.TrimEmptyIffBlank | components/message-input.tsx:15 | `!s.trim()` holds exactly for texts made only of whitespace, the empty text included |
| Basics.TrimsToEmpty | components/streaming-chat-interface.tsx:79 | the guard `!content.trim()` holds iff the text is blank |
| Basics.Includes | app/api/chat/enhanced/route.ts:54-60 | `includes` is true iff the substring occurs at some index |
| Basics.LowerAscii | app/api/chat/enhanced/route.ts:51 | same length; each character is lowered on its own, with ASCII capitals mapped to small letters |
| Basics.Split | components/streaming-chat-interface.tsx:244 | `split` gives at least one piece, and no piece contains the separator |
| Basics.JoinSplit | components/streaming-chat-interface.tsx:244 | joining the pieces of a split with the same separator gives the text back |
| Basics.SplitJoin | components/streaming-chat-interface.tsx:244 | splitting a join of separator-free pieces gives the pieces back |
| Basics.SplitWithoutSeparator | components/streaming-chat-interface.tsx:244 | a text without the separator splits into itself alone |
| Basics.SplitPrefix | components/streaming-chat-interface.tsx:244 | a separator-free prefix sticks to the first piece of the split |
| Basics.JoinPrefixOfSplit | components/streaming-chat-interface.tsx:244 | joining the first k pieces of a split gives a prefix of the text |
| Basics.JoinTakeIsPrefix | components/streaming-chat-interface.tsx:244 | joining the first k pieces gives a prefix of joining all pieces |
| Basics.NatToString | components/chat-interface.tsx:33 | a message id from `Date.now().toString()` is a non-empty run of decimal digits |
| Basics.CharUnits | components/typing-text.tsx:16 | a character of the Basic Multilingual Plane is one code unit with its own value; any other is a surrogate pair, high then low, that decodes back to the character |
| Basics.Utf16 | components/typing-text.tsx:18 | a string's UTF-16 form, whose length is `length`, is never shorter than the string, and is exactly as long iff every character is in the Basic Multilingual Plane |
| Seqs.Filter | lib/conversation-service.ts:33 | a filter keeps only the elements that pass, and never grows |
| Seqs.FilterMultiset | lib/conversation-service.ts:33 | a filter keeps every occurrence of a passing element and no occurrence of a failing one |
| Seqs.FilterMembership | components/streaming-chat-interface.tsx:253 | an element is in the filtered list iff it is in the list and passes |
| Seqs.FilterAppend | components/streaming-chat-interface.tsx:109-114 | filtering distributes over concatenation |
| Seqs.FilterAll | components/streaming-chat-interface.tsx:109-114 | filtering a list whose elements all pass changes nothing |
| Seqs.Insert | lib/conversation-service.ts:9 | inserting into a largest-first list keeps it largest-first and adds exactly that element |
| Seqs.SortDesc | lib/conversation-service.ts:9 | `ORDER BY ... DESC`: a permutation of the rows, largest key first |
| Seqs.Reverse | lib/conversation-service.ts:106 | `reverse()`: the element at i is the one at the mirrored position |
| Seqs.ReverseMultiset | lib/conversation-service.ts:106 | reversing keeps the same elements |
| Seqs.ReverseNonIncreasing | lib/conversation-service.ts:106 | reversing a newest-first list gives an oldest-first one |
| Seqs.TakeIsLargest | lib/conversation-service.ts:98 | `LIMIT n` on a largest-first list keeps rows that outrank every row it drops |
| Seqs.MultisetSplit | lib/conversation-service.ts:98 | a prefix and the rest together hold exactly the rows of the list |
| Seqs.PrefixDominates | lib/conversation-service.ts:98 | in a largest-first list, nothing after a position outranks anything before it |
| Seqs.Take | lib/conversation-service.ts:98 | `LIMIT n` keeps the first min(n, length) rows |
| ChatTypes.RoleName | types/chat.ts:4 | the three role spellings; "system" only for System, "user" only for User |
| ChatTypes.HistoryOf | components/chat-interface.tsx:71-76 | the conversation history has no more entries than messages, and each entry's role is "user" or "assistant" |
| ChatTypes.HistoryOfAppend | components/chat-interface.tsx:71-76 | the history of two lists one after the other is their histories one after the other |
| ChatTypes.HistoryOfSnoc | components/streaming-chat-interface.tsx:109-114 | one more message adds its turn to the history, unless it is a system message |
| ChatTypes.HistoryOfNoSystem | components/chat-interface.tsx:71-76 | without system messages the history has one turn per message, in order, with its role and content |
| ChatTypes.Outgoing | app/api/chat/route.ts:39-43 | the system prompt comes first, then the client's history unchanged, then the user's message |
| ChatTypes.OutgoingCarriesClientHistory | app/api/chat/stream/route.ts:27-40 | from the window to the model: each non-system message of the window appears in order between the prompt and the new message |
| Config.EnvVar | lib/config.ts:3 | a variable is present iff it is set, and then it has its value |
| Config.ConfigOf | lib/config.ts:1-18 | the key is `OPENAI_API_KEY` as set; the model, app name and description are their variables when non-empty, else gpt-3.5-turbo, "AI Chatbot" and "A modern AI chatbot built with Next.js"; the budget is 1000 tokens; all four features are on |
| Config.IsOpenAIConfigured | lib/config.ts:20-22 | holds iff `OPENAI_API_KEY` is set and non-empty |
| Config.GetOpenAIConfig | lib/config.ts:24-29 | succeeds iff `OPENAI_API_KEY` is set and non-empty, so exactly when `isOpenAIConfigured` holds; it fails with the fixed message, and on success yields the `openai` settings |
| Conversations.FindConversation | lib/conversation-service.ts:20-28 | `.single()`: found iff a row has that id, and the row found has that id |
| Conversations.MessagesOf | lib/conversation-service.ts:30-33 | exactly the messages of that conversation, each as often as it is stored |
| Conversations.FilterMultisetAll | lib/conversation-service.ts:30-33 | a filter keeps every occurrence of each passing row and drops every failing one, for all rows at once |
| Conversations.Chronological | lib/conversation-service.ts:34 | `ORDER BY created_at ASC`: a permutation of the rows, oldest first |
| Conversations.LatestMessagesSpec | lib/conversation-service.ts:93-106 | the last `limit` messages of a conversation: min(limit, count) rows, oldest first, all of that conversation, none older than a row left out |
| Conversations.LatestSize | lib/conversation-service.ts:98 | the history has min(limit, count) rows |
| Conversations.LatestBelong | lib/conversation-service.ts:97 | every row of the history belongs to the conversation and is stored |
| Conversations.LatestNewest | lib/conversation-service.ts:98-99 | no message of the conversation that was left out is newer than one that was kept |
| Conversations.Retitled | lib/conversation-service.ts:124-127 | retitling keeps the number of rows and every row's id |
| Conversations.RetitledChangesOnlyThatRow | lib/conversation-service.ts:124-127 | only the row with that id changes, and only its title |
| Conversations.FilterKeepsDistinctKeys | lib/conversation-service.ts:111-114 | deleting rows keeps the remaining ids distinct |
| Conversations.ConversationService.constructor | lib/conversation-service.ts:3 | the store starts with both tables empty and its invariant holding |
| Conversations.ConversationService.GetConversations | lib/conversation-service.ts:5-16 | on success, every conversation, most recently updated first; on a backend error, the prefixed message |
| Conversations.ConversationService.GetConversation | lib/conversation-service.ts:19-44 | fails on a backend error, or when there is no row with that id; a failed message query gives "Failed to fetch messages: " followed by the backend's message; on success, the row with that id and exactly its messages, oldest first |
| Conversations.ConversationService.GetConversationHistory | lib/conversation-service.ts:93-107 | the newest `limit` messages (10 by default) of the conversation, oldest first; the prefixed message on a backend error |
| Conversations.ConversationService.CreateConversation | lib/conversation-service.ts:48-67 | without a user id it throws before any write; otherwise it appends one fresh row for that user with that title and the current time, unless the backend fails, in which case nothing changes |
| Conversations.ConversationService.AddMessage | lib/conversation-service.ts:70-90 | without a user id it throws before any write; otherwise it appends one fresh message row to an existing conversation; conversations never change |
| Conversations.ConversationService.DeleteConversation | lib/conversation-service.ts:109-119 | removes the conversation and, by cascade, its messages; on a backend error nothing changes |
| Conversations.ConversationService.UpdateConversationTitle | lib/conversation-service.ts:121-135 | retitles exactly the row with that id and returns it; the call fails if there is none or the backend fails; messages never change |
| ChatRoute.ApiKeyOf | app/api/chat/route.ts:46-47 | `OPENROUTER_API_KEY` wins over `DEEPSEEK_API_KEY`; the key is missing iff neither is set to a non-empty value |
| ChatRoute.CaughtResponse | app/api/chat/route.ts:92-125 | status 401 and 429 map to those responses, with the error's details; anything else becomes a 200 fallback reply: the chosen canned reply plus the fixed suffix, marked as fallback, stamped with the clock reading, with the error's details as its error, or "Unknown error" when they are empty |
| ChatRoute.Details | app/api/chat/route.ts:98 | `error?.message \|\| error?.toString()`: the message when non-empty, else the error's text; empty iff both are |
| ChatRoute.ModelIdOf | app/api/chat/route.ts:8 | the requested `modelId` when present (even if empty), DeepSeek-R1 only when absent |
| ChatRoute.Respond | app/api/chat/route.ts:6-125 | checks in the handler's order (message, model, key); an unsupported model gives 400 with "Model <id> not supported. Only DeepSeek-R1 is available.", the id defaulting to DeepSeek-R1 only when absent; the model is called only if all pass, with prompt, history and message; the reply (content or "No response generated.", stamped with the clock reading, with model, provider and usage) or the mapped error follows; a save is planned iff a reply exists with a conversation id and a user |
| ChatRoute.Post | app/api/chat/route.ts:72-82 | the handler as written: the response is `Respond`'s, and the store never changes, because both saves lack a user id |
| ChatRoute.PostAsUser | app/api/chat/route.ts:72-82 | the handler with the user id passed: when a save is planned for an existing conversation, the user's message and then the reply are appended, as far as the backend allows |
| EventStream.HexDigit | app/api/chat/stream/route.ts:58 | a lower-case hexadecimal digit whose value is n |
| EventStream.HexValue | app/api/chat/stream/route.ts:58 | a hexadecimal digit has a value below 16 |
| EventStream.EscapeChar | app/api/chat/stream/route.ts:58 | `JSON.stringify`'s escape of one character is non-empty and has no line break |
| EventStream.Escape | app/api/chat/stream/route.ts:58 | the quoted body of `JSON.stringify(s)` is at least as long as s and has no line break |
| EventStream.UnescapeChar | app/api/chat/stream/route.ts:58 | reading one escaped character back gives the character, and reading goes on with the rest |
| EventStream.UnescapeShort | app/api/chat/stream/route.ts:58 | the two-character escapes read back to their characters |
| EventStream.UnescapeControl | app/api/chat/stream/route.ts:58 | the `\u00XX` escapes of the other control characters read back to their characters |
| EventStream.UnescapeEscape | app/api/chat/stream/route.ts:58 | escaping round-trips: a JSON string body reads back to the text it was made from |
| EventStream.Payload | app/api/chat/stream/route.ts:58 | `JSON.stringify({ content })` has no line break and is never the `[DONE]` sentinel |
| EventStream.Frame | app/api/chat/stream/route.ts:58 | a content event is `data: `, the payload, then a blank line, and it is never the `[DONE]` event |
| EventStream.Frames | app/api/chat/stream/route.ts:55-60 | one event per content |
| EventStream.FramesAt | app/api/chat/stream/route.ts:55-60 | the i-th event carries the i-th content |
| EventStream.AppendAssoc | app/api/chat/stream/route.ts:55-62 | appending is associative |
| EventStream.FramesSnoc | app/api/chat/stream/route.ts:55-60 | one more content adds its event at the end |
| EventStream.FramesAppend | app/api/chat/stream/route.ts:55-60 | the events of two runs of content are the two runs of events |
| EventStream.ConcatAppend | app/api/chat/stream/route.ts:55-62 | the body of two runs of events is the two bodies one after the other |
| EventStream.LineEnd | app/api/chat/stream/route.ts:58 | the first line feed of a text, or its length when it has none |
| EventStream.LineEndAfter | app/api/chat/stream/route.ts:58 | a value without a line feed ends at the first line feed after it |
| EventStream.NextEventOf | app/api/chat/stream/route.ts:58 | an event whose value has no line feed reads back whole, with the rest of the body intact |
| EventStream.NextEventOfFrame | app/api/chat/stream/route.ts:58 | reading a content event gives its payload and the rest of the body |
| EventStream.NextEventOfDone | app/api/chat/stream/route.ts:61 | reading the final event gives the `[DONE]` sentinel and nothing after it |
| EventStream.ParsePayloadOf | app/api/chat/stream/route.ts:58 | a payload parses back to its content |
| EventStream.DecodeFrameThen | app/api/chat/stream/route.ts:58 | a content event in front of a readable body adds its content in front of what that body gives |
| EventStream.ConcatFramesCons | app/api/chat/stream/route.ts:55-60 | the body of a first content and the rest is its event followed by the rest's body |
| EventStream.DecodeFrames | app/api/chat/stream/route.ts:55-62 | reading the events of a run of contents, then the optional `[DONE]`, gives the contents in order and whether `[DONE]` came |
| StreamRoute.Prepare | app/api/chat/stream/route.ts:10-49 | a bad body gives 500, a missing message 400, a missing key 500, in that order; otherwise the request carries the prompt, history and message, `OPENAI_MODEL` or gpt-3.5-turbo, and 1000 tokens |
| StreamRoute.StreamModelFromEnv | app/api/chat/stream/route.ts:44 | the streamed model is `OPENAI_MODEL` when that is non-empty, gpt-3.5-turbo otherwise |
| StreamRoute.FirstUnreadable | app/api/chat/stream/route.ts:55-56 | the chunks before it are all readable, and the chunk at it, if any, throws when read |
| StreamRoute.ReadChunk | app/api/chat/stream/route.ts:56 | reading throws iff `choices` is missing; it gives no content iff `choices` is empty or the first choice lacks a delta or content; otherwise it gives the first choice's delta content |
| StreamRoute.Contents | app/api/chat/stream/route.ts:56-57 | at most one content per chunk, and never an empty one |
| StreamRoute.ContentOf | app/api/chat/stream/route.ts:56-57 | a chunk gives its content only when that content is non-empty |
| StreamRoute.ContentsSnoc | app/api/chat/stream/route.ts:55-57 | reading one more chunk adds that chunk's content, if any |
| StreamRoute.BodyFrames | app/api/chat/stream/route.ts:55-66 | `[DONE]` is the last event exactly when the stream completes, and it appears nowhere else |
| StreamRoute.StreamController.constructor | app/api/chat/stream/route.ts:52-53 | a new controller is open with nothing queued |
| StreamRoute.StreamController.Enqueue | app/api/chat/stream/route.ts:58 | appends the chunk to the queue, and the stream stays open |
| StreamRoute.StreamController.Close | app/api/chat/stream/route.ts:62 | closes the stream and keeps the queue |
| StreamRoute.StreamController.Error | app/api/chat/stream/route.ts:65 | errors the stream; the log of enqueued chunks is kept as it was |
| StreamRoute.RelayStep | app/api/chat/stream/route.ts:55-59 | one more readable chunk adds its event, if it has content |
| StreamRoute.RelayedFramesAreFrames | app/api/chat/stream/route.ts:55-59 | what the loop has enqueued so far is the events of the contents read so far |
| StreamRoute.RelayChunks | app/api/chat/stream/route.ts:55-60 | the loop enqueues one event per chunk with content, in chunk order, up to the first chunk that throws; it reads everything iff no chunk throws |
| StreamRoute.Pump | app/api/chat/stream/route.ts:53-67 | the relayed events, then `[DONE]` and close when the stream completes; otherwise the stream is errored with no `[DONE]` |
| StreamRoute.BodyDecodes | app/api/chat/stream/route.ts:55-62 | the enqueued frames decode to exactly the relayed contents, ending in `[DONE]` iff the stream completed |
| StreamRoute.Post | app/api/chat/stream/route.ts:8-85 | a rejection, a 500 when the call throws, or the streamed body that `Pump` produces |
| GeminiRoute.GeminiRole | app/api/gemini/route.ts:14 | "user" stays "user", and every other role becomes "model" |
| GeminiRoute.Contents | app/api/gemini/route.ts:11-19 | one entry per history turn, with its mapped role and its text, then the user's message last |
| GeminiRoute.RequestContents | app/api/gemini/route.ts:11-19 | without a history, the request holds the user's message alone |
| GeminiRoute.ClientHistoryRoles | app/api/gemini/route.ts:11-19 | from the window's messages, user turns are "user", assistant turns are "model", and the new message is last |
| GeminiRoute.Respond | app/api/gemini/route.ts:27-41 | a failed call gives 500 with Gemini's message or "Gemini API error"; a success gives 200 with the first candidate's text, or "" |
| GeminiRoute.FirstText | app/api/gemini/route.ts:33 | a text is found iff every link of `candidates[0].content.parts[0].text` is present, and then it is that text |
| GeminiRoute.ErrorMessage | app/api/gemini/route.ts:29 | a message is found iff `error.error.message` is present, and then it is that message |
| EnhancedRoute.BaseReply | app/api/chat/enhanced/route.ts:51-62 | the first matching keyword decides the reply, case-insensitively, and the default reply is used iff none matches |
| EnhancedRoute.SubstringGreeting | app/api/chat/enhanced/route.ts:54 | any message containing "this" gets the greeting, because "hi" is matched as a substring |
| EnhancedRoute.Respond | app/api/chat/enhanced/route.ts:10-91 | a bad body gives 500 and a missing message 400; otherwise 200 with the base reply followed by the chosen variation, stamped with the clock reading, the simulated model's name, and usage counted as JavaScript string lengths, in UTF-16 code units (prompt, reply and their sum) |
| EnhancedRoute.ModelIgnored | app/api/chat/enhanced/route.ts:12 | the requested model has no effect on the reply |
| ConversationsRoute.Get | app/api/conversations/route.ts:6-28 | 401 unless signed in, and 500 on a failure; otherwise 200 with every stored conversation, most recently updated first |
| ConversationsRoute.Post | app/api/conversations/route.ts:31-62 | the handler as written: 500 for a bad body, 400 without a title, 401 when not signed in; it never answers 200 and never writes, because the creation lacks a user id |
| ConversationsRoute.PostAsUser | app/api/conversations/route.ts:52-54 | with the user id passed: 200 iff a title is given, the user is signed in and the backend succeeds; then the new conversation is that user's, has that title and is appended to the table |
| AIService.Find | lib/ai-service.ts:42 | `find`: the first entry with that id, or none iff no entry has it |
| AIService.GetAvailableModels | lib/ai-service.ts:79-81 | the catalogue is DeepSeek Chat alone, with 2048 tokens |
| AIService.GetModelById | lib/ai-service.ts:84-86 | a model is found iff its id is "deepseek-chat" |
| AIService.ResolveMaxTokens | lib/ai-service.ts:47-50 | an explicit budget wins, even 0; then the model's own budget if it is non-zero; then 2048 |
| AIService.PrepareRequest | lib/ai-service.ts:42-65 | an unknown model is refused before any request; otherwise the service prompt comes first, followed by the messages unchanged |
| AIService.GenerateResponse | lib/ai-service.ts:34-76 | succeeds iff the model is known and the call succeeds; the content, or "No response generated", is tagged with the provider "deepseek"; the call's error is passed on |
| MessageInputComponent.MessageInput.constructor | components/message-input.tsx:12 | the field starts empty and nothing has been sent |
| MessageInputComponent.MessageInput.Change | components/message-input.tsx:40 | the field takes the typed value |
| MessageInputComponent.MessageInput.HandleSend | components/message-input.tsx:14-19 | a text that is not blank is sent as typed and the field is cleared, unless loading; otherwise nothing changes |
| MessageInputComponent.MessageInput.HandleKeyPress | components/message-input.tsx:21-26 | Enter without Shift, and nothing else, suppresses the newline and sends |
| MessageInputComponent.MessageInput.SubmitDisabled | components/message-input.tsx:54 | the button is disabled iff the text is blank or a reply is pending |
| MessageInputComponent.MessageInput.TextareaDisabled | components/message-input.tsx:45 | the text area is disabled iff a reply is pending, and then the send button is disabled as well |
| TypingTextComponent.TypingText.constructor | components/typing-text.tsx:8-19 | nothing is shown yet; the speed defaults to 30; the timer runs iff there is text |
| TypingTextComponent.TypingText.Units | components/typing-text.tsx:16-18 | the code units that `charAt` and `length` index are empty iff the text is |
| TypingTextComponent.TypingText.Restart | components/typing-text.tsx:11-19 | the effect resets the shown text and restarts the timer iff there is text |
| TypingTextComponent.TypingText.SetProps | components/typing-text.tsx:11-21 | new text or speed restarts the animation, and unchanged props keep it as it is |
| TypingTextComponent.TypingText.Tick | components/typing-text.tsx:15-18 | one tick shows the next UTF-16 code unit of the text (what `charAt` returns), and the timer stops after the last one |
| TypingTextComponent.TypingText.Unmount | components/typing-text.tsx:20 | the cleanup stops the timer and keeps what is shown |
| TypingTextComponent.RunToEnd | components/typing-text.tsx:15-18 | ticking until the timer stops shows every code unit of the text, taking exactly `text.length` ticks (UTF-16 code units) |
| ChatInterfaceComponent.ChatInterface.constructor | components/chat-interface.tsx:10-18 | the window opens with the greeting alone and not loading |
| ChatInterfaceComponent.ChatInterface.BeginSend | components/chat-interface.tsx:29-40 | a blank text changes nothing; otherwise the user's message is appended, loading starts, and the request carries the history from before the append |
| ChatInterfaceComponent.ChatInterface.CompleteSend | components/chat-interface.tsx:44-65 | exactly one assistant message, the reply or the apology, is appended, and loading ends |
| ChatInterfaceComponent.ChatInterface.HandleSendMessage | components/chat-interface.tsx:29-66 | a send that is not blank adds the user's message and one assistant reply, or the apology, and keeps what was there |
| StreamingChatComponent.ErrorReply | components/streaming-chat-interface.tsx:166-173 | the error message is an assistant message that holds the error between the fixed prefix and suffix |
| StreamingChatComponent.ShownAll | components/streaming-chat-interface.tsx:40-46 | one window message per stored message |
| StreamingChatComponent.ShownAllKeepsOrder | components/streaming-chat-interface.tsx:40-46 | the loaded messages keep their content, role and chronological order |
| StreamingChatComponent.Entries | components/streaming-chat-interface.tsx:92-93 | one sidebar row per conversation |
| StreamingChatComponent.PreviewText | components/streaming-chat-interface.tsx:244 | up to eight words are shown whole; beyond that, the first eight words, a strict prefix of the text, then "..." |
| StreamingChatComponent.Snippet | components/streaming-chat-interface.tsx:243-245 | a row shows a preview iff it has non-empty preview text |
| StreamingChatComponent.Complaint | components/streaming-chat-interface.tsx:147-150 | the error of a failed request is the route's message, or "Failed to get response", or the thrown message |
| StreamingChatComponent.GeminiReachesWindow | components/streaming-chat-interface.tsx:147-152 | together with the Gemini route, a success shows Gemini's text and a failure shows Gemini's own message or "Gemini API error" |
| StreamingChatComponent.StartFailure | components/streaming-chat-interface.tsx:87-95 | a send with nothing selected fails at creation iff there is no user id or the backend fails, and otherwise at listing iff listing fails |
| StreamingChatComponent.ConverseOutcome | components/streaming-chat-interface.tsx:98-163 | the request is made iff the prompt is saved; the reply is delivered iff the route answered and the reply is saved |
| StreamingChatComponent.ReplyOutcome | components/streaming-chat-interface.tsx:134-163 | after the prompt is saved: the reply is delivered iff the route answered and saving succeeded, and otherwise the failure names its step and error |
| StreamingChatComponent.SendOutcomeSteps | components/streaming-chat-interface.tsx:78-177 | a send is skipped iff the text is blank or there is no user; it asks only once the prompt is saved; and it delivers only what the route answered and the store saved |
| StreamingChatComponent.AfterSendAddsOneAnswer | components/streaming-chat-interface.tsx:100-174 | a send adds exactly one assistant message, the reply or an error reply naming the failure, and the prompt before it iff the request was made |
| StreamingChatComponent.WindowMatchesStore | components/streaming-chat-interface.tsx:98-163 | every row the send saves is shown in the same order with the same role and content |
| StreamingChatComponent.Started | components/streaming-chat-interface.tsx:87-95 | when the start does not fail, a conversation is selected, and it is in the store whenever nothing was selected before |
| StreamingChatComponent.Conversed | components/streaming-chat-interface.tsx:98-163 | saving the prompt, asking and saving the reply keep the selection |
| StreamingChatComponent.Answered | components/streaming-chat-interface.tsx:134-163 | the request and its saving keep the selection |
| StreamingChatComponent.SentEffect | components/streaming-chat-interface.tsx:78-177 | every send past its guard ends loading; the list gains `AfterSend`'s messages (after an emptied list once a new conversation is listed); with nothing selected, a "New Chat" of the user's with the next id is created and selected; the store gains exactly the rows the send saved, in that conversation |
| StreamingChatComponent.SentWhenStartFails | components/streaming-chat-interface.tsx:87-95 | the same effect, for a send whose creation or listing fails |
| StreamingChatComponent.SentAfterStart | components/streaming-chat-interface.tsx:87-98 | the same effect, for a send whose start does not fail |
| StreamingChatComponent.SentAfterPrompt | components/streaming-chat-interface.tsx:98-177 | the same effect, for a send that got as far as making its request |
| StreamingChatComponent.NewestMessage | components/streaming-chat-interface.tsx:32-33 | for a conversation with messages, the history query with limit 1 returns one message, and no message of that conversation is newer |
| StreamingChatComponent.NewestOfOne | components/streaming-chat-interface.tsx:32-33 | the one row kept is a newest one |
| StreamingChatComponent.StreamingChatInterface.constructor | components/streaming-chat-interface.tsx:15-65 | the sidebar is empty, the prop's conversation is selected, the greeting is shown alone, and nothing is loading |
| StreamingChatComponent.StreamingChatInterface.WithPreview | components/streaming-chat-interface.tsx:31-33 | a sidebar row carries its conversation and a preview |
| StreamingChatComponent.StreamingChatInterface.WithPreviews | components/streaming-chat-interface.tsx:30-35 | one sidebar row per conversation |
| StreamingChatComponent.StreamingChatInterface.PreviewIsNewest | components/streaming-chat-interface.tsx:32-33 | a preview is the text of a newest message of its conversation, or "" for a conversation without messages |
| StreamingChatComponent.StreamingChatInterface.FetchConversations | components/streaming-chat-interface.tsx:23-54 | for a signed-in user the sidebar becomes the listing with a preview per row, and any failure empties it; the prop's conversation's messages replace the list when they load; without a user nothing changes |
| StreamingChatComponent.StreamingChatInterface.ShowConversation | components/streaming-chat-interface.tsx:39-47 | the loaded conversation's messages replace the list iff it loads, and otherwise the error is returned |
| StreamingChatComponent.StreamingChatInterface.HandleSendMessage | components/streaming-chat-interface.tsx:78-178 | the outcome is the step-by-step one; a skipped send changes nothing; any other send leaves the window and store as `Sent` describes, and the request carries the message, conversation and history |
| StreamingChatComponent.StreamingChatInterface.Send | components/streaming-chat-interface.tsx:81-177 | the send past its guard, for a user and a text that is not blank: never skipped, with the same outcome and effect |
| StreamingChatComponent.StreamingChatInterface.StartConversation | components/streaming-chat-interface.tsx:87-95 | creates, selects and lists when nothing is selected, and stops at the first failure |
| StreamingChatComponent.StreamingChatInterface.Converse | components/streaming-chat-interface.tsx:98-163 | saves the prompt and shows it, asks, then saves and shows the reply; the request is made iff the prompt is saved |
| StreamingChatComponent.StreamingChatInterface.AwaitReply | components/streaming-chat-interface.tsx:134-163 | the reply is saved and shown when the route answered, and otherwise the failure is reported |
| StreamingChatComponent.StreamingChatInterface.Settle | components/streaming-chat-interface.tsx:164-177 | the catch shows the error reply and the finally ends loading |
| StreamingChatComponent.StreamingChatInterface.SelectConversation | components/streaming-chat-interface.tsx:228-240 | the row is selected at once, and its messages replace the list iff it loads; the sidebar, loading flag and streamed text are untouched |
| StreamingChatComponent.StreamingChatInterface.DeleteConversation | components/streaming-chat-interface.tsx:250-265 | after a successful delete, the store has lost the conversation and its messages, the sidebar is the old list without that row (order kept), and a deleted selection resets to the greeting; a failure changes nothing; the loading flag and streamed text are untouched |
| StreamingChatComponent.StreamingChatInterface.NewChat | components/streaming-chat-interface.tsx:277-284 | for a signed-in user, creates "New Chat", selects it, clears the list and refreshes the sidebar, stopping at the first failure; stored messages, the loading flag and streamed text are untouched |

## Left out

- Floating point: the temperature settings (`lib/config.ts:6`, `app/api/chat/route.ts:66`, `app/api/chat/stream/route.ts:47`) are not modelled.
- Randomness: `Math.random()` in the fallback and variation choices is the index parameter `pick`.
- Time: `new Date()` and `Date.now()` are natural-number clock readings (`now`) passed to each handler that reads the clock, and message ids are their decimal forms. A reply's `timestamp` holds the reading itself; its `toISOString()` rendering is not modelled.
- Identifiers: the backend's generated ids are a counter (`nextId`), and rows with equal sort keys keep the order that insertion sort gives them.
- Authentication: the `supabase.auth.getUser()` outcome and the row-level policy are inputs. The store does not filter by owner, because that is done by the policy, which is not part of this model. The backend's foreign key and its cascade on delete are taken as how the backend behaves.
- Backend errors are optional messages passed to each store call. The backend's own texts (a missing row, a missing parent) are fixed strings.
- The network: the answers of OpenRouter, OpenAI, Gemini and the routes are inputs. `request.json()` is a `Result` input.
- `JSON.stringify` is modelled only for the one-field object `{ content }` with a string value. The decoder of the event stream does not read `\uXXXX` escapes outside the control range, which the encoder never produces. `TextEncoder` bytes are left as characters.
- StreamRoute.BodyDecodes: states what the handler enqueues, not what a reader receives after an error. When `controller.error` runs, the stream discards the frames not yet read (the queue reset of the WHATWG Streams standard), so a slow reader of an errored stream may see fewer frames; `StreamController.queue` is the log of enqueued frames.
- The event-stream decoder is part of the model only, as the independent reader that the body is proved against. No file of the repository reads the stream.
- EnhancedRoute.Respond: body fields are typed as optional strings. A truthy non-string `message` (such as `{"message": 5}`) makes `toLowerCase` throw, and the route answers 500; that path is not modelled. The same typing holds for the request bodies of the other routes.
- Strings are sequences of Unicode scalar values, so a JavaScript string holding a lone surrogate cannot be represented. `Utf16` gives the code units that `length` and `charAt` count.
- `toLowerCase` lowers only ASCII capitals, so non-ASCII case mapping is not modelled.
- `error?.message || error?.toString()` is approximated by a `Thrown` record that carries both texts.
- Headers: the `SITE_URL` and `SITE_NAME` headers, the stream route's response headers and the Gemini API URL and key are not modelled.
- Gemini route exceptions (a failed `fetch` or `json()`) are not caught by the route, so they are not modelled.
- React mechanics are not modelled. These are asynchronous interleaving, state batching, `router.push` (`components/streaming-chat-interface.tsx:183-187`), scrolling, `sidebarOpen` and `selectedModel`. `streamingMessage` is only ever set to "".
- The mount effect of the streaming window issues one history query per conversation at once (`Promise.all`). Their failures are collapsed into one `historyError` input.
- The typing animation's delay between ticks is not modelled, only the order of its ticks.
- The UI-only components and pages (header, message list, message content, model selector, the pages, the middleware and the models route) are not part of this model.
- `lib/huggingface-service.ts` is not part of this model.
- StreamingChatComponent.Entries: states only the row count, because a refreshed row simply wraps its conversation.
- StreamingChatComponent.StreamingChatInterface.WithPreviews: states only the row count; what each row holds is stated by `WithPreview` and `PreviewIsNewest`.

## Findings

| source | as written | input that shows it | evidently intended | confidence | as-written member | corrected member |
|---|---|---|---|---|---|---|
| app/api/chat/route.ts:75-77 | `addMessage(conversationId, role, text)` is called without the user id, so the service throws at its guard (`lib/conversation-service.ts:72-74`) and the route's catch swallows it | a signed-in user posts a message with a conversation id, and the model answers; neither message is stored | pass `user.id`, so that the user's message and the reply are saved in that conversation | not executed | ChatRoute.Post | ChatRoute.PostAsUser |
| app/api/conversations/route.ts:52 | `createConversation(title)` is called without the user id, so the service throws at its guard (`lib/conversation-service.ts:50-52`) and the route answers 500 | a signed-in user posts `{ "title": "Demo" }`; the answer is 500 "Failed to create conversation" and no row is written | pass `user.id`, so that the new conversation is created for the user and returned with status 200 | not executed | ConversationsRoute.Post | ConversationsRoute.PostAsUser |
