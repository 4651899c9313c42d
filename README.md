# Nexus chat widget and its keyword backend, modelled in Dafny

This project models the logic of a browser chat widget (`chatbot-config.js`)
and of the small Flask service it talks to (`app.py`).

The widget keeps one global state record: whether the panel is open, the
ordered message log, a loading flag and the conversation id. A send is
single-flight. Blank text, or a send while a reply is pending, is dropped
without queueing. An accepted send appends the user's message and sets the
flag; when the request settles, exactly one bot message is appended, the
whole log is written to `localStorage` under `chatbot_history_<id>`, and the
flag is cleared. Clearing the history, once confirmed, removes every
`chatbot_history_` key, keeps all other keys, starts a new conversation id
and leaves only the welcome message.

The backend keeps a dictionary from conversation id to its turns. It
rejects a message that is empty after stripping with status 400 and changes
nothing. Otherwise it appends the user's turn and the assistant's reply. The
reply comes from a first-match keyword table (`halo`, `apa`, `bantuan`, in
that order), matched case-insensitively, with a default reply that quotes
the message.

Files:

- `Wrappers.dfy`: `Option`, standing for `undefined`/`null` and for
  Python's missing dictionary keys.
- `Text.dfy`: trimming, ASCII lower-casing, prefix and substring tests.
  The substring scan is proved equal to the definition "occurs at some
  index".
- `ChatbotConfig.dfy`: the widget. `Chatbot` is a class over the fields
  of `CHATBOT_STATE` and holds a `LocalStorage` object whose map is updated
  in place. `Restored`, `WithoutHistory`, `InitialLog`, `BackendResult` and
  `Toggled` are the functions its methods are proved against.
- `App.dfy`: the backend. `ChatServer` holds a `conversations` map. The
  responder is a recursive first-match search over the ordered keyword
  table.
- `Scenarios.dfy`: whole sessions driven through the widget's method
  contracts: the happy path, a send while pending, a failed request, a
  reload, and a clear followed by a reload.

Abstractions:

- The network call is an input, `BackendOutcome`. It is either a 2xx
  body with its possibly absent `reply`, or a failure carrying the fallback
  draw `Math.floor(Math.random() * 3)` as a number below 3.
- The asynchronous `handleChatbotInput` is split at its `await`:
  `BeginSend` and then `CompleteSend`. `HandleChatbotInput` runs both with
  no interleaving.
- `confirm()` becomes the `confirmed` parameter. The new id from
  `generateConversationId` becomes the `newId` parameter. The presence of
  the DOM elements becomes a boolean or an `Option` parameter.
- A stored value is either a parsed log or `Unparsable`. Loading an
  unparsable value leaves the log unchanged, as the `catch` does.

Three points of the code's behaviour that the model keeps as written:

- Clearing leaves the welcome message in the log, not an empty log. The
  new id is whatever `generateConversationId` returns. Nothing guarantees it
  differs from the old one, and the model does not claim it does.
- `conversationId` is generated afresh at every script load
  (chatbot-config.js:50) and is never read back from storage. A reload
  therefore reads the key of a new id. `ReloadSameConversation` proves the
  round trip for a page that comes back under the same id. That condition
  is what restoring needs, and the code does not arrange it.
- `handleChatbotInput` trims only to test for blankness. It stores the text
  as given. `sendChatbotMessage` trims first, so on that path the stored
  text is trimmed.

## Model

| member | source | states |
|---|---|---|
| `Text.Trim` | chatbot-config.js:117 | the result is the slice of the input left after dropping only leading and trailing whitespace, and it neither starts nor ends with whitespace |
| `Text.TrimEmptyIffBlank` | app.py:18-22 | a message trims to empty exactly when every character is whitespace |
| `Text.TrimIdempotent` | chatbot-config.js:401-403 | trimming an already trimmed message changes nothing, so the second trim in `handleChatbotInput` agrees with the first |
| `Text.Lower` | app.py:61 | same length; every ASCII capital becomes its small letter and every other character is kept |
| `Text.ContainsIff` | app.py:71 | the left-to-right scan used for `keyword in message_lower` succeeds exactly when the keyword occurs at some index |
| `Text.ContainsMiddle` | app.py:75 | a string built around a message contains that message |
| `App.FirstMatch` | app.py:69-72 | returns the index of the first rule whose keyword occurs, with no earlier rule matching, or nothing when no keyword occurs |
| `App.GenerateBotResponse` | app.py:54-75 | the reply is always one of the three rule responses or `DefaultReply(message)`; which one is pinned down by `FirstKeywordWins` (the response of the first rule whose keyword occurs in the lower-cased message) and `NoKeywordQuotesMessage` (the default reply when none occurs) |
| `App.FirstKeywordWins` | app.py:61-72 | when rule k is the first whose keyword occurs in the lower-cased message, the reply is rule k's response |
| `App.NoKeywordQuotesMessage` | app.py:74-75 | with no keyword present the reply is the default one, and it contains the original, un-lowercased message |
| `App.HaloBeforeApa` | app.py:63-72 | "halo apa" holds two keywords and gets the `halo` reply, because that rule is tried first |
| `App.RuleOrderDecides` | app.py:63-72 | a message holding `halo` anywhere, whatever text or keywords come before it (as in "bantuan halo"), gets the `halo` reply: rule order, not position in the text, decides |
| `App.MatchIgnoresCase` | app.py:61 | "HALO APA" gets the `halo` reply too |
| `App.ChatServer.constructor` | app.py:9 | the store starts with no conversations |
| `App.ChatServer.GetConversation` | app.py:77-84 | the stored turns for a known id, the empty list otherwise |
| `App.ChatServer.RecordExchange` | app.py:25-43 | creates the conversation if absent, then appends the user's turn followed by the assistant's turn; every other id is untouched |
| `App.ChatServer.HandleChat` | app.py:12-49 | a message empty after stripping gives a 400 error and leaves `conversations` equal to before; otherwise the target conversation grows by exactly the stripped user turn and the reply turn, and the response carries `GenerateBotResponse` of the stripped message and echoes the id |
| `App.TwoExchanges` | app.py:25-43 | two accepted messages to one conversation leave four turns in order, and a blank third message is rejected |
| `ChatbotConfig.FallbackResponse` | chatbot-config.js:192-200 | the result is one of the three fallback strings |
| `ChatbotConfig.BackendResult` | chatbot-config.js:173-184 | a non-empty `reply` is returned verbatim; an absent or empty one gives the error message; any failure gives a fallback string |
| `ChatbotConfig.BackendResultNonEmpty` | chatbot-config.js:178-199 | the text of the bot reply is never empty, whatever the outcome |
| `ChatbotConfig.HistoryKey` | chatbot-config.js:315 | the key starts with `chatbot_history_` and what follows the prefix is the id |
| `ChatbotConfig.HistoryKeyInjective` | chatbot-config.js:315 | two conversations with different ids never share a storage key |
| `ChatbotConfig.Restored` | chatbot-config.js:326-338 | the log after loading is either the current log or exactly the log stored under the conversation's key; it is the current log when the key is absent or its value does not parse, and the stored log when the value parses |
| `ChatbotConfig.SaveThenLoad` | chatbot-config.js:312-332 | loading a conversation right after saving it gives back exactly the saved log, in the same order |
| `ChatbotConfig.SaveKeepsOtherConversations` | chatbot-config.js:314-317 | saving one conversation does not change what any other conversation loads |
| `ChatbotConfig.WithoutHistory` | chatbot-config.js:370-373 | after the sweep, a key is present exactly when it was present before and does not start with the prefix; kept keys keep their values |
| `ChatbotConfig.ClearedStorageRestoresNothing` | chatbot-config.js:370-373 | after the sweep, loading any conversation id leaves the log as it was |
| `ChatbotConfig.InitialLog` | chatbot-config.js:64-71 | the log after initialisation is never empty: it is the restored log, or the welcome message alone with `isWelcome` set |
| `ChatbotConfig.Toggled` | chatbot-config.js:100-102 | `isOpen` flips when the widget element exists and is unchanged otherwise |
| `ChatbotConfig.ToggleTwice` | chatbot-config.js:96-110 | toggling twice restores `isOpen` |
| `ChatbotConfig.Chatbot.constructor` | chatbot-config.js:46-51 | the state starts closed, with an empty log, not loading, and with the given id |
| `ChatbotConfig.Chatbot.GetStatus` | chatbot-config.js:437-444 | the status reports `isOpen`, `isLoading`, the log's length and the id |
| `ChatbotConfig.Chatbot.Toggle` | chatbot-config.js:96-110 | `isOpen` becomes `Toggled` of its old value; the log, flag and id are unchanged |
| `ChatbotConfig.Chatbot.AddUserMessage` | chatbot-config.js:207-216 | the log becomes the old log followed by one user message with the given content; nothing else changes |
| `ChatbotConfig.Chatbot.AddBotMessage` | chatbot-config.js:223-233 | the log becomes the old log followed by one bot message with the given content and `isWelcome`; nothing else changes |
| `ChatbotConfig.Chatbot.SaveMessageHistory` | chatbot-config.js:312-321 | storage becomes the old storage with the whole current log under `chatbot_history_<id>`; no other key changes |
| `ChatbotConfig.Chatbot.LoadMessageHistory` | chatbot-config.js:326-338 | the log becomes `Restored` of the storage, the id and the old log; the other fields are unchanged |
| `ChatbotConfig.Chatbot.Initialize` | chatbot-config.js:64-71 | the log becomes `InitialLog` of what was restored, so it is non-empty |
| `ChatbotConfig.Chatbot.BeginSend` | chatbot-config.js:116-128 | the send is accepted exactly when the text is not blank and no reply is pending; if accepted, the log gains the user message with the text as given and `isLoading` is set; if not, the log and flag are unchanged |
| `ChatbotConfig.Chatbot.CompleteSend` | chatbot-config.js:130-148 | the log gains exactly one bot message carrying `BackendResult` of the outcome, the whole new log is saved under the conversation's key, and `isLoading` is false |
| `ChatbotConfig.Chatbot.HandleChatbotInput` | chatbot-config.js:116-149 | either nothing changes in the log, flag or storage, or the log grows by the user message followed by one bot message, the whole log is saved, and `isLoading` ends false |
| `ChatbotConfig.Chatbot.SendChatbotMessage` | chatbot-config.js:397-405 | a missing input element or a blank value gives no change; otherwise the trimmed text is sent as by `HandleChatbotInput` |
| `ChatbotConfig.Chatbot.ClearHistory` | chatbot-config.js:357-380 | declined: nothing changes; confirmed: the log is exactly the welcome message with `isWelcome` set, the id is the new one, and storage is `WithoutHistory` of the old storage |
| `ChatbotScenarios.HappyPath` | chatbot-config.js:116-149 | "hello" answered by `{reply: "Hi there"}` leaves exactly those two messages, and the widget is idle |
| `ChatbotScenarios.SendWhilePending` | chatbot-config.js:117 | a second send while a reply is pending is dropped, and only the first exchange reaches the log |
| `ChatbotScenarios.BackendDown` | chatbot-config.js:179-199 | when the request fails, the bot's reply is one of the fallback strings, and loading is over |
| `ChatbotScenarios.ReloadSameConversation` | chatbot-config.js:64-71 | a page that comes back under the same id shows exactly the log the previous page saved |
| `ChatbotScenarios.ClearThenReload` | chatbot-config.js:357-380 | after a confirmed clear the log is the welcome message, no history key is left, unrelated keys keep their values, and a later page under any id starts from the welcome message |

## Left out

- DOM work: rendering bubbles, the typing indicator, scrolling, focus, clearing the input field, and the event listeners. These are presentation only.
- The HTTP request, its status check, JSON encoding and decoding, the payload, and the `timeout` option. The `timeout` option is not a `fetch` option, so the 30-second limit is not enforced anyway. All of these become the `BackendOutcome` parameter.
- The outer `catch` of `handleChatbotInput` (chatbot-config.js:142-145). It adds `MESSAGES.error` without saving. The model has no path into it, because `sendMessageToBackend` catches every failure itself.
- Storage exceptions such as an exceeded quota. These are caught and logged in the source. The model's `setItem` and `removeItem` always succeed.
- Timestamps, `Math.random` and the format of `generateConversationId`. The fallback draw and new ids are parameters.
- A reply field that is present but not a string, and a stored JSON value that parses but is not a message array. Both are outside the `BackendOutcome` and `StoredValue` types.
- `exportChatbotConversation`, `getChatbotHistory` and `updateChatbotApiUrl`. These are JSON output, a plain getter and configuration.
- Flask plumbing: routing, CORS, `request.get_json`, the timestamp in stored turns and responses, `health_check`, and the generic 500 handler. The 500 handler is also what a non-string `message` field would reach.
- Concurrent requests to the Flask service. `app.run` at app.py:94 serves requests on threads, but `HandleChat` is one atomic step. Two requests on the same conversation can interleave their appends as user A, user B, reply A, reply B, and two first requests can both pass the check at app.py:25-26 so one turn list replaces the other. The "grows by exactly two turns" contract holds for one request at a time.
- A `conversationId` that is not a string. `data.get('conversationId', '')` at app.py:19 takes any JSON value. A present `null` is stored under the key `None` and echoed back as `null` rather than treated as `''`, a number becomes an integer key, and a list raises `TypeError` at app.py:25 and reaches the 500 handler. The model's `ChatRequest` carries only an optional string.
- Unicode semantics of `trim`, `strip` and `lower`. Whitespace is the six ASCII whitespace characters, and lower-casing maps only `A`-`Z`.
- Logging to the console, and interleaving on the JavaScript event loop beyond the two-step guard.
