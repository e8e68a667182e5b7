# Chat front-end core, modelled in Dafny

This project models the sequential core of a single-page chat client that talks
to a large-language-model service through one of two backend adapters (a cloud
completion API and a local inference server):

- **Conversation store and send orchestration** (`chat_app.dfy`, module
  `ChatApp`): the page keeps a most-recent-first list of conversations, the id
  of the current one and the selected model. `ChatPage` is a class with those
  fields and methods for creating, selecting and sending. One send is a pure
  specification function `Send` over an `AppState` value. The lemmas about
  `Send` state what a send does. `ChatPage.HandleSendMessage` performs the same
  steps on the fields and is proved equal to `Send`.
- **Backend adapters** (`groq_api.dfy`, `ollama.dfy`, `backend.dfy`): each
  adapter is a class over `models`, `isLoading`, `error` and `isConnected`.
  Every network call is an abstract `Outcome` parameter: `Ok(body)`,
  `NotOk(status, errorMessage)` or `Threw(thrown)`. The asynchronous
  `sendMessage` is split where the request is issued. `BeginSend` runs the
  guards, sets the in-flight flag and builds the request. The awaits after
  that point (the response and the parsing of its body) are folded into the
  one `Outcome` that `FinishSend` receives. `FinishSend` turns the
  response into a reply or a rejection and clears the in-flight flag. `SendMessage`
  runs both.
- **Input box** (`chat_input.dfy`, module `ChatInputBox`): a one-field buffer
  with the submit guard and the Enter-key handler.
- **Record shapes** (`chat_types.dfy`): `Message`, `AIModel`, `ChatRequest`
  and the role type.
- **Helpers** (`text.dfy`, `wrappers.dfy`): JavaScript's `String.prototype.trim`
  and the decimal rendering of a status code, plus `Option` and `Result`.

Three behaviours of the code are kept as written:

- The send guard checks only the selected model and the connection flag. It
  does not check the model catalog. Only the input box's `disabled` flag
  (`canChat`) looks at the catalog. `ChatApp.CanChat` states that `canChat`
  implies the guard.
- Selecting a conversation stores the given id whether or not such a
  conversation exists. `ChatApp.SendToUnknown` states what a send then does:
  no conversation changes, and the adapter still receives the user's message.
- The local adapter sends a body with `stream: false`, but the shared
  `ChatRequest` record has no such field. The model gives the local adapter its
  own body record, `OllamaApi.LocalChatRequest`.

## Model

| member | source | states |
|---|---|---|
| `Text.Trim` | src/components/ChatInput.tsx:33-34 | the trimmed text is no longer than the text and neither starts nor ends with whitespace |
| `Text.TrimIsCore` | src/components/ChatInput.tsx:33-34 | `trim` returns a contiguous slice of the text with only whitespace cut off on either side, and the slice neither starts nor ends with whitespace |
| `Text.TrimEmptyIffBlank` | src/components/ChatInput.tsx:33 | the trimmed text is empty exactly when the text is all whitespace |
| `Text.TrimIdempotent` | src/components/ChatInput.tsx:34 | trimming an already trimmed text changes nothing |
| `Text.NatToString` | src/hooks/useOllama.ts:74 | a status renders as a non-empty string of decimal digits with no leading zero |
| `Text.NatToStringRoundTrip` | src/hooks/useOllama.ts:74 | reading the rendered digits back gives the status again |
| `Text.NatToStringInjective` | src/hooks/useOllama.ts:74 | different statuses render differently |
| `Backend.Project` | src/hooks/useGroqAPI.ts:89-92 | the request messages have the same length and order as the history, and each keeps exactly the role and the content |
| `Backend.ProjectAppend` | src/hooks/useGroqAPI.ts:89-92 | projecting the earlier messages followed by the new one is projecting each part |
| `Backend.ReplyOrFallback` | src/hooks/useGroqAPI.ts:116 | the reply is the content when it is present and non-empty, else the fixed fallback; it is never empty |
| `Backend.HttpStatusError` | src/hooks/useGroqAPI.ts:112 | the generic error text starts with `HTTP error! status: ` followed by the status |
| `Backend.HttpStatusErrorInjective` | src/hooks/useOllama.ts:73-75 | two statuses never give the same generic error text |
| `Backend.CaughtMessage` | src/hooks/useGroqAPI.ts:118 | a thrown `Error` gives its own message; any other thrown value gives the fixed text |
| `GroqApi.KeyConfigured` | src/hooks/useGroqAPI.ts:43 | an absent key, an empty key and the template placeholder are refused; every other key is accepted |
| `GroqApi.AvailableModelsCatalog` | src/hooks/useGroqAPI.ts:7-28 | the catalog has four models with distinct identifiers, each described, and the first is `llama3-8b-8192` |
| `GroqApi.CompletionRequest` | src/hooks/useGroqAPI.ts:89-99 | the body carries the selected model, a token cap of 1024, the temperature, and the history reduced to role and content in the same order |
| `GroqApi.ResponseErrorText` | src/hooks/useGroqAPI.ts:110-113 | a non-2xx response is reported with the provider's `error.message` when present and non-empty, else with the status text |
| `GroqApi.Settle` | src/hooks/useGroqAPI.ts:110-120 | the call resolves exactly when the response is 2xx, and then to a non-empty reply (the content or the fallback); otherwise it rejects with the provider or status text, or with the thrown message |
| `GroqApi.SettleScenarios` | src/hooks/useGroqAPI.ts:110-116 | content `hi` resolves to exactly `hi`; a 500 with an empty body rejects with `HTTP error! status: 500` |
| `GroqApi.GroqClient.constructor` | src/hooks/useGroqAPI.ts:31-34 | no models, not loading, no error, not connected |
| `GroqApi.GroqClient.CheckConnection` | src/hooks/useGroqAPI.ts:40-69 | a missing or placeholder key makes no probe, sets disconnected and the key notice, and leaves the models alone; a 2xx probe sets connected, installs exactly the four-model catalog and clears the error; any other probe outcome sets disconnected and the connection notice and leaves the models alone |
| `GroqApi.GroqClient.BeginSend` | src/hooks/useGroqAPI.ts:75-99 | a missing key or a lost connection rejects with its own text and changes nothing; otherwise it marks the request in flight, clears the error and issues the completion request |
| `GroqApi.GroqClient.FinishSend` | src/hooks/useGroqAPI.ts:110-123 | the reply is how the response settles; a rejection is recorded as the error with the same text it is rethrown with; the in-flight flag is cleared on every path |
| `GroqApi.GroqClient.SendMessage` | src/hooks/useGroqAPI.ts:71-124 | a request is issued exactly when the key is usable and the adapter is connected; without one nothing changes and the call rejects with the key text when the key is unusable, else with the connection text; with one the call settles as `Settle` says, the error field holds the rejection text or nothing, and the in-flight flag ends cleared |
| `OllamaApi.ChatBody` | src/hooks/useOllama.ts:54-63 | the body carries the selected model, `stream` off, and the history reduced to role and content in the same order |
| `OllamaApi.Settle` | src/hooks/useOllama.ts:73-82 | the call resolves exactly when the response is 2xx, and then to the content or the fallback; a non-2xx status rejects with the status text only; a thrown value rejects with its message |
| `OllamaApi.SettleNamesStatus` | src/hooks/useOllama.ts:73-75 | two non-2xx responses that reject with the same text have the same status |
| `OllamaApi.OllamaClient.constructor` | src/hooks/useOllama.ts:7-10 | no models, not loading, no error, not connected |
| `OllamaApi.OllamaClient.CheckConnection` | src/hooks/useOllama.ts:17-26 | any answer sets connected to whether it was 2xx and clears the error, even when not 2xx; a thrown probe sets disconnected and the fixed notice |
| `OllamaApi.OllamaClient.FetchModels` | src/hooks/useOllama.ts:28-40 | a 2xx answer replaces the models with the listed ones (none if the field is absent) and clears the error; a non-2xx answer changes nothing; a thrown request records the notice and keeps the previous models |
| `OllamaApi.OllamaClient.BeginSend` | src/hooks/useOllama.ts:46-63 | when disconnected it rejects with no request and no change; otherwise it marks the request in flight, clears the error and issues the chat request |
| `OllamaApi.OllamaClient.FinishSend` | src/hooks/useOllama.ts:73-85 | the reply is how the response settles; a rejection is recorded as the error with the same text; the in-flight flag is cleared on every path |
| `OllamaApi.OllamaClient.SendMessage` | src/hooks/useOllama.ts:42-86 | a request is issued exactly when connected; without one nothing changes; with one the call settles as `Settle` says and the in-flight flag ends cleared |
| `ChatInputBox.Submission` | src/components/ChatInput.tsx:33-34 | what is passed on is the trimmed buffer |
| `ChatInputBox.SubmissionSpec` | src/components/ChatInput.tsx:33-34 | a send happens exactly when the input is enabled and the buffer has a non-whitespace character; the text sent is non-empty, already trimmed, and has no whitespace at either end |
| `ChatInputBox.KeyPress` | src/components/ChatInput.tsx:39-46 | exactly Enter without Shift suppresses the default action, and it attempts a send exactly when no reply is loading; every other key does nothing |
| `ChatInputBox.ChatInput.constructor` | src/components/ChatInput.tsx:17 | the buffer starts empty |
| `ChatInputBox.ChatInput.OnChange` | src/components/ChatInput.tsx:62 | the buffer holds the typed text |
| `ChatInputBox.ChatInput.HandleSend` | src/components/ChatInput.tsx:32-37 | the text passed on is `Submission` of the buffer; after a send the buffer is empty, and when the guard fails it is unchanged |
| `ChatInputBox.ChatInput.HandleKeyPress` | src/components/ChatInput.tsx:39-46 | plain Enter while not loading sends as `HandleSend` does; Shift+Enter, other keys and Enter while loading never send and leave the buffer unchanged |
| `ChatApp.Title` | src/App.tsx:57-60 | a title is at most 33 characters; a text of at most 30 characters is its own title; a longer text gives its first 30 characters followed by `...` |
| `ChatApp.Update` | src/App.tsx:62-68 | mapping an edit over the list by id keeps the list's length |
| `ChatApp.ApplyEdit` | src/App.tsx:62-104 | an edit keeps the conversation's id and timestamp; a new title changes only the title; an appended message goes last and nothing else changes |
| `ChatApp.UpdateAt` | src/App.tsx:62-68 | updating by id edits exactly the conversations with that id, each in its own position; every other position holds the same conversation, and every id is kept |
| `ChatApp.Find` | src/App.tsx:28 | whatever `find` yields carries the id looked for |
| `ChatApp.FindAbsent` | src/App.tsx:107 | `find` comes back empty exactly when no conversation has the id |
| `ChatApp.FindIndex` | src/App.tsx:107 | what `find` yields is an element of the list |
| `ChatApp.FindFirst` | src/App.tsx:28 | `find` yields the first conversation with the id |
| `ChatApp.FindUnique` | src/App.tsx:28 | with distinct ids, `find` yields the one conversation carrying the id |
| `ChatApp.CurrentMessages` | src/App.tsx:28-29 | with no current conversation no messages are shown |
| `ChatApp.CurrentMessagesKnown` | src/App.tsx:28-29 | with distinct ids, a current id carried by a conversation shows exactly that conversation's messages |
| `ChatApp.CurrentMessagesUnknown` | src/App.tsx:28-29 | a current id that no conversation carries shows no messages |
| `ChatApp.Ready` | src/App.tsx:72 | a send returns early when no model is selected or the adapter is disconnected, and goes ahead otherwise |
| `ChatApp.CanChat` | src/App.tsx:156 | an enabled input implies the send guard passes, and an empty catalog always disables the input |
| `ChatApp.AssistantText` | src/App.tsx:114-147 | the answer's text is the reply when the adapter resolves, and the fixed apology whenever it rejects |
| `ChatApp.AnswerFromCloudAdapter` | src/App.tsx:114-147 | with the cloud adapter's settlement, the answer is never empty, and every rejection yields the apology rather than the rejection text |
| `ChatApp.WithNewConversation` | src/App.tsx:76-87 | a conversation with the fresh id, the title `New Chat` and no messages goes first and becomes current; the older conversations follow unchanged and in order; the counter advances; the model selection stays |
| `ChatApp.Opened` | src/App.tsx:74-87 | a send always has a target id and keeps the selected model; with a current id the state is unchanged (the id may name no conversation); without one a fresh `New Chat` conversation is put first and its id becomes current |
| `ChatApp.OpenedWellFormed` | src/App.tsx:76-87 | putting the new conversation first keeps the ids distinct and below the counter |
| `ChatApp.Deliver` | src/App.tsx:98-148 | the three list updates of a send keep the list's length |
| `ChatApp.DeliverAt` | src/App.tsx:98-148 | the three list updates of a send touch only the target conversation: it gains the user's message, then the answer, and the new title if there is one |
| `ChatApp.DeliverKeepsIds` | src/App.tsx:98-148 | the list updates of a send keep every conversation's id in place |
| `ChatApp.Send` | src/App.tsx:71-72 | when no model is selected or the adapter is disconnected, nothing changes and the adapter is not called; otherwise the adapter is given a non-empty history |
| `ChatApp.SendWellFormed` | src/App.tsx:71-149 | a send keeps the ids distinct and fresh and keeps the selected model; afterwards the current conversation is the old one, or the new one if there was none |
| `ChatApp.SendWithoutCurrent` | src/App.tsx:74-110 | with no current conversation, a fresh `New Chat` conversation goes first and becomes current; it gets the user's message and the answer and takes the text's title; older conversations keep their contents and order; the adapter gets the user's message alone |
| `ChatApp.SendToCurrent` | src/App.tsx:89-148 | only the current conversation changes: it gains the user's message (role user, selected model), then exactly one assistant message. The title is set only if the conversation had no messages before the send. The adapter gets the earlier messages followed by the user's message |
| `ChatApp.SendToUnknown` | src/App.tsx:98-113 | if the current id names no conversation, no conversation changes, and the adapter gets the user's message alone |
| `ChatApp.SendHandsOverTranscript` | src/App.tsx:113-114 | when the guard passes, the adapter is given the transcript shown before the send followed by the user's message, so the request carries the shown turns reduced to role and content and then the user's turn |
| `ChatApp.SendExtendsTranscript` | src/App.tsx:28-29 | when the guard passes and the current id is absent or names a conversation, the transcript shown after the send is the one shown before followed by the user's message and the answer |
| `ChatApp.ChatPage.constructor` | src/App.tsx:21-23 | no conversations, none current, no model selected |
| `ChatApp.ChatPage.CreateNewConversation` | src/App.tsx:45-55 | a fresh-id `New Chat` conversation with no messages goes first and becomes current; the others stay as they were and in order |
| `ChatApp.ChatPage.HandleSelectConversation` | src/App.tsx:151-154 | the given id becomes current and nothing else changes |
| `ChatApp.ChatPage.ChangeModel` | src/App.tsx:167 | the chosen model becomes selected and nothing else changes |
| `ChatApp.ChatPage.ApplyDefaultModel` | src/App.tsx:39-43 | when models are offered and none is selected, the first model is selected; otherwise the selection stays |
| `ChatApp.ChatPage.HandleSendMessage` | src/App.tsx:71-149 | the new state and the history given to the adapter are exactly what `Send` gives for the old state; the store stays well formed |

## Left out

- Rendering, the sidebar, scrolling, the textarea's height and the stop button
  are presentation and are not modelled. `console.error` is not modelled either.
- `fetch`, URLs, headers, the bearer credential and JSON parsing are not
  modelled. Each request is an `Outcome` parameter. A failed parse of a 2xx body
  counts as `Threw`. A failed parse of an error body counts as `NotOk` with no
  provider message. A content field that is present but not a string is not
  modelled.
- The `useEffect` calls on mount (`checkConnection`, `fetchModels`) are not
  modelled as effects. A caller runs the methods in order.
- Environment variables are not read. The cloud key is a constructor parameter,
  and the base-URL override is not modelled.
- Ids from `Date.now()` are replaced by a counter, `nextId`, so ids are numbers
  rather than strings. In the source, the user message's id and a new
  conversation's id can coincide, and `Date.now() + 1` can collide with a later
  id. The model does not capture either collision.
- Timestamps are caller-supplied integers: `now` for the send and `later` for
  the answer.
- React's batching and async interleaving are not modelled. Each handler runs
  as one sequential method, and a send settles before another begins. The one
  interleaving effect kept is the pre-send snapshot: the title test and the
  history read the conversation list as it was before the send.
- The page uses only the cloud adapter. The local adapter is modelled on its own
  and is not wired to the page.
- `ChatApp.Title`: lengths count Unicode scalar values, but JavaScript counts
  UTF-16 code units. A text with characters outside the Basic Multilingual
  Plane may therefore be cut at a different place than in the source.
- `GroqApi.CompletionRequest`: the temperature 0.7 is recorded as the exact
  real 7/10, not as a binary floating-point value. No property depends on it.
- `OllamaApi.OllamaModel`: its fields (name, size, digest, modification time)
  are opaque data, because the shared types do not declare the record.
