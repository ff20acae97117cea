# devgod-chatbot: a verified model of the chat client's core

This project models the logic of the devgod-chatbot web chat client in Dafny and proves what that logic promises. The client is a Next.js app that streams answers from Gemini. Each source file becomes one module:

- **Session store** (`Storage`, lib/storage.ts). The sessions are an upsert-by-id list. It is kept as JSON text under `chat_sessions` in the browser's key-value storage, and the active session's id is kept under `current_session_id`. The list is capped at 20 entries. A quota failure triggers a cleanup to 5 sessions and one retry. Titles are set once, from the first user message.
- **Stream decoder** (`SseClient`, lib/sseClient.ts). This is a pull-based model of the `streamSSE` generator. It keeps a text buffer across reads and cuts it at `"\n\n"`. It yields the parsed payload of each `data: ` line and stops at `data: [DONE]`.
- **Retry engine** (`Retry`, src/lib/retry.ts). The `while` loop of `retry` is proved equal to a recursive specification. `onRetry` calls and sleeps are recorded in a trace.
- **Chat endpoint** (`ChatRoute`, app/api/chat/route.ts). It covers the validation chain, the mapping of errors to HTTP status, and the framing of the reply into server-sent events. A round-trip property connects the framing to the decoder.
- **Chat screen** (`ChatContainer`, components/chat/ChatContainer.tsx). This is the send, attempt, accumulate and fail state machine, plus the offline notices.
- **Hook** (`UseChat`, hooks/useChat.ts). It covers the message-list and session-list transforms and the hook's three state cells.
- **Input box** (`ChatInput`, components/chat/ChatInput.tsx). It covers the send gate, the Enter key and the send button.
- **Helpers.**
  - `Utils` (lib/utils.ts): `formatTime`, `cn`, `truncateText` and `isValidMessage`.
  - `TypeGuards` (lib/type-guards.ts): the three type guards.
  - `Gemini` (lib/gemini.ts): the history conversion.
- **Shared modules.**
  - `Optional`: `T | null` and `T | undefined`.
  - `JsStrings`: `trim`, `includes`, `slice` and number rendering.
  - `JsArrays`: `filter`.
  - `Json`: parsed values and `JSON.stringify({ text })`.
  - `JsErrors`: thrown values.
  - `ChatTypes`: types/chat.ts, types/api.ts and the limits in lib/constants.ts.

Where state changes in place, the model uses a class:

- `Storage.SessionStore` holds the key-value map and the outcomes of the coming writes.
- `SseClient.SseStream` holds the buffer, the unread chunks and the reader lock.
- `UseChat.ChatHook` holds the current session, the messages and the sessions.
- `ChatContainer.Container` holds the loading flag, the error toast, the abort controller and the connectivity ref.
- `ChatInput.InputBox` holds the `input` state.

Each method is proved against pure functions, and the properties are lemmas about those functions.

Inputs the model does not compute are passed in as parameters:

- Connectivity (`isOnline`).
- Fresh ids from `generateId` and clock readings from `Date.now`.
- The hours and minutes `formatTime` reads from a `Date`.
- The chunks a response body delivers.
- `JSON.parse`, as an oracle function.
- The outcome of each storage write.
- The model's streamed reply.

## Model

| member | source | states |
|---|---|---|
| Storage.ParseSessions | lib/storage.ts:17-27 | The stored text gives `[]` when it is missing, empty or unparsable, and the parsed list otherwise. |
| Storage.SessionStore.Sessions | lib/storage.ts:17-27 | `getSessions` never fails: it gives `[]` without storage, without the key, for an empty text, or when parsing fails. |
| Storage.ReadBack | lib/storage.ts:21-22 | A list written under `chat_sessions` is read back unchanged by `getSessions`. |
| Storage.WriteEffect | jest.setup.js:12-14 | A write that succeeds stores the value under the key. A write that throws changes nothing. Either way it uses up one scripted outcome. |
| Storage.SessionStore.SetItem | jest.setup.js:12-14 | `setItem` has exactly the effect of `WriteEffect`. |
| Storage.SessionStore.RemoveItem | jest.setup.js:15-17 | `removeItem` deletes the key and nothing else. |
| Storage.IndexOf | lib/storage.ts:49 | `findIndex` gives -1 when no session has the id, and otherwise the first index that has it. |
| Storage.IndexOfIsFirst | lib/storage.ts:49 | The first index carrying the id is what `findIndex` returns. |
| Storage.Find | lib/storage.ts:35 | `find` gives `None` exactly when no session has the id. Otherwise it gives the first session of the list with that id. |
| Storage.SessionStore.GetSession | lib/storage.ts:33-36 | `getSession` gives `None` exactly when no stored session has the id. Otherwise it gives the first stored session with it. |
| Storage.Ids | lib/storage.ts:49-54 | The ids of a list, position by position. |
| Storage.Upsert | lib/storage.ts:49-54 | The upsert of `saveSession`: replace the entry at the first index with the id, or `unshift` the session. Its properties are `UpsertPositions` and `FindAfterUpsert`. |
| Storage.Cap | lib/storage.ts:57-59 | The cap of `saveSession`: the first 20 entries when there are more. `Take` and `TakeOfTake` state what it keeps. |
| Storage.UpsertPositions | lib/storage.ts:49-54 | An existing id is replaced at its own index, so ids, length and the other entries are unchanged. A new id is inserted at index 0. |
| Storage.FindAfterUpsert | lib/storage.ts:49-54 | After an upsert the saved id finds the saved session, and every other id finds what it found before. |
| Storage.Take | lib/storage.ts:57-59 | `slice(0, n)` keeps the first `min(n, length)` entries. |
| Storage.SaveAllDistinct | lib/storage.ts:42-61 | Saving distinct new sessions one after another leaves the newest first, capped at 20: the first 20 of the reversed saves followed by the old list. |
| Storage.TwentyFiveSaves | __tests__/lib/storage.test.ts:80-100 | After 25 saves of distinct ids the list holds 20 entries, `session-24` down to `session-5`. |
| Storage.FreshIdsStep | lib/storage.ts:49-59 | Ids not yet in the list stay unseen after one more fresh save. |
| Storage.Reverse | lib/storage.ts:53 | Repeated `unshift` puts the entries in reverse order. |
| Storage.TakeOfTake | lib/storage.ts:57-59 | Capping twice is capping once. |
| Storage.SavedSessions | lib/storage.ts:42-76 | If the write succeeds, the stored list becomes the capped upsert. After a quota failure whose cleanup and retry writes succeed, the list is exactly `[session]`. |
| Storage.SaveEffect | lib/storage.ts:42-76 | The effect of `saveSession` on the storage. The capped upsert is written. On a quota error, cleanup keeps the newest 5 and then `[session]` is written once, with a failure swallowed. A failed cleanup write propagates, and other errors are swallowed. `SavedSessions` states its outcomes. |
| Storage.SessionStore.SaveSession | lib/storage.ts:42-76 | Without storage, nothing happens. Otherwise the effect is `SaveEffect`: upsert and cap, or cleanup to 5 plus a single retry on quota errors. A failed retry is swallowed. A non-quota failure is swallowed with no further write. A failure of the cleanup write propagates. |
| Storage.InsertByRecency | lib/storage.ts:147-149 | One insertion step of the sort adds exactly one entry (multiset). |
| Storage.SortNewestFirst | lib/storage.ts:147-149 | Sorting keeps the length. |
| Storage.InsertKeepsOrder | lib/storage.ts:147-149 | Inserting into a newest-first list keeps it newest-first. |
| Storage.InsertIsStable | lib/storage.ts:147-149 | Inserting keeps the relative order of sessions that have the same `updatedAt`. |
| Storage.SortNewestFirstCorrect | lib/storage.ts:147-149 | The sort is descending by `updatedAt`, is a permutation, and is stable. |
| Storage.Newest | lib/storage.ts:144-152 | The sessions `cleanupOldSessions(keepCount)` keeps: the first `keepCount` of the list sorted newest first. `NewestKeepsMostRecent` states the property. |
| Storage.NewestKeepsMostRecent | lib/storage.ts:144-152 | `cleanupOldSessions(k)` keeps a prefix of the sorted list, and no dropped session is newer than a kept one. |
| Storage.CleanupExample | lib/storage.ts:144-152 | With `updatedAt` values 1, 3, 2 and k = 2, cleanup keeps `[newest, middle]`. |
| Storage.SessionStore.CleanupOldSessions | lib/storage.ts:144-152 | Writes the newest `keepCount` sessions, and after a successful write `getSessions` reads exactly those. |
| Storage.FirstUserIndex | lib/storage.ts:162 | The first index of a user message, or -1 when there is none. |
| Storage.FirstUserMessage | lib/storage.ts:162 | `find(m => m.role === 'user')`: `None` exactly when no message is from the user. |
| Storage.TitleFrom | lib/storage.ts:164 | A content of at most 30 characters is the title. A longer one gives its first 30 characters plus `...`. |
| Storage.Retitled | lib/storage.ts:158-168 | The session `updateSessionTitle` saves, if any: the stored session with the title from the first user message and `updatedAt` now. `RetitledWhen` states when it applies. |
| Storage.RetitledWhen | lib/storage.ts:158-168 | A title is written exactly when the session exists, still has the default title and the messages contain a user message. The new title comes from the first user message and `updatedAt` becomes now. |
| Storage.TitleSetOnce | lib/storage.ts:163 | Once retitled and saved, a session is never retitled again, unless the new title is the default title itself. |
| Storage.FindInPrefix | lib/storage.ts:57-59 | Capping the list does not change which session an id finds, if it still finds one. |
| Storage.LongTitleExample | lib/storage.ts:164-165 | A 40-character first user message after an assistant message gives its first 30 characters plus `...`. |
| Storage.SessionStore.UpdateSessionTitle | lib/storage.ts:158-168 | Nothing is written unless the retitle applies. When it applies, the retitled session is saved through `saveSession`. |
| Storage.TitleEffect | lib/storage.ts:158-168 | The storage effect of `updateSessionTitle`: `saveSession` of `Retitled` when it applies, and nothing otherwise. |
| Storage.CurrentIdEffect | lib/storage.ts:130-138 | A non-empty id is written under `current_session_id`. `null` or `""` removes the key. |
| Storage.SessionStore.SetCurrentSessionId | lib/storage.ts:130-138 | Without storage, nothing happens. Otherwise the effect is `CurrentIdEffect`, and after it `getCurrentSessionId` gives the id, or `None` for `""`. |
| Storage.SessionStore.GetCurrentSessionId | lib/storage.ts:121-124 | `None` without storage or without the key; otherwise the stored id. |
| Storage.SessionStore.DeleteSession | lib/storage.ts:82-96 | Every entry with the id is removed and the others keep their order. The current-session key is cleared only if it named the id. If the write throws, nothing changes and nothing propagates. With storage, the effect is exactly `DeleteEffect`. |
| Storage.DeleteEffect | lib/storage.ts:82-96 | `deleteSession` always completes, uses up one scripted write, and changes nothing when the write throws. Otherwise it writes the list without the id and clears the current-session key if it named the id. |
| Storage.Without | lib/storage.ts:86 | `filter(s => s.id !== id)`. `JsArrays.Filter` states what it keeps. |
| Storage.ClearCurrentIdIf | lib/storage.ts:89-92 | The current-session key is removed only when it names the deleted id. |
| Storage.SessionStore.CreateSession | lib/storage.ts:102-115 | Returns the fresh id, the default title, no messages and the two clock readings. With every write succeeding, the session is saved at the front and the current-session key is set to it. |
| Storage.CreateEffect | lib/storage.ts:102-115 | The storage effect of `createSession`: `saveSession` of the new session, then the current-session key set to it unless the save threw. |
| SseClient.Split | lib/sseClient.ts:28 | `split("\n\n")` always gives at least one piece. |
| SseClient.JoinSplit | lib/sseClient.ts:28-29 | Joining the pieces with `"\n\n"` gives the buffer back, so no text is lost between reads. |
| SseClient.LastPieceDoesNotSplit | lib/sseClient.ts:29 | The text kept in the buffer contains no complete frame. |
| SseClient.SplitAppend | lib/sseClient.ts:27-29 | Leftmost splitting of an extended buffer agrees with splitting the whole text. |
| SseClient.SplitAppendAtSeparator | lib/sseClient.ts:27-29 | The separator case of `SplitAppend`. |
| SseClient.SplitAppendAtChar | lib/sseClient.ts:27-29 | The ordinary-character case of `SplitAppend`. |
| SseClient.SplitAppendStep | lib/sseClient.ts:28 | A leading non-separator character joins the first piece. |
| SseClient.SplitAtFrame | lib/sseClient.ts:28 | A line without a line feed followed by `"\n\n"` is split off as one piece. |
| SseClient.SplitFrames | lib/sseClient.ts:28 | Frames of lines without line feeds split back into exactly those lines. |
| SseClient.SplitSingleLine | lib/sseClient.ts:28 | Text without a line feed is one piece. |
| SseClient.LineEvents | lib/sseClient.ts:32-41 | A line that does not start with `data: ` gives no event. Otherwise the 6-character prefix is stripped. `[DONE]` stops the stream. A payload that parses is yielded unchecked as one item, and one that fails to parse is skipped. |
| SseClient.EventsAppend | lib/sseClient.ts:31-43 | Lines are processed one after another. |
| SseClient.Events | lib/sseClient.ts:31-43 | The events of a run of complete pieces, line by line. `EventsAppend` states that it works line by line. |
| SseClient.Decoded | lib/sseClient.ts:23-44 | The events of a whole body text: those of its complete pieces, with the unterminated tail ignored. `ChunkingIrrelevant` ties the read loop to it. |
| SseClient.Feed | lib/sseClient.ts:23-44 | The read loop: each chunk is appended to the buffer, the complete pieces are handled and the last piece is kept. `FeedIsDecoded` states what it produces. |
| SseClient.FeedIsDecoded | lib/sseClient.ts:23-44 | Reading chunk by chunk with the buffer gives the events of the whole text received. |
| SseClient.ChunkingIrrelevant | lib/sseClient.ts:23-44 | The events depend only on the concatenation of the chunks, not on where they split. |
| SseClient.UnterminatedFrameIgnored | lib/sseClient.ts:24-29 | When the body ends, an unterminated trailing frame is discarded. |
| SseClient.Finish | lib/sseClient.ts:25-47 | The steps a stream takes: yields, then one end step (done, or the error the read threw). |
| SseClient.StopEndsStream | lib/sseClient.ts:34 | `[DONE]` ends the generator at once. Later lines and buffered text are never yielded. |
| SseClient.RequestError | lib/sseClient.ts:11-14 | A non-ok response throws an Error whose message is the stringified `body.error` when that field is truthy, and `'Request failed'` when it is missing or falsy. A `null` body makes reading `.error` throw a TypeError. A body that is not JSON rethrows the parse error. |
| SseClient.Steps | lib/sseClient.ts:5-48 | A whole run of the generator ends in exactly one step that is not a yield. |
| SseClient.StepsOfBody | lib/sseClient.ts:19-47 | For an ok response with a body, the steps are the decoded events of the whole text, finished by the read outcome. |
| SseClient.PendingStep | lib/sseClient.ts:31-43 | Processing one split piece: it is skipped, it stops the stream, or it yields and the loop goes on. |
| SseClient.ReadStep | lib/sseClient.ts:24-29 | One read appends a chunk, emits the complete pieces and keeps the last one. |
| SseClient.SseStream.constructor | lib/sseClient.ts:5-9 | A new generator has not started, holds no lock, and will produce `Steps(response)`. |
| SseClient.SseStream.Next | lib/sseClient.ts:5-48 | Each `next()` produces the next step of `Steps`. After the end it gives done. The lock is released on every exit. |
| SseClient.SseStream.Open | lib/sseClient.ts:9-17 | An error response or a missing body throws before any read, with the lock not held. |
| SseClient.SseStream.Pull | lib/sseClient.ts:23-47 | The read loop produces the next step of `Steps` and releases the lock when it stops. |
| SseClient.SseStream.TakeLine | lib/sseClient.ts:31-43 | Takes one buffered piece. It either produces the next step or skips the piece without changing what remains. |
| SseClient.SseStream.ReadChunk | lib/sseClient.ts:24-29 | One read moves a chunk into the buffer without changing what remains to be produced. |
| SseClient.SseStream.Return | lib/sseClient.ts:45-47 | Returning early releases the lock and finishes the generator. |
| Retry.RetryLoop | src/lib/retry.ts:30-63 | The `while` loop produces exactly `Spec`: the outcome, the number of calls and the trace of `onRetry` calls and sleeps. |
| Retry.RunFrom | src/lib/retry.ts:41-62 | What `retry` does once some calls have failed with retryable errors. `RunFromEnds`, `WaitSchedule` and `RetryLoop` state its properties. |
| Retry.IsClientError | src/lib/retry.ts:11-23 | `isClientError`: an object whose status is a number in [400, 500). |
| Retry.IsAbortError | src/lib/retry.ts:25-26 | `isAbortError`: an `Error` named `AbortError`. |
| Retry.Spec | src/lib/retry.ts:30-63 | `retry(operation, options)` as a whole, with the destructuring defaults. `RetryLoop` proves the loop equal to it. |
| Retry.WaitTime | src/lib/retry.ts:55 | The wait after failed attempt n: `delay * 2^(n-1)` with backoff, and `delay` without. |
| Retry.RunFromEnds | src/lib/retry.ts:41-62 | With no attempt left, the run throws "Retry attempts exhausted" without a call. Otherwise the outcome is that of the last call made. Every earlier call threw a retryable error. A thrown outcome is non-retryable or comes from the last allowed call. |
| Retry.NeverExhaustedWithAttempts | src/lib/retry.ts:43-49 | With at least one attempt, the operation runs 1 to `maxAttempts` times and the outcome is that of the last call. The first success is returned, and after the last attempt the last error is rethrown. |
| Retry.ExhaustedWithoutAttempts | src/lib/retry.ts:41-62 | If `maxAttempts <= 0`, nothing is called and the run throws "Retry attempts exhausted". |
| Retry.NoRetryOnAbortOrClientError | src/lib/retry.ts:49-51 | An abort error or a 4xx error is rethrown at once, with no `onRetry` call and no wait. |
| Retry.RetriedStep | src/lib/retry.ts:53-58 | A retried failure records `onRetry` (when given) and then the wait, and the run continues with the next attempt. |
| Retry.FinalStep | src/lib/retry.ts:47-51 | A success, a non-retryable error or the last attempt ends the run with that call's outcome. |
| Retry.BetweenAttempts | src/lib/retry.ts:53-58 | Between two attempts the trace grows by exactly `Pause`: `onRetry(attempt, error)` first, then a sleep only if the wait is positive. |
| Retry.Pause | src/lib/retry.ts:53-58 | After failed attempt n, at most two events: `onRetry(n, error)` first exactly when a handler is given, and a sleep of the wait last exactly when the wait is positive. |
| Retry.WaitSchedule | src/lib/retry.ts:43-62 | Every call of a run but the last threw, and the trace is exactly `Schedule`: after each of those calls `k`, `onRetry(k, e_k)` when given and then the wait when positive; nothing after the last call. |
| Retry.Schedule | src/lib/retry.ts:53-58 | The pauses after the calls of a run but the last, in order. |
| Retry.ChatSchedule | components/chat/ChatContainer.tsx:107-113 | With 3 attempts, backoff and an `onRetry` handler, three retryable failures give the trace `onRetry(1, e1)`, a wait of 500 ms, `onRetry(2, e2)`, a wait of 1000 ms, and the third error is rethrown. |
| ChatRoute.MapError | app/api/chat/route.ts:77-100 | The catch block's answer. `MapErrorStatus` states which status each error text gets. |
| ChatRoute.ErrorText | app/api/chat/route.ts:81 | The text the catch block inspects: an Error's message, or `String(error)` of anything else. |
| ChatRoute.MapErrorStatus | app/api/chat/route.ts:81-100 | 401 exactly when the error text mentions `API key`. Otherwise 429 exactly when it mentions `quota` or `RESOURCE_EXHAUSTED`. Anything else is 500 `API_ERROR`. |
| ChatRoute.InternalWhenUnmatched | app/api/chat/route.ts:81-100 | An error whose text mentions none of `API key`, `quota` and `RESOURCE_EXHAUSTED` is answered with 500 `API_ERROR`. |
| ChatRoute.UnmatchedByChars | app/api/chat/route.ts:81-93 | A text that lacks a character of each of the three mentions none of them. |
| ChatRoute.MissingKeyUnmatched | lib/gemini.ts:36 | The missing-key message mentions none of the three: it says `API_KEY`, not `API key`. |
| ChatRoute.MissingKeyIsInternal | lib/gemini.ts:36 | A missing API key ("GEMINI_API_KEY is not configured") is answered with 500, not 401: the text does not contain `API key`. |
| ChatRoute.EngineErrorsAreInternal | app/api/chat/route.ts:77-100 | The TypeErrors raised for a null body, a null history, a non-array history and a null entry are answered with 500. |
| ChatRoute.NullBodyUnmatched | app/api/chat/route.ts:11 | The TypeError of destructuring a `null` body mentions none of the three. |
| ChatRoute.NullHistoryUnmatched | app/api/chat/route.ts:29 | The TypeError of reading `length` of a `null` history mentions none of the three. |
| ChatRoute.NotArrayUnmatched | lib/gemini.ts:55 | The TypeError of calling `map` on a history that is not an array mentions none of the three. |
| ChatRoute.NullEntryUnmatched | lib/gemini.ts:56 | The TypeError of reading `role` of a `null` history entry mentions none of the three. |
| ChatRoute.InvalidMessageFirst | app/api/chat/route.ts:15-20 | A missing, non-string or whitespace-only message gets 400 `INVALID_MESSAGE`, before any other check. |
| ChatRoute.TooLongMessage | app/api/chat/route.ts:22-27 | A message whose untrimmed length is over 4000 gets 400 `MESSAGE_TOO_LONG`. |
| ChatRoute.HistoryTooLongRefused | app/api/chat/route.ts:29-34 | A valid message with more than 10 history entries gets 400 `HISTORY_TOO_LONG`. |
| ChatRoute.AcceptedRequest | app/api/chat/route.ts:9-76 | A valid message with at most 10 non-null history entries is answered with the event stream of the model's reply. |
| ChatRoute.AcceptedWithoutHistory | app/api/chat/route.ts:12 | A missing history defaults to `[]` and the request is accepted. |
| ChatRoute.Destructured | app/api/chat/route.ts:11-12 | The handler destructures `message` and `history` from a request body. |
| ChatRoute.Post | app/api/chat/route.ts:9-12 | The handler from the request body to the response: a malformed body goes to the catch block, and a `null` body fails the destructuring. `Destructured`, `InvalidMessageFirst`, `TooLongMessage` and `AcceptedRequest` state its properties. |
| ChatRoute.Handle | app/api/chat/route.ts:14-76 | The validation chain in source order, then the model's setup, the history conversion and the call. `Streams` and `HistoryTooLongRefused` state its properties. |
| ChatRoute.HistoryOverLimit | app/api/chat/route.ts:29 | `history.length > 10`, with a missing history defaulting to `[]`. |
| ChatRoute.HistoryItems | lib/gemini.ts:52-59 | The history conversion either runs or throws: a non-array history has no `map`, and a null entry has no `role`. |
| ChatRoute.Streams | app/api/chat/route.ts:36-76 | Once validation passes and the model answers, the response is the event stream. |
| ChatRoute.DataLine | app/api/chat/route.ts:57-58 | The line of a chunk contains no line feed. |
| ChatRoute.FramesOf | app/api/chat/route.ts:55-59 | Each chunk becomes one frame, `data: ` + `JSON({text})` + `"\n\n"`, in order. |
| ChatRoute.Start | app/api/chat/route.ts:53-67 | The stream enqueues one frame per chunk, then `data: [DONE]` and closes. A failure errors the stream after the frames already sent. |
| ChatRoute.ConcatFrames | app/api/chat/route.ts:55-59 | The frames sent, read as one text, are the data lines separated by blank lines. |
| ChatRoute.CompleteQueueText | app/api/chat/route.ts:55-62 | The same holds with the `[DONE]` frame appended. |
| ChatRoute.CompleteQueueEvents | app/api/chat/route.ts:55-62 | Decoding a completed stream gives one item per chunk and then the stop. |
| ChatRoute.EventsOfLines | app/api/chat/route.ts:55-59 | Each data line decodes to the text object it carries. |
| ChatRoute.DataLineEvents | app/api/chat/route.ts:57-58 | One data line decodes to its text object. |
| ChatRoute.FinishItems | app/api/chat/route.ts:55-59 | Items become yields, in order. |
| ChatRoute.RoundTripComplete | app/api/chat/route.ts:55-62 | However the frames of a completed stream are cut into chunks, `streamSSE` yields exactly the chunk texts, in order, and then ends. A read error after `[DONE]` is never seen. |
| ChatRoute.RoundTripFailed | app/api/chat/route.ts:63-66 | Over an errored stream, `streamSSE` yields the texts sent before the error. The server's error does not cross the network: the run ends as the client's read ends, normally or with the read error. |
| ChatRoute.RoundTrip | app/api/chat/route.ts:53-67 | What `start` enqueues, however it is cut into chunks, is decoded by `streamSSE` into the reply's texts. It then ends, unless the model failed and the client's read throws, in which case it throws the read error. |
| ChatRoute.Enqueued | app/api/chat/route.ts:53-67 | The frames `start` enqueues: one per text, then `data: [DONE]` only when the model did not fail. |
| Json.StringifyText | app/api/chat/route.ts:57 | `JSON.stringify({ text })` never emits a raw line feed, so it cannot contain `"\n\n"`. |
| Json.Escaped | app/api/chat/route.ts:57 | JSON string escaping removes every raw line feed. |
| ChatContainer.Container.HandleSend | components/chat/ChatContainer.tsx:45-136 | Offline: an `offline` notice, and no messages added or requests made. Online: the run is the retried send. On success, the user message is kept and the reply is complete with `isStreaming` false. On failure the placeholder is removed and the failure toast is shown. Loading is cleared and the controller is nulled. One request and one new controller per call; the controller in flight before the send and every attempt's but the last are aborted (`AbortedBy`). |
| ChatContainer.Container.BeginSend | components/chat/ChatContainer.tsx:54-76 | An existing offline notice is kept and any other is cleared. The user message is appended, then an empty streaming placeholder. The request carries the history captured before the send. |
| ChatContainer.Container.EndSend | components/chat/ChatContainer.tsx:114-135 | After a failure, the placeholder is removed and the failure toast is set. In every case loading is cleared and the controller ref is nulled. |
| ChatContainer.Container.PerformRequest | components/chat/ChatContainer.tsx:77-104 | Each attempt aborts the previous controller, installs a new one, resets the placeholder to empty streaming content, sends one request, and ends with the attempt's text and outcome. |
| ChatContainer.Container.ReadReply | components/chat/ChatContainer.tsx:96-103 | The placeholder content is the concatenation of the chunk texts read. `isStreaming` becomes false only when the stream ends normally. |
| ChatContainer.Container.RetryTurn | components/chat/ChatContainer.tsx:106-113 | One loop turn of `retry` around `performRequest`. It ends the run or hands on the trace, exactly as `Spec` does, and leaves the window one attempt further along `Attempted`. |
| ChatContainer.Container.SendAttempt | components/chat/ChatContainer.tsx:77-104 | Attempt n returns what `operation(n)` returns, shows that attempt's text in the placeholder, and moves the window one step along `Attempted`. |
| ChatContainer.Container.RetryRequests | components/chat/ChatContainer.tsx:106-113 | `retry(performRequest, …)` produces `Spec` and leaves the last attempt's text in the placeholder. The window ends as `Attempted` after that many calls: one request, one controller and one abort step per call. |
| ChatContainer.Begun | components/chat/ChatContainer.tsx:78-94 | What one attempt does to the window before it reads: abort the controller in flight, install the next one, send the request. |
| ChatContainer.Attempted | components/chat/ChatContainer.tsx:106-113 | The window after n attempts of one send: `Begun` n times. |
| ChatContainer.AttemptedCounts | components/chat/ChatContainer.tsx:78-94 | After n attempts: the request sent n more times, n more controllers, the last one in flight, the aborted set grown by `AbortedBy`, and nothing else changed. |
| ChatContainer.AbortedBy | components/chat/ChatContainer.tsx:78-82 | Over n attempts, a controller is aborted exactly when it was in flight before the send or belongs to an attempt other than the last. |
| ChatContainer.Numbers | components/chat/ChatContainer.tsx:78-82 | The controller numbers from `first` on, `count` of them, as a set. |
| ChatContainer.Container.OnConnectivity | components/chat/ChatContainer.tsx:30-43 | Going offline after being online sets the offline notice. Coming back online after being offline clears only an offline notice. The ref records the new state. |
| ChatContainer.Container.Dismiss | components/chat/ChatContainer.tsx:152-159 | Dismissing keeps an offline notice while still offline and clears anything else. |
| ChatContainer.Container.Unmount | components/chat/ChatContainer.tsx:138-143 | Unmounting aborts the controller in flight, if any. |
| ChatContainer.Container.InputDisabled | components/chat/ChatContainer.tsx:181 | The input is disabled exactly while loading or offline. |
| ChatContainer.OfflineThenOnline | components/chat/ChatContainer.tsx:30-43 | Losing and then regaining the connection leaves no notice. |
| ChatContainer.ReconnectClears | components/chat/ChatContainer.tsx:38-40 | Reconnecting clears the notice exactly when there is none or it is of offline type. An error notice survives. |
| ChatContainer.DismissRule | components/chat/ChatContainer.tsx:152-159 | Offline, a dismissed offline notice comes back unchanged. Online, dismissing always clears. |
| ChatContainer.AfterConnectivity | components/chat/ChatContainer.tsx:30-43 | The notice after the connectivity effect. `ReconnectClears` and `OfflineThenOnline` state its properties. |
| ChatContainer.AfterDismiss | components/chat/ChatContainer.tsx:152-159 | The notice after dismissing. `DismissRule` states its property. |
| ChatContainer.AtSend | components/chat/ChatContainer.tsx:54 | The notice at the start of an online send: an offline notice is kept and any other is cleared. |
| ChatContainer.FailureToast | components/chat/ChatContainer.tsx:114-129 | An AbortError gives "요청이 취소되었습니다.". Any other Error gives its message, and a non-Error gives the generic text. The type is `offline` exactly when offline. |
| ChatContainer.FailureIsNeverOffline | components/chat/ChatContainer.tsx:125-128 | The failure handler runs only after an online send, so its notice is never of offline type. |
| ChatContainer.TextOf | components/chat/ChatContainer.tsx:99 | `chunk.text` throws only on a null chunk. A missing field reads as the text "undefined". |
| ChatContainer.TextOfTextObject | components/chat/ChatContainer.tsx:99 | The text of `{text}` is that text. |
| ChatContainer.Consume | components/chat/ChatContainer.tsx:96-103 | The accumulated reply only grows. |
| ChatContainer.ConsumeTexts | components/chat/ChatContainer.tsx:96-103 | After k chunks the content is the concatenation of the first k chunk texts. The attempt ends as the stream ends. |
| ChatContainer.ReceivesWhatRouteSent | components/chat/ChatContainer.tsx:89-103 | An attempt over what the chat endpoint enqueued, however it is cut into chunks, reads exactly the model's texts, concatenated. It fails only when the model failed and the client's read throws, with the read error. Otherwise it succeeds, with a partial reply if the model failed. |
| ChatContainer.SendSchedule | components/chat/ChatContainer.tsx:107-113 | Three retryable failures make three calls with waits of 500 ms and 1000 ms. |
| ChatContainer.History | components/chat/ChatContainer.tsx:84-87 | The history sent is the last (at most) 10 messages before this send, reduced to role and content. |
| ChatContainer.HistoryJson | components/chat/ChatContainer.tsx:84-92 | The history travels as an array with no null entries. |
| ChatContainer.HistoryFitsRoute | components/chat/ChatContainer.tsx:84-92 | The history the screen sends always passes the endpoint's length and entry checks. |
| ChatContainer.Repeat | components/chat/ChatContainer.tsx:89-94 | The same request is sent on every attempt. |
| ChatContainer.OperationAt | components/chat/ChatContainer.tsx:77-104 | The n-th call of `performRequest` ends as the n-th response is consumed. |
| ChatContainer.Operation | components/chat/ChatContainer.tsx:77-104 | The operation `retry` calls: the n-th call is the n-th attempt's outcome. |
| ChatContainer.SendRun | components/chat/ChatContainer.tsx:106-113 | The whole retried send: `Spec` of the operation with 3 attempts, backoff and an `onRetry` handler. |
| ChatContainer.AttemptOf | components/chat/ChatContainer.tsx:77-104 | One attempt: the accumulated text and outcome of consuming the steps of `streamSSE` over its response. `ConsumeTexts` and `ReceivesWhatRouteSent` state its properties. |
| ChatContainer.UpdateLast | hooks/useChat.ts:57-61 | Updating the placeholder, which is the only message with its id, changes only the last entry. |
| UseChat.WithMessage | hooks/useChat.ts:53-55 | `addMessage` appends at the end and keeps the rest. |
| UseChat.WithUpdate | hooks/useChat.ts:57-61 | `updateMessage` merges the updates into every message with the id. The others, the length and the order are unchanged. |
| UseChat.WithoutMessage | hooks/useChat.ts:63-65 | `removeMessage` drops every message with the id and keeps the rest. |
| UseChat.RemoveUndoesAdd | hooks/useChat.ts:53-65 | Removing a message just added under a fresh id restores the list. |
| UseChat.RemoveAbsent | hooks/useChat.ts:63-65 | Removing an absent id changes nothing. |
| UseChat.RemoveTwice | hooks/useChat.ts:63-65 | Removing is idempotent. |
| UseChat.UpdateAbsent | hooks/useChat.ts:57-61 | Updating an absent id changes nothing. |
| UseChat.UpdateTwice | hooks/useChat.ts:57-61 | Applying the same update twice equals applying it once, when the update keeps the id. |
| UseChat.RemoveAfterUpdate | hooks/useChat.ts:57-65 | Removing after an id-keeping update equals removing. |
| UseChat.UpdateMerges | hooks/useChat.ts:59 | A `{content, isStreaming}` patch changes exactly those two fields. |
| UseChat.Merge | hooks/useChat.ts:59 | `{ ...msg, ...updates }`: each field present in the patch replaces the message's. |
| UseChat.Replaced | hooks/useChat.ts:48-50 | The session list with the same-id entry replaced. |
| UseChat.ReplacedInPlace | hooks/useChat.ts:48-50 | Persisting replaces the same-id entry in place. Ids and order are unchanged, and an absent id leaves the list alone. |
| UseChat.AfterDelete | hooks/useChat.ts:83-93 | Deleting the current session gives `[replacement, ...others]` with the deleted id gone. |
| UseChat.DeleteCurrentOfThree | __tests__/hooks/useChat.test.ts:235-279 | Deleting the middle of three gives `[replacement, first, third]`. |
| UseChat.Snapshot | hooks/useChat.ts:38-42 | The persisted session is the current one with the messages and `updatedAt` now. |
| UseChat.PersistEffect | hooks/useChat.ts:35-51 | The storage effect of persisting: `saveSession` of the snapshot, then `updateSessionTitle`, and nothing without storage. |
| UseChat.ChatHook.StoredCurrent | hooks/useChat.ts:14-24 | The session the current-session key names, when it is stored. |
| UseChat.ChatHook.Init | hooks/useChat.ts:13-32 | Init loads the session the current-session key names if it exists. Otherwise it creates a session and prepends it to the list. |
| UseChat.ChatHook.Persist | hooks/useChat.ts:35-51 | Persist saves the snapshot, then runs `updateSessionTitle`, then replaces the same-id entry in the list. |
| UseChat.ChatHook.AddMessage | hooks/useChat.ts:53-55 | The message list becomes `WithMessage`. |
| UseChat.ChatHook.UpdateMessage | hooks/useChat.ts:57-61 | The message list becomes `WithUpdate`. |
| UseChat.ChatHook.RemoveMessage | hooks/useChat.ts:63-65 | The message list becomes `WithoutMessage`. |
| UseChat.ChatHook.CreateNewSession | hooks/useChat.ts:67-72 | Prepends a new session and empties the message list. |
| UseChat.ChatHook.SwitchSession | hooks/useChat.ts:74-81 | A no-op when storage has no such session. Otherwise it loads that session's messages and sets the current-session key. |
| UseChat.ChatHook.DeleteSession | hooks/useChat.ts:83-93 | The session leaves the list. Deleting the current session installs a fresh replacement at the front. Without storage the storage is untouched. With storage the effect is `DeleteEffect`, followed by `CreateEffect` of the replacement when the current session was deleted. |
| UseChat.DeletedSessionLeavesStorage | hooks/useChat.ts:83-93 | With every write succeeding, the deleted id is no longer stored, whether or not a replacement was created. |
| ChatInput.SendGate | components/chat/ChatInput.tsx:37-43 | Whatever is sent is the trimmed text, non-empty, at most 4000 characters, with no whitespace at either end. |
| ChatInput.SendGateIff | components/chat/ChatInput.tsx:38-39 | `handleSend` sends exactly when the box is enabled, the text is not all whitespace and the trimmed length is at most 4000. |
| ChatInput.SendButtonDisabled | components/chat/ChatInput.tsx:53-82 | The button's `disabled`: the box is disabled, the text is blank, or the raw length is over 4000. `SendButtonDisabledIff` and `ButtonAndEnterDisagree` state its properties. |
| ChatInput.SendButtonDisabledIff | components/chat/ChatInput.tsx:52-82 | The button is disabled exactly when the box is disabled, the text is blank, or the raw length is over 4000 (`isOverLimit`). |
| ChatInput.EnabledButtonSends | components/chat/ChatInput.tsx:37-82 | A click on an enabled button always gets through the guard. |
| ChatInput.ButtonAndEnterDisagree | components/chat/ChatInput.tsx:37-82 | One space plus 4000 letters: the button is disabled, yet Enter sends the 4000 letters. |
| ChatInput.InputBox.HandleSend | components/chat/ChatInput.tsx:37-43 | When the guard passes, `onSend(trimmed)` is called and the input is cleared. Otherwise nothing happens. |
| ChatInput.InputBox.HandleKeyDown | components/chat/ChatInput.tsx:45-50 | Enter without Shift prevents the default action and sends. Other keys do neither. |
| ChatInput.InputBox.Change | components/chat/ChatInput.tsx:62 | Typing sets the input. |
| Utils.DisplayHour | lib/utils.ts:26 | The displayed hour is in 1..12 and agrees with the hour modulo 12. |
| Utils.FormatTime | lib/utils.ts:17-32 | `formatTime`: the period, a space, the twelve-hour hour, a colon and the minutes padded to two digits. `FormatTimeReadsBack` states what it reads back as. |
| Utils.FormatTimeReadsBack | lib/utils.ts:17-32 | The output starts with "오후" exactly when hours ≥ 12, and with "오전" otherwise. Then come a space, an hour that reads back as `hours % 12` (12 for 0), a colon, and two digits that read back as the minutes. |
| Utils.DecimalRoundTrip | lib/utils.ts:29 | Reading back `toString()` of a number gives the number. |
| Utils.PaddedMinutes | lib/utils.ts:29 | `padStart(2, '0')` gives exactly two digits, which read back as the minutes. |
| Utils.FormatTimeExamples | __tests__/lib/utils.test.ts:10-21 | 8:05 gives "오전 8:05" and 13:07 gives "오후 1:07". |
| Utils.Kept | lib/utils.ts:45 | `filter(Boolean)` keeps only non-empty strings. |
| Utils.Cn | lib/utils.ts:44-46 | `cn`: the truthy class names joined with spaces. `CnReadsBack` states what it reads back as. |
| Utils.CnReadsBack | lib/utils.ts:44-46 | `cn` is empty when no argument is truthy. Otherwise splitting it on spaces gives back exactly the truthy names, in order. |
| Utils.SplitJoin | lib/utils.ts:45 | Splitting a `join(' ')` gives back the pieces, when none contains a space. |
| Utils.CnExample | __tests__/lib/utils.test.ts:41-47 | `cn('base', undefined, 'active', false, null, 'rounded')` is "base active rounded". |
| Utils.TruncateText | lib/utils.ts:82-87 | The text is unchanged when it fits. Otherwise the output is a prefix of it followed by `...`. |
| Utils.TruncateTextIdempotent | lib/utils.ts:82-87 | With a non-negative limit, truncating twice is truncating once. |
| Utils.IsValidMessage | lib/utils.ts:96-108 | `isValidMessage`: false for an empty or blank message and for one over 4000 characters. `IsValidMessageIff` restates it without `trim`. |
| Utils.IsValidMessageIff | lib/utils.ts:96-108 | Valid exactly when some character is not whitespace and the untrimmed length is at most 4000. |
| TypeGuards.GuardsRejectNonObjects | lib/type-guards.ts:12-15 | A non-object value or `null` fails all three guards. |
| TypeGuards.IsMessage | lib/type-guards.ts:12-26 | `isMessage`: an object with string `id` and `content`, a role of `user` or `assistant`, a number `timestamp`, and an `isStreaming` that is absent or boolean. |
| TypeGuards.MessageRoundTrip | lib/type-guards.ts:12-26 | Every message passes `isMessage` once serialised, and reads back as itself. |
| TypeGuards.ExtraFieldsIgnored | lib/type-guards.ts:19-25 | Properties other than the five of a message do not change the verdict. |
| TypeGuards.NonBooleanStreamingRejected | lib/type-guards.ts:24 | An `isStreaming` that is present but not a boolean is rejected. |
| TypeGuards.IsChatSession | lib/type-guards.ts:32-47 | `isChatSession`: an object with string `id` and `title`, number `createdAt` and `updatedAt`, and an array `messages` whose entries all pass `isMessage`. |
| TypeGuards.SessionRoundTrip | lib/type-guards.ts:32-47 | Every session passes `isChatSession` once serialised, and reads back as itself. |
| TypeGuards.EmptySessionAccepted | lib/type-guards.ts:42-43 | A session with an empty message array passes. |
| TypeGuards.BadMessageRejectsSession | lib/type-guards.ts:43 | One message failing `isMessage` rejects the session. |
| TypeGuards.IsChatState | lib/type-guards.ts:53-67 | `isChatState`: an object with an array `sessions` of valid sessions and an `activeSessionId` that is a string or `null`, and a number `version`. |
| TypeGuards.StateAccepted | lib/type-guards.ts:53-67 | Every state passes `isChatState` once serialised. |
| TypeGuards.MissingActiveSessionRejected | lib/type-guards.ts:63-64 | An absent `activeSessionId` is rejected; only `null` or a string passes. |
| Gemini.ConvertHistory | lib/gemini.ts:52-59 | Same length and order. `user` maps to `user` and every other role to `model`. Each entry has exactly one part, carrying the content. |
| Gemini.ConvertHistoryRoundTrip | lib/gemini.ts:55-58 | Converting back recovers the history, so no message is lost or reordered. |
| Gemini.ConvertHistoryAppend | lib/gemini.ts:55 | The conversion works entry by entry. |
| JsStrings.TrimEmptyIff | app/api/chat/route.ts:15 | `trim()` is empty exactly when every character is whitespace. |
| JsArrays.Filter | lib/storage.ts:86 | `filter` keeps exactly the entries the predicate accepts. |
| JsArrays.FilterAppend | lib/storage.ts:86 | `filter` works entry by entry. |

## Left out

- I/O is not modelled: `fetch`, `ReadableStream`, `TextDecoder` with its UTF-8 decoding, and `TextEncoder`. A response body is the sequence of decoded chunks, and the reader lock is a flag.
- Requests that do not come from the chat screen are not modelled. Each attempt's response is an input, `respond(n)`.
- `JSON.parse` and `JSON.stringify` of session lists and request bodies are oracles. Only `JSON.stringify({ text })` is spelled out, because the round trip needs its lack of raw line feeds.
- `generateId` (random UUIDs) and `Date.now` are inputs. Fresh ids are the caller's requirement. For example, `ChatContainer.Container.HandleSend` requires the assistant id to be unused, which `generateId` makes true in practice.
- `createSession` reads the clock twice, so `createdAt` and `updatedAt` are two separate inputs.
- Timers are not modelled: `sleep`, `debounce` and the toast timeouts. Waits are recorded as integers in a trace.
- The Gemini SDK, `getGeminiModel` and `loadSystemPrompt` are not modelled. The model is reduced to whether it fails at setup, whether `sendMessageStream` throws, and the texts it streams before it ends or throws.
- React rendering, effect scheduling and state-setter batching are not modelled. Effects and callbacks are methods that run one after another, and `useNetworkStatus` is the `isOnline` input.
- Async interleaving and aborts that arrive in the middle of a read are not modelled. An abort is an error outcome of an attempt. The controllers are numbered, and `aborted` records which ones were aborted.
- Logging (`console.error` and `console.warn`) is not modelled.
- Numbers are integers. Fractional timestamps and statuses are not represented.
- String lengths count characters. JavaScript counts UTF-16 code units, which differ only outside the Basic Multilingual Plane.
- ChatRoute.HistoryOverLimit: for an object history, `history.length` is compared only when it is a number. Other `length` values (numeric strings, for example) are treated as not over the limit.
- ChatRoute.EngineErrorsAreInternal: the TypeErrors the engine raises (null body, null history, non-array history, null entry) are modelled by their messages. Any text without `API key`, `quota` or `RESOURCE_EXHAUSTED` maps the same way.
- Storage.SessionStore.SaveSession: when the cleanup write inside the quota handler throws, the error propagates out of `saveSession`. The code does not catch it, even though `saveSession` is meant never to throw. The model follows the code.
- UseChat.ChatHook.Persist: the in-memory session list receives the snapshot taken before `updateSessionTitle`, so it keeps the stale title until the next load. The model follows the code.
- ChatContainer.FailureToast: the `offline` branch of the failure notice cannot happen in `handleSend`, because the offline case returns earlier (`ChatContainer.FailureIsNeverOffline`).
- The `devgod_chat_storage` key and the `ChatState` layout of lib/constants.ts are not used by lib/storage.ts and are not part of this model. `TypeGuards.ChatState` models only the guard.
- The auto-resize and auto-focus effects of the input box touch only the DOM and are not modelled.
- VirtualizedMessageList, ChatMessage, ChatHeader, ErrorToast, ErrorBoundary, the app layout and page, and the build configuration are not part of this model.
