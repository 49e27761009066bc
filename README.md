# AI chat box: chat store and completion client

A Dafny model of the two core classes of an Android chat client for
OpenAI-style chat-completion servers:

- **ChatManager** (`Manager.ChatManager`) keeps an ordered list of chat
  sessions and a reference to the current one. The current session is normally
  one of the list's own objects or nothing; a failed import can leave it
  outside the list. The class also holds the API
  configuration and writes through to two files, `sessions.json` and
  `config.json`. It creates, selects, lists, deletes and clears sessions,
  appends messages and rewrites the last one, and saves and loads its state.
  It also exports the store to a document and imports one back.
- **ApiClient** (module `Api`) builds the chat-completion request from the
  configuration and the conversation. It then reads the reply: either as a
  plain JSON response (`normalRequest`), or as a server-sent event stream
  read line by line (`streamRequest`) that fires `onChunk`, `onComplete` and
  `onError` callbacks.

Layout:

| file | module | contents |
|---|---|---|
| `wrappers.dfy` | `Wrappers` | `Option`, `Result` |
| `json.dfy` | `Json` | an abstract JSON value and the org.json `get*`/`opt*` accessors the code uses |
| `entities.dfy` | `Entities` | `Message`, `SessionData` (the value of a session), `ApiConfig`, the defaults, the UUID and clock sources |
| `sessions.dfy` | `Sessions` | the `Session` class, and the list functions the store uses: `find`, `removeAll`, the title rule, `indexOf`, the stable sort of `getAllSessions` |
| `codec.dfy` | `Codec` | the documents of `sessions.json`, `config.json` and export/import, with their round trips and the step-by-step import |
| `manager.dfy` | `Manager` | the `ChatManager` class |
| `api.dfy` | `Api` | the request, the dispatch, the plain exchange and the streamed exchange |

Modelling choices:

- **Object identity.** Sessions are objects whose title, messages and
  `updatedAt` change in place. `current` is a `Session?` that aliases an
  element of `sessions`, as in the code.
- **UUIDs and clock readings.** `UUID.randomUUID()` and
  `System.currentTimeMillis()` are two numbered streams (`uuid`, `clock`).
  Every call that draws from one advances a counter (`uuidDraws`,
  `clockReads`), so contracts can say which draw each id and timestamp
  receives.
- **Files.** Each file is a `StoredFile` field (`Missing`, `Corrupt`, or a
  stored JSON value); text parsing and printing are abstracted away.
- **Network.** The network is a function `transport` from request to
  response.
- **JSON text parser.** The parser ApiClient applies to response text is a
  function `parse`, which yields `None` where org.json throws.
- **Response bodies.** A body is its sequence of lines, plus how reading ends:
  it is exhausted, or the reader throws with an optional message.
- **Callbacks.** The callbacks are recorded as a sequence of `Event`s, in
  the order they fire.

Behaviour of the code that the model keeps:

- **Import is not atomic.** `importData` empties the list before it reads
  the `sessions` array. When the array is missing or an element cannot be
  read, the sessions read so far remain. The current session is then left
  as it was, possibly outside the list (`Manager.ImportWithoutSessionsArray`
  exhibits this).
- **Load does not fall back.** `loadData` does not return to defaults on a
  malformed `sessions.json`. It keeps the sessions read before the bad
  element, and, because both files are read in one `try` block, it does
  not read `config.json`.
- **No callback without a body.** A streamed call whose response has no body
  throws "Empty response" without firing any callback: that check sits
  outside the `try` block.
- **References, not ids.** The current session is a direct reference, not
  an id looked up on each access.

## Model

| member | source | states |
|---|---|---|
| `Json.WrapInt32` | app/src/main/java/com/aichatbox/app/ChatManager.kt:161 | `optInt` narrows a stored long to 32 bits: unchanged when it fits, otherwise congruent modulo 2^32 |
| `Codec.EncodeMessage` | app/src/main/java/com/aichatbox/app/ChatManager.kt:109-115 | the message object `saveData` writes is read back by `loadData`'s getters (lines 141-147) as the same message |
| `Codec.MessagesRoundTrip` | app/src/main/java/com/aichatbox/app/ChatManager.kt:108-117 | a saved messages array decodes completely, to the same messages in the same order |
| `Codec.EncodeSession` | app/src/main/java/com/aichatbox/app/ChatManager.kt:104-118 | the session object `saveData` writes decodes (lines 133-148) to the same session value |
| `Codec.SessionsRoundTrip` | app/src/main/java/com/aichatbox/app/ChatManager.kt:100-152 | the saved sessions array loads back completely, to the same sessions in order |
| `Codec.DecodeConfig` | app/src/main/java/com/aichatbox/app/ChatManager.kt:156-163 | each field is the stored value when the key holds one of the right type, and otherwise that field's own default (`maxTokens` narrowed to 32 bits, `temperature` also taken from an integer); an empty object gives the default configuration |
| `Codec.ConfigWithoutSystemPrompt` | app/src/main/java/com/aichatbox/app/ChatManager.kt:156-163 | a config file saved without a system prompt loads every other saved field, and an empty prompt |
| `Codec.EncodeConfig` | app/src/main/java/com/aichatbox/app/ChatManager.kt:170-184 | the object `saveConfig` writes, API key and system prompt included, is read back by `loadData` as the same configuration |
| `Codec.ExportMessage` | app/src/main/java/com/aichatbox/app/ChatManager.kt:196-200 | an exported message is imported (lines 230-235) with its role, content and timestamp; the exported object has exactly the keys role, content and timestamp, so the id is not exported |
| `Codec.ExportSession` | app/src/main/java/com/aichatbox/app/ChatManager.kt:191-203 | an exported session imports as its id, title and exported messages; the exported object has exactly the keys id, title and messages, so `updatedAt` is not exported |
| `Codec.ExportConfig` | app/src/main/java/com/aichatbox/app/ChatManager.kt:206-211 | the exported config has exactly endpoint, model, temperature and maxTokens, each holding the configuration's value; neither the API key nor the system prompt is exported |
| `Codec.ExportImportDoc` | app/src/main/java/com/aichatbox/app/ChatManager.kt:187-238 | the export document carries a sessions array that the import reads completely, giving every session's exported view in order |
| `Codec.MaterializeAt` | app/src/main/java/com/aichatbox/app/ChatManager.kt:222-238 | the k-th imported session draws after the k sessions before it and all their messages |
| `Codec.ClockCount` | app/src/main/java/com/aichatbox/app/ChatManager.kt:224-236 | an imported list reads the clock once per session (its updatedAt) and once per message (the fallback timestamp) |
| `Codec.MaterializeSteps` | app/src/main/java/com/aichatbox/app/ChatManager.kt:222-238 | the import consumes one UUID per message and one clock reading per session and per message |
| `Codec.MaterializeOneExported` | app/src/main/java/com/aichatbox/app/ChatManager.kt:187-236 | re-importing one exported session gives back its exported view, whatever ids and clock values are drawn |
| `Codec.MaterializeExported` | app/src/main/java/com/aichatbox/app/ChatManager.kt:187-238 | re-importing an export gives back every session's id, title and messages (role, content, timestamp), in order |
| `Codec.MessagesRunDecodes` | app/src/main/java/com/aichatbox/app/ChatManager.kt:228-236 | the inner import loop completes exactly when every message can be read, and then creates the messages `MaterializeMessages` describes, with one UUID and one clock reading each |
| `Codec.SessionStepDecodes` | app/src/main/java/com/aichatbox/app/ChatManager.kt:223-237 | one step of the outer import loop reads a session exactly when the session and all its messages can be read, and creates what `MaterializeOne` describes |
| `Codec.SessionsRunDecodes` | app/src/main/java/com/aichatbox/app/ChatManager.kt:221-238 | the step-by-step import keeps exactly the readable prefix of the sessions array, materialized, and completes exactly when every element is readable |
| `Sessions.Session.constructor` | app/src/main/java/com/aichatbox/app/ChatManager.kt:8-13 | a new session has the given id, title and updatedAt, and no messages |
| `Sessions.FindById` | app/src/main/java/com/aichatbox/app/ChatManager.kt:49 | `find` yields the first position holding that id, or nothing when no session has it |
| `Sessions.WithoutId` | app/src/main/java/com/aichatbox/app/ChatManager.kt:55 | `removeAll` keeps exactly the sessions with another id, and no new ones |
| `Sessions.WithoutIdAppend` | app/src/main/java/com/aichatbox/app/ChatManager.kt:55 | removal distributes over concatenation, so the survivors keep their order |
| `Sessions.WithoutAbsentId` | app/src/main/java/com/aichatbox/app/ChatManager.kt:55 | removing an id no session has leaves the list unchanged |
| `Sessions.TitleRule` | app/src/main/java/com/aichatbox/app/ChatManager.kt:70-72 | only a session with the placeholder title receiving a user message is retitled: with the first 30 characters of the content, plus "..." when it was longer |
| `Sessions.DerivedTitleBounds` | app/src/main/java/com/aichatbox/app/ChatManager.kt:71 | a derived title has at most 33 characters and is the content itself when that has at most 30 |
| `Sessions.IndexOf` | app/src/main/java/com/aichatbox/app/ChatManager.kt:80 | `indexOf` yields the first position of an equal message, and -1 exactly when there is none |
| `Sessions.ReplaceLastContent` | app/src/main/java/com/aichatbox/app/ChatManager.kt:79-81 | the last message, with the new content, is written where `indexOf` finds it; every other position is unchanged |
| `Sessions.ReplaceLastWhenUnique` | app/src/main/java/com/aichatbox/app/ChatManager.kt:79-81 | when the last message occurs only once, the replacement rewrites exactly the last message |
| `Sessions.ReplaceLastWithDuplicate` | app/src/main/java/com/aichatbox/app/ChatManager.kt:79-81 | in any list where a message equal to the last one comes earlier, the new content is written at the first such copy, at or before it, and the last message is left unchanged |
| `Sessions.InsertByRecency` | app/src/main/java/com/aichatbox/app/ChatManager.kt:52 | one insertion step of the sort returns only the inserted session and sessions of the list |
| `Sessions.InsertPermutes` | app/src/main/java/com/aichatbox/app/ChatManager.kt:52 | one insertion step adds exactly the inserted session to the multiset of the list |
| `Sessions.InsertSorted` | app/src/main/java/com/aichatbox/app/ChatManager.kt:52 | inserting into a list ordered most recent first keeps it ordered |
| `Sessions.InsertStable` | app/src/main/java/com/aichatbox/app/ChatManager.kt:52 | an insertion keeps the relative order of sessions with equal updatedAt |
| `Sessions.SortByRecency` | app/src/main/java/com/aichatbox/app/ChatManager.kt:52 | `sortedByDescending` returns only sessions of the stored list |
| `Sessions.SortPermutes` | app/src/main/java/com/aichatbox/app/ChatManager.kt:52 | the sorted list is a permutation of the stored list: every session, as often as it is stored |
| `Sessions.SortedSorted` | app/src/main/java/com/aichatbox/app/ChatManager.kt:52 | the sorted list has the most recently updated sessions first |
| `Sessions.SortStable` | app/src/main/java/com/aichatbox/app/ChatManager.kt:52 | the sort is stable: sessions with equal updatedAt keep their stored order |
| `Manager.SavedSessionsLoad` | app/src/main/java/com/aichatbox/app/ChatManager.kt:100-168 | a sessions file written by `saveData` loads back every session, so the config file is then read, back to the saved configuration |
| `Manager.CorruptSessionSkipsConfig` | app/src/main/java/com/aichatbox/app/ChatManager.kt:127-168 | a sessions file with one unreadable element after good ones loads the good ones, marks the load incomplete, and keeps a valid config file from being read |
| `Manager.ChatManager.constructor` | app/src/main/java/com/aichatbox/app/ChatManager.kt:24-35 | a new store holds what `loadData` reads from the two files, starting from no sessions and the default configuration; the current session is in the list |
| `Manager.ChatManager.RandomUuid` | app/src/main/java/com/aichatbox/app/ChatManager.kt:9 | each UUID drawn is the next one in the stream |
| `Manager.ChatManager.CurrentTimeMillis` | app/src/main/java/com/aichatbox/app/ChatManager.kt:12 | each clock reading is the next one in the stream |
| `Manager.ChatManager.CreateNewSession` | app/src/main/java/com/aichatbox/app/ChatManager.kt:38-44 | a fresh empty session, with a new id, the placeholder title and the current time, goes first in the list and becomes current; the list is saved |
| `Manager.ChatManager.PushFront` | app/src/main/java/com/aichatbox/app/ChatManager.kt:40-42 | the new session goes to position 0 ahead of the others, which keep their values, becomes current, and the list is saved |
| `Manager.ChatManager.SetCurrentSession` | app/src/main/java/com/aichatbox/app/ChatManager.kt:48-50 | the first session with that id becomes current; with none, there is no current session |
| `Manager.ChatManager.GetAllSessions` | app/src/main/java/com/aichatbox/app/ChatManager.kt:52 | a permutation of the stored sessions, most recently updated first, ties in stored order |
| `Manager.ChatManager.DeleteSession` | app/src/main/java/com/aichatbox/app/ChatManager.kt:54-60 | every session with that id is removed; a deleted current session is replaced by the first remaining one, or by none; the list is saved |
| `Manager.ChatManager.AddMessage` | app/src/main/java/com/aichatbox/app/ChatManager.kt:63-76 | the message, with the next id and clock reading, is appended to the current session, after creating one when there is none; updatedAt takes the following reading; the title rule applies; the list is saved |
| `Manager.ChatManager.AppendToCurrent` | app/src/main/java/com/aichatbox/app/ChatManager.kt:65-75 | the message, with the next id and clock reading, is appended to the current session; updatedAt takes the following reading; the title rule is applied; the list is saved |
| `Manager.ChatManager.UpdateLastMessage` | app/src/main/java/com/aichatbox/app/ChatManager.kt:78-83 | the last message's content is rewritten at the position `indexOf` finds; title and updatedAt are unchanged and nothing is saved |
| `Manager.ChatManager.ClearCurrentSession` | app/src/main/java/com/aichatbox/app/ChatManager.kt:85-89 | the current session loses its messages and gets the placeholder title back; its updatedAt stays; the list is saved |
| `Manager.ChatManager.SetApiConfig` | app/src/main/java/com/aichatbox/app/ChatManager.kt:94-97 | the configuration is installed and written to the config file |
| `Manager.ChatManager.SaveConfig` | app/src/main/java/com/aichatbox/app/ChatManager.kt:170-184 | the config file holds the encoded configuration |
| `Manager.ChatManager.SaveData` | app/src/main/java/com/aichatbox/app/ChatManager.kt:100-125 | the sessions file holds every session, encoded in list order; the sessions themselves are unchanged |
| `Manager.ChatManager.LoadData` | app/src/main/java/com/aichatbox/app/ChatManager.kt:127-168 | an unreadable sessions file changes nothing; otherwise the list becomes the readable prefix as fresh objects; the first session becomes current only when every element was read; the config file is read only when the sessions half did not throw |
| `Manager.ChatManager.ReadSessions` | app/src/main/java/com/aichatbox/app/ChatManager.kt:129-150 | one fresh session object per readable element, up to the first unreadable one, and whether all were read |
| `Manager.ChatManager.ExportData` | app/src/main/java/com/aichatbox/app/ChatManager.kt:187-214 | the export document of the stored sessions, in order, and of the configuration without its secrets |
| `Manager.ChatManager.ReadImportedMessage` | app/src/main/java/com/aichatbox/app/ChatManager.kt:230-235 | one imported message: role and content, one clock reading for the fallback timestamp, then one UUID for the id; nothing is drawn when role or content is missing |
| `Manager.ChatManager.ReadImportedMessages` | app/src/main/java/com/aichatbox/app/ChatManager.kt:228-236 | the inner import loop gives what the step-by-step run describes, with its draws |
| `Manager.ChatManager.ReadImportedSession` | app/src/main/java/com/aichatbox/app/ChatManager.kt:223-237 | one imported session: id and title, a clock reading for updatedAt, then its messages; it fails when any of them fails |
| `Manager.ChatManager.ReadImportedSessions` | app/src/main/java/com/aichatbox/app/ChatManager.kt:221-238 | the outer import loop gives the sessions the step-by-step run reads, and whether it read all of them |
| `Sessions.NewSession` | app/src/main/java/com/aichatbox/app/ChatManager.kt:224-227 | a new session object holds exactly the given value |
| `Manager.ChatManager.NewSessions` | app/src/main/java/com/aichatbox/app/ChatManager.kt:224-237 | one fresh session object per session read, holding its value, in order |
| `Manager.ChatManager.ImportData` | app/src/main/java/com/aichatbox/app/ChatManager.kt:216-245 | a document that is not an object changes nothing; otherwise the list is emptied and refilled with the readable prefix; only a complete import selects the first session and saves, and an incomplete one leaves the current session and the file as they were |
| `Manager.ChatManager.InstallImported` | app/src/main/java/com/aichatbox/app/ChatManager.kt:224-241 | the sessions read become the list, as fresh objects in order; only a complete read makes the first of them current and saves, otherwise current and the file stay |
| `Manager.ChatManager.ReimportExport` | app/src/main/java/com/aichatbox/app/ChatManager.kt:187-245 | importing the store's own export keeps the number of sessions and every session's id, title and messages (role, content, timestamp), as fresh objects; the first becomes current; the list is saved |
| `Manager.ImportWithoutSessionsArray` | app/src/main/java/com/aichatbox/app/ChatManager.kt:216-221 | after an import whose document lacks the sessions array, the current session is in no list at all |
| `Api.Header` | app/src/main/java/com/aichatbox/app/ApiClient.kt:62-67 | a header lookup finds a value exactly when a header of that name is present, and the value is that of the first such header |
| `Api.RequestMessages` | app/src/main/java/com/aichatbox/app/ApiClient.kt:36-52 | the messages array has one entry per message, plus one exactly when a system prompt is configured |
| `Api.RequestMessagesRead` | app/src/main/java/com/aichatbox/app/ApiClient.kt:36-52 | reading the array back gives ("system", prompt) first exactly when the prompt is non-empty, then every message's role and content, in order |
| `Api.BuildRequest` | app/src/main/java/com/aichatbox/app/ApiClient.kt:54-67 | posted to the endpoint with a JSON media type, a JSON content type and "Bearer " + the API key; the body carries the model, the messages, the temperature, max_tokens and the stream flag |
| `Api.NormalRequest` | app/src/main/java/com/aichatbox/app/ApiClient.kt:76-90 | an unsuccessful status throws "HTTP code: message"; a missing body throws "Empty response"; a failed read throws the reader's failure; a readable body that parses as an object holding choices[0].message.content returns exactly that content, and only such a body returns a value |
| `Api.NormalRequestReadsCompletion` | app/src/main/java/com/aichatbox/app/ApiClient.kt:82-89 | a successful response holding a completion document returns that document's content |
| `Api.ChunksNonEmpty` | app/src/main/java/com/aichatbox/app/ApiClient.kt:116-120 | no chunk delivered is empty |
| `Api.InspectLine` | app/src/main/java/com/aichatbox/app/ApiClient.kt:105-116 | a line is the end marker exactly when it is "data: [DONE]"; any other line yields its delta text, empty for a line without the "data: " prefix or without a readable delta |
| `Api.ChunksStep` | app/src/main/java/com/aichatbox/app/ApiClient.kt:103-125 | a line other than "data: [DONE]" adds its chunk, if any, to those delivered so far, and leaves whether "[DONE]" lies ahead unchanged |
| `Api.DoneStops` | app/src/main/java/com/aichatbox/app/ApiClient.kt:107 | a run starting with the "[DONE]" line reaches it and delivers nothing |
| `Api.ConcatAppend` | app/src/main/java/com/aichatbox/app/ApiClient.kt:118 | appending a chunk to the accumulator appends it to the concatenation |
| `Api.ChunkEventsAppend` | app/src/main/java/com/aichatbox/app/ApiClient.kt:119 | one more chunk adds exactly one onChunk event at the end |
| `Api.ReadLines` | app/src/main/java/com/aichatbox/app/ApiClient.kt:100-125 | the line loop accumulates the concatenation of the chunks up to the first "[DONE]" line, fires one onChunk per chunk in order, and tells whether "[DONE]" was met |
| `Api.StreamRequest` | app/src/main/java/com/aichatbox/app/ApiClient.kt:92-134 | gives exactly the result and callbacks `Streamed` describes: an HTTP error fires onError then throws; a missing body throws with no callback; otherwise the chunks, then onComplete with their concatenation, which is returned, unless the reader fails before "[DONE]", which fires onError and throws |
| `Api.SendMessage` | app/src/main/java/com/aichatbox/app/ApiClient.kt:29-74 | the built request is sent once; the response is streamed exactly when streaming is asked for and a callback is given; otherwise it is read as a plain response and no callback fires |
| `Api.ChunkEventsTexts` | app/src/main/java/com/aichatbox/app/ApiClient.kt:117-132 | a trace of onChunk events and one terminal event carries exactly the chunks and exactly one terminal callback |
| `Api.StreamedTrace` | app/src/main/java/com/aichatbox/app/ApiClient.kt:100-134 | a streamed call with a body fires exactly one terminal callback, last; onComplete receives, and the call returns, the concatenation of everything onChunk received; onError receives the failure's text |
| `Api.StreamedHttpError` | app/src/main/java/com/aichatbox/app/ApiClient.kt:94-97 | an unsuccessful status fires only onError("HTTP code: message"), before any chunk, and the call throws |
| `Api.DoneIgnoresRest` | app/src/main/java/com/aichatbox/app/ApiClient.kt:107 | nothing after a "data: [DONE]" line is delivered |
| `Api.InertLineSkipped` | app/src/main/java/com/aichatbox/app/ApiClient.kt:104-123 | a line without the "data: " prefix, or with a payload that is not a JSON object, delivers nothing and does not stop the stream |
| `Api.NoDeltaLineSkipped` | app/src/main/java/com/aichatbox/app/ApiClient.kt:110-116 | a data line whose payload is an object without a choices array, without an object at choices[0], or without a delta object delivers nothing and does not stop the stream |
| `Api.DeltaLinesChunks` | app/src/main/java/com/aichatbox/app/ApiClient.kt:103-125 | data lines whose payloads are delta documents with non-empty texts deliver exactly those texts, in order |
| `Api.DeltaLinesDeliver` | app/src/main/java/com/aichatbox/app/ApiClient.kt:103-125 | data lines of delta documents, then "data: [DONE]", deliver the texts in order, whatever follows |

## Left out

- File I/O and JSON text: reading, writing, parsing and printing JSON text
  are not modelled. A file is its JSON value, or `Corrupt` when its text
  does not parse. A failed write (caught and printed by `saveData` and
  `saveConfig`) is not modelled.
- The `toString(2)` formatting of `exportData`'s text and the text
  `importData` parses: the import takes the parsed document, or `None` when
  parsing throws.
- The org.json coercions: the model treats only a JSON string as a string
  and only an integral number as a long. `getString` on a number and
  `optString` on `null` are therefore not modelled.
- Float precision: `temperature` is a real number. The Float/Double
  conversions of `toFloat()` and of `put` are not modelled.
- `getCurrentSession` and `getApiConfig` return the fields `current` and
  `apiConfig` themselves, so they have no member of their own.
- The `Context`, the files' directory and the UI layer (`MainActivity`,
  `MessageAdapter`) are not part of this model.
- UUIDs and clock readings: the model keeps the order in which they are
  drawn, not their values. Clock readings are not assumed to increase.
- OkHttp: the client's timeouts, `abort()` (which cancels every call),
  coroutine dispatching and threads are not modelled.
- `PRESETS` is a constant table the core never reads, so it is not modelled.
- Callbacks that throw: the model's callbacks never throw. In the code,
  an `onChunk` that throws is caught by the inner `try` around each line:
  the chunk has already been appended to the full response, and the loop
  goes on with the next line. An `onComplete` that throws reaches the
  outer `catch`, which fires `onError` and rethrows.
- Api.StreamRequest: `readUtf8Line` returning null while the source is not
  exhausted is not modelled. The body is a finite sequence of lines, then
  either the end of input or a read failure.
- Api.NormalRequest: the text of the exception org.json throws on a
  malformed response is not modelled. Such a response gives
  `MalformedResponse`, and a body that fails to read gives the reader's
  failure. The body is the model's lines joined by line feeds.
- Manager.ChatManager.ImportData: the session objects are created after
  the sessions array has been read, not one by one as each element is read.
  The values created, the draws made and the prefix kept are the same. The
  difference is invisible, because a session object is added to the list
  only after all its messages have been read.
- Manager.ChatManager.LoadData: the same holds. The session objects are
  created after their values have been read, in the same order.
- Strings are sequences of Unicode scalar values (Dafny's `char`), where
  Kotlin strings are sequences of UTF-16 code units. Lengths and cuts
  therefore differ for text outside the Basic Multilingual Plane, such as
  emoji.
- Sessions.TitleRule: counts the 30-character cut and the length test of
  `content.take(30)` and `content.length` in Unicode scalar values, not
  UTF-16 code units. A first message of 29 letters and one emoji keeps its
  whole content as the title here. The code gives it 31 code units, so it
  cuts the emoji's surrogate pair and appends "...".
- Sessions.DerivedTitleBounds: the bounds of 33 and 30 are counted in
  Unicode scalar values, not UTF-16 code units, for the same reason.
- Manager.ChatManager.AddMessage: the title it sets follows the title rule
  counted in Unicode scalar values, not UTF-16 code units. A title ending
  in half a surrogate pair cannot arise in the model.
- Manager.ChatManager.AppendToCurrent: the same holds for the title it sets.
- Api.StreamRequest and Api.SendMessage: `transport` is total, so
  `execute()` throwing is not modelled. That covers a connection failure
  or a timeout, which escapes `streamRequest` without firing any callback.
