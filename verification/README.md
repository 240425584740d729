# Chat session store

A Dafny model of the chat-session backend of a multi-user chat application.
Each authenticated user owns chat sessions. A session has a title, an ordered
list of embedded messages tagged `user` or `model`, an `isActive` flag and
timestamps. The controller creates, lists, fetches, retitles and deletes
sessions, and reports per-user statistics. It also runs one conversational turn:
append the user's message, ask a hosted language model with the earlier
history, append the reply, retitle a fresh default-titled session, and save.

Layout:

- `wrappers.dfy` (`Wrappers`): `Option` and `Result`.
- `chat_schema.dfy` (`ChatSchema`): the record shapes of `server/models/Chat.js`.
  This covers the two-valued `Role` enum, `Message`, `Session`, the default title,
  JavaScript falsiness of a title, and what a save validates (required, non-empty
  message content).
- `chat_views.dfy` (`ChatViews`): the pure parts of
  `server/controllers/chatController.js`. These are the 50-character prefix, the
  summary projection, the provider history, what an answered turn does to a
  session, a retitle, and the message total (the `reduce`), with its
  order-independence.
- `session_store.dfy` (`SessionStores`): class `SessionStore`, holding a map from
  session id to `Session`, the next free id and a logical clock. It has one
  method per controller handler. Each handler is scoped to the caller's owner
  id, and `Valid()` is the store invariant every write keeps.
- `scenarios.dfy` (`Scenarios`): client methods that walk through request
  sequences and prove what each response must be from the contracts alone.

Modelling choices:

- The caller is an already-authenticated owner id.
- The model provider is a function parameter `Provider` from (history, message)
  to either a reply text or a failure.
- The database is the in-memory map. `updatedAt`/`createdAt` are readings of a
  logical clock that ticks once per write. Because of this, no two sessions
  share an `updatedAt`, and the newest-first listing order is strict.
- A save validates the document. A required `String` rejects the empty
  string, so an empty message or an empty reply makes the final save fail.
  The result is `ValidationError`, and nothing is stored.
- A save of a document that was not modified writes nothing and does not touch
  `updatedAt`. So `UpdateTitle` with a falsy title, or with the title the session
  already has, leaves the store exactly as it was.

Behaviour of the code worth stating outright:

- An explicit empty title at creation becomes `New Chat` (`title || 'New Chat'`),
  so auto-titling still applies (`SessionStore.Create`, `AutoTitleRule`).
- A provider failure stores nothing: both pushes happen in memory and the only
  write is the final save, so not even a session created by that request is
  stored (`SendMessage`, `Scenarios.ProviderFailureSavesNothing`).
- `UpdateTitle` with a falsy title saves an unmodified document, which Mongoose
  does not write, so the store does not change.

## Model

| member | source | states |
|---|---|---|
| `ChatSchema.ParseRole` | server/models/Chat.js:4-8 | a stored role string is accepted exactly when it is `user` or `model`, and then names the decoded role |
| `ChatSchema.ParseRoleName` | server/models/Chat.js:4-8 | every role written out as its name decodes back to itself |
| `ChatSchema.TitleOrDefault` | server/controllers/chatController.js:12 | a falsy (absent or empty) title becomes `New Chat`, any other title is kept, and the result is never empty |
| `ChatViews.Prefix50` | server/controllers/chatController.js:41 | `substring(0, 50)`: a prefix of the input, at most 50 long, the whole input when it is that short, exactly 50 otherwise, empty only for empty input |
| `ChatViews.Summarize` | server/controllers/chatController.js:33-43 | the summary keeps id, title, flag and timestamps. `messageCount` is the number of messages. `lastMessage` is absent exactly when there are no messages; otherwise it is the first 50 characters of the last message's content, or all of it when shorter |
| `ChatViews.ShortLastMessageShownWhole` | server/controllers/chatController.js:40-42 | a last message of at most 50 characters is previewed in full |
| `ChatViews.ProviderRoleIsRoleName` | server/controllers/chatController.js:138 | the provider role of a message is its own stored role name, so roles are preserved |
| `ChatViews.ToHistory` | server/controllers/chatController.js:137-140 | the history has one entry per message, in order, carrying that message's role name and content |
| `ChatViews.ToHistoryAppend` | server/controllers/chatController.js:137-140 | the history of a longer conversation is the history of its beginning followed by the history of the rest |
| `ChatViews.ProvisionalTitle` | server/controllers/chatController.js:124 | a session created by a message is titled by the message's first 50 characters, or `New Chat` when the message is empty |
| `ChatViews.AfterReplyAppends` | server/controllers/chatController.js:131-148 | an answered turn appends exactly the user message and then the reply, keeps every earlier message, and leaves owner, flag and timestamps alone |
| `ChatViews.AutoTitleRule` | server/controllers/chatController.js:151-153 | the title becomes the message's 50-character prefix exactly when the session had no messages and was titled `New Chat`; otherwise it is unchanged |
| `ChatViews.LaterTurnKeepsTitle` | server/controllers/chatController.js:151-153 | a second answered turn never changes the title the first one left |
| `ChatViews.AfterReplySavable` | server/models/Chat.js:9-12 | an answered turn on a valid session can be saved exactly when neither the message nor the reply is empty |
| `ChatViews.AfterReplyKeepsTitle` | server/controllers/chatController.js:151-153 | a saved turn never leaves a session with an empty title |
| `ChatViews.RetitledTitle` | server/controllers/chatController.js:80 | a falsy title leaves the session as it was; a non-empty one becomes exactly the title; owner, messages, flag and creation time never change |
| `ChatViews.MessageTotalAppend` | server/controllers/chatController.js:177 | the message total of two lists of sessions put together is the sum of their totals |
| `ChatViews.MessageSumRemove` | server/controllers/chatController.js:177 | the order-free message count of a set of sessions is any one session's count plus that of the rest |
| `ChatViews.MessageTotalOfListing` | server/controllers/chatController.js:176-177 | reducing over any listing that names each of a set of sessions once gives the order-free message count of that set |
| `SessionStores.WriteKeepsValid` | server/controllers/chatController.js:155 | saving a well-formed session at the current tick, under its own id or a fresh one, keeps the store invariant |
| `SessionStores.AnswerOutcome` | server/controllers/chatController.js:142-161 | a turn fails with the provider's reason when the provider fails, and fails validation when the message or reply is empty; otherwise it returns the reply and the saved session: earlier messages, then the user message, then the reply, owner kept, title by the auto-title rule, stamped with the save time |
| `SessionStores.SessionStore.constructor` | server/models/Chat.js:19-34 | an empty store is valid |
| `SessionStores.SessionStore.ActiveIds` | server/controllers/chatController.js:174 | the ids a `{ userId, isActive: true }` query matches are exactly the caller's active sessions, a subset of all of the caller's sessions |
| `SessionStores.SessionStore.Resolve` | server/controllers/chatController.js:115-128 | a target always belongs to the caller; with a session id it exists exactly when the caller owns that session; without one it is a new session under the next id with no messages, active, and a non-empty title taken from the message |
| `SessionStores.SessionStore.Create` | server/controllers/chatController.js:5-18 | a new session under an unused id, owned by the caller, with no messages, active, titled by the supplied title or `New Chat` when it is falsy; every other session is unchanged |
| `SessionStores.SessionStore.Get` | server/controllers/chatController.js:52-62 | returns the session exactly when the caller owns it, and NotFound otherwise |
| `SessionStores.SessionStore.UpdateTitle` | server/controllers/chatController.js:69-83 | NotFound and no change unless the caller owns the session; otherwise the session retitled as `RetitledTitle` states, stored under its id, with the clock ticking only when something changed |
| `SessionStores.SessionStore.Delete` | server/controllers/chatController.js:90-101 | NotFound and no change unless the caller owns the session; otherwise exactly that id is removed and every other session is unchanged |
| `SessionStores.SessionStore.FindOwned` | server/controllers/chatController.js:28-29 | lists every session of the caller and no other, each once, strictly newest first |
| `SessionStores.SessionStore.InsertNewestFirst` | server/controllers/chatController.js:29 | inserting a session before the first older one keeps a listing newest first |
| `SessionStores.SessionStore.ListSummaries` | server/controllers/chatController.js:25-45 | every entry summarises one of the caller's sessions; every session of the caller has an entry; entries are in strictly decreasing `updatedAt` order |
| `SessionStores.SessionStore.TargetWellFormed` | server/controllers/chatController.js:115-128 | the session a turn works on passed validation, has a title, and is stored under its id exactly when a session id was given |
| `SessionStores.SessionStore.SendMessage` | server/controllers/chatController.js:108-161 | NotFound when the given session is missing or not the caller's. Otherwise the result is `AnswerOutcome` on the provider's answer to the history of every earlier message. A failure changes nothing. A success stores exactly the returned session under its id in one write |
| `SessionStores.SessionStore.UserStats` | server/controllers/chatController.js:169-183 | `totalSessions` is the number of the caller's sessions; `activeSessions` is the number of the active ones and is at most `totalSessions`; `totalMessages` is the number of messages over all of the caller's sessions; the store is not changed |

## Left out

- The model provider (`@google/generative-ai`, the model name, the API key from the environment) is a foreign network client. It is the `Provider` parameter.
- MongoDB and its driver (`save`, `find`, `findOne`, `deleteOne`, `countDocuments`) are I/O, modelled by the in-memory map. A session id that is not a well-formed document id, and so makes the query throw, is not modelled: ids are natural numbers.
- Wall-clock time is replaced by a logical clock. The per-message `timestamp` field (server/models/Chat.js:13-16) is not modelled, because nothing in the controller reads it.
- Token verification (server/middleware/authMiddleware.js) and the user records are not part of this model. The caller is an owner id.
- The HTTP layer is not modelled. That covers routes, status codes, JSON bodies, the `details` text of a 500 response and console logging. Request bodies whose `message` or `title` is not a string are also left out: for `title`, Mongoose would cast a number to a string, treat `0`, `false` and `null` as falsy, and fail with a cast error on an object; a non-string `message` is not modelled either (without a session id, `message.substring` throws on it).
- ChatViews.Prefix50: counts Unicode scalar values, while JavaScript's `substring(0, 50)` counts UTF-16 code units. For text with characters outside the Basic Multilingual Plane (emoji, say) the source keeps fewer characters in titles and previews, and may split a surrogate pair, which a Dafny string cannot represent.
- Requests are a sequential transcript. Concurrent requests racing on one session (last writer wins) are not modelled.
- The order of two sessions with equal `updatedAt` is not modelled, because the logical clock never gives two sessions the same tick.
- The client application, the route tables and the model-listing script are out of scope: UI, glue and network I/O.
