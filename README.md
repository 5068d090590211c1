# AiChatBackend core, modelled in Dafny

AiChatBackend is an ASP.NET chat backend. A SignalR hub (`ChatHub`) lets
browser clients talk to a language model. The model covers five parts of it:

- **The session registry.** `HubUserCache`, and its near-copy
  `HubUserService`, keep a list of `UserSession` records. Each record is keyed
  by two aliases: the SignalR connection id and the username the client gave
  in its handshake.
- **The LLM service.** `LlmService` builds the message lists for one-shot
  model calls. It also turns the model client's stream of updates into
  `StreamingChatResponse` chunks, all carrying one streaming id.
- **The hub.** `ChatHub` has the one-shot handlers, the streaming handlers
  (an async enumerable and a channel), the file-chat handlers, and the connect
  and disconnect hooks that keep the registry in step with the connections.
- **The helpers.** `ChatHelper` maps between roles and senders, echoes a
  message list, and describes an attachment list.
- **The similarity cache.** `TextSimilarityCache` is an id-keyed dictionary
  of text vectors.

How the model is built:

- Each registry is a Dafny class. Its `users` sequence is updated in place,
  and its invariant `Valid()` says no two sessions share a connection id or a
  username.
- Case-insensitive comparison is a fold function given to the class. Both
  keys are compared through it.
- The hub is a class holding the registry and the model client.
- Handlers that return one value are functions. Handlers that yield a stream
  are methods that return the yielded chunks and the exception the stream
  ends with.
- The model client is a pair of functions: a one-shot response, and an
  update stream with an optional failure at its end.
- Clocks, the stopwatch and the streaming-id generator are parameters of the
  operations that read them.

Module layout:

| file | module | models |
|---|---|---|
| wrappers.dfy | Wrappers | `Option`, `Result` |
| strings.dfy | Strings | `string.IsNullOrWhiteSpace`, decimal formatting of counts |
| sessions.dfy | Sessions | `UserSession`, key lookup and removal shared by both registries, and their lemmas |
| hub_user_cache.dfy | UserCache | `HubUserCache` |
| hub_user_service.dfy | UserService | `HubUserService` |
| text_similarity_cache.dfy | SimilarityCache | `TextSimilarityCache`, `TextVector` |
| chat_models.dfy | Models | message, request and response records; `ChatMessage` and its contents |
| chat_helper.dfy | ChatHelper | `ChatHelper` |
| llm_service.dfy | Llm | `LlmService` |
| conversation.dfy | Conversations | the message lists the hub builds for chained and file chats |
| channel.dfy | Channels | the unbounded channel behind `StreamChatAsChannel` |
| chat_hub.dfy | Hub | `ChatHub` |

### Behaviour worth noting

- **Non-forced `Add`** (`HubUserCache.cs:152-181`). Whatever `force` says,
  `Add` first removes the session holding the connection id, or failing that
  the one holding the username. It then calls `AddCore` (or `ForceAdd` when
  forced). So a non-forced add fails only when the two keys belong to two
  different sessions, and even then it has already removed the connection
  id's holder.
- **Failure messages** (`HubUserCache.cs:77-93`). The code's messages are
  `Connection ID already exist` and `Username <name> already exist`.
- **`GetResponseAsync` and `StreamResponseAsync` in `LlmService.cs`.** These
  take no model id, but `ChatHub.cs` calls them with one. The model threads
  the model id through as `ChatOptions`. `ReceiveSingleAsync` passes none.
- **`ChainedChatRequest`.** Its fields follow what the hub reads:
  `PreviousMessages`, `Prompt` and `ModelId`.
- **`ChatMsg`, `ChatFile` and the file-chat request.** These are not part of
  this model's source files. Their shapes are taken from how the code uses
  them.

## Model

| member | source | states |
|---|---|---|
| `Sessions.FindIndex` | AiChatBackend/Caches/HubUserCache.cs:43-51 | the lookup finds nothing exactly when no session matches the key; otherwise it finds the first matching session |
| `Sessions.RemoveAtKeepsUnique` | AiChatBackend/Caches/HubUserCache.cs:190-202 | removing one session from a registry with unique keys keeps the keys unique |
| `Sessions.RemoveFirstOnlyDeletes` | AiChatBackend/Caches/HubUserCache.cs:190-202 | removal by key only deletes: a session that is still there afterwards was there before |
| `Sessions.RemoveFirstExactly` | AiChatBackend/Caches/HubUserCache.cs:190-202 | removing a key that is absent changes nothing; removing one that is present takes out exactly the first session matching it and keeps every other session |
| `Sessions.RemoveFirstClearsKey` | AiChatBackend/Caches/HubUserCache.cs:190-202 | in a registry with unique keys, no session matches the removed key afterwards |
| `Sessions.EvictClearsBoth` | AiChatBackend/Caches/HubUserCache.cs:152-181 | after removing the connection id's holder and then the username's holder, neither key is held, and the keys stay unique |
| `Sessions.EvictKeepsOthers` | AiChatBackend/Caches/HubUserCache.cs:152-181 | eviction keeps every session that holds neither key |
| `Sessions.AppendFresh` | AiChatBackend/Caches/HubUserCache.cs:95-108 | appending a session whose two keys are both unused keeps the keys unique |
| `Sessions.DistinctHoldersBlock` | AiChatBackend/Caches/HubUserCache.cs:121-150 | when the connection id and the username are held by two different sessions, removing by connection id takes out the first and keeps the second |
| `Sessions.SameHolderFrees` | AiChatBackend/Caches/HubUserCache.cs:121-150 | when one session holds both keys, removing it by connection id frees the username too |
| `Sessions.CountIsDistinctConnections` | AiChatBackend/Caches/HubUserCache.cs:27 | with unique keys, the session count equals the number of distinct active connection ids |
| `Sessions.FindIndexUnderAgreeingFolds` | AiChatBackend/Services/HubUserService.cs:29-37 | looking up with lower-casing finds the same session as looking up with culture-insensitive comparison, when the two agree |
| `Sessions.UniqueUnderAgreeingFolds` | AiChatBackend/Services/HubUserService.cs:14-22 | existence of a key, and uniqueness of all keys, are the same under two agreeing comparisons |
| `Sessions.EvictUnderAgreeingFolds` | AiChatBackend/Services/HubUserService.cs:161-173 | removal and eviction give the same list under two agreeing comparisons |
| `UserCache.HubUserCache.constructor` | AiChatBackend/Caches/HubUserCache.cs:21-25 | a new registry is empty and valid |
| `UserCache.HubUserCache.CountAll` | AiChatBackend/Caches/HubUserCache.cs:27 | the count is the number of distinct active connections |
| `UserCache.HubUserCache.IsExist` | AiChatBackend/Caches/HubUserCache.cs:31-39 | true exactly when some session matches the key, compared case-insensitively; an undefined key type gives false |
| `UserCache.HubUserCache.IsActive` | AiChatBackend/Caches/HubUserCache.cs:41 | true exactly when the connection id exists |
| `UserCache.HubUserCache.ListAllActive` | AiChatBackend/Caches/HubUserCache.cs:29 | lists exactly the registered sessions, as many as `CountAll` |
| `UserCache.HubUserCache.Find` | AiChatBackend/Caches/HubUserCache.cs:43-51 | finds a session exactly when `IsExist` holds; the session returned is registered, matches the key, and is the first such session |
| `UserCache.HubUserCache.FindUsernameByConnectionId` | AiChatBackend/Caches/HubUserCache.cs:61-65 | the username of the session holding the connection id, or none when it is not registered |
| `UserCache.HubUserCache.FindUsername` | AiChatBackend/Caches/HubUserCache.cs:53-59 | the caller's username, resolved by its connection id |
| `UserCache.HubUserCache.FindConnectionIdByUsername` | AiChatBackend/Caches/HubUserCache.cs:67-71 | the connection id of the session holding the username, or none |
| `UserCache.HubUserCache.AddCore` | AiChatBackend/Caches/HubUserCache.cs:73-119 | a taken connection id fails first, then a taken username, each with its message and nothing changed; otherwise the session is appended and both lookups find it |
| `UserCache.HubUserCache.Remove` | AiChatBackend/Caches/HubUserCache.cs:190-202 | removes the first session matching the key and nothing else; absent key: no change; afterwards the key does not exist |
| `UserCache.HubUserCache.ForceAdd` | AiChatBackend/Caches/HubUserCache.cs:121-150 | succeeds unless the two keys belong to two different sessions; on success both holders are gone and the new session is last; on failure only the connection id's holder is gone |
| `UserCache.HubUserCache.Dispatch` | AiChatBackend/Caches/HubUserCache.cs:159 | once the connection id is free, a forced add evicts the username's holder and succeeds, while a plain add fails exactly when the username is taken |
| `UserCache.HubUserCache.Add` | AiChatBackend/Caches/HubUserCache.cs:152-181 | a forced add always succeeds; a non-forced one fails only when the two keys belong to two different sessions; success leaves exactly one session for either key, namely the new one |
| `UserCache.HubUserCache.AddContext` | AiChatBackend/Caches/HubUserCache.cs:183-188 | `Add` with the context's connection id and handshake username; on success the caller resolves to that username |
| `UserCache.HubUserCache.Dispose` | AiChatBackend/Caches/HubUserCache.cs:204-208 | the registry is empty afterwards |
| `UserService.HubUserService.constructor` | AiChatBackend/Services/HubUserService.cs:5-8 | a new service is empty and valid |
| `UserService.HubUserService.CountAll` | AiChatBackend/Services/HubUserService.cs:10 | the number of distinct active connections |
| `UserService.HubUserService.ListAllActive` | AiChatBackend/Services/HubUserService.cs:12 | exactly the registered sessions |
| `UserService.HubUserService.IsExist` | AiChatBackend/Services/HubUserService.cs:14-22 | true exactly when some session matches the key under culture-insensitive comparison |
| `UserService.HubUserService.IsActive` | AiChatBackend/Services/HubUserService.cs:24-27 | true exactly when the connection id exists |
| `UserService.HubUserService.Find` | AiChatBackend/Services/HubUserService.cs:29-37 | lower-cased lookup; in a valid service it finds a session exactly when `IsExist` holds |
| `UserService.HubUserService.FindUsername` | AiChatBackend/Services/HubUserService.cs:39-43 | the username of the connection id's session, or none |
| `UserService.HubUserService.FindConnectionId` | AiChatBackend/Services/HubUserService.cs:45-49 | the connection id of the username's session, or none |
| `UserService.HubUserService.AddCore` | AiChatBackend/Services/HubUserService.cs:51-97 | the same outcomes and messages as the cache's `AddCore` |
| `UserService.HubUserService.Remove` | AiChatBackend/Services/HubUserService.cs:161-173 | removes the first session found by lower-cased lookup, which is the session culture-insensitive comparison finds |
| `UserService.HubUserService.ForceAdd` | AiChatBackend/Services/HubUserService.cs:99-128 | the same outcome as the cache's `ForceAdd` |
| `UserService.HubUserService.Dispatch` | AiChatBackend/Services/HubUserService.cs:138 | the same outcome as the cache's `Dispatch` |
| `UserService.HubUserService.Add` | AiChatBackend/Services/HubUserService.cs:130-159 | the same outcome as the cache's `Add` |
| `UserService.HubUserService.Dispose` | AiChatBackend/Services/HubUserService.cs:175-179 | the service is empty afterwards |
| `SimilarityCache.TextSimilarityCache.constructor` | AiChatBackend/Caches/TextSimilarityCache.cs:5 | a new cache is empty |
| `SimilarityCache.TextSimilarityCache.Add` | AiChatBackend/Caches/TextSimilarityCache.cs:7 | stores the vector under its id exactly when the id is new, and grows by one; a taken id is refused and nothing changes |
| `SimilarityCache.TextSimilarityCache.Remove` | AiChatBackend/Caches/TextSimilarityCache.cs:9 | the key is gone afterwards and every other entry is kept |
| `SimilarityCache.TextSimilarityCache.Clear` | AiChatBackend/Caches/TextSimilarityCache.cs:11 | the cache is empty afterwards |
| `SimilarityCache.TextSimilarityCache.ListAll` | AiChatBackend/Caches/TextSimilarityCache.cs:13 | one value per stored key, no key twice, and every stored value listed |
| `Strings.NatToString` | AiChatBackend/Helpers/ChatHelper.cs:46 | decimal digits with no leading zero |
| `Strings.ParseNatToString` | AiChatBackend/Helpers/ChatHelper.cs:46 | reading the digits back gives the number |
| `Models.NewChatMessage` | AiChatBackend/Hubs/ChatHub.cs:40 | a message with the given role; a null text gives no contents, any other text one text content whose text it is |
| `ChatHelper.GetChatRole` | AiChatBackend/Helpers/ChatHelper.cs:7-12 | the assistant role exactly for the assistant sender; the user role for the user and for any out-of-range sender |
| `ChatHelper.GetChatSender` | AiChatBackend/Helpers/ChatHelper.cs:14-19 | the user exactly for role value `user`; the assistant for everything else |
| `ChatHelper.RoleRoundTrip` | AiChatBackend/Helpers/ChatHelper.cs:7-19 | the user and assistant roles come back unchanged after mapping to a sender and back |
| `ChatHelper.GetLastChatMsg` | AiChatBackend/Helpers/ChatHelper.cs:21-27 | none exactly for an empty list, otherwise its last message |
| `ChatHelper.LastAfterAppend` | AiChatBackend/Helpers/ChatHelper.cs:21-27 | after appending a message, it is the last one |
| `ChatHelper.BuildPreviousMessages` | AiChatBackend/Helpers/ChatHelper.cs:29-39 | one message per input message, in order, with the sender read back from the role and the message's text |
| `ChatHelper.GetFileInfo` | AiChatBackend/Helpers/ChatHelper.cs:41-47 | `No file attached` exactly for a null or empty list, `1 file attached` for one file, and the count followed by ` files attached` otherwise |
| `ChatHelper.FileInfoDeterminesCount` | AiChatBackend/Helpers/ChatHelper.cs:41-47 | two file lists get the same description exactly when they have the same length (a null list reads as empty) |
| `Llm.Correlate` | AiChatBackend/Services/LlmService.cs:136-152 | one chunk per update, in order, all with the one streaming id; finished exactly when the update has a finish reason; the update's text as the assistant's message; its model id; its creation time, or the clock when it has none |
| `Llm.CorrelatePrefix` | AiChatBackend/Services/LlmService.cs:136-152 | chunks are produced incrementally: the first k chunks depend only on the first k updates |
| `Llm.StreamResponse` | AiChatBackend/Services/LlmService.cs:131-153 | the chunk for each update of the client's stream, with the client's failure passed on |
| `Llm.PromptMessages` | AiChatBackend/Services/LlmService.cs:116-121 | a single user message holding the prompt |
| `Llm.StreamResponseForText` | AiChatBackend/Services/LlmService.cs:116-123 | streams the one-message prompt list |
| `Llm.StreamResponseForMessage` | AiChatBackend/Services/LlmService.cs:125-129 | streams the list holding only the given message |
| `Llm.ResponseTextMessages` | AiChatBackend/Services/LlmService.cs:52-57 | two messages exactly when the system prompt is neither null nor blank; then the system message comes first; the user prompt is always last |
| `Llm.GetResponseText` | AiChatBackend/Services/LlmService.cs:50-66 | the response text of the client's answer to those messages, or the client's failure |
| `Llm.GetResponse` | AiChatBackend/Services/LlmService.cs:68-71 | the client's response to exactly the given messages |
| `Conversations.Conversation` | AiChatBackend/Hubs/ChatHub.cs:89-103 | every previous message, role-mapped and in order, then the prompt |
| `Conversations.BuildChatMessages` | AiChatBackend/Hubs/ChatHub.cs:89-103 | the list-building code, with its special case for an empty history, builds exactly `Conversation` |
| `Conversations.Normalized` | AiChatBackend/Hubs/ChatHub.cs:115 | a message with a declared sender and a text is its own normal form |
| `Conversations.ConversationEcho` | AiChatBackend/Hubs/ChatHub.cs:111-119 | the echoed history is the sent history plus the prompt, normalized |
| `Conversations.DataContents` | AiChatBackend/Hubs/ChatHub.cs:491-493 | one data content per file, in order, with its bytes and media type |
| `Conversations.CollectDataContents` | AiChatBackend/Hubs/ChatHub.cs:491-493 | the loop builds exactly `DataContents` |
| `Conversations.EntryMessageAsWritten` | AiChatBackend/Hubs/ChatHub.cs:495-498 | as written, the message's contents are the attachments only |
| `Conversations.EntryMessageAsWrittenDropsText` | AiChatBackend/Hubs/ChatHub.cs:495-498 | the turn `hi` with no files is sent with empty text |
| `Conversations.EntryMessage` | AiChatBackend/Hubs/ChatHub.cs:495-498 | as intended: the text content first, then the attachments |
| `Conversations.EntryMessageKeepsText` | AiChatBackend/Hubs/ChatHub.cs:495-498 | the intended message's text is the turn's text, and it carries every attachment |
| `Conversations.EntryConversationAsWritten` | AiChatBackend/Hubs/ChatHub.cs:488-528 | as written: succeeds exactly when every turn has a message and a file list; then it is one attachments-only message per earlier turn, followed by the latest turn's; otherwise a null dereference |
| `Conversations.BuildEntryMessagesAsWritten` | AiChatBackend/Hubs/ChatHub.cs:488-528 | the source's list-building loops, object initializers included, build exactly `EntryConversationAsWritten` |
| `Conversations.AsWrittenConversationHasNoText` | AiChatBackend/Hubs/ChatHub.cs:488-528 | as written, no message of a file chat has any text; the intended list fails on the same requests, has the same roles, and puts each turn's text content before the same attachments |
| `Conversations.EntryConversation` | AiChatBackend/Hubs/ChatHub.cs:488-528 | as intended: the same success condition and null dereference as written, with each turn's message holding its text and then its attachments |
| `Conversations.BuildEntryMessages` | AiChatBackend/Hubs/ChatHub.cs:488-528 | the corrected loops, which keep each turn's text content, build exactly `EntryConversation` |
| `Channels.Channel.constructor` | AiChatBackend/Hubs/ChatHub.cs:283-286 | a new channel is empty and open |
| `Channels.Channel.Write` | AiChatBackend/Hubs/ChatHub.cs:336 | appends exactly when the writer is open; fails otherwise and changes nothing |
| `Channels.Channel.TryComplete` | AiChatBackend/Hubs/ChatHub.cs:363 | completes an open writer, with the error if one is given; reports false and changes nothing on a completed one |
| `Channels.Channel.Complete` | AiChatBackend/Hubs/ChatHub.cs:339 | completes an open writer; fails on a completed one |
| `Channels.FirstFinished` | AiChatBackend/Hubs/ChatHub.cs:338-339 | the index of the first finished chunk; none exactly when no chunk is finished |
| `Channels.Forwarded` | AiChatBackend/Hubs/ChatHub.cs:334-340 | a prefix of the chunks that stops at the first finished one; all of them when none is finished |
| `Channels.Reader` | AiChatBackend/Hubs/ChatHub.cs:334-368 | the reader sees the forwarded chunks, then a normal completion, unless no chunk finished and the producer failed, in which case it sees that error |
| `Channels.WriterTaskAsWritten` | AiChatBackend/Hubs/ChatHub.cs:361-368 | the writer task faults with `ChannelClosedException` exactly when a chunk finished or the producer failed |
| `Channels.FinishedStreamFaultsWriterTask` | AiChatBackend/Hubs/ChatHub.cs:338-368 | a stream of one finished chunk and no error still faults the writer task, while its reader completes normally |
| `Channels.Pump` | AiChatBackend/Hubs/ChatHub.cs:334-340 | writes the forwarded chunks, completes the writer at the first finished chunk, and reports the failed write after it |
| `Hub.StreamException` | AiChatBackend/Hubs/ChatHub.cs:251-254 | a failure of the model stream becomes the handler's exception, and only then |
| `Hub.ChainedProduced` | AiChatBackend/Hubs/ChatHub.cs:204-254 | nothing when a guard fails; a null dereference for a null history; otherwise the service's chunks for the conversation, all with the one streaming id |
| `Hub.FileMessage` | AiChatBackend/Hubs/ChatHub.cs:413-418 | the prompt's text content then the file as a data content; its text is the prompt text |
| `Hub.Relay` | AiChatBackend/Hubs/ChatHub.cs:251-254 | yields every chunk unchanged and in order |
| `Hub.ChatHub.constructor` | AiChatBackend/Hubs/ChatHub.cs:12-16 | the hub holds the given registry and client |
| `Hub.ChatHub.ReceiveSingle` | AiChatBackend/Hubs/ChatHub.cs:18-58 | silent for an unknown caller or a null request; a null dereference for a null prompt; otherwise at most one `OnReceivedSingle`, sent to the caller's user, with the prompt as the user's message and the first response text as the assistant's; a missing first message or missing usage throws |
| `Hub.ChatHub.ReceiveChained` | AiChatBackend/Hubs/ChatHub.cs:60-123 | the guards; a null history throws; otherwise one `OnReceivedChained` to the caller's user, echoing the sent conversation, prompt included, and giving the response sender read back from its role |
| `Hub.ChatHub.StreamChat` | AiChatBackend/Hubs/ChatHub.cs:204-279 | yields exactly `ChainedProduced` |
| `Hub.ChatHub.WriteBody` | AiChatBackend/Hubs/ChatHub.cs:292-360 | the writer holds the forwarded chunks and is completed exactly when one finished; the catch block receives the closed-channel error or the producer's failure |
| `Hub.ChatHub.WriteAsync` | AiChatBackend/Hubs/ChatHub.cs:288-372 | as written: the reader's view is `Reader`, and the writer task ends as `WriterTaskAsWritten` says |
| `Hub.ChatHub.WriteAsyncCorrected` | AiChatBackend/Hubs/ChatHub.cs:366-368 | with `TryComplete()` in the finally block: the same reader view, and the writer task never faults |
| `Hub.ChatHub.StreamChatAsChannel` | AiChatBackend/Hubs/ChatHub.cs:281-373 | a fresh channel whose reader sees `Reader` of the chained chunks |
| `Hub.ChatHub.StreamFileChat` | AiChatBackend/Hubs/ChatHub.cs:375-452 | silent unless every guard passes, a file stream included; otherwise yields the chunks for `FileMessage` |
| `Hub.ChatHub.StreamFileChatNew` | AiChatBackend/Hubs/ChatHub.cs:454-562 | silent for an unknown caller, a null request, a null latest turn or a blank latest text; a null dereference for a null latest message, latest file list, history or earlier turn part; otherwise yields the chunks for `EntryConversation` |
| `Hub.ChatHub.OnConnected` | AiChatBackend/Hubs/ChatHub.cs:572-577 | a non-forced add of the caller; when it succeeds, the caller resolves to its handshake username |
| `Hub.ChatHub.OnDisconnected` | AiChatBackend/Hubs/ChatHub.cs:579-588 | removes the caller's session by connection id, with or without an exception; afterwards the caller does not resolve |

## Left out

- Asynchrony and concurrency are not modelled. This covers `Task`, `await`,
  `IAsyncEnumerable` and the channel's concurrent reader. The registry's
  unsynchronised access from concurrent hub calls is left out too. Each
  operation is modelled as running alone.
- Cancellation tokens are left out. A cancelled model stream is one more
  failure at the end of the update stream.
- Logging is left out. `LogSent` is kept only for the exception it throws
  when the response has no usage.
- The stopwatch, `DateTime.UtcNow` and the streaming-id generator are
  parameters: `duration`, `now`, `clock` and `id`.
- The registries' `catch` blocks are left out, and so are null usernames. In
  the source they are reached together:
  - `Add(context)` reads the handshake's `username` query parameter
    (`HubUserCache.cs:186`). When the parameter is missing, the username is
    null.
  - `AddCore` (`HubUserCache.cs:86-102`) then stores a session with a null
    username. Nothing stops it, because comparing a stored username with
    null is false.
  - Every later username lookup that reaches that session calls `Equals` on
    null and throws `NullReferenceException` (`HubUserCache.cs:35`, `47`).
    The catch blocks of `AddCore`, `ForceAdd` and `Add`
    (`HubUserCache.cs:110-118`, `141-149`, `172-180`) turn it into a failure
    with the message `Exception: …`. `Remove`'s catch block
    (`HubUserCache.cs:194-201`) only logs it.
  - So while a username-less session is registered, no later client
    registers, forced or not, unless it has that session's own connection
    id. Every username scan that gets past the sessions stored before the
    username-less one throws. The add fails with `Username <name> already
    exist` when a session stored before it still holds the client's
    username, and with `Exception: …` otherwise. Before failing, `Add` has
    already removed the session holding the client's connection id, or
    failing that the earlier session holding its username. A second
    username-less client fails the same way. `HubUserService` behaves the same way (`HubUserService.cs:14-37`). Its
    `Find` also throws for a null key, because it lower-cases the key (line 33).
- Null connection ids and null keys are left out.
- Null elements inside request lists are left out. The elements of
  `ChainedChatRequest.PreviousMessages`, `ChatRequest.Previous` and
  `ChatEntry.Files` are plain values in the model, not `Option`s. The source
  dereferences every element, so a null one throws `NullReferenceException`
  out of the handler. This happens at `m.Sender` for a null earlier message
  (`ChatHub.cs:99`, `245`, `329`), at `m.Files` for a null earlier turn
  (line 507), and at `file.Filename` or `file.FileStream` for a null file
  (lines 486, 493, 508, 520). The model covers a null list, a null latest
  turn, a null message or file list inside a turn, and a null prompt.
- `UserCache.HubUserCache.AddContext`: the handshake username is a plain
  string, so a missing `username` parameter is not modelled. If that case
  were given the empty string, a second username-less client would evict the
  first and register, whereas the source fails it as described above. The
  source's null-username failures are not captured.
- `Hub.ChatHub.OnConnected`: registers through `AddContext`, so the same
  null-username behaviour is not captured.
- Culture-insensitive and lower-cased comparison are left out. Each is a fold
  function given to the registry.
- `UserService.HubUserService.Find`: the service is valid only when its
  lower-casing agrees with its culture-insensitive comparison. That agreement
  holds for ordinary usernames, not for every culture.
- `UserService.HubUserService.ForceAdd`: its outcome is stated under the
  culture-insensitive comparison. The lower-cased lookup that `Remove` uses
  is tied to it by `Sessions.EvictUnderAgreeingFolds`, not inside this
  contract.
- `UserService.HubUserService.Add`: stated under the culture-insensitive
  comparison, as for `ForceAdd`.
- `UserService.HubUserService.Dispatch`: stated under the culture-insensitive
  comparison, as for `ForceAdd`.
- `ListAllActive` returns the live list in the source. The model returns its
  value, so aliasing is not modelled.
- `SimilarityCache.TextSimilarityCache.Add`: `Dictionary.Add` throws
  `ArgumentException` on a taken key. The model reports `false` and leaves
  the cache unchanged.
- The text vectors' float embeddings are left out, as is their use. The
  dictionary is keyed by a `Guid` while `TextVector.Id` is an unsigned
  integer; both are modelled as one natural-number id.
- `DataContent` media-type validation is left out. How `ChatResponse.Text`
  joins several messages is also left out: the model concatenates their
  texts.
- `StreamChatAsync_OLD`, the batch request and the other handlers outside
  the core are left out.
- The base-class calls in the connect and disconnect hooks are left out.
- `UserSession.StartTime` is the `now` parameter.
- `Hub.ChatHub.StreamChatAsChannel` uses the corrected writer. The writer as
  written is modelled by `Hub.ChatHub.WriteAsync`.
- `Hub.ChatHub.StreamFileChatNew` uses the corrected entry message. The
  message as written is modelled by `Conversations.EntryMessageAsWritten`.
- `Conversations.EntryConversation`: the corrected conversation. The
  source's loops drop each turn's text, as `Conversations.EntryConversationAsWritten`
  states.
- `Conversations.BuildEntryMessages`: the corrected loops. The source's loops
  are `Conversations.BuildEntryMessagesAsWritten`.

## Findings

| source | as written | input that shows it | evidently intended | confidence | as-written member | corrected member |
|---|---|---|---|---|---|---|
| AiChatBackend/Hubs/ChatHub.cs:366-368 | the `finally` block calls `writer.Complete()` even when a finished chunk or the `catch` block's `TryComplete` already completed the writer, so it throws `ChannelClosedException` and the writer task faults | a model stream whose one update has a finish reason, with no error | complete the writer only if it is still open (`TryComplete()`), so a stream that ends properly leaves the writer task clean | not executed | `Channels.WriterTaskAsWritten`, `Channels.FinishedStreamFaultsWriterTask`, `Hub.ChatHub.WriteAsync` | `Hub.ChatHub.WriteAsyncCorrected` |
| AiChatBackend/Hubs/ChatHub.cs:495-498 | the object initializer `Contents = [.. dataContents]` replaces the text content the constructor created, so every file-chat turn reaches the model without its prompt text (also at lines 510-513 and 522-525) | a latest turn with text `hi` and no files: the model gets a user message whose text is empty | keep the text content and add the attachments after it | not executed | `Conversations.EntryMessageAsWritten`, `Conversations.EntryMessageAsWrittenDropsText`, `Conversations.EntryConversationAsWritten`, `Conversations.BuildEntryMessagesAsWritten`, `Conversations.AsWrittenConversationHasNoText` | `Conversations.EntryMessage`, `Conversations.EntryMessageKeepsText`, `Conversations.EntryConversation`, `Conversations.BuildEntryMessages` |
