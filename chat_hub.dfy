/** `ChatHub`: the SignalR hub. Every handler first resolves the caller's
    username from the session registry and checks its request; the one-shot
    handlers send one response to the caller's user, the streaming handlers
    yield the LLM service's chunks, and the lifecycle hooks keep the registry
    in step with the connections. */
module Hub {
  import opened Wrappers
  import opened Strings
  import opened Models
  import opened ChatHelper
  import opened Llm
  import opened Conversations
  import opened Channels
  import opened Sessions
  import opened UserCache

  /** What `Clients.User(username).SendAsync` carries. */
  datatype Payload = SinglePayload(single: SingleChatResponse) | ChainedPayload(chained: ChainedChatResponse)

  /** One message sent to a user: the recipient, the client method and the payload. */
  datatype Delivery = Delivery(recipient: string, eventName: string, payload: Payload)

  /** How a one-shot handler ends: what it sent, then the exception it threw, if any. */
  datatype Invocation = Invocation(sent: seq<Delivery>, exception: Option<HubException>)

  /** What a streaming handler produces: the chunks it yields, then the exception it ends with, if any. */
  datatype Produced = Produced(chunks: seq<StreamingChatResponse>, thrown: Option<HubException>)

  /** A failure of the model stream surfaces as an exception of the handler. */
  function StreamException(failure: Option<string>): (e: Option<HubException>)
    ensures e.None? <==> failure.None?
    ensures failure.Some? ==> e == Some(ModelError(failure.value))
  {
    if failure.None? then None else Some(ModelError(failure.value))
  }

  /** The guard chain of the chained handlers: a known caller, a request, a
      prompt, and a prompt text that is neither null nor blank. */
  predicate ChainedAdmitted(username: Option<string>, req: Option<ChainedChatRequest>) {
    username.Some? && req.Some? && req.value.prompt.Some? && !IsNullOrWhiteSpace(req.value.prompt.value.text)
  }

  /** What the chained streaming handlers produce: nothing when a guard fails,
      a null dereference when the history is null, and otherwise the LLM
      service's chunks for the conversation, all with the one streaming id. */
  function ChainedProduced(client: LlmClient, username: Option<string>, req: Option<ChainedChatRequest>,
                           id: string, clock: nat -> int): (p: Produced)
    ensures !ChainedAdmitted(username, req) ==> p == Produced([], None)
    ensures ChainedAdmitted(username, req) && req.value.previousMessages.None? ==> p == Produced([], Some(NullReference))
    ensures ChainedAdmitted(username, req) && req.value.previousMessages.Some? ==>
      var s := StreamResponse(client, Conversation(req.value.previousMessages.value, req.value.prompt.value),
                              req.value.modelId, id, clock);
      p.chunks == s.chunks && p.thrown == StreamException(s.failure)
    ensures forall i :: 0 <= i < |p.chunks| ==> p.chunks[i].streamingId == id
  {
    if !ChainedAdmitted(username, req) then Produced([], None)
    else if req.value.previousMessages.None? then Produced([], Some(NullReference))
    else
      var s := StreamResponse(client, Conversation(req.value.previousMessages.value, req.value.prompt.value),
                              req.value.modelId, id, clock);
      Produced(s.chunks, StreamException(s.failure))
  }

  /** The guard chain of `StreamFileChatAsync`: the chained guards and a file stream. */
  predicate FileChatAdmitted(username: Option<string>, req: Option<FileChatRequest>) {
    && username.Some? && req.Some? && req.value.prompt.Some?
    && !IsNullOrWhiteSpace(req.value.prompt.value.text) && req.value.fileStream.Some?
  }

  /** The one message a file chat sends: the prompt's text content, then the file
      as one data content. */
  function FileMessage(req: FileChatRequest): (m: ChatMessage)
    requires req.prompt.Some? && req.prompt.value.text.Some? && req.fileStream.Some?
    ensures m.role == GetChatRole(req.prompt.value.sender)
    ensures m.contents == [TextContent(req.prompt.value.text.value), DataContent(req.fileStream.value, req.mediaType)]
    ensures Text(m) == req.prompt.value.text.value
  {
    var m := ToChatMessage(req.prompt.value);
    TextOfIgnoresData(m.contents, [DataContent(req.fileStream.value, req.mediaType)]);
    ChatMessage(m.role, m.contents + [DataContent(req.fileStream.value, req.mediaType)])
  }

  /** The `await foreach … yield return` of the streaming handlers: every chunk, unchanged and in order. */
  method Relay(source: seq<StreamingChatResponse>) returns (yielded: seq<StreamingChatResponse>)
    ensures yielded == source
  {
    yielded := [];
    for k := 0 to |source|
      invariant yielded == source[..k]
    {
      yielded := yielded + [source[k]];
    }
  }

  class ChatHub {
    /** The session registry the hub resolves callers with. */
    const cache: HubUserCache
    /** The chat client behind the LLM service. */
    const client: LlmClient

    constructor (cache: HubUserCache, client: LlmClient)
      ensures this.cache == cache && this.client == client
    {
      this.cache := cache;
      this.client := client;
    }

    /** `ReceiveSingleAsync`: an unknown caller or a null request ends it
        silently and a null prompt throws; otherwise the prompt alone goes to the
        model and one `OnReceivedSingle` goes to the caller's user, with the
        caller's connection id, the prompt text as a user message and the first
        response message's text as the assistant's. Logging afterwards throws
        when the response has no usage. */
    function ReceiveSingle(ctx: HubCallerContext, req: Option<SingleChatRequest>, duration: int): (r: Invocation)
      reads cache
      ensures cache.FindUsername(ctx).None? || req.None? ==> r == Invocation([], None)
      ensures cache.FindUsername(ctx).Some? && req.Some? && req.value.prompt.None? ==> r == Invocation([], Some(NullReference))
      ensures |r.sent| <= 1
      ensures forall d :: d in r.sent ==>
        && cache.FindUsername(ctx).Some? && d.recipient == cache.FindUsername(ctx).value
        && d.eventName == "OnReceivedSingle" && d.payload.SinglePayload?
        && d.payload.single.username == d.recipient && d.payload.single.connectionId == ctx.connectionId
      ensures cache.FindUsername(ctx).Some? && req.Some? && req.value.prompt.Some? ==>
        var prompt := req.value.prompt.value;
        var resp := GetResponse(client, [ToChatMessage(prompt)], None);
        && (resp.Failure? ==> r == Invocation([], Some(ModelError(resp.error))))
        && (resp.Success? && |resp.value.messages| == 0 ==> r == Invocation([], Some(ArgumentOutOfRange)))
        && (resp.Success? && |resp.value.messages| > 0 ==>
              && |r.sent| == 1
              && r.sent[0].payload.single.requestMessage == ChatMsg(User, prompt.text)
              && r.sent[0].payload.single.responseMessage == ChatMsg(Assistant, Some(Text(resp.value.messages[0])))
              && r.sent[0].payload.single.modelId == resp.value.modelId
              && r.sent[0].payload.single.duration == duration
              && (r.exception.None? <==> resp.value.usage.Some?)
              && (r.exception.Some? ==> r.exception.value == NullReference))
    {
      var username := cache.FindUsername(ctx);
      if username.None? then Invocation([], None)
      else if req.None? then Invocation([], None)
      else if req.value.prompt.None? then Invocation([], Some(NullReference))
      else
        var prompt := req.value.prompt.value;
        var msg := [NewChatMessage(GetChatRole(prompt.sender), prompt.text)];
        match GetResponse(client, msg, None)
        case Failure(e) => Invocation([], Some(ModelError(e)))
        case Success(resp) =>
          if |resp.messages| == 0 then Invocation([], Some(ArgumentOutOfRange))
          else
            var data := SingleChatResponse(username.value, ctx.connectionId, ChatMsg(User, prompt.text),
                                           ChatMsg(Assistant, Some(Text(resp.messages[0]))), duration, resp.modelId);
            Invocation([Delivery(username.value, "OnReceivedSingle", SinglePayload(data))],
                       if resp.usage.None? then Some(NullReference) else None)
    }

    /** `ReceiveChainedAsync`: the chained guards end it silently and a null
        history throws; otherwise the conversation goes to the model and one
        `OnReceivedChained` goes to the caller's user, echoing the whole sent
        conversation (prompt included) and the first response message with its
        sender read back from its role. */
    method ReceiveChained(ctx: HubCallerContext, req: Option<ChainedChatRequest>, duration: int) returns (r: Invocation)
      ensures !ChainedAdmitted(cache.FindUsername(ctx), req) ==> r == Invocation([], None)
      ensures ChainedAdmitted(cache.FindUsername(ctx), req) && req.value.previousMessages.None? ==>
        r == Invocation([], Some(NullReference))
      ensures |r.sent| <= 1
      ensures forall d :: d in r.sent ==>
        && cache.FindUsername(ctx).Some? && d.recipient == cache.FindUsername(ctx).value
        && d.eventName == "OnReceivedChained" && d.payload.ChainedPayload?
        && d.payload.chained.username == d.recipient && d.payload.chained.connectionId == ctx.connectionId
      ensures ChainedAdmitted(cache.FindUsername(ctx), req) && req.value.previousMessages.Some? ==>
        var previous := req.value.previousMessages.value;
        var prompt := req.value.prompt.value;
        var resp := GetResponse(client, Conversation(previous, prompt), req.value.modelId);
        && (resp.Failure? ==> r == Invocation([], Some(ModelError(resp.error))))
        && (resp.Success? && |resp.value.messages| == 0 ==> r == Invocation([], Some(ArgumentOutOfRange)))
        && (resp.Success? && |resp.value.messages| > 0 ==>
              && |r.sent| == 1
              && |r.sent[0].payload.chained.previousMessages| == |previous| + 1
              && (forall i :: 0 <= i <= |previous| ==>
                    r.sent[0].payload.chained.previousMessages[i] == Normalized((previous + [prompt])[i]))
              && r.sent[0].payload.chained.responseMessage ==
                   ChatMsg(GetChatSender(resp.value.messages[0].role), Some(Text(resp.value.messages[0])))
              && r.sent[0].payload.chained.modelId == resp.value.modelId
              && r.sent[0].payload.chained.duration == duration
              && (r.exception.None? <==> resp.value.usage.Some?)
              && (r.exception.Some? ==> r.exception.value == NullReference))
    {
      var username := cache.FindUsername(ctx);
      if username.None? {
        return Invocation([], None);
      }
      if req.None? {
        return Invocation([], None);
      }
      if req.value.prompt.None? {
        return Invocation([], None);
      }
      var prompt := req.value.prompt.value;
      if IsNullOrWhiteSpace(prompt.text) {
        return Invocation([], None);
      }
      if req.value.previousMessages.None? {
        return Invocation([], Some(NullReference));
      }
      var previous := req.value.previousMessages.value;
      var chatMessages := BuildChatMessages(previous, prompt);
      var result := GetResponse(client, chatMessages, req.value.modelId);
      if result.Failure? {
        return Invocation([], Some(ModelError(result.error)));
      }
      var resp := result.value;
      if |resp.messages| == 0 {
        return Invocation([], Some(ArgumentOutOfRange));
      }
      var sender := GetChatSender(resp.messages[0].role);
      var echoed := BuildPreviousMessages(chatMessages);
      ConversationEcho(previous, prompt);
      var data := ChainedChatResponse(username.value, ctx.connectionId, echoed,
                                      ChatMsg(sender, Some(Text(resp.messages[0]))), duration, resp.modelId);
      r := Invocation([Delivery(username.value, "OnReceivedChained", ChainedPayload(data))],
                      if resp.usage.None? then Some(NullReference) else None);
    }

    /** `StreamChatAsync`: yields exactly what `ChainedProduced` describes. */
    method StreamChat(ctx: HubCallerContext, req: Option<ChainedChatRequest>, id: string, clock: nat -> int)
      returns (yielded: seq<StreamingChatResponse>, thrown: Option<HubException>)
      ensures Produced(yielded, thrown) == ChainedProduced(client, cache.FindUsername(ctx), req, id, clock)
    {
      var username := cache.FindUsername(ctx);
      if username.None? || req.None? || req.value.prompt.None? || IsNullOrWhiteSpace(req.value.prompt.value.text) {
        return [], None;
      }
      if req.value.previousMessages.None? {
        return [], Some(NullReference);
      }
      var chatMessages := BuildChatMessages(req.value.previousMessages.value, req.value.prompt.value);
      var s := StreamResponse(client, chatMessages, req.value.modelId, id, clock);
      yielded := Relay(s.chunks);
      thrown := StreamException(s.failure);
    }

    /** The `try` block of the channel writer, with its early returns: it
        pumps the chained chunks into the writer and returns what the `catch`
        block receives. */
    method WriteBody(writer: Channel, ctx: HubCallerContext, req: Option<ChainedChatRequest>, id: string, clock: nat -> int)
      returns (caught: Option<HubException>)
      requires writer.items == [] && writer.completion == Open
      modifies writer
      ensures var p := ChainedProduced(client, cache.FindUsername(ctx), req, id, clock);
        && writer.items == Forwarded(p.chunks)
        && writer.completion == (if FirstFinished(p.chunks).Some? then Completed else Open)
        && caught == TryBlockException(p.chunks, p.thrown)
    {
      var username := cache.FindUsername(ctx);
      if username.None? || req.None? || req.value.prompt.None? || IsNullOrWhiteSpace(req.value.prompt.value.text) {
        return None;
      }
      if req.value.previousMessages.None? {
        return Some(NullReference);
      }
      var chatMessages := BuildChatMessages(req.value.previousMessages.value, req.value.prompt.value);
      var s := StreamResponse(client, chatMessages, req.value.modelId, id, clock);
      caught := Pump(writer, s.chunks);
      if caught.None? {
        caught := StreamException(s.failure);
      }
    }

    /** `WriteAsync` as written: the `catch` block completes the writer with the
        error, and the `finally` block calls `Complete()` again, which throws once
        the writer is already completed. */
    method WriteAsync(writer: Channel, ctx: HubCallerContext, req: Option<ChainedChatRequest>, id: string, clock: nat -> int)
      returns (task: Option<HubException>)
      requires writer.items == [] && writer.completion == Open
      modifies writer
      ensures var p := ChainedProduced(client, cache.FindUsername(ctx), req, id, clock);
        && ReaderView(writer.items, writer.completion) == Reader(p.chunks, p.thrown)
        && task == WriterTaskAsWritten(p.chunks, p.thrown)
    {
      var caught := WriteBody(writer, ctx, req, id, clock);
      if caught.Some? {
        var _ := writer.TryComplete(caught);
      }
      var ok := writer.Complete();
      task := if ok then None else Some(ChannelClosed);
    }

    /** `WriteAsync` with `TryComplete()` in the `finally` block: the reader sees
        exactly what it sees as written, and the writer task never faults. */
    method WriteAsyncCorrected(writer: Channel, ctx: HubCallerContext, req: Option<ChainedChatRequest>, id: string, clock: nat -> int)
      returns (task: Option<HubException>)
      requires writer.items == [] && writer.completion == Open
      modifies writer
      ensures var p := ChainedProduced(client, cache.FindUsername(ctx), req, id, clock);
        ReaderView(writer.items, writer.completion) == Reader(p.chunks, p.thrown)
      ensures task.None?
    {
      var caught := WriteBody(writer, ctx, req, id, clock);
      if caught.Some? {
        var _ := writer.TryComplete(caught);
      }
      var _ := writer.TryComplete(None);
      task := None;
    }

    /** `StreamChatAsChannel`: a fresh channel whose writer task runs to the end;
        the caller reads the reader's view. */
    method StreamChatAsChannel(ctx: HubCallerContext, req: Option<ChainedChatRequest>, id: string, clock: nat -> int)
      returns (channel: Channel)
      ensures fresh(channel)
      ensures var p := ChainedProduced(client, cache.FindUsername(ctx), req, id, clock);
        ReaderView(channel.items, channel.completion) == Reader(p.chunks, p.thrown)
    {
      channel := new Channel();
      var _ := WriteAsyncCorrected(channel, ctx, req, id, clock);
    }

    /** `StreamFileChatAsync`: the guards, including a required file stream, end
        it silently; otherwise it yields the chunks for the one file message. */
    method StreamFileChat(ctx: HubCallerContext, req: Option<FileChatRequest>, id: string, clock: nat -> int)
      returns (yielded: seq<StreamingChatResponse>, thrown: Option<HubException>)
      ensures !FileChatAdmitted(cache.FindUsername(ctx), req) ==> yielded == [] && thrown.None?
      ensures FileChatAdmitted(cache.FindUsername(ctx), req) ==>
        var s := StreamResponseForMessage(client, FileMessage(req.value), req.value.modelId, id, clock);
        yielded == s.chunks && thrown == StreamException(s.failure)
    {
      var username := cache.FindUsername(ctx);
      if username.None? || req.None? || req.value.prompt.None? || IsNullOrWhiteSpace(req.value.prompt.value.text) {
        return [], None;
      }
      if req.value.fileStream.None? {
        return [], None;
      }
      var prompt := req.value.prompt.value;
      var chatMessage := NewChatMessage(GetChatRole(prompt.sender), prompt.text);
      chatMessage := chatMessage.(contents := chatMessage.contents + [DataContent(req.value.fileStream.value, req.value.mediaType)]);
      var s := StreamResponseForMessage(client, chatMessage, req.value.modelId, id, clock);
      yielded := Relay(s.chunks);
      thrown := StreamException(s.failure);
    }

    /** `StreamFileChatNewAsync`, using the intended entry message (text and
        attachments): an unknown caller, a null request or latest turn, or a
        blank latest text ends it silently; a null latest message, latest file
        list, history, or earlier turn part throws; otherwise it yields the chunks
        for the entry conversation. */
    method StreamFileChatNew(ctx: HubCallerContext, req: Option<ChatRequest>, id: string, clock: nat -> int)
      returns (yielded: seq<StreamingChatResponse>, thrown: Option<HubException>)
      ensures cache.FindUsername(ctx).None? || req.None? || req.value.latest.None? ==> yielded == [] && thrown.None?
      ensures cache.FindUsername(ctx).Some? && req.Some? && req.value.latest.Some? ==>
        var latest := req.value.latest.value;
        && (latest.message.None? ==> yielded == [] && thrown == Some(NullReference))
        && (latest.message.Some? && IsNullOrWhiteSpace(latest.message.value.text) ==> yielded == [] && thrown.None?)
        && (latest.message.Some? && !IsNullOrWhiteSpace(latest.message.value.text) ==>
              if latest.files.None? || req.value.previous.None? then yielded == [] && thrown == Some(NullReference)
              else
                var conv := EntryConversation(req.value.previous.value, latest);
                && (conv.Failure? ==> yielded == [] && thrown == Some(NullReference))
                && (conv.Success? ==>
                      var s := StreamResponse(client, conv.value, req.value.modelId, id, clock);
                      yielded == s.chunks && thrown == StreamException(s.failure)))
    {
      var username := cache.FindUsername(ctx);
      if username.None? || req.None? || req.value.latest.None? {
        return [], None;
      }
      var latest := req.value.latest.value;
      if latest.message.None? {
        return [], Some(NullReference);
      }
      if IsNullOrWhiteSpace(latest.message.value.text) {
        return [], None;
      }
      if latest.files.None? {
        return [], Some(NullReference);
      }
      if req.value.previous.None? {
        return [], Some(NullReference);
      }
      var built := BuildEntryMessages(req.value.previous.value, latest);
      if built.Failure? {
        return [], Some(built.error);
      }
      var s := StreamResponse(client, built.value, req.value.modelId, id, clock);
      yielded := Relay(s.chunks);
      thrown := StreamException(s.failure);
    }

    /** `OnConnectedAsync`: registers the caller with a non-forced `Add`; the
        registry's answer, which the hook ignores, is returned. On success the
        handlers resolve the caller to the handshake's username. */
    method OnConnected(ctx: HubCallerContext, now: int) returns (added: ResponseBase)
      requires cache.Valid()
      modifies cache
      ensures cache.Valid()
      ensures added.isSuccess <==>
        !(ExistsIn(old(cache.users), ctx.connectionId, ConnectionId, cache.fold) &&
          ExistsIn(RemoveFirst(old(cache.users), ctx.connectionId, ConnectionId, cache.fold), ctx.usernameQuery, Username, cache.fold))
      ensures added.isSuccess ==>
        && cache.users == Evict(old(cache.users), ctx.connectionId, ctx.usernameQuery, cache.fold)
                            + [UserSession(ctx.usernameQuery, ctx.connectionId, now)]
        && cache.FindUsername(ctx) == Some(ctx.usernameQuery)
      ensures !added.isSuccess ==> cache.users == RemoveFirst(old(cache.users), ctx.connectionId, ConnectionId, cache.fold)
    {
      added := cache.AddContext(ctx, false, now);
    }

    /** `OnDisconnectedAsync`: removes the caller's session by connection id,
        whether or not the connection ended with an exception; afterwards no
        handler resolves the caller. */
    method OnDisconnected(ctx: HubCallerContext, exception: Option<string>)
      requires cache.Valid()
      modifies cache
      ensures cache.Valid()
      ensures cache.users == RemoveFirst(old(cache.users), ctx.connectionId, ConnectionId, cache.fold)
      ensures cache.FindUsername(ctx).None?
    {
      cache.Remove(ctx.connectionId, ConnectionId);
    }
  }
}
