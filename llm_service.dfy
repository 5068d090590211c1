/** `LlmService`: the chat client wrapper. It builds the message lists for
    the one-shot calls and turns the client's stream of updates into
    `StreamingChatResponse` chunks that all carry one streaming id. */
module Llm {
  import opened Wrappers
  import opened Strings
  import opened Models

  /** What the client streams for one request: the updates in arrival order,
      then, if the stream broke off (a model error or a cancellation), why. */
  datatype UpdateStream = UpdateStream(updates: seq<ChatResponseUpdate>, failure: Option<string>)

  /** The chat client (`IChatClient`): a one-shot response and a streamed one. */
  datatype LlmClient = LlmClient(respond: (seq<ChatMessage>, ChatOptions) -> Result<ChatResponse, string>,
                                 stream: (seq<ChatMessage>, ChatOptions) -> UpdateStream)

  /** The chunks a streaming call yields, then the failure it ends with, if any. */
  datatype StreamOutcome = StreamOutcome(chunks: seq<StreamingChatResponse>, failure: Option<string>)

  /** One update as a chunk; `now` is the UTC time when the chunk is built. */
  function ToChunk(id: string, u: ChatResponseUpdate, now: int): StreamingChatResponse {
    StreamingChatResponse(id, u.finishReason.Some?, ChatMsg(Assistant, Some(u.text)), u.modelId,
                          if u.createdAt.Some? then u.createdAt.value else now)
  }

  /** The body of `StreamResponseAsync(list)`: one chunk per update, in order,
      all with the streaming id drawn at the start; `clock(i)` is the UTC time
      when the i-th chunk is built. */
  function Correlate(id: string, updates: seq<ChatResponseUpdate>, clock: nat -> int): (chunks: seq<StreamingChatResponse>)
    ensures |chunks| == |updates|
    ensures forall i :: 0 <= i < |chunks| ==> chunks[i].streamingId == id
    ensures forall i :: 0 <= i < |chunks| ==> (chunks[i].hasFinished <==> updates[i].finishReason.Some?)
    ensures forall i :: 0 <= i < |chunks| ==> chunks[i].message == ChatMsg(Assistant, Some(updates[i].text))
    ensures forall i :: 0 <= i < |chunks| ==> chunks[i].modelId == updates[i].modelId
    ensures forall i :: 0 <= i < |chunks| && updates[i].createdAt.Some? ==> chunks[i].createdAt == updates[i].createdAt.value
    ensures forall i :: 0 <= i < |chunks| && updates[i].createdAt.None? ==> chunks[i].createdAt == clock(i)
    decreases |updates|
  {
    if |updates| == 0 then []
    else
      var n := |updates| - 1;
      Correlate(id, updates[..n], clock) + [ToChunk(id, updates[n], clock(n))]
  }

  /** Streaming is incremental: the chunks for the first `k` updates do not
      depend on the updates that arrive later. */
  lemma {:induction false} CorrelatePrefix(id: string, updates: seq<ChatResponseUpdate>, clock: nat -> int, k: nat)
    requires k <= |updates|
    ensures Correlate(id, updates[..k], clock) == Correlate(id, updates, clock)[..k]
    decreases |updates|
  {
    if k < |updates| {
      var n := |updates| - 1;
      assert updates[..n][..k] == updates[..k];
      CorrelatePrefix(id, updates[..n], clock, k);
      assert Correlate(id, updates, clock)[..k] == Correlate(id, updates[..n], clock)[..k];
    } else {
      assert updates[..k] == updates;
    }
  }

  /** `StreamResponseAsync(chatMessages, modelId)`: the client's updates as
      chunks of one streaming id, and the client's failure passed on. */
  function StreamResponse(client: LlmClient, chatMessages: seq<ChatMessage>, modelId: Option<string>,
                          id: string, clock: nat -> int): (r: StreamOutcome)
    ensures var s := client.stream(chatMessages, ChatOptions(modelId));
      && r.failure == s.failure
      && |r.chunks| == |s.updates|
      && (forall i :: 0 <= i < |r.chunks| ==> r.chunks[i] == ToChunk(id, s.updates[i], clock(i)))
  {
    var s := client.stream(chatMessages, ChatOptions(modelId));
    StreamOutcome(Correlate(id, s.updates, clock), s.failure)
  }

  /** The list `StreamResponseAsync(userPrompt)` sends: the prompt as the one user message. */
  function PromptMessages(userPrompt: Option<string>): (msgs: seq<ChatMessage>)
    ensures |msgs| == 1 && msgs[0].role == UserRole
    ensures userPrompt.Some? ==> Text(msgs[0]) == userPrompt.value
  {
    [NewChatMessage(UserRole, userPrompt)]
  }

  /** `StreamResponseAsync(userPrompt)`: streams the one-message prompt list. */
  function StreamResponseForText(client: LlmClient, userPrompt: Option<string>, id: string, clock: nat -> int): (r: StreamOutcome)
    ensures r == StreamResponse(client, PromptMessages(userPrompt), None, id, clock)
  {
    StreamResponse(client, PromptMessages(userPrompt), None, id, clock)
  }

  /** `StreamResponseAsync(chatMessage, modelId)`: streams the one-element list holding the message. */
  function StreamResponseForMessage(client: LlmClient, chatMessage: ChatMessage, modelId: Option<string>,
                                    id: string, clock: nat -> int): (r: StreamOutcome)
    ensures r == StreamResponse(client, [chatMessage], modelId, id, clock)
  {
    StreamResponse(client, [chatMessage], modelId, id, clock)
  }

  /** The list `GetResponseTextAsync` sends: a system message first exactly when
      the system prompt is neither null nor blank, and always the user prompt last. */
  function ResponseTextMessages(userPrompt: Option<string>, systemPrompt: Option<string>): (msgs: seq<ChatMessage>)
    ensures |msgs| == 2 <==> !IsNullOrWhiteSpace(systemPrompt)
    ensures 1 <= |msgs| <= 2
    ensures |msgs| == 2 ==> msgs[0].role == SystemRole && Text(msgs[0]) == systemPrompt.value
    ensures msgs[|msgs| - 1] == NewChatMessage(UserRole, userPrompt)
  {
    var system := if !IsNullOrWhiteSpace(systemPrompt) then [NewChatMessage(SystemRole, systemPrompt)] else [];
    system + [NewChatMessage(UserRole, userPrompt)]
  }

  /** `ChatResponse.Text`: the texts of the response messages, concatenated. */
  function ResponseText(r: ChatResponse): string {
    ConcatTexts(r.messages)
  }

  function ConcatTexts(ms: seq<ChatMessage>): string
    decreases |ms|
  {
    if |ms| == 0 then "" else ConcatTexts(ms[..|ms| - 1]) + Text(ms[|ms| - 1])
  }

  /** `GetResponseTextAsync`: the text of the client's response to `ResponseTextMessages`;
      a client failure is passed on. */
  function GetResponseText(client: LlmClient, userPrompt: Option<string>, systemPrompt: Option<string>,
                           modelId: Option<string>): (r: Result<string, string>)
    ensures var resp := client.respond(ResponseTextMessages(userPrompt, systemPrompt), ChatOptions(modelId));
      && (r.Success? <==> resp.Success?)
      && (r.Success? ==> r.value == ResponseText(resp.value))
      && (r.Failure? ==> r.error == resp.error)
  {
    match client.respond(ResponseTextMessages(userPrompt, systemPrompt), ChatOptions(modelId))
    case Success(resp) => Success(ResponseText(resp))
    case Failure(e) => Failure(e)
  }

  /** `GetResponseAsync`: the client's response to exactly the given messages. */
  function GetResponse(client: LlmClient, chatMessages: seq<ChatMessage>, modelId: Option<string>): (r: Result<ChatResponse, string>)
    ensures r == client.respond(chatMessages, ChatOptions(modelId))
  {
    client.respond(chatMessages, ChatOptions(modelId))
  }
}
