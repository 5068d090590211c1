/** The message and request shapes the hub, the helpers and the LLM service
    share, with the parts of the chat-client library they rely on
    (`ChatRole`, `ChatMessage` and its contents, streaming updates). */
module Models {
  import opened Wrappers

  type byte = bv8

  /** `ChatSender`; `OutOfRange` is an integer cast to the enum outside its members. */
  datatype ChatSender = User | Assistant | OutOfRange(value: int)

  /** `ChatRole`, a wrapped role string. */
  datatype ChatRole = ChatRole(value: string)

  const UserRole := ChatRole("user")
  const AssistantRole := ChatRole("assistant")
  const SystemRole := ChatRole("system")

  /** `ChatMsg(Sender, Text)`; the text may be null. */
  datatype ChatMsg = ChatMsg(sender: ChatSender, text: Option<string>)

  /** The two kinds of message content the hub builds. */
  datatype AIContent =
    | TextContent(text: string)
    | DataContent(data: seq<byte>, mediaType: Option<string>)

  /** `ChatMessage`: a role and an ordered list of contents. */
  datatype ChatMessage = ChatMessage(role: ChatRole, contents: seq<AIContent>)

  /** `new ChatMessage(role, content)`: a null content gives no contents,
      any other string a single text content. */
  function NewChatMessage(role: ChatRole, content: Option<string>): (m: ChatMessage)
    ensures m.role == role
    ensures content.None? ==> m.contents == []
    ensures content.Some? ==> m.contents == [TextContent(content.value)] && Text(m) == content.value
  {
    if content.None? then ChatMessage(role, [])
    else
      var contents := [TextContent(content.value)];
      assert contents[..0] == [];
      assert TextOf(contents) == TextOf([]) + content.value;
      ChatMessage(role, contents)
  }

  /** The concatenated text of a content list; data contents add nothing. */
  function TextOf(contents: seq<AIContent>): string
    decreases |contents|
  {
    if |contents| == 0 then ""
    else TextOf(contents[..|contents| - 1]) + ContentText(contents[|contents| - 1])
  }

  /** The text one content contributes. */
  function ContentText(c: AIContent): string {
    match c
    case TextContent(t) => t
    case DataContent(_, _) => ""
  }

  /** `ChatMessage.Text`. */
  function Text(m: ChatMessage): string {
    TextOf(m.contents)
  }

  /** Appending contents that hold no text leaves the text as it was. */
  lemma {:induction false} TextOfIgnoresData(prefix: seq<AIContent>, data: seq<AIContent>)
    requires forall i :: 0 <= i < |data| ==> data[i].DataContent?
    ensures TextOf(prefix + data) == TextOf(prefix)
    decreases |data|
  {
    if |data| > 0 {
      var init := data[..|data| - 1];
      assert (prefix + data)[..|prefix + data| - 1] == prefix + init;
      assert (prefix + data)[|prefix + data| - 1] == data[|data| - 1];
      TextOfIgnoresData(prefix, init);
    } else {
      assert prefix + data == prefix;
    }
  }

  /** `SingleChatRequest`. */
  datatype SingleChatRequest = SingleChatRequest(prompt: Option<ChatMsg>)

  /** `ChainedChatRequest` with the fields the hub reads. */
  datatype ChainedChatRequest = ChainedChatRequest(previousMessages: Option<seq<ChatMsg>>,
                                                   prompt: Option<ChatMsg>,
                                                   modelId: Option<string>)

  /** `FileChatRequest`. */
  datatype FileChatRequest = FileChatRequest(fileStream: Option<seq<byte>>, mediaType: Option<string>,
                                             prompt: Option<ChatMsg>, modelId: Option<string>)

  /** An attached file. */
  datatype ChatFile = ChatFile(filename: string, mediaType: Option<string>, fileStream: seq<byte>)

  /** One turn of a file chat: a message and its attachments. */
  datatype ChatEntry = ChatEntry(message: Option<ChatMsg>, files: Option<seq<ChatFile>>)

  /** The file-chat request: earlier turns, the latest turn and the model. */
  datatype ChatRequest = ChatRequest(previous: Option<seq<ChatEntry>>, latest: Option<ChatEntry>,
                                     modelId: Option<string>)

  /** `ChatResponseUpdate`: one streamed piece of a model response. */
  datatype ChatResponseUpdate = ChatResponseUpdate(text: string, finishReason: Option<string>,
                                                   modelId: Option<string>, createdAt: Option<int>)

  /** `StreamingChatResponse`: one chunk sent to the client. */
  datatype StreamingChatResponse = StreamingChatResponse(streamingId: string, hasFinished: bool,
                                                         message: ChatMsg, modelId: Option<string>,
                                                         createdAt: int)

  /** `UsageDetails`. */
  datatype UsageDetails = UsageDetails(inputTokenCount: Option<int>, outputTokenCount: Option<int>)

  /** `ChatResponse`. */
  datatype ChatResponse = ChatResponse(messages: seq<ChatMessage>, modelId: Option<string>,
                                       usage: Option<UsageDetails>)

  /** `ChatOptions` with the one option the service sets. */
  datatype ChatOptions = ChatOptions(modelId: Option<string>)

  /** `SingleChatResponse`; the duration is a number of ticks. */
  datatype SingleChatResponse = SingleChatResponse(username: string, connectionId: string,
                                                   requestMessage: ChatMsg, responseMessage: ChatMsg,
                                                   duration: int, modelId: Option<string>)

  /** `ChainedChatResponse`. */
  datatype ChainedChatResponse = ChainedChatResponse(username: string, connectionId: string,
                                                     previousMessages: seq<ChatMsg>, responseMessage: ChatMsg,
                                                     duration: int, modelId: Option<string>)

  /** The exceptions a hub invocation can end with: a null dereference, an
      index past the end of a list, a write to or completion of an already
      completed channel, and a failure reported by the model client. */
  datatype HubException = NullReference | ArgumentOutOfRange | ChannelClosed | ModelError(message: string)
}
