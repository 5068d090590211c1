/** The message lists the hub hands to the model: a chained chat's history
    followed by its prompt, and a file chat's turns with their attachments. */
module Conversations {
  import opened Wrappers
  import opened Models
  import opened ChatHelper

  /** `new ChatMessage(GetChatRole(m.Sender), m.Text)`. */
  function ToChatMessage(m: ChatMsg): ChatMessage {
    NewChatMessage(GetChatRole(m.sender), m.text)
  }

  /** The list a chained chat sends: every previous message, role-mapped and in
      order, then the prompt. */
  function Conversation(previous: seq<ChatMsg>, prompt: ChatMsg): (msgs: seq<ChatMessage>)
    ensures |msgs| == |previous| + 1
    ensures forall i :: 0 <= i < |previous| ==> msgs[i] == ToChatMessage(previous[i])
    ensures msgs[|previous|] == ToChatMessage(prompt)
  {
    seq(|previous|, i requires 0 <= i < |previous| => ToChatMessage(previous[i])) + [ToChatMessage(prompt)]
  }

  /** The chained handlers' list building: the prompt alone for an empty
      history, otherwise each previous message and then the prompt. */
  method BuildChatMessages(previous: seq<ChatMsg>, prompt: ChatMsg) returns (msgs: seq<ChatMessage>)
    ensures msgs == Conversation(previous, prompt)
    ensures |previous| == 0 ==> msgs == [ToChatMessage(prompt)]
  {
    msgs := [];
    if |previous| == 0 {
      msgs := msgs + [NewChatMessage(GetChatRole(prompt.sender), prompt.text)];
    } else {
      for k := 0 to |previous|
        invariant |msgs| == k
        invariant forall i :: 0 <= i < k ==> msgs[i] == ToChatMessage(previous[i])
      {
        msgs := msgs + [NewChatMessage(GetChatRole(previous[k].sender), previous[k].text)];
      }
      msgs := msgs + [NewChatMessage(GetChatRole(prompt.sender), prompt.text)];
    }
  }

  /** What reading a message back through the roles makes of it: the sender
      becomes the user unless it is the assistant, and a null text becomes empty. */
  function Normalized(m: ChatMsg): (n: ChatMsg)
    ensures !m.sender.OutOfRange? && m.text.Some? ==> n == m
  {
    ChatMsg(if m.sender.Assistant? then Assistant else User, Some(if m.text.None? then "" else m.text.value))
  }

  /** `BuildPreviousMessages` of the sent list gives back the history and the
      prompt, normalized; for declared senders with texts, unchanged. */
  lemma ConversationEcho(previous: seq<ChatMsg>, prompt: ChatMsg)
    ensures forall i :: 0 <= i <= |previous| ==>
              EchoOf(Conversation(previous, prompt)[i]) == Normalized((previous + [prompt])[i])
  {
    var msgs := Conversation(previous, prompt);
    forall i | 0 <= i <= |previous|
      ensures EchoOf(msgs[i]) == Normalized((previous + [prompt])[i])
    {
      var m := (previous + [prompt])[i];
      assert msgs[i] == ToChatMessage(m);
      if m.text.None? {
        assert Text(msgs[i]) == "";
      }
    }
  }

  /** The data contents of a file list, one per file, in order. */
  function DataContents(files: seq<ChatFile>): (dcs: seq<AIContent>)
    ensures |dcs| == |files|
    ensures forall i :: 0 <= i < |files| ==> dcs[i] == DataContent(files[i].fileStream, files[i].mediaType)
  {
    seq(|files|, i requires 0 <= i < |files| => DataContent(files[i].fileStream, files[i].mediaType))
  }

  /** The `foreach` that turns an entry's files into data contents. */
  method CollectDataContents(files: seq<ChatFile>) returns (dcs: seq<AIContent>)
    ensures dcs == DataContents(files)
  {
    dcs := [];
    for k := 0 to |files|
      invariant |dcs| == k
      invariant forall i :: 0 <= i < k ==> dcs[i] == DataContent(files[i].fileStream, files[i].mediaType)
    {
      dcs := dcs + [DataContent(files[k].fileStream, files[k].mediaType)];
    }
  }

  /** An entry the file-chat builder can read: its message and its file list are not null. */
  predicate Readable(e: ChatEntry) {
    e.message.Some? && e.files.Some?
  }

  /** The entry message as the code builds it: the object initializer's
      `Contents = [.. dataContents]` replaces the text content the constructor
      made, so only the attachments remain. */
  function EntryMessageAsWritten(e: ChatEntry): (m: ChatMessage)
    requires Readable(e)
    ensures m.role == GetChatRole(e.message.value.sender)
    ensures m.contents == DataContents(e.files.value)
  {
    ChatMessage(GetChatRole(e.message.value.sender), DataContents(e.files.value))
  }

  /** As written, the prompt text never reaches the model: a turn with text
      "hi" and no files is sent as a message with empty text. */
  lemma EntryMessageAsWrittenDropsText()
    ensures var e := ChatEntry(Some(ChatMsg(User, Some("hi"))), Some([]));
      Text(EntryMessageAsWritten(e)) == "" && Text(EntryMessageAsWritten(e)) != e.message.value.text.value
  {
    var e := ChatEntry(Some(ChatMsg(User, Some("hi"))), Some([]));
    assert EntryMessageAsWritten(e).contents == [];
  }

  /** The entry message as intended: the constructor's text content followed by
      one data content per attached file. */
  function EntryMessage(e: ChatEntry): (m: ChatMessage)
    requires Readable(e)
    ensures m.role == GetChatRole(e.message.value.sender)
    ensures m.contents == ToChatMessage(e.message.value).contents + DataContents(e.files.value)
  {
    var base := ToChatMessage(e.message.value);
    ChatMessage(base.role, base.contents + DataContents(e.files.value))
  }

  /** The intended message keeps the turn's text (empty for a null text) and
      carries every attachment after it. */
  lemma EntryMessageKeepsText(e: ChatEntry)
    requires Readable(e)
    ensures Text(EntryMessage(e)) == (if e.message.value.text.None? then "" else e.message.value.text.value)
    ensures |EntryMessage(e).contents| == |ToChatMessage(e.message.value).contents| + |e.files.value|
  {
    var base := ToChatMessage(e.message.value);
    TextOfIgnoresData(base.contents, DataContents(e.files.value));
  }

  /** The list a file chat sends as written, or the null dereference it hits:
      each earlier turn, then the latest one, each as `EntryMessageAsWritten`. */
  function EntryConversationAsWritten(previous: seq<ChatEntry>, latest: ChatEntry): (r: Result<seq<ChatMessage>, HubException>)
    ensures r.Success? <==> Readable(latest) && forall i :: 0 <= i < |previous| ==> Readable(previous[i])
    ensures r.Failure? ==> r.error == NullReference
    ensures r.Success? ==> |r.value| == |previous| + 1 && r.value[|previous|] == EntryMessageAsWritten(latest)
                           && forall i :: 0 <= i < |previous| ==> r.value[i] == EntryMessageAsWritten(previous[i])
  {
    if Readable(latest) && forall i :: 0 <= i < |previous| ==> Readable(previous[i]) then
      Success(seq(|previous|, i requires 0 <= i < |previous| => EntryMessageAsWritten(previous[i])) + [EntryMessageAsWritten(latest)])
    else
      Failure(NullReference)
  }

  /** `StreamFileChatNewAsync`'s list building as written: the latest turn alone
      for an empty history, otherwise each earlier turn and then the latest, every
      message holding only its attachments; an earlier turn without a message or
      file list is a null dereference. */
  method BuildEntryMessagesAsWritten(previous: seq<ChatEntry>, latest: ChatEntry) returns (r: Result<seq<ChatMessage>, HubException>)
    requires Readable(latest)
    ensures r == EntryConversationAsWritten(previous, latest)
  {
    if |previous| == 0 {
      var dataContents := CollectDataContents(latest.files.value);
      var m := ToChatMessage(latest.message.value);
      assert [ChatMessage(m.role, dataContents)] == EntryConversationAsWritten(previous, latest).value;
      return Success([ChatMessage(m.role, dataContents)]);
    }
    var msgs: seq<ChatMessage> := [];
    for k := 0 to |previous|
      invariant |msgs| == k
      invariant forall i :: 0 <= i < k ==> Readable(previous[i]) && msgs[i] == EntryMessageAsWritten(previous[i])
    {
      var entry := previous[k];
      if entry.files.None? || entry.message.None? {
        assert !Readable(previous[k]);
        return Failure(NullReference);
      }
      var prevDataContents := CollectDataContents(entry.files.value);
      var m := ToChatMessage(entry.message.value);
      msgs := msgs + [ChatMessage(m.role, prevDataContents)];
    }
    var latestDataContents := CollectDataContents(latest.files.value);
    var m := ToChatMessage(latest.message.value);
    msgs := msgs + [ChatMessage(m.role, latestDataContents)];
    assert msgs == EntryConversationAsWritten(previous, latest).value;
    r := Success(msgs);
  }

  /** As written, a file chat's messages carry no text at all; the intended
      messages fail on the same requests, have the same roles, and hold the
      turn's text content before the same attachments. */
  lemma AsWrittenConversationHasNoText(previous: seq<ChatEntry>, latest: ChatEntry)
    ensures EntryConversationAsWritten(previous, latest).Success? <==> EntryConversation(previous, latest).Success?
    ensures EntryConversationAsWritten(previous, latest).Success? ==>
      var w := EntryConversationAsWritten(previous, latest).value;
      var c := EntryConversation(previous, latest).value;
      && |w| == |c|
      && (forall i :: 0 <= i < |w| ==> Text(w[i]) == "")
      && (forall i :: 0 <= i < |w| ==> w[i].role == c[i].role)
      && (forall i :: 0 <= i < |w| ==>
            c[i].contents == ToChatMessage((previous + [latest])[i].message.value).contents + w[i].contents)
  {
    if EntryConversationAsWritten(previous, latest).Success? {
      var w := EntryConversationAsWritten(previous, latest).value;
      forall i | 0 <= i < |w| ensures Text(w[i]) == "" {
        var e := (previous + [latest])[i];
        assert w[i] == EntryMessageAsWritten(e);
        TextOfIgnoresData([], DataContents(e.files.value));
        assert [] + DataContents(e.files.value) == w[i].contents;
      }
      forall i | 0 <= i < |w|
        ensures EntryConversation(previous, latest).value[i].contents ==
                ToChatMessage((previous + [latest])[i].message.value).contents + w[i].contents
      {
        var e := (previous + [latest])[i];
        assert w[i] == EntryMessageAsWritten(e);
        assert EntryConversation(previous, latest).value[i] == EntryMessage(e);
      }
    }
  }

  /** The list a file chat sends, or the null dereference it hits: each earlier
      turn, then the latest one, all of them needing a message and a file list. */
  function EntryConversation(previous: seq<ChatEntry>, latest: ChatEntry): (r: Result<seq<ChatMessage>, HubException>)
    ensures r.Success? <==> Readable(latest) && forall i :: 0 <= i < |previous| ==> Readable(previous[i])
    ensures r.Failure? ==> r.error == NullReference
    ensures r.Success? ==> |r.value| == |previous| + 1 && r.value[|previous|] == EntryMessage(latest)
                           && forall i :: 0 <= i < |previous| ==> r.value[i] == EntryMessage(previous[i])
  {
    if Readable(latest) && forall i :: 0 <= i < |previous| ==> Readable(previous[i]) then
      Success(seq(|previous|, i requires 0 <= i < |previous| => EntryMessage(previous[i])) + [EntryMessage(latest)])
    else
      Failure(NullReference)
  }

  /** `StreamFileChatNewAsync`'s list building once the latest turn is known to
      be readable: the latest turn alone for an empty history, otherwise each
      earlier turn and then the latest; an earlier turn without a message or
      file list is a null dereference. */
  method BuildEntryMessages(previous: seq<ChatEntry>, latest: ChatEntry) returns (r: Result<seq<ChatMessage>, HubException>)
    requires Readable(latest)
    ensures r == EntryConversation(previous, latest)
  {
    if |previous| == 0 {
      var dataContents := CollectDataContents(latest.files.value);
      var m := ToChatMessage(latest.message.value);
      assert [ChatMessage(m.role, m.contents + dataContents)] == EntryConversation(previous, latest).value;
      return Success([ChatMessage(m.role, m.contents + dataContents)]);
    }
    var msgs: seq<ChatMessage> := [];
    for k := 0 to |previous|
      invariant |msgs| == k
      invariant forall i :: 0 <= i < k ==> Readable(previous[i]) && msgs[i] == EntryMessage(previous[i])
    {
      var entry := previous[k];
      if entry.files.None? || entry.message.None? {
        assert !Readable(previous[k]);
        return Failure(NullReference);
      }
      var prevDataContents := CollectDataContents(entry.files.value);
      var m := ToChatMessage(entry.message.value);
      msgs := msgs + [ChatMessage(m.role, m.contents + prevDataContents)];
    }
    var latestDataContents := CollectDataContents(latest.files.value);
    var m := ToChatMessage(latest.message.value);
    msgs := msgs + [ChatMessage(m.role, m.contents + latestDataContents)];
    assert msgs == EntryConversation(previous, latest).value;
    r := Success(msgs);
  }
}
