/** `ChatHelper`: mapping between the application's senders and the chat
    library's roles, and small conveniences over message and file lists. */
module ChatHelper {
  import opened Wrappers
  import opened Strings
  import opened Models

  /** `GetChatSender`: "user" is the user, every other role value the assistant. */
  function GetChatSender(role: ChatRole): (s: ChatSender)
    ensures s.User? <==> role.value == "user"
    ensures s.Assistant? <==> role.value != "user"
  {
    match role.value
    case "user" => User
    case "assistant" => Assistant
    case _ => Assistant
  }

  /** `GetChatRole`: the assistant gets the assistant role, the user and any
      out-of-range sender the user role; mapping back recovers every declared sender. */
  function GetChatRole(sender: ChatSender): (r: ChatRole)
    ensures r == AssistantRole <==> sender.Assistant?
    ensures r == UserRole <==> !sender.Assistant?
    ensures !sender.OutOfRange? ==> GetChatSender(r) == sender
    ensures sender.OutOfRange? ==> GetChatSender(r) == User
  {
    match sender
    case User => UserRole
    case Assistant => AssistantRole
    case OutOfRange(_) => UserRole
  }

  /** The two role values the helper knows survive the round trip through a sender. */
  lemma RoleRoundTrip(role: ChatRole)
    requires role.value == "user" || role.value == "assistant"
    ensures GetChatRole(GetChatSender(role)) == role
  {
  }

  /** `GetLastChatMsg`: null for an empty list, otherwise the last element. */
  function GetLastChatMsg(all: seq<ChatMsg>): (r: Option<ChatMsg>)
    ensures r.None? <==> |all| == 0
    ensures r.Some? ==> r.value == all[|all| - 1]
  {
    if |all| == 0 then None else Some(all[|all| - 1])
  }

  /** Appending a message makes it the last one. */
  lemma LastAfterAppend(all: seq<ChatMsg>, m: ChatMsg)
    ensures GetLastChatMsg(all + [m]) == Some(m)
  {
  }

  /** The `ChatMsg` that `BuildPreviousMessages` makes of one chat message. */
  function EchoOf(m: ChatMessage): ChatMsg {
    ChatMsg(GetChatSender(m.role), Some(Text(m)))
  }

  /** `BuildPreviousMessages`: one `ChatMsg` per message, in order, with the
      sender read back from the role and the message's text. */
  method BuildPreviousMessages(messages: seq<ChatMessage>) returns (list: seq<ChatMsg>)
    ensures |list| == |messages|
    ensures forall i :: 0 <= i < |messages| ==> list[i] == EchoOf(messages[i])
    ensures forall i :: 0 <= i < |messages| ==> list[i].sender == GetChatSender(messages[i].role)
                                                && list[i].text == Some(Text(messages[i]))
  {
    list := [];
    for k := 0 to |messages|
      invariant |list| == k
      invariant forall i :: 0 <= i < k ==> list[i] == EchoOf(messages[i])
    {
      var sender := GetChatSender(messages[k].role);
      list := list + [ChatMsg(sender, Some(Text(messages[k])))];
    }
  }

  /** `GetFileInfo`: "No file attached" for a null or empty list, otherwise
      the count, "file" or "files", and "attached". */
  function GetFileInfo(files: Option<seq<ChatFile>>): (info: string)
    ensures info == "No file attached" <==> files.None? || |files.value| == 0
    ensures files.Some? && |files.value| == 1 ==> info == "1 file attached"
    ensures files.Some? && |files.value| > 1 ==> info == NatToString(|files.value|) + " files attached"
  {
    if files.None? || |files.value| == 0 then "No file attached"
    else
      var n := |files.value|;
      var info := NatToString(n) + " " + (if n > 1 then "files" else "file") + " attached";
      assert info[0] == NatToString(n)[0] && IsDigit(info[0]);
      info
  }

  /** Two digit strings each followed by a space cannot be told apart only
      if they are the same string. */
  lemma DigitsBeforeSpace(a: string, x: string, b: string, y: string)
    requires forall i :: 0 <= i < |a| ==> IsDigit(a[i])
    requires forall i :: 0 <= i < |b| ==> IsDigit(b[i])
    requires |x| > 0 && x[0] == ' ' && |y| > 0 && y[0] == ' '
    requires a + x == b + y
    ensures a == b
  {
    var m := if |a| <= |b| then |a| else |b|;
    assert (a + x)[m] == (b + y)[m];
    assert |a| == |b|;
    assert a == (a + x)[..|a|] && b == (b + y)[..|b|];
  }

  /** The file info states the attachment count: two lists get the same text
      exactly when they have the same length. */
  lemma FileInfoDeterminesCount(f: seq<ChatFile>, g: seq<ChatFile>)
    ensures GetFileInfo(Some(f)) == GetFileInfo(Some(g)) <==> |f| == |g|
  {
    if GetFileInfo(Some(f)) == GetFileInfo(Some(g)) && |f| > 0 && |g| > 0 {
      var a, b := NatToString(|f|), NatToString(|g|);
      var x := " " + (if |f| > 1 then "files" else "file") + " attached";
      var y := " " + (if |g| > 1 then "files" else "file") + " attached";
      assert GetFileInfo(Some(f)) == a + x;
      assert GetFileInfo(Some(g)) == b + y;
      DigitsBeforeSpace(a, x, b, y);
      ParseNatToString(|f|);
      ParseNatToString(|g|);
    }
  }
}
