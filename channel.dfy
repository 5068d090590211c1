/** The unbounded channel behind `StreamChatAsChannel`, and what its writer
    task leaves behind: the items and completion its reader sees, and the
    exception the (discarded) writer task itself ends with. */
module Channels {
  import opened Wrappers
  import opened Models

  /** The writer side's completion: still open, completed, or completed with an error. */
  datatype Completion = Open | Completed | Faulted(error: HubException)

  /** An unbounded `Channel<StreamingChatResponse>`: what has been written, in
      order, and whether the writer has been completed. */
  class Channel {
    var items: seq<StreamingChatResponse>
    var completion: Completion

    constructor ()
      ensures items == [] && completion == Open
    {
      items := [];
      completion := Open;
    }

    /** `WriteAsync`: appends while the writer is open; on a completed writer it
        throws `ChannelClosedException` (`ok` is false then) and nothing changes. */
    method Write(item: StreamingChatResponse) returns (ok: bool)
      modifies this
      ensures ok <==> old(completion).Open?
      ensures ok ==> items == old(items) + [item]
      ensures !ok ==> items == old(items)
      ensures completion == old(completion)
    {
      if !completion.Open? {
        return false;
      }
      items := items + [item];
      ok := true;
    }

    /** `TryComplete(error)`: completes an open writer, with the error if one is
        given, and reports whether it did; a completed writer stays as it was. */
    method TryComplete(error: Option<HubException>) returns (ok: bool)
      modifies this
      ensures ok <==> old(completion).Open?
      ensures ok ==> completion == (if error.None? then Completed else Faulted(error.value))
      ensures !ok ==> completion == old(completion)
      ensures items == old(items)
    {
      if !completion.Open? {
        return false;
      }
      completion := if error.None? then Completed else Faulted(error.value);
      ok := true;
    }

    /** `Complete()`: completes an open writer; on a completed one it throws
        `ChannelClosedException` (`ok` is false then). */
    method Complete() returns (ok: bool)
      modifies this
      ensures ok <==> old(completion).Open?
      ensures completion == (if ok then Completed else old(completion))
      ensures items == old(items)
    {
      if !completion.Open? {
        return false;
      }
      completion := Completed;
      ok := true;
    }
  }

  /** The index of the first finished chunk, if any. */
  function FirstFinished(chunks: seq<StreamingChatResponse>): (r: Option<nat>)
    ensures r.None? <==> forall i :: 0 <= i < |chunks| ==> !chunks[i].hasFinished
    ensures r.Some? ==> r.value < |chunks| && chunks[r.value].hasFinished
    ensures r.Some? ==> forall j :: 0 <= j < r.value ==> !chunks[j].hasFinished
    decreases |chunks|
  {
    if |chunks| == 0 then None
    else if chunks[0].hasFinished then Some(0)
    else match FirstFinished(chunks[1..])
      case None => None
      case Some(k) => Some(k + 1)
  }

  /** The chunks that reach the reader: everything up to and including the first
      finished chunk; all of them when none is finished. */
  function Forwarded(chunks: seq<StreamingChatResponse>): (r: seq<StreamingChatResponse>)
    ensures |r| <= |chunks| && r == chunks[..|r|]
    ensures forall i :: 0 <= i < |r| - 1 ==> !r[i].hasFinished
    ensures |r| < |chunks| ==> |r| > 0 && r[|r| - 1].hasFinished
    ensures (forall i :: 0 <= i < |chunks| ==> !chunks[i].hasFinished) ==> r == chunks
  {
    match FirstFinished(chunks)
    case None => chunks
    case Some(k) => chunks[..k + 1]
  }

  /** The exception the writer's `try` block ends with: a write after the
      finished chunk closed the writer, or else whatever the producer threw. */
  function TryBlockException(chunks: seq<StreamingChatResponse>, thrown: Option<HubException>): Option<HubException> {
    match FirstFinished(chunks)
    case Some(k) => if k + 1 < |chunks| then Some(ChannelClosed) else thrown
    case None => thrown
  }

  /** What the reader sees once the writer task is done. */
  datatype ReaderView = ReaderView(items: seq<StreamingChatResponse>, completion: Completion)

  /** The reader's view: the forwarded chunks, then a normal completion when a
      finished chunk was written or nothing went wrong, otherwise the error. */
  function Reader(chunks: seq<StreamingChatResponse>, thrown: Option<HubException>): (v: ReaderView)
    ensures v.items == Forwarded(chunks)
    ensures v.completion != Open
    ensures FirstFinished(chunks).Some? ==> v.completion == Completed
    ensures FirstFinished(chunks).None? && thrown.Some? ==> v.completion == Faulted(thrown.value)
    ensures thrown.None? ==> v.completion == Completed
  {
    ReaderView(Forwarded(chunks),
               if FirstFinished(chunks).None? && thrown.Some? then Faulted(thrown.value) else Completed)
  }

  /** The exception the writer task ends with as written: its `finally` calls
      `Complete()` unconditionally, which throws `ChannelClosedException` once the
      writer was completed by the finished chunk or by the `catch` block. */
  function WriterTaskAsWritten(chunks: seq<StreamingChatResponse>, thrown: Option<HubException>): (r: Option<HubException>)
    ensures r.None? <==> FirstFinished(chunks).None? && thrown.None?
    ensures r.Some? ==> r.value == ChannelClosed
  {
    if FirstFinished(chunks).None? && TryBlockException(chunks, thrown).None? then None else Some(ChannelClosed)
  }

  /** As written, a stream that ends properly, with one finished chunk and no
      error, still faults the writer task. */
  lemma FinishedStreamFaultsWriterTask(c: StreamingChatResponse)
    requires c.hasFinished
    ensures WriterTaskAsWritten([c], None) == Some(ChannelClosed)
    ensures Reader([c], None) == ReaderView([c], Completed)
  {
    assert FirstFinished([c]) == Some(0);
  }

  /** `await foreach … { WriteAsync; if finished Complete(); }` over the chunks of
      an open, empty writer: it forwards the chunks and completes the writer at
      the first finished one; a chunk after that fails to write, and the
      `ChannelClosedException` ends the loop. */
  method Pump(writer: Channel, chunks: seq<StreamingChatResponse>) returns (caught: Option<HubException>)
    requires writer.items == [] && writer.completion == Open
    modifies writer
    ensures writer.items == Forwarded(chunks)
    ensures writer.completion == (if FirstFinished(chunks).Some? then Completed else Open)
    ensures caught == TryBlockException(chunks, None)
  {
    var i := 0;
    while i < |chunks|
      invariant 0 <= i <= |chunks|
      invariant writer.items == chunks[..i]
      invariant forall j :: 0 <= j < i - 1 ==> !chunks[j].hasFinished
      invariant writer.completion == (if i > 0 && chunks[i - 1].hasFinished then Completed else Open)
    {
      var ok := writer.Write(chunks[i]);
      if !ok {
        assert FirstFinished(chunks) == Some(i - 1);
        return Some(ChannelClosed);
      }
      if chunks[i].hasFinished {
        ok := writer.Complete();
      }
      i := i + 1;
    }
    if FirstFinished(chunks).Some? {
      assert FirstFinished(chunks).value == i - 1;
    }
    caught := None;
  }
}
