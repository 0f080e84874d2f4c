/** The client's chat hook: the message list and the streaming flag, the
    guard on sending, the growth of the assistant's message as chunks
    arrive, and reset. Message ids and timestamps are supplied by the
    caller. */
module UseChat {
  import opened Wrappers
  import opened Text
  import ApiClient
  import SseClient
  import Web

  datatype Role = User | Assistant

  datatype Message = Message(id: string, role: Role, content: string, timestamp: int)

  datatype ChatState = ChatState(messages: seq<Message>, isStreaming: bool)

  /** `addMessage`: one message at the end, the earlier ones unchanged. */
  function AddMessage(msgs: seq<Message>, role: Role, content: string, timestamp: int, id: string): (r: seq<Message>)
    ensures |r| == |msgs| + 1 && r[..|msgs|] == msgs
    ensures r[|msgs|] == Message(id, role, content, timestamp)
  {
    msgs + [Message(id, role, content, timestamp)]
  }

  /** `updateLastMessage`: the last message's content is replaced when it
      is the assistant's; otherwise, or on an empty list, nothing changes. */
  function UpdateLastMessage(msgs: seq<Message>, content: string): (r: seq<Message>)
    ensures |r| == |msgs|
    ensures |msgs| == 0 || msgs[|msgs| - 1].role != Assistant ==> r == msgs
    ensures |msgs| > 0 && msgs[|msgs| - 1].role == Assistant ==>
              && r[..|msgs| - 1] == msgs[..|msgs| - 1]
              && r[|msgs| - 1] == msgs[|msgs| - 1].(content := content)
  {
    if |msgs| == 0 then msgs
    else
      var last := msgs[|msgs| - 1];
      if last.role != Assistant then msgs
      else msgs[..|msgs| - 1] + [last.(content := content)]
  }

  /** Only the latest update of the last message counts, and an update of
      the assistant's fresh message gives it exactly that content. */
  lemma UpdateLastWins(msgs: seq<Message>, a: string, b: string, id: string, t: int)
    ensures UpdateLastMessage(UpdateLastMessage(msgs, a), b) == UpdateLastMessage(msgs, b)
    ensures UpdateLastMessage(AddMessage(msgs, Assistant, "", t, id), a) == AddMessage(msgs, Assistant, a, t, id)
  {
    var added := AddMessage(msgs, Assistant, "", t, id);
    assert added[..|msgs|] == msgs;
  }

  /** `sendMessage`'s guard: the text to send, trimmed, when it is not
      blank and no reply is streaming; nothing otherwise. */
  function ShouldSend(text: string, isStreaming: bool): (r: Option<string>)
    ensures r.Some? <==> !AllSpace(text, JsIsSpace) && !isStreaming
    ensures r.Some? ==> r.value == Trim(text, JsIsSpace) && r.value != ""
  {
    var trimmed := Trim(text, JsIsSpace);
    if trimmed != "" && !isStreaming then Some(trimmed) else None
  }

  const Apology: string := "Sorry, I encountered an error processing your message."

  /** The send mutation: the user's message, then an empty assistant
      message that holds the running concatenation of the chunks yielded so
      far; if the stream then fails, the assistant message becomes the
      apology. Streaming is off at the end either way. */
  method Send(s: ChatState, message: string, chunks: seq<string>, failure: Option<string>,
              userId: string, assistantId: string, t1: int, t2: int)
    returns (t: ChatState, r: Result<string, string>)
    ensures !t.isStreaming
    ensures var content := if failure.None? then Concat(chunks) else Apology;
            t.messages == s.messages + [Message(userId, User, message, t1), Message(assistantId, Assistant, content, t2)]
    ensures failure.None? ==> r == Ok(Concat(chunks))
    ensures failure.Some? ==> r == Err(failure.value)
  {
    var msgs := AddMessage(s.messages, User, message, t1, userId);
    msgs := AddMessage(msgs, Assistant, "", t2, assistantId);
    var prefix := s.messages + [Message(userId, User, message, t1)];
    var full := "";
    var i := 0;
    while i < |chunks|
      invariant 0 <= i <= |chunks|
      invariant full == Concat(chunks[..i])
      invariant msgs == prefix + [Message(assistantId, Assistant, full, t2)]
    {
      ConcatAppend(chunks[..i], chunks[i]);
      assert chunks[..i + 1] == chunks[..i] + [chunks[i]];
      full := full + chunks[i];
      assert msgs[..|msgs| - 1] == prefix;
      msgs := UpdateLastMessage(msgs, full);
      i := i + 1;
    }
    assert chunks[..i] == chunks;
    if failure.Some? {
      assert msgs[..|msgs| - 1] == prefix;
      msgs := UpdateLastMessage(msgs, Apology);
      return ChatState(msgs, false), Err(failure.value);
    }
    return ChatState(msgs, false), Ok(full);
  }

  /** `sendMessage`: a guarded send whose reply comes from `streamChat`
      reading the response body with its trimming rule; a refused send
      changes nothing. */
  method SendMessage(s: ChatState, text: string, ok: bool, status: nat, errorBody: Option<Option<string>>,
                     hasReader: bool, pieces: seq<string>, userId: string, assistantId: string, t1: int, t2: int)
    returns (t: ChatState)
    ensures ShouldSend(text, s.isStreaming).None? ==> t == s
    ensures ShouldSend(text, s.isStreaming).Some? ==>
              var content := if ok && hasReader then Concat(ApiClient.TrimmedBodyData(Concat(pieces))) else Apology;
              && !t.isStreaming
              && t.messages == s.messages + [Message(userId, User, Trim(text, JsIsSpace), t1),
                                             Message(assistantId, Assistant, content, t2)]
  {
    var guard := ShouldSend(text, s.isStreaming);
    if guard.None? {
      return s;
    }
    var reply := ApiClient.StreamChatAsWritten(ok, status, errorBody, hasReader, pieces);
    var chunks := if reply.Ok? then reply.value else [];
    var failure := if reply.Err? then Some(reply.error) else None;
    var result;
    t, result := Send(s, guard.value, chunks, failure, userId, assistantId, t1, t2);
  }

  /** `sendMessage` over the corrected reader, which parses each read with
      `extractSseChunks` and so unescapes and keeps trailing whitespace. */
  method SendMessageCorrected(s: ChatState, text: string, ok: bool, status: nat, errorBody: Option<Option<string>>,
                              hasReader: bool, pieces: seq<string>, userId: string, assistantId: string, t1: int, t2: int)
    returns (t: ChatState)
    ensures ShouldSend(text, s.isStreaming).None? ==> t == s
    ensures ShouldSend(text, s.isStreaming).Some? ==>
              var content := if ok && hasReader then Concat(ApiClient.BodyData(Concat(pieces))) else Apology;
              && !t.isStreaming
              && t.messages == s.messages + [Message(userId, User, Trim(text, JsIsSpace), t1),
                                             Message(assistantId, Assistant, content, t2)]
  {
    var guard := ShouldSend(text, s.isStreaming);
    if guard.None? {
      return s;
    }
    var reply := ApiClient.StreamChatCorrected(ok, status, errorBody, hasReader, pieces);
    var chunks := if reply.Ok? then reply.value else [];
    var failure := if reply.Err? then Some(reply.error) else None;
    var result;
    t, result := Send(s, guard.value, chunks, failure, userId, assistantId, t1, t2);
  }

  /** The hook as written shows the one-chunk reply `"a "` as `"a"`; with
      the corrected reader it shows `"a "`. */
  lemma ShownReplyTrimmed()
    ensures Concat(ApiClient.TrimmedBodyData(Web.Stream(["a "]))) == "a"
    ensures Concat(ApiClient.BodyData(Web.Stream(["a "]))) == "a "
  {
    ApiClient.TrimmingLosesTransportable();
    ApiClient.TrimmingDropsSpaces();
    assert Concat(["a"]) == "a" + Concat([]);
    assert Concat(["a "]) == "a " + Concat([]);
  }

  /** The reply a user sees through the corrected reader when the server
      streams `chunks`: their concatenation, when every chunk is
      transportable. */
  lemma ReplyShown(chunks: seq<string>)
    requires forall k :: 0 <= k < |chunks| ==> SseClient.Transportable(chunks[k])
    ensures Concat(ApiClient.BodyData(Web.Stream(chunks))) == Concat(chunks)
  {
    ApiClient.ReaderRoundTrip(chunks);
  }

  /** `resetChat`: a successful reset empties the list; a failed one
      leaves it. */
  function ResetChat(s: ChatState, succeeded: bool): (t: ChatState)
    ensures succeeded ==> |t.messages| == 0
    ensures !succeeded ==> t == s
    ensures t.isStreaming == s.isStreaming
  {
    if succeeded then s.(messages := []) else s
  }
}
