// The messages of a conversation, and when a transcript is closed: every assistant message with tool calls is
// answered at once, call by call.

module Messages {
  import opened Common

  datatype Role = User | Assistant | System | Tool

  datatype Attachment = Attachment(id: string, relativePath: string, displayName: string, mediaType: string,
                                   sizeBytes: nat, sha256: string)

  datatype MessagePart = Text(text: string) | Attached(attachment: Attachment)

  datatype ToolCall = ToolCall(id: string, name: string, arguments: string)

  datatype Message = Message(role: Role, content: seq<MessagePart>, toolCalls: seq<ToolCall>, toolCallId: Option<string>)

  function TextParts(content: string): seq<MessagePart> {
    if content == "" then [] else [Text(content)]
  }

  function UserMessage(input: seq<MessagePart>): Message { Message(User, input, [], None) }

  function AssistantMessage(content: string): Message { Message(Assistant, TextParts(content), [], None) }

  function AssistantToolCalls(content: string, calls: seq<ToolCall>): Message {
    Message(Assistant, TextParts(content), calls, None)
  }

  function SystemMessage(content: string): Message { Message(System, TextParts(content), [], None) }

  function ToolResult(id: string, content: string): Message { Message(Tool, TextParts(content), [], Some(id)) }

  /** The text of a message. */
  function TextOf(m: Message): string { PartsText(m.content) }

  function PartsText(parts: seq<MessagePart>): string {
    if parts == [] then ""
    else (if parts[0].Text? then parts[0].text else "") + PartsText(parts[1..])
  }

  /** Every constructor of a message carries its text. */
  lemma TextIsCarried(content: string)
    ensures TextOf(AssistantMessage(content)) == content && TextOf(SystemMessage(content)) == content
    ensures forall calls :: TextOf(AssistantToolCalls(content, calls)) == content
    ensures forall id :: TextOf(ToolResult(id, content)) == content
  {
    assert PartsText(TextParts(content)) == content by {
      if content != "" { assert [Text(content)][1..] == [] && content + "" == content; }
    }
  }

  // ---------------------------------------------------------------- closed transcripts

  /** The first messages answer the calls, one each, in order. */
  predicate Answers(messages: seq<Message>, calls: seq<ToolCall>) {
    && |calls| <= |messages|
    && forall i | 0 <= i < |calls| :: messages[i].role == Tool && messages[i].toolCallId == Some(calls[i].id)
  }

  /** Every assistant message is followed at once by exactly the results of its calls; no result stands elsewhere. */
  predicate Closed(messages: seq<Message>)
    decreases |messages|
  {
    messages == []
    || (messages[0].role != Tool && Answers(messages[1..], messages[0].toolCalls)
        && Closed(messages[1 + |messages[0].toolCalls|..]))
  }

  lemma AnswersAppend(a: seq<Message>, b: seq<Message>, calls: seq<ToolCall>)
    requires Answers(a, calls)
    ensures Answers(a + b, calls) && (a + b)[|calls|..] == a[|calls|..] + b
  {}

  lemma {:induction false} ClosedAppend(a: seq<Message>, b: seq<Message>)
    requires Closed(a)
    ensures Closed(a + b) <==> Closed(b)
    decreases |a|
  {
    if a == [] {
      assert a + b == b;
    } else {
      var calls := a[0].toolCalls;
      var rest := a[1..];
      assert (a + b)[0] == a[0] && (a + b)[1..] == rest + b;
      AnswersAppend(rest, b, calls);
      assert a[1 + |calls|..] == rest[|calls|..];
      assert (a + b)[1 + |calls|..] == (rest + b)[|calls|..];
      ClosedAppend(rest[|calls|..], b);
    }
  }

  lemma PlainIsClosed(m: Message)
    requires m.role != Tool && m.toolCalls == []
    ensures Closed([m])
  {
    assert [m][1..] == [];
  }

  /** What is left when the answers stop early: the calls of the last assistant message are not all answered. */
  predicate Interrupted(messages: seq<Message>, calls: seq<ToolCall>) {
    && messages != [] && messages[0].role != Tool && messages[0].toolCalls == calls
    && |messages| <= |calls|
    && forall i | 1 <= i < |messages| :: messages[i].role == Tool && messages[i].toolCallId == Some(calls[i - 1].id)
  }

  /** An interrupted turn is not closed, and no user message closes it. */
  lemma InterruptedIsNotClosed(before: seq<Message>, tail: seq<Message>, calls: seq<ToolCall>, user: Message)
    requires Closed(before) && Interrupted(tail, calls) && user.role == User
    ensures !Closed(before + tail) && !Closed(before + tail + [user])
  {
    ClosedAppend(before, tail);
    ClosedAppend(before, tail + [user]);
    assert before + tail + [user] == before + (tail + [user]);
    var n := |tail|;
    assert tail[0].toolCalls == calls;
    if Answers((tail + [user])[1..], calls) { assert (tail + [user])[1..][n - 1] == user; }
  }

  lemma AnswersInFront(front: seq<Message>, user: Message, b: seq<Message>, calls: seq<ToolCall>)
    requires user.role == User
    ensures Answers(front + [user] + b, calls) <==> Answers(front, calls)
  {
    var all := front + [user] + b;
    assert all[|front|] == user && forall i | 0 <= i < |front| :: all[i] == front[i];
  }

  /** A user message never falls among the results of a call, so what stands before it must be closed already. */
  lemma {:induction false} ClosedBeforeUser(a: seq<Message>, user: Message, b: seq<Message>)
    requires user.role == User && user.toolCalls == []
    ensures Closed(a + [user] + b) <==> Closed(a) && Closed(b)
    decreases |a|
  {
    var all := a + [user] + b;
    if a == [] {
      assert all[1..] == b;
    } else {
      var calls := a[0].toolCalls;
      assert all[1..] == a[1..] + [user] + b;
      AnswersInFront(a[1..], user, b, calls);
      if Answers(a[1..], calls) {
        assert all[1 + |calls|..] == a[1 + |calls|..] + [user] + b;
        ClosedBeforeUser(a[1 + |calls|..], user, b);
      }
    }
  }
}
