// A run of the agent: the model is asked with the whole transcript, its tool calls are executed and answered
// one by one, and its first plain reply ends the run. The model, the tools, the sink and the failures of the
// memory are scripts.

module Agent {
  import opened Common
  import opened Messages

  datatype StreamEvent = TextDelta(text: string) | FileReady(file: string)

  // What one tool call came to; the sink takes the first `accepted` of the files and then fails.
  datatype ToolOutcome =
    | Failed(error: string)
    | Done(observation: string, files: seq<string>, accepted: nat)

  // One step of the loop: stopped before its request (cancelled, or the memory could not be read), stopped while it
  // waits for the reply (cancelled, or the model failed), or a reply. The last two fields are for a plain reply that
  // is streamed: cancelled after it was recorded, and how many of its events the sink takes.
  datatype Turn =
    | Stopped
    | Unanswered
    | Reply(content: string, calls: seq<ToolCall>, outcomes: seq<ToolOutcome>, events: seq<StreamEvent>,
            cancelled: bool, taken: nat)

  predicate WellFormed(turn: Turn) {
    turn.Reply? ==> |turn.outcomes| == |turn.calls|
  }

  ghost predicate Script(turns: seq<Turn>) {
    forall i | 0 <= i < |turns| :: WellFormed(turns[i])
  }

  const NO_FILE_OUTPUT := "file output is not configured for this agent execution"
  const SINK_FAILED := "the sink failed"

  // Observations are JSON texts; only that they are made from the result or the error matters here.
  datatype Config = Config(instructions: string, success: string -> string, failure: string -> string)

  function Observation(cfg: Config, outcome: ToolOutcome, output: bool): string {
    match outcome
    case Failed(error) => cfg.failure(error)
    case Done(observation, files, accepted) =>
      if files == [] || (output && accepted >= |files|) then cfg.success(observation)
      else cfg.failure(if output then SINK_FAILED else NO_FILE_OUTPUT)
  }

  function FilesReady(files: seq<string>, n: nat): seq<StreamEvent>
    requires n <= |files|
  {
    seq(n, i requires 0 <= i < n => FileReady(files[i]))
  }

  /** What reaches the sink of the files of one tool call: those it takes, in order; nothing without a sink. */
  function Delivered(outcome: ToolOutcome, output: bool): seq<StreamEvent> {
    if outcome.Failed? || !output then []
    else FilesReady(outcome.files, if outcome.accepted < |outcome.files| then outcome.accepted else |outcome.files|)
  }

  function DeliveredUpTo(turn: Turn, output: bool, n: nat): seq<StreamEvent>
    requires turn.Reply? && WellFormed(turn) && n <= |turn.calls|
  {
    if n == 0 then [] else DeliveredUpTo(turn, output, n - 1) + Delivered(turn.outcomes[n - 1], output)
  }

  ghost predicate PartlyDelivered(before: seq<StreamEvent>, turn: Turn, output: bool, after: seq<StreamEvent>)
    requires turn.Reply? && WellFormed(turn)
  {
    exists n: nat :: n <= |turn.calls| && after == before + DeliveredUpTo(turn, output, n)
  }

  /** The files of the first turns, all delivered as far as the sink took them. */
  ghost function RunFiles(turns: seq<Turn>, n: nat): seq<StreamEvent>
    requires AllReply(turns, n)
  {
    if n == 0 then [] else RunFiles(turns, n - 1) + DeliveredUpTo(turns[n - 1], true, |turns[n - 1].calls|)
  }

  lemma {:induction false} NothingDeliveredUpTo(turn: Turn, n: nat)
    requires turn.Reply? && WellFormed(turn) && n <= |turn.calls|
    ensures DeliveredUpTo(turn, false, n) == []
  {
    if n > 0 { NothingDeliveredUpTo(turn, n - 1); }
  }

  lemma NothingDelivered(before: seq<StreamEvent>, turn: Turn, after: seq<StreamEvent>)
    requires turn.Reply? && WellFormed(turn) && PartlyDelivered(before, turn, false, after)
    ensures after == before
  {
    var n: nat :| n <= |turn.calls| && after == before + DeliveredUpTo(turn, false, n);
    NothingDeliveredUpTo(turn, n);
  }

  // What the sink has got of the first n turns.
  ghost predicate SinkAfter(start: seq<StreamEvent>, turns: seq<Turn>, n: nat, output: bool, sink: seq<StreamEvent>) {
    AllReply(turns, n) && sink == if output then start + RunFiles(turns, n) else start
  }

  lemma SinkGrows(start: seq<StreamEvent>, turns: seq<Turn>, n: nat, output: bool, sink: seq<StreamEvent>,
                  sink': seq<StreamEvent>, ok: bool)
    requires n < |turns| && turns[n].Reply? && WellFormed(turns[n]) && SinkAfter(start, turns, n, output, sink)
    requires ok ==> sink' == sink + DeliveredUpTo(turns[n], output, |turns[n].calls|)
    requires !ok ==> PartlyDelivered(sink, turns[n], output, sink')
    ensures ok ==> SinkAfter(start, turns, n + 1, output, sink')
    ensures !output ==> sink' == start
  {
    if !output {
      if ok { NothingDeliveredUpTo(turns[n], |turns[n].calls|); } else { NothingDelivered(sink, turns[n], sink'); }
    } else if ok {
      FilesTogether(start, RunFiles(turns, n), DeliveredUpTo(turns[n], true, |turns[n].calls|));
    }
  }

  lemma FilesTogether(a: seq<StreamEvent>, b: seq<StreamEvent>, c: seq<StreamEvent>)
    ensures a + b + c == a + (b + c)
  {}

  /** The observation of a tool call: a success exactly when the tool succeeded and every file of it reached the sink. */
  lemma SuccessMeansDelivered(cfg: Config, outcome: ToolOutcome, output: bool)
    ensures outcome.Done? && |Delivered(outcome, output)| == |outcome.files| ==>
              && Observation(cfg, outcome, output) == cfg.success(outcome.observation)
              && forall i | 0 <= i < |outcome.files| :: Delivered(outcome, output)[i] == FileReady(outcome.files[i])
    ensures outcome.Done? && |Delivered(outcome, output)| < |outcome.files| ==>
              exists reason :: Observation(cfg, outcome, output) == cfg.failure(reason)
    ensures outcome.Failed? ==> Observation(cfg, outcome, output) == cfg.failure(outcome.error)
  {
    var reason := if outcome.Failed? then outcome.error else if output then SINK_FAILED else NO_FILE_OUTPUT;
    assert outcome.Failed? || |Delivered(outcome, output)| < |outcome.files| ==>
             Observation(cfg, outcome, output) == cfg.failure(reason);
  }

  /** What a reply leaves in the transcript: its text and calls, then for every call in order the observation of its own
      outcome under its identifier. */
  lemma RecordedIsTheReply(cfg: Config, turn: Turn, output: bool)
    requires turn.Reply? && WellFormed(turn)
    ensures var m := Recorded(cfg, turn, output);
      && |m| == 1 + |turn.calls|
      && m[0].role == Assistant && TextOf(m[0]) == turn.content && m[0].toolCalls == turn.calls
      && forall i | 0 <= i < |turn.calls| ::
           && m[i + 1].role == Tool && m[i + 1].toolCallId == Some(turn.calls[i].id) && m[i + 1].toolCalls == []
           && TextOf(m[i + 1]) == Observation(cfg, turn.outcomes[i], output)
  {
    TextIsCarried(turn.content);
    forall i | 0 <= i < |turn.calls| ensures TextOf(ToolResult(turn.calls[i].id, Observation(cfg, turn.outcomes[i], output)))
                                          == Observation(cfg, turn.outcomes[i], output)
    {
      TextIsCarried(Observation(cfg, turn.outcomes[i], output));
    }
  }

  /** A request is the instructions as a system message, if there are any, before the rest. */
  lemma PromptIsTheInstructions(cfg: Config)
    ensures cfg.instructions == "" ==> Prompt(cfg) == []
    ensures cfg.instructions != "" ==>
              |Prompt(cfg)| == 1 && Prompt(cfg)[0].role == System && TextOf(Prompt(cfg)[0]) == cfg.instructions
  {
    TextIsCarried(cfg.instructions);
  }

  function Results(cfg: Config, turn: Turn, output: bool, count: nat): seq<Message>
    requires turn.Reply? && WellFormed(turn) && count <= |turn.calls|
  {
    seq(count, i requires 0 <= i < count => ToolResult(turn.calls[i].id, Observation(cfg, turn.outcomes[i], output)))
  }

  /** What a reply adds to the transcript. */
  function Recorded(cfg: Config, turn: Turn, output: bool): seq<Message>
    requires turn.Reply? && WellFormed(turn)
  {
    if turn.calls == [] then [AssistantMessage(turn.content)]
    else [AssistantToolCalls(turn.content, turn.calls)] + Results(cfg, turn, output, |turn.calls|)
  }

  // The first n turns are replies.
  ghost predicate AllReply(turns: seq<Turn>, n: nat) {
    n <= |turns| && forall i | 0 <= i < n :: turns[i].Reply? && WellFormed(turns[i])
  }

  /** What the first n turns add to the transcript. */
  ghost function Transcript(cfg: Config, turns: seq<Turn>, n: nat, output: bool): seq<Message>
    requires AllReply(turns, n)
  {
    if n == 0 then [] else Transcript(cfg, turns, n - 1, output) + Recorded(cfg, turns[n - 1], output)
  }

  lemma RecordedIsClosed(cfg: Config, turn: Turn, output: bool)
    requires turn.Reply? && WellFormed(turn)
    ensures Closed(Recorded(cfg, turn, output))
  {
    var m := Recorded(cfg, turn, output);
    if turn.calls == [] {
      PlainIsClosed(m[0]);
    } else {
      assert m[1..] == Results(cfg, turn, output, |turn.calls|);
      assert m[1 + |turn.calls|..] == [];
    }
  }

  lemma OneMoreTurnIsClosed(cfg: Config, turn: Turn, output: bool, transcript: seq<Message>)
    requires turn.Reply? && WellFormed(turn) && Closed(transcript)
    ensures Closed(transcript + Recorded(cfg, turn, output))
  {
    RecordedIsClosed(cfg, turn, output);
    ClosedAppend(transcript, Recorded(cfg, turn, output));
  }

  lemma {:induction false} TranscriptIsClosed(cfg: Config, turns: seq<Turn>, n: nat, output: bool)
    requires AllReply(turns, n)
    ensures Closed(Transcript(cfg, turns, n, output))
    decreases n
  {
    if n > 0 {
      TranscriptIsClosed(cfg, turns, n - 1, output);
      OneMoreTurnIsClosed(cfg, turns[n - 1], output, Transcript(cfg, turns, n - 1, output));
    }
  }

  function Prompt(cfg: Config): seq<Message> {
    if cfg.instructions == "" then [] else [SystemMessage(cfg.instructions)]
  }

  /** The transcript after a user message and the first n turns. */
  ghost function History(cfg: Config, before: seq<Message>, input: seq<MessagePart>, turns: seq<Turn>, n: nat,
                         output: bool): seq<Message>
    requires AllReply(turns, n)
  {
    before + [UserMessage(input)] + Transcript(cfg, turns, n, output)
  }

  lemma HistoryClosedIff(cfg: Config, before: seq<Message>, input: seq<MessagePart>, turns: seq<Turn>, n: nat,
                         output: bool)
    requires AllReply(turns, n)
    ensures Closed(History(cfg, before, input, turns, n, output)) <==> Closed(before)
  {
    TranscriptIsClosed(cfg, turns, n, output);
    ClosedBeforeUser(before, UserMessage(input), Transcript(cfg, turns, n, output));
  }

  lemma OneMoreTurn(cfg: Config, before: seq<Message>, input: seq<MessagePart>, turns: seq<Turn>, n: nat, output: bool)
    requires n < |turns| && AllReply(turns, n) && turns[n].Reply? && WellFormed(turns[n])
    ensures AllReply(turns, n + 1)
    ensures History(cfg, before, input, turns, n + 1, output)
         == History(cfg, before, input, turns, n, output) + Recorded(cfg, turns[n], output)
  {
    Regroup(before + [UserMessage(input)], Transcript(cfg, turns, n, output), Recorded(cfg, turns[n], output));
  }

  lemma Regroup(a: seq<Message>, b: seq<Message>, c: seq<Message>)
    ensures a + (b + c) == a + b + c
  {}

  /** A request is closed exactly when the transcript was closed before the run. */
  lemma RequestClosedIff(cfg: Config, before: seq<Message>, input: seq<MessagePart>, turns: seq<Turn>, n: nat,
                         output: bool)
    requires AllReply(turns, n)
    ensures Closed(Prompt(cfg) + History(cfg, before, input, turns, n, output)) <==> Closed(before)
  {
    HistoryClosedIff(cfg, before, input, turns, n, output);
    if cfg.instructions != "" { PlainIsClosed(Prompt(cfg)[0]); }
    ClosedAppend(Prompt(cfg), History(cfg, before, input, turns, n, output));
  }

  // Every request is the prompt, the old transcript, the user message and what the turns before it recorded.
  ghost predicate RequestsOf(cfg: Config, before: seq<Message>, input: seq<MessagePart>, turns: seq<Turn>, output: bool,
                             requests: seq<seq<Message>>)
  {
    forall i | 0 <= i < |requests| ::
      AllReply(turns, i) && requests[i] == Prompt(cfg) + History(cfg, before, input, turns, i, output)
  }

  // The loop before turn n: all turns so far ended in tool calls and are recorded, and one request was sent for each.
  ghost predicate InLoop(cfg: Config, before: seq<Message>, input: seq<MessagePart>, turns: seq<Turn>, output: bool,
                         n: nat, memory: seq<Message>, requests: seq<seq<Message>>)
  {
    && AllReply(turns, n) && (forall i | 0 <= i < n :: turns[i].calls != [])
    && memory == History(cfg, before, input, turns, n, output)
    && |requests| == n && RequestsOf(cfg, before, input, turns, output, requests)
  }

  lemma LoopStarts(cfg: Config, before: seq<Message>, input: seq<MessagePart>, turns: seq<Turn>, output: bool)
    ensures InLoop(cfg, before, input, turns, output, 0, before + [UserMessage(input)], [])
  {
    assert before + [UserMessage(input)] + [] == before + [UserMessage(input)];
  }

  lemma OneMoreRequest(cfg: Config, before: seq<Message>, input: seq<MessagePart>, turns: seq<Turn>, output: bool,
                       n: nat, requests: seq<seq<Message>>)
    requires RequestsOf(cfg, before, input, turns, output, requests) && |requests| == n && AllReply(turns, n)
    ensures RequestsOf(cfg, before, input, turns, output,
                       requests + [Prompt(cfg) + History(cfg, before, input, turns, n, output)])
  {
    var more := requests + [Prompt(cfg) + History(cfg, before, input, turns, n, output)];
    forall i | 0 <= i < |more|
      ensures AllReply(turns, i) && more[i] == Prompt(cfg) + History(cfg, before, input, turns, i, output)
    {
      if i < n { assert more[i] == requests[i]; }
    }
  }

  lemma PlainTurnAnswers(cfg: Config, before: seq<Message>, input: seq<MessagePart>, turns: seq<Turn>, output: bool, n: nat)
    requires AllReply(turns, n) && (forall i | 0 <= i < n :: turns[i].calls != [])
    requires n < |turns| && turns[n].Reply? && WellFormed(turns[n]) && turns[n].calls == []
    ensures AnsweredBy(cfg, before, input, turns, output, n + 1, turns[n].content,
                       History(cfg, before, input, turns, n, output) + Recorded(cfg, turns[n], output))
  {}

  lemma LoopGoesOn(cfg: Config, before: seq<Message>, input: seq<MessagePart>, turns: seq<Turn>, output: bool,
                   n: nat, memory: seq<Message>, requests: seq<seq<Message>>)
    requires InLoop(cfg, before, input, turns, output, n, memory, requests)
    requires n < |turns| && turns[n].Reply? && WellFormed(turns[n])
    ensures turns[n].calls != [] ==>
              InLoop(cfg, before, input, turns, output, n + 1, memory + Recorded(cfg, turns[n], output),
                     requests + [Prompt(cfg) + memory])
    ensures turns[n].calls == [] ==>
              AnsweredBy(cfg, before, input, turns, output, n + 1, turns[n].content, memory + Recorded(cfg, turns[n], output))
  {
    OneMoreRequest(cfg, before, input, turns, output, n, requests);
    if turns[n].calls == [] {
      PlainTurnAnswers(cfg, before, input, turns, output, n);
    } else {
      OneMoreTurn(cfg, before, input, turns, n, output);
    }
  }

  lemma RequestsClosedIff(cfg: Config, before: seq<Message>, input: seq<MessagePart>, turns: seq<Turn>, output: bool,
                          requests: seq<seq<Message>>)
    requires RequestsOf(cfg, before, input, turns, output, requests)
    ensures forall i | 0 <= i < |requests| :: Closed(requests[i]) <==> Closed(before)
  {
    forall i | 0 <= i < |requests| ensures Closed(requests[i]) <==> Closed(before) {
      RequestClosedIff(cfg, before, input, turns, i, output);
    }
  }

  // A run succeeded: the last of n turns was the only plain reply, and it is the last message.
  ghost predicate AnsweredBy(cfg: Config, before: seq<Message>, input: seq<MessagePart>, turns: seq<Turn>, output: bool,
                             n: nat, answer: string, memory: seq<Message>)
  {
    && 0 < n && AllReply(turns, n)
    && (forall i | 0 <= i < n - 1 :: turns[i].calls != []) && turns[n - 1].calls == [] && turns[n - 1].content == answer
    && memory == History(cfg, before, input, turns, n - 1, output) + [AssistantMessage(answer)]
  }

  // A transcript of a run that failed: closed, or interrupted in its last turn.
  ghost predicate ClosedOrInterrupted(messages: seq<Message>) {
    Closed(messages) || exists k: nat, calls: seq<ToolCall> :: InterruptedAt(messages, k, calls)
  }

  ghost predicate InterruptedAt(messages: seq<Message>, k: nat, calls: seq<ToolCall>) {
    k <= |messages| && Closed(messages[..k]) && Interrupted(messages[k..], calls)
  }

  /** After an interruption no later run sends a closed request, whatever the user says. */
  lemma InterruptionIsNeverHealed(messages: seq<Message>, k: nat, calls: seq<ToolCall>, cfg: Config,
                                  input: seq<MessagePart>, turns: seq<Turn>, n: nat, output: bool)
    requires InterruptedAt(messages, k, calls) && AllReply(turns, n)
    ensures !Closed(Prompt(cfg) + History(cfg, messages, input, turns, n, output))
  {
    assert messages == messages[..k] + messages[k..];
    InterruptedIsNotClosed(messages[..k], messages[k..], calls, UserMessage(input));
    RequestClosedIff(cfg, messages, input, turns, n, output);
  }

  // A turn whose recording stopped: nothing of it, or the assistant message and some of the results.
  ghost predicate PartlyRecorded(cfg: Config, before: seq<Message>, turn: Turn, output: bool, memory: seq<Message>)
    requires turn.Reply? && WellFormed(turn)
  {
    memory == before
    || exists count: nat :: count < |turn.calls| && memory == WithResults(cfg, before, turn, output, count)
  }

  function WithResults(cfg: Config, before: seq<Message>, turn: Turn, output: bool, count: nat): seq<Message>
    requires turn.Reply? && WellFormed(turn) && count <= |turn.calls|
  {
    before + [AssistantToolCalls(turn.content, turn.calls)] + Results(cfg, turn, output, count)
  }

  lemma OneMoreResult(cfg: Config, before: seq<Message>, turn: Turn, output: bool, count: nat)
    requires turn.Reply? && WellFormed(turn) && count < |turn.calls|
    ensures WithResults(cfg, before, turn, output, count + 1)
         == WithResults(cfg, before, turn, output, count)
            + [ToolResult(turn.calls[count].id, Observation(cfg, turn.outcomes[count], output))]
    ensures PartlyRecorded(cfg, before, turn, output, WithResults(cfg, before, turn, output, count))
  {
    assert Results(cfg, turn, output, count + 1)
        == Results(cfg, turn, output, count)
           + [ToolResult(turn.calls[count].id, Observation(cfg, turn.outcomes[count], output))];
  }

  lemma AllResults(cfg: Config, before: seq<Message>, turn: Turn, output: bool)
    requires turn.Reply? && WellFormed(turn) && turn.calls != []
    ensures WithResults(cfg, before, turn, output, |turn.calls|) == before + Recorded(cfg, turn, output)
  {
    Regroup(before, [AssistantToolCalls(turn.content, turn.calls)], Results(cfg, turn, output, |turn.calls|));
  }

  lemma PartlyRecordedIsInterrupted(cfg: Config, before: seq<Message>, turn: Turn, output: bool, memory: seq<Message>)
    requires turn.Reply? && WellFormed(turn) && PartlyRecorded(cfg, before, turn, output, memory) && Closed(before)
    ensures ClosedOrInterrupted(memory)
  {
    if memory != before {
      assert memory[..|before|] == before;
      assert InterruptedAt(memory, |before|, turn.calls);
    }
  }

  // How a failed run leaves the transcript after so many requests; stored says that no append failed.
  ghost predicate FailedWith(cfg: Config, before: seq<Message>, input: seq<MessagePart>, turns: seq<Turn>, output: bool,
                             memory: seq<Message>, sent: nat, stored: bool)
  {
    if stored then
      || StoppedAtModel(cfg, before, input, turns, output, memory, sent)
      || (output && StoppedAtSink(cfg, before, input, turns, output, memory, sent))
    else StoppedAtAppend(cfg, before, input, turns, output, memory, sent)
  }

  // The user message was not stored, or the last reply only partly.
  ghost predicate StoppedAtAppend(cfg: Config, before: seq<Message>, input: seq<MessagePart>, turns: seq<Turn>,
                                  output: bool, memory: seq<Message>, sent: nat)
  {
    || (memory == before && sent == 0)
    || (sent > 0 && FailedWithin(cfg, before, input, turns, sent - 1, output, memory))
  }

  // The script is over, or the run stopped before the next request, or the last one got no reply.
  ghost predicate StoppedAtModel(cfg: Config, before: seq<Message>, input: seq<MessagePart>, turns: seq<Turn>,
                                 output: bool, memory: seq<Message>, sent: nat)
  {
    || (FailedBetween(cfg, before, input, turns, sent, output, memory) && (sent < |turns| ==> turns[sent].Stopped?))
    || (0 < sent <= |turns| && turns[sent - 1].Unanswered?
        && FailedBetween(cfg, before, input, turns, sent - 1, output, memory))
  }

  // The last reply was plain and was recorded, but not all of its events were handed over.
  ghost predicate StoppedAtSink(cfg: Config, before: seq<Message>, input: seq<MessagePart>, turns: seq<Turn>,
                                output: bool, memory: seq<Message>, sent: nat)
  {
    && 0 < sent && FailedBetween(cfg, before, input, turns, sent, output, memory) && turns[sent - 1].calls == []
    && (turns[sent - 1].cancelled || turns[sent - 1].taken < |turns[sent - 1].events|)
  }

  ghost predicate FailedBetween(cfg: Config, before: seq<Message>, input: seq<MessagePart>, turns: seq<Turn>, n: nat,
                                output: bool, memory: seq<Message>)
  {
    AllReply(turns, n) && memory == History(cfg, before, input, turns, n, output)
  }

  ghost predicate FailedWithin(cfg: Config, before: seq<Message>, input: seq<MessagePart>, turns: seq<Turn>, n: nat,
                               output: bool, memory: seq<Message>)
  {
    && AllReply(turns, n) && n < |turns| && turns[n].Reply? && WellFormed(turns[n])
    && PartlyRecorded(cfg, History(cfg, before, input, turns, n, output), turns[n], output, memory)
  }

  lemma BetweenIsClosed(cfg: Config, before: seq<Message>, input: seq<MessagePart>, turns: seq<Turn>, n: nat,
                        output: bool, memory: seq<Message>)
    requires FailedBetween(cfg, before, input, turns, n, output, memory) && Closed(before)
    ensures Closed(memory)
  {
    HistoryClosedIff(cfg, before, input, turns, n, output);
  }

  lemma WithinIsClosedOrInterrupted(cfg: Config, before: seq<Message>, input: seq<MessagePart>, turns: seq<Turn>,
                                    n: nat, output: bool, memory: seq<Message>)
    requires FailedWithin(cfg, before, input, turns, n, output, memory) && Closed(before)
    ensures ClosedOrInterrupted(memory)
  {
    HistoryClosedIff(cfg, before, input, turns, n, output);
    PartlyRecordedIsInterrupted(cfg, History(cfg, before, input, turns, n, output), turns[n], output, memory);
  }

  lemma StoppedAtModelIsClosed(cfg: Config, before: seq<Message>, input: seq<MessagePart>, turns: seq<Turn>,
                               output: bool, memory: seq<Message>, sent: nat)
    requires StoppedAtModel(cfg, before, input, turns, output, memory, sent) && Closed(before)
    ensures Closed(memory)
  {
    var n := if sent > 0 && FailedBetween(cfg, before, input, turns, sent - 1, output, memory) then sent - 1 else sent;
    BetweenIsClosed(cfg, before, input, turns, n, output, memory);
  }

  lemma FailedIsClosedOrInterrupted(cfg: Config, before: seq<Message>, input: seq<MessagePart>, turns: seq<Turn>,
                                    output: bool, memory: seq<Message>, sent: nat, stored: bool)
    requires FailedWith(cfg, before, input, turns, output, memory, sent, stored) && Closed(before)
    ensures ClosedOrInterrupted(memory)
  {
    if stored {
      if StoppedAtModel(cfg, before, input, turns, output, memory, sent) {
        StoppedAtModelIsClosed(cfg, before, input, turns, output, memory, sent);
      } else {
        BetweenIsClosed(cfg, before, input, turns, sent, output, memory);
      }
    } else if sent > 0 {
      WithinIsClosedOrInterrupted(cfg, before, input, turns, sent - 1, output, memory);
    }
  }

  // Where the loop may stop, with the requests it has sent.
  lemma StopsBefore(cfg: Config, before: seq<Message>, input: seq<MessagePart>, turns: seq<Turn>, output: bool,
                    n: nat, memory: seq<Message>, requests: seq<seq<Message>>)
    requires InLoop(cfg, before, input, turns, output, n, memory, requests) && (n < |turns| ==> turns[n].Stopped?)
    ensures FailedWith(cfg, before, input, turns, output, memory, |requests|, true)
  {}

  lemma StopsUnanswered(cfg: Config, before: seq<Message>, input: seq<MessagePart>, turns: seq<Turn>, output: bool,
                        n: nat, memory: seq<Message>, requests: seq<seq<Message>>)
    requires InLoop(cfg, before, input, turns, output, n, memory, requests) && n < |turns| && turns[n].Unanswered?
    ensures FailedWith(cfg, before, input, turns, output, memory, |requests| + 1, true)
  {}

  lemma StopsWithin(cfg: Config, before: seq<Message>, input: seq<MessagePart>, turns: seq<Turn>, output: bool,
                    n: nat, memory: seq<Message>, requests: seq<seq<Message>>, memory': seq<Message>)
    requires InLoop(cfg, before, input, turns, output, n, memory, requests) && n < |turns|
    requires turns[n].Reply? && WellFormed(turns[n]) && PartlyRecorded(cfg, memory, turns[n], output, memory')
    ensures FailedWith(cfg, before, input, turns, output, memory', |requests| + 1, false)
  {}

  lemma StopsAtSink(cfg: Config, before: seq<Message>, input: seq<MessagePart>, turns: seq<Turn>,
                    n: nat, memory: seq<Message>, requests: seq<seq<Message>>)
    requires InLoop(cfg, before, input, turns, true, n, memory, requests) && n < |turns|
    requires turns[n].Reply? && WellFormed(turns[n]) && turns[n].calls == []
    requires turns[n].cancelled || turns[n].taken < |turns[n].events|
    ensures FailedWith(cfg, before, input, turns, true, memory + Recorded(cfg, turns[n], true), |requests| + 1, true)
  {
    OneMoreTurn(cfg, before, input, turns, n, true);
    assert FailedBetween(cfg, before, input, turns, n + 1, true, memory + Recorded(cfg, turns[n], true));
  }

  // The calls of append from one count to another: each stored its message, except that the last one may have failed.
  ghost predicate Appended(fails: nat -> bool, start: nat, before: seq<Message>, now: nat, after: seq<Message>,
                           ok: bool)
  {
    && |before| <= |after|
    && now == start + |after| - |before| + (if ok then 0 else 1)
    && (forall i | start <= i < start + |after| - |before| :: !fails(i))
    && (!ok ==> fails(now - 1))
  }

  lemma AppendedTwice(fails: nat -> bool, start: nat, before: seq<Message>, mid: nat, m: seq<Message>, now: nat,
                      after: seq<Message>, ok: bool)
    requires Appended(fails, start, before, mid, m, true) && Appended(fails, mid, m, now, after, ok)
    ensures Appended(fails, start, before, now, after, ok)
  {}

  // ---------------------------------------------------------------- the run

  class Agent {
    const cfg: Config
    // Which calls of append fail, by their number.
    const appendFails: nat -> bool
    var appends: nat
    var memory: seq<Message>
    var sink: seq<StreamEvent>

    constructor (cfg: Config, appendFails: nat -> bool, memory: seq<Message>)
      ensures this.cfg == cfg && this.appendFails == appendFails && this.memory == memory && sink == [] && appends == 0
    {
      this.cfg, this.appendFails, this.memory := cfg, appendFails, memory;
      sink, appends := [], 0;
    }

    method Append(message: Message) returns (ok: bool)
      modifies this`memory, this`appends
      ensures memory == if ok then old(memory) + [message] else old(memory)
      ensures Appended(appendFails, old(appends), old(memory), appends, memory, ok)
    {
      ok := !appendFails(appends);
      appends := appends + 1;
      if ok { memory := memory + [message]; }
    }

    method BuildRequest() returns (request: seq<Message>)
      ensures request == Prompt(cfg) + memory
    {
      request := [];
      if cfg.instructions != "" { request := request + [SystemMessage(cfg.instructions)]; }
      request := request + memory;
    }

    /** Hands the files of a finished tool to the sink, if there is one. */
    method Deliver(outcome: ToolOutcome, output: bool) returns (observation: string)
      modifies this`sink
      ensures observation == Observation(cfg, outcome, output)
      ensures sink == old(sink) + Delivered(outcome, output)
    {
      if outcome.Failed? { return cfg.failure(outcome.error); }
      var i := 0;
      while i < |outcome.files|
        invariant 0 <= i <= |outcome.files| && (i > 0 ==> output && i <= outcome.accepted)
        invariant sink == old(sink) + FilesReady(outcome.files, i)
      {
        if !output { return cfg.failure(NO_FILE_OUTPUT); }
        if i >= outcome.accepted { return cfg.failure(SINK_FAILED); }
        sink := sink + [FileReady(outcome.files[i])];
        i := i + 1;
      }
      return cfg.success(outcome.observation);
    }

    /** Answers one call: its files go to the sink, its observation into the memory. */
    method AnswerCall(turn: Turn, i: nat, output: bool, ghost before: seq<Message>, ghost start: nat,
                      ghost files: seq<StreamEvent>) returns (ok: bool)
      requires turn.Reply? && WellFormed(turn) && i < |turn.calls|
      requires memory == WithResults(cfg, before, turn, output, i)
      requires Appended(appendFails, start, before, appends, memory, true)
      requires sink == files + DeliveredUpTo(turn, output, i)
      modifies this
      ensures memory == WithResults(cfg, before, turn, output, if ok then i + 1 else i)
      ensures Appended(appendFails, start, before, appends, memory, ok)
      ensures sink == files + DeliveredUpTo(turn, output, i + 1)
      ensures !ok ==> PartlyRecorded(cfg, before, turn, output, memory)
    {
      var observation := Deliver(turn.outcomes[i], output);
      FilesTogether(files, DeliveredUpTo(turn, output, i), Delivered(turn.outcomes[i], output));
      OneMoreResult(cfg, before, turn, output, i);
      ok := Append(ToolResult(turn.calls[i].id, observation));
      AppendedTwice(appendFails, start, before, old(appends), old(memory), appends, memory, ok);
    }

    method RecordResponse(turn: Turn, output: bool) returns (ok: bool)
      requires turn.Reply? && WellFormed(turn)
      modifies this
      ensures ok ==> memory == old(memory) + Recorded(cfg, turn, output)
      ensures !ok ==> PartlyRecorded(cfg, old(memory), turn, output, memory)
      ensures Appended(appendFails, old(appends), old(memory), appends, memory, ok)
      ensures ok ==> sink == old(sink) + DeliveredUpTo(turn, output, |turn.calls|)
      ensures !ok ==> PartlyDelivered(old(sink), turn, output, sink)
    {
      ghost var before := memory;
      assert sink == old(sink) + DeliveredUpTo(turn, output, 0);
      if turn.calls == [] {
        ok := Append(AssistantMessage(turn.content));
        return;
      }
      ok := Append(AssistantToolCalls(turn.content, turn.calls));
      if !ok { return; }
      assert memory == WithResults(cfg, before, turn, output, 0);
      for i := 0 to |turn.calls|
        invariant memory == WithResults(cfg, before, turn, output, i)
        invariant Appended(appendFails, old(appends), before, appends, memory, true)
        invariant sink == old(sink) + DeliveredUpTo(turn, output, i)
      {
        ok := AnswerCall(turn, i, output, before, old(appends), old(sink));
        if !ok { return; }
      }
      AllResults(cfg, before, turn, output);
      return true;
    }

    /** Records turn n of a run that began with these messages, this count of appends and this sink. */
    method RecordTurn(turns: seq<Turn>, n: nat, output: bool, ghost before: seq<Message>, ghost start: nat,
                      ghost files: seq<StreamEvent>) returns (ok: bool)
      requires n < |turns| && turns[n].Reply? && WellFormed(turns[n]) && SinkAfter(files, turns, n, output, sink)
      requires Appended(appendFails, start, before, appends, memory, true)
      modifies this
      ensures ok ==> memory == old(memory) + Recorded(cfg, turns[n], output) && SinkAfter(files, turns, n + 1, output, sink)
      ensures !ok ==> PartlyRecorded(cfg, old(memory), turns[n], output, memory)
      ensures Appended(appendFails, start, before, appends, memory, ok)
      ensures !output ==> sink == files
    {
      ok := RecordResponse(turns[n], output);
      AppendedTwice(appendFails, start, before, old(appends), old(memory), appends, memory, ok);
      SinkGrows(files, turns, n, output, old(sink), sink, ok);
    }

    /** The loop without streaming. */
    method Converse(input: seq<MessagePart>, turns: seq<Turn>)
      returns (answer: Option<string>, ghost requests: seq<seq<Message>>, ghost stored: bool)
      requires Script(turns)
      modifies this
      ensures RequestsOf(cfg, old(memory), input, turns, false, requests)
      ensures answer.Some? ==>
                && AnsweredBy(cfg, old(memory), input, turns, false, |requests|, answer.value, memory)
      ensures answer.None? ==> FailedWith(cfg, old(memory), input, turns, false, memory, |requests|, stored)
      ensures Appended(appendFails, old(appends), old(memory), appends, memory, stored) && (answer.Some? ==> stored)
      ensures sink == old(sink)
    {
      requests := [];
      ghost var before := memory;
      var ok := Append(UserMessage(input));
      if !ok { return None, requests, false; }
      LoopStarts(cfg, before, input, turns, false);
      for i := 0 to |turns|
        invariant InLoop(cfg, before, input, turns, false, i, memory, requests)
        invariant Appended(appendFails, old(appends), before, appends, memory, true)
        invariant SinkAfter(old(sink), turns, i, false, sink)
      {
        if turns[i].Stopped? {
          StopsBefore(cfg, before, input, turns, false, i, memory, requests);
          return None, requests, true;
        }
        OneMoreRequest(cfg, before, input, turns, false, i, requests);
        var request := BuildRequest();
        if turns[i].Unanswered? {
          StopsUnanswered(cfg, before, input, turns, false, i, memory, requests);
          return None, requests + [request], true;
        }
        LoopGoesOn(cfg, before, input, turns, false, i, memory, requests);
        ghost var (was, sent) := (memory, requests);
        requests := requests + [request];
        ok := RecordTurn(turns, i, false, before, old(appends), old(sink));
        if !ok {
          StopsWithin(cfg, before, input, turns, false, i, was, sent, memory);
          return None, requests, false;
        }
        if turns[i].calls == [] {
          return Some(turns[i].content), requests, true;
        }
      }
      StopsBefore(cfg, before, input, turns, false, |turns|, memory, requests);
      return None, requests, true;
    }

    /** Without streaming: every request is closed exactly when the old transcript was, whatever tools fail, and a
        successful run ends with its plain answer and a transcript that is closed again. */
    method Execute(input: seq<MessagePart>, turns: seq<Turn>)
      returns (answer: Option<string>, ghost requests: seq<seq<Message>>, ghost stored: bool)
      requires Script(turns)
      modifies this
      ensures RequestsOf(cfg, old(memory), input, turns, false, requests)
      ensures forall i | 0 <= i < |requests| :: Closed(requests[i]) <==> Closed(old(memory))
      ensures answer.Some? ==>
                && AnsweredBy(cfg, old(memory), input, turns, false, |requests|, answer.value, memory)
                && (Closed(memory) <==> Closed(old(memory)))
      ensures answer.None? ==>
                && FailedWith(cfg, old(memory), input, turns, false, memory, |requests|, stored)
                && (Closed(old(memory)) ==> ClosedOrInterrupted(memory))
      ensures Appended(appendFails, old(appends), old(memory), appends, memory, stored) && (answer.Some? ==> stored)
      ensures sink == old(sink)
    {
      ghost var before := memory;
      answer, requests, stored := Converse(input, turns);
      RequestsClosedIff(cfg, before, input, turns, false, requests);
      Aftermath(cfg, before, input, turns, false, |requests|, answer, memory, stored);
    }

    /** With streaming: the same, and the text of a turn that ends in tool calls never reaches the sink; on success
        the sink has got files only, and then every event of the last turn. */
    method ExecuteStreaming(input: seq<MessagePart>, turns: seq<Turn>)
      returns (answer: Option<string>, ghost requests: seq<seq<Message>>, ghost stored: bool)
      requires Script(turns)
      modifies this
      ensures RequestsOf(cfg, old(memory), input, turns, true, requests)
      ensures forall i | 0 <= i < |requests| :: Closed(requests[i]) <==> Closed(old(memory))
      ensures answer.Some? ==>
                && AnsweredBy(cfg, old(memory), input, turns, true, |requests|, answer.value, memory)
                && (Closed(memory) <==> Closed(old(memory)))
                && sink == old(sink) + RunFiles(turns, |requests|) + turns[|requests| - 1].events
      ensures answer.None? ==>
                && FailedWith(cfg, old(memory), input, turns, true, memory, |requests|, stored)
                && (Closed(old(memory)) ==> ClosedOrInterrupted(memory))
      ensures Appended(appendFails, old(appends), old(memory), appends, memory, stored) && (answer.Some? ==> stored)
    {
      ghost var before := memory;
      answer, requests, stored := ConverseStreaming(input, turns);
      RequestsClosedIff(cfg, before, input, turns, true, requests);
      Aftermath(cfg, before, input, turns, true, |requests|, answer, memory, stored);
    }

    method ConverseStreaming(input: seq<MessagePart>, turns: seq<Turn>)
      returns (answer: Option<string>, ghost requests: seq<seq<Message>>, ghost stored: bool)
      requires Script(turns)
      modifies this
      ensures RequestsOf(cfg, old(memory), input, turns, true, requests)
      ensures answer.Some? ==>
                && AnsweredBy(cfg, old(memory), input, turns, true, |requests|, answer.value, memory)
                && sink == old(sink) + RunFiles(turns, |requests|) + turns[|requests| - 1].events
      ensures answer.None? ==> FailedWith(cfg, old(memory), input, turns, true, memory, |requests|, stored)
      ensures Appended(appendFails, old(appends), old(memory), appends, memory, stored) && (answer.Some? ==> stored)
    {
      requests := [];
      ghost var before := memory;
      var ok := Append(UserMessage(input));
      if !ok { return None, requests, false; }
      LoopStarts(cfg, before, input, turns, true);
      for i := 0 to |turns|
        invariant InLoop(cfg, before, input, turns, true, i, memory, requests)
        invariant Appended(appendFails, old(appends), before, appends, memory, true)
        invariant SinkAfter(old(sink), turns, i, true, sink)
      {
        if turns[i].Stopped? {
          StopsBefore(cfg, before, input, turns, true, i, memory, requests);
          return None, requests, true;
        }
        OneMoreRequest(cfg, before, input, turns, true, i, requests);
        var request := BuildRequest();
        if turns[i].Unanswered? {
          StopsUnanswered(cfg, before, input, turns, true, i, memory, requests);
          return None, requests + [request], true;
        }
        LoopGoesOn(cfg, before, input, turns, true, i, memory, requests);
        ghost var (was, sent) := (memory, requests);
        requests := requests + [request];
        ok := RecordTurn(turns, i, true, before, old(appends), old(sink));
        if !ok {
          StopsWithin(cfg, before, input, turns, true, i, was, sent, memory);
          return None, requests, false;
        }
        if turns[i].calls == [] {
          if turns[i].cancelled {
            StopsAtSink(cfg, before, input, turns, i, was, sent);
            return None, requests, true;
          }
          var committed := CommitEvents(turns[i].events, turns[i].taken);
          if !committed {
            StopsAtSink(cfg, before, input, turns, i, was, sent);
            return None, requests, true;
          }
          return Some(turns[i].content), requests, true;
        }
      }
      StopsBefore(cfg, before, input, turns, true, |turns|, memory, requests);
      return None, requests, true;
    }

    method CommitEvents(events: seq<StreamEvent>, taken: nat) returns (ok: bool)
      modifies this`sink
      ensures ok <==> taken >= |events|
      ensures sink == old(sink) + if ok then events else events[..taken]
    {
      for i := 0 to |events|
        invariant i <= taken && sink == old(sink) + events[..i]
      {
        if i >= taken { return false; }
        sink := sink + [events[i]];
      }
      return true;
    }
  }

  lemma PlainEnd(transcript: seq<Message>, m: Message)
    requires Closed(transcript) && m.role != Tool && m.toolCalls == []
    ensures Closed(transcript + [m])
  {
    PlainIsClosed(m);
    ClosedAppend(transcript, [m]);
  }

  lemma AnsweredClosedIff(before: seq<Message>, user: Message, transcript: seq<Message>, m: Message)
    requires Closed(transcript) && user.role == User && user.toolCalls == [] && m.role != Tool && m.toolCalls == []
    ensures Closed(before + [user] + transcript + [m]) <==> Closed(before)
  {
    PlainEnd(transcript, m);
    ClosedBeforeUser(before, user, transcript + [m]);
    Regroup(before + [user], transcript, [m]);
  }

  lemma AnsweredIsClosed(cfg: Config, before: seq<Message>, input: seq<MessagePart>, turns: seq<Turn>, output: bool,
                         n: nat, answer: string, memory: seq<Message>)
    requires AnsweredBy(cfg, before, input, turns, output, n, answer, memory)
    ensures Closed(memory) <==> Closed(before)
  {
    TranscriptIsClosed(cfg, turns, n - 1, output);
    AnsweredClosedIff(before, UserMessage(input), Transcript(cfg, turns, n - 1, output), AssistantMessage(answer));
  }

  lemma Aftermath(cfg: Config, before: seq<Message>, input: seq<MessagePart>, turns: seq<Turn>, output: bool,
                  n: nat, answer: Option<string>, memory: seq<Message>, stored: bool)
    requires answer.Some? ==> AnsweredBy(cfg, before, input, turns, output, n, answer.value, memory)
    requires answer.None? ==> FailedWith(cfg, before, input, turns, output, memory, n, stored)
    ensures answer.Some? ==> (Closed(memory) <==> Closed(before))
    ensures answer.None? && Closed(before) ==> ClosedOrInterrupted(memory)
  {
    if answer.Some? {
      AnsweredIsClosed(cfg, before, input, turns, output, n, answer.value, memory);
    } else if Closed(before) {
      FailedIsClosedOrInterrupted(cfg, before, input, turns, output, memory, n, stored);
    }
  }

  lemma InterruptedLength(cfg: Config, input: seq<MessagePart>, turn: Turn, count: nat, memory: seq<Message>)
    requires turn.Reply? && WellFormed(turn) && count < |turn.calls|
    requires memory == WithResults(cfg, [UserMessage(input)], turn, false, count)
    ensures |memory| == count + 2 && InterruptedAt(memory, 1, turn.calls)
  {
    PlainIsClosed(UserMessage(input));
    assert memory[..1] == [UserMessage(input)];
    assert memory[1..] == [AssistantToolCalls(turn.content, turn.calls)] + Results(cfg, turn, false, count);
  }

  lemma OneTurnHistory(cfg: Config, input: seq<MessagePart>, turn: Turn)
    requires turn.Reply? && WellFormed(turn) && turn.calls != []
    ensures History(cfg, [], input, [turn], 0, false) == [UserMessage(input)]
    ensures |History(cfg, [], input, [turn], 1, false)| == |turn.calls| + 2
  {
    assert AllReply([turn], 0) && AllReply([turn], 1);
    assert Transcript(cfg, [turn], 1, false) == Transcript(cfg, [turn], 0, false) + Recorded(cfg, turn, false);
  }

  lemma NotFailed(fails: nat -> bool, now: nat, memory: seq<Message>, k: nat)
    ensures Appended(fails, 0, [], now, memory, true) && k < |memory| ==> !fails(k)
  {}

  lemma StoppedInBetween(cfg: Config, input: seq<MessagePart>, turn: Turn, count: nat, fails: nat -> bool, now: nat,
                         memory: seq<Message>, sent: nat, stored: bool)
    requires turn.Reply? && WellFormed(turn) && count < |turn.calls|
    requires forall i: nat :: fails(i) <==> i == count + 2
    requires FailedWith(cfg, [], input, [turn], false, memory, sent, stored)
    requires Appended(fails, 0, [], now, memory, stored)
    ensures !stored && |memory| == count + 2
    ensures exists results: nat ::
              results < |turn.calls| && memory == WithResults(cfg, [UserMessage(input)], turn, false, results)
  {
    OneTurnHistory(cfg, input, turn);
    NotFailed(fails, now, memory, count + 2);
  }

  /** Interrupted runs exist: whatever the calls of the first reply and however many of its results are to be stored,
      a failing append stops a run on an empty transcript there. */
  method AFailedAppendInterrupts(cfg: Config, input: seq<MessagePart>, turn: Turn, count: nat) returns (agent: Agent)
    requires turn.Reply? && WellFormed(turn) && count < |turn.calls|
    ensures fresh(agent) && |agent.memory| == count + 2 && InterruptedAt(agent.memory, 1, turn.calls)
  {
    agent := new Agent(cfg, i => i == count + 2, []);
    var answer;
    ghost var requests, stored;
    OneTurnHistory(cfg, input, turn);
    answer, requests, stored := agent.Execute(input, [turn]);
    StoppedInBetween(cfg, input, turn, count, agent.appendFails, agent.appends, agent.memory, |requests|, stored);
    var results: nat :|
      results < |turn.calls| && agent.memory == WithResults(cfg, [UserMessage(input)], turn, false, results);
    InterruptedLength(cfg, input, turn, results, agent.memory);
  }
}
