/** The conversation log the controller reads and rewrites: one `Message` per turn,
    in insertion order. Token-threshold eviction is not part of this model. */
module ChatMessages {

  datatype Option<+T> = None | Some(value: T)

  /** One tool invocation requested by the model: its id, the tool's name and
      the raw JSON argument string exactly as the model produced it. */
  datatype ToolCall = ToolCall(id: string, name: string, arguments: string)

  /** The four kinds of log entry. Every kind carries a `content` text, so that
      the content of the last entry can be overwritten whatever its kind. */
  datatype Message =
    | System(content: string)
    | User(content: string)
    | Assistant(content: string, toolCalls: seq<ToolCall>)
    | Tool(callId: string, content: string)

  /** An assistant message that asks for at least one tool to be run. */
  predicate CallsTool(m: Message) {
    m.Assistant? && |m.toolCalls| > 0
  }

  /** `result` is the tool message answering the first tool call of `call`. */
  predicate Answers(call: Message, result: Message) {
    CallsTool(call) && result.Tool? && result.callId == call.toolCalls[0].id
  }

  /** The adjacency the chat-completion API demands, for the first call of each
      message: every message that calls a tool is directly followed by the result
      of its first call, and every tool result directly follows its call. Later
      calls of the same message are not covered. */
  predicate WellPaired(log: seq<Message>) {
    && (forall i | 0 <= i < |log| && CallsTool(log[i]) :: i + 1 < |log| && Answers(log[i], log[i + 1]))
    && (forall i | 0 <= i < |log| && log[i].Tool? :: 0 < i && Answers(log[i - 1], log[i]))
  }

  /** The log with the content of its last entry replaced; kind and position stay. */
  function SetLastContent(log: seq<Message>, content: string): (r: seq<Message>)
    requires |log| > 0
    ensures |r| == |log|
    ensures r[..|log| - 1] == log[..|log| - 1]
    ensures r[|log| - 1].content == content
    ensures r[|log| - 1] == log[|log| - 1].(content := content)
  {
    log[..|log| - 1] + [log[|log| - 1].(content := content)]
  }

  /** Appending a message that neither calls a tool nor answers one keeps the pairing. */
  lemma AppendPlainKeepsPairing(log: seq<Message>, m: Message)
    ensures !CallsTool(m) && !m.Tool? && WellPaired(log) ==> WellPaired(log + [m])
  {
    if CallsTool(m) || m.Tool? || !WellPaired(log) { return; }
    var r := log + [m];
    forall i | 0 <= i < |r| && CallsTool(r[i])
      ensures i + 1 < |r| && Answers(r[i], r[i + 1])
    {
      assert r[i] == log[i];
    }
    forall i | 0 <= i < |r| && r[i].Tool?
      ensures 0 < i && Answers(r[i - 1], r[i])
    {
      assert r[i] == log[i] && r[i - 1] == log[i - 1];
    }
  }

  /** Appending a tool call immediately followed by its result keeps the pairing. */
  lemma AppendAnsweredCallKeepsPairing(log: seq<Message>, call: Message, result: Message)
    ensures Answers(call, result) && WellPaired(log) ==> WellPaired(log + [call, result])
  {
    if !Answers(call, result) || !WellPaired(log) { return; }
    var r := log + [call, result];
    forall i | 0 <= i < |r| && CallsTool(r[i])
      ensures i + 1 < |r| && Answers(r[i], r[i + 1])
    {
      if i < |log| {
        assert r[i] == log[i];
        assert i + 1 < |log|;
        assert r[i + 1] == log[i + 1];
      }
    }
    forall i | 0 <= i < |r| && r[i].Tool?
      ensures 0 < i && Answers(r[i - 1], r[i])
    {
      if i < |log| {
        assert r[i] == log[i] && r[i - 1] == log[i - 1];
      }
    }
  }

  /** Overwriting the content of the last entry never breaks the pairing: pairing
      depends on kinds and call ids only. */
  lemma SetLastContentKeepsPairing(log: seq<Message>, content: string)
    requires |log| > 0
    ensures WellPaired(log) ==> WellPaired(SetLastContent(log, content))
  {
    if !WellPaired(log) { return; }
    var r := SetLastContent(log, content);
    forall i | 0 <= i < |r|
      ensures CallsTool(r[i]) == CallsTool(log[i]) && r[i].Tool? == log[i].Tool?
      ensures r[i].Tool? ==> r[i].callId == log[i].callId
      ensures r[i].Assistant? ==> r[i].toolCalls == log[i].toolCalls
    {
      if i < |log| - 1 {
        assert r[i] == r[..|log| - 1][i] == log[..|log| - 1][i] == log[i];
      }
    }
    forall i | 0 <= i < |r| && CallsTool(r[i])
      ensures i + 1 < |r| && Answers(r[i], r[i + 1])
    {
      assert CallsTool(log[i]);
    }
    forall i | 0 <= i < |r| && r[i].Tool?
      ensures 0 < i && Answers(r[i - 1], r[i])
    {
      assert log[i].Tool?;
    }
  }
}
