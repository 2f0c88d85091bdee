/** The agent orchestrator (`runAgent`): the conversation handed to the
    agent runtime is the given history followed by exactly one new user
    turn. The runtime's `run` is an oracle from conversations to outcomes. */
module Agent {
  import opened Common

  /** A turn's `role`: "user" or "assistant". */
  datatype Role = User | Assistant

  /** A content item's `type`: "input_text" or "output_text". */
  datatype ContentType = InputText | OutputText

  datatype ContentPart = ContentPart(kind: ContentType, text: string)

  /** One conversation turn in the agent runtime's input format;
      `timestamp` is the abstract clock value of its creation. */
  datatype Turn = Turn(role: Role, content: seq<ContentPart>, timestamp: nat)

  /** What `run` produced: a result whose `finalOutput` may be missing, or a
      thrown error. */
  datatype AgentOutcome = Completed(finalOutput: Option<string>) | Failed(error: string)

  /** `conversationMessages`: every history turn in order, then one user turn
      holding the input as its single `input_text` item. */
  function Conversation(input: string, messages: seq<Turn>, now: nat): (c: seq<Turn>)
    ensures |c| == |messages| + 1
    ensures c[..|messages|] == messages
    ensures c[|messages|].role == User
    ensures c[|messages|].content == [ContentPart(InputText, input)]
  {
    messages + [Turn(User, [ContentPart(InputText, input)], now)]
  }

  /** `runAgent(input, messages = [])`: the runtime's outcome, result or
      error, is passed back unchanged; `now` stands for `new Date()`. */
  function RunAgent(input: string, messages: Option<seq<Turn>>, now: nat, run: seq<Turn> -> AgentOutcome): (r: AgentOutcome)
    ensures r == run(Conversation(input, messages.GetOr([]), now))
  {
    run(Conversation(input, messages.GetOr([]), now))
  }

  /** Called without history, the runtime sees a single user turn. */
  lemma {:induction false} RunAgentWithoutHistory(input: string, now: nat, run: seq<Turn> -> AgentOutcome)
    ensures RunAgent(input, None, now, run) == run([Turn(User, [ContentPart(InputText, input)], now)])
  {
    assert Conversation(input, [], now) == [Turn(User, [ContentPart(InputText, input)], now)];
  }
}
