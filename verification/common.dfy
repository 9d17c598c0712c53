/** Values, errors and constants shared by the chat-group orchestrators. */
module Common {

  datatype Option<+T> = None | Some(value: T)

  datatype Result<+R, +E> = Success(value: R) | Failure(error: E)

  /** Pass, or the first configuration error found. */
  datatype Outcome<+E> = Pass | Fail(error: E)

  /**
   * A value held in a flow input, a flow output or a history record.
   * Text stands for strings, Num for numbers, Rec for a dictionary and
   * Hist for a conversation history (a list of turn records).
   */
  datatype Value =
    | Text(s: string)
    | Num(n: int)
    | Rec(fields: map<string, Value>)
    | Hist(records: seq<map<string, Value>>)

  /** One entry of the conversation history: the role tag plus the turn's output fields. */
  type Record = map<string, Value>

  /** The errors the orchestrators raise. */
  datatype Error =
    | InvalidChatRoleCount(count: nat)
    | MissingConversationHistoryExpression(role: string, name: string)
    | MultipleConversationHistoryInputsMapping(role: string, name: string)
    | IndexOutOfRange

  /** The inputs-mapping expression that binds a flow input to the conversation history. */
  const CONVERSATION_HISTORY_EXPRESSION: string := "${parent.conversation_history}"

  /** The reserved output key under which the devkit orchestrator publishes the history. */
  const CONVERSATION_HISTORY_OUTPUT_KEY: string := "conversation_history"

  /** The key of a line result's output: a turn index or a named key. */
  datatype OutputKey = Turn(index: nat) | Named(key: string)

  /** What one executor call returns: the `LineResult` of a single flow run. */
  datatype TurnResult = TurnResult(
    output: map<string, Value>,
    aggregationInputs: map<string, Value>,
    nodeRunInfos: map<string, Value>,
    runInfo: Value)

  /** What scheduling one conversation line returns. */
  datatype LineResult = LineResult(
    output: map<OutputKey, Value>,
    aggregationInputs: map<nat, map<string, Value>>,
    nodeRunInfos: map<string, Value>,
    runInfo: Value)
}
