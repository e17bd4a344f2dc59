/** The values the query loops of MCPClient exchange with their collaborators: the
    chat history, the replies of the two model backends, tool calls and their
    outcomes, and the loop state. The backends, the tool service and the JSON
    decoder are oracles: parameters of the loops, not code of this model. */
module Conversation {
  import opened Options

  /** A tool as listed by the tool service (name, description, input schema). */
  datatype ToolDescriptor = ToolDescriptor(name: string, description: string, inputSchema: string)

  /** Decoded tool arguments: each argument name with its value's JSON text. */
  type Arguments = map<string, string>

  /** A tool call inside a chat-backend message (`tool.function.name/arguments`). */
  datatype ToolCall = ToolCall(name: string, arguments: Arguments)

  /** The chat backend's `response.message`: its text (empty when absent) and its tool calls. */
  datatype ChatReply = ChatReply(content: string, toolCalls: seq<ToolCall>)

  /** A function-call output item of the function-calling backend; its arguments are
      still JSON text. */
  datatype FunctionCallItem = FunctionCallItem(callId: string, name: string, arguments: string)

  /** One output item of the function-calling backend: a function call, or any other
      item, of which only the texts of its content parts matter. */
  datatype OutputItem =
    | TextItem(texts: seq<string>)
    | CallItem(call: FunctionCallItem)

  /** What a tool call gives back: a result, of which the chat path keeps the text of
      the first content part and the function-calling path the rendering, or a
      `ToolError` with its message. */
  datatype ToolOutcome =
    | ToolOk(firstText: string, rendered: string)
    | ToolError(message: string)

  /** An entry of the history sent to a backend. */
  datatype Message =
    | SystemMsg(content: string)                      // role "system"
    | DeveloperMsg(content: string)                   // role "developer"
    | UserMsg(content: string)                        // role "user"
    | AssistantMsg(reply: ChatReply)                  // the chat backend's whole message
    | ToolResultMsg(content: string)                  // role "tool", type "tool_result"
    | FunctionCallMsg(call: FunctionCallItem)         // the function-call item itself
    | FunctionCallOutputMsg(callId: string, output: string)  // type "function_call_output"

  /** The chat backend: given the round number, the history and the tools, a reply. */
  type ChatBackend = (nat, seq<Message>, seq<ToolDescriptor>) -> ChatReply

  /** The function-calling backend: given the round number, the history and the tools,
      the output items. */
  type ResponsesBackend = (nat, seq<Message>, seq<ToolDescriptor>) -> seq<OutputItem>

  /** The tool service: given how many tools this query already called, a tool name
      and arguments, the outcome. */
  type ToolService = (nat, string, Arguments) -> ToolOutcome

  /** `json.loads` of a function call's argument text, None when it is not valid JSON. */
  type ArgumentDecoder = string -> Option<Arguments>

  /** The locals of a query loop: `num_responses`, `answer`, the history, `tool_count`. */
  datatype QueryState = QueryState(responses: nat, answer: seq<string>, messages: seq<Message>, toolCount: nat)

  /** Why the function-calling loop raised. */
  datatype QueryError =
    | ArgumentDecodeError(arguments: string)
    | ToolCallFailed(message: string)

  /** How a function-calling query ends: it returns, or it raises, here with the state
      it had reached when it raised. */
  datatype QueryResult =
    | Returned(state: QueryState)
    | Raised(error: QueryError, state: QueryState)

  /** The number of backend calls a budget of `timeout` allows: the loop runs while
      `num_responses < timeout`, so a budget below one allows none. */
  function Budget(timeout: int): nat {
    if timeout > 0 then timeout else 0
  }
}
