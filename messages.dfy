/** The conversation values exchanged with the chat model: the LangChain message
    kinds the manual agent loop builds, and the model's response. */
module Messages {

  /** A tool call's argument mapping, e.g. {"expression": "125 * 8"}. */
  type Args = map<string, string>

  /** One requested tool call: tool name, arguments and the model-assigned id. */
  datatype ToolCall = ToolCall(name: string, args: Args, id: string)

  /** HumanMessage, AIMessage (content plus the requested tool calls) and ToolMessage
      (a tool's output answering the call with id `toolCallId`). */
  datatype Message =
    | Human(content: string)
    | AI(content: string, toolCalls: seq<ToolCall>)
    | Tool(content: string, toolCallId: string)

  /** What one model invocation returns: text content and zero or more tool calls. */
  datatype Response = Response(content: string, toolCalls: seq<ToolCall>)
}
