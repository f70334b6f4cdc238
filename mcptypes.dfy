/**
 * The shapes exchanged between the browser client, the relay server and the
 * language-model providers (src/types/mcp.ts, src/types/openai.d.ts).
 */
module McpTypes {
  import opened Wrappers
  import opened JsValues

  /** A tool of the catalog: name, description and JSON schema of its input. */
  datatype Tool = Tool(name: string, description: string, inputSchema: Json)

  /** A call the model proposes: its id, the tool's name and the parsed input. */
  datatype ToolCall = ToolCall(id: string, name: string, input: Json)

  /** What the client sends back for one call: `output` or `error`. */
  datatype ToolResult = ToolResult(id: string, output: Option<Json>, error: Option<string>)

  datatype McpRequest = McpRequest(id: string, message: string, tools: Option<seq<Tool>>, model: Option<string>)

  datatype McpResponse = McpResponse(id: string, message: string, toolCalls: Option<seq<ToolCall>>)

  /** A thrown value: an `Error` with its message, or anything else. */
  datatype Fault = ErrorFault(message: string) | OtherFault

  /** `error instanceof Error ? error.message : 'Unknown error'`. */
  function FaultText(f: Fault): string
  {
    match f
    case ErrorFault(m) => m
    case OtherFault => "Unknown error"
  }

  /** One entry of an assistant message's `tool_calls` (its `type` is always 'function'). */
  datatype FunctionCall = FunctionCall(id: string, name: string, arguments: string)

  /** The chat messages the server sends to OpenAI. `Guidance` is the fixed system message. */
  datatype ChatMessage =
    | Guidance
    | UserMessage(content: string)
    | AssistantMessage(text: Option<string>, toolCalls: seq<FunctionCall>)
    | ToolMessage(toolCallId: string, content: string)
}
