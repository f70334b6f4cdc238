/**
 * The relay between the chat front end and the language-model providers
 * (src/services/mcp-server.ts). The provider SDK calls and `JSON.parse` /
 * `JSON.stringify` are parameters; everything the server does around them is here.
 */
module McpServer {
  import opened Wrappers
  import opened JsValues
  import opened McpTypes

  const DefaultOpenAIModel := "gpt-4o"
  const DefaultClaudeModel := "claude-3-opus-20240229"
  const ClaudeMaxTokens: nat := 4096
  const MissingClaudeKey := "Anthropic API key not provided for Claude model"

  /** A tool in OpenAI's `{type: 'function', function: {name, description, parameters}}` form. */
  datatype FunctionTool = FunctionTool(name: string, description: string, parameters: Json)

  /** A tool in Anthropic's `{name, description, input_schema}` form. */
  datatype ClaudeTool = ClaudeTool(name: string, description: string, inputSchema: Json)

  /** A chat-completion request; `tools` present means `tool_choice: 'auto'` as well. */
  datatype OpenAICall = OpenAICall(model: string, messages: seq<ChatMessage>, tools: Option<seq<FunctionTool>>)

  /** `choices[k].message` of a completion: its text and the tool calls it proposes. */
  datatype CompletionMessage = CompletionMessage(content: Option<string>, toolCalls: Option<seq<FunctionCall>>)

  datatype Completion = Completion(choices: seq<CompletionMessage>)

  /** A messages request to Anthropic with one user message. */
  datatype ClaudeCall = ClaudeCall(model: string, maxTokens: nat, message: string, tools: seq<ClaudeTool>)

  /** One block of an Anthropic reply's `content`. */
  datatype ContentBlock = TextBlock(text: string) | ToolUseBlock(id: string, name: string, input: Json) | OtherBlock

  /** `model?.includes('claude')`. */
  predicate IsClaude(model: Option<string>): (c: bool)
    ensures c <==> model.Some? && exists i :: 0 <= i <= |model.value| - 6 && IsPrefix("claude", model.value[i..])
  {
    ContainsIff(if model.Some? then model.value else "", "claude");
    model.Some? && Contains(model.value, "claude")
  }

  /** `model || fallback`: an absent or empty model name gives the fallback. */
  function ModelOr(model: Option<string>, fallback: string): (m: string)
    ensures model.Some? && model.value != "" ==> m == model.value
    ensures model.None? || model.value == "" ==> m == fallback
  {
    if model.Some? && model.value != "" then model.value else fallback
  }

  /** A request routed to Claude names its model, so the Claude default is never used. */
  lemma ClaudeModelIsNeverDefaulted(model: Option<string>)
    requires IsClaude(model)
    ensures ModelOr(model, DefaultClaudeModel) == model.value
  {
  }

  /** `request.tools || availableTools`: a request's own list, even an empty one, wins. */
  function ToolsFor(request: McpRequest, available: seq<Tool>): (tools: seq<Tool>)
    ensures request.tools.Some? ==> tools == request.tools.value
    ensures request.tools.None? ==> tools == available
  {
    if request.tools.Some? then request.tools.value else available
  }

  /** `tools.map(...)` into OpenAI's form. */
  function OpenAITools(tools: seq<Tool>): (r: seq<FunctionTool>)
    ensures |r| == |tools|
    ensures forall i :: 0 <= i < |tools| ==>
      r[i].name == tools[i].name && r[i].description == tools[i].description && r[i].parameters == tools[i].inputSchema
  {
    if tools == [] then [] else OpenAITools(tools[..|tools| - 1]) + [OpenAITool(tools[|tools| - 1])]
  }

  function OpenAITool(t: Tool): FunctionTool
  {
    FunctionTool(t.name, t.description, t.inputSchema)
  }

  /** The catalog entries back from OpenAI's form. */
  function ToolsOfOpenAI(tools: seq<FunctionTool>): (r: seq<Tool>)
    ensures |r| == |tools|
  {
    if tools == [] then [] else ToolsOfOpenAI(tools[..|tools| - 1]) + [Tool(tools[|tools| - 1].name, tools[|tools| - 1].description, tools[|tools| - 1].parameters)]
  }

  /** The OpenAI form loses nothing of a tool. */
  lemma {:induction false} OpenAIToolsRoundTrip(tools: seq<Tool>)
    ensures ToolsOfOpenAI(OpenAITools(tools)) == tools
    decreases |tools|
  {
    if tools != [] {
      var init := tools[..|tools| - 1];
      OpenAIToolsRoundTrip(init);
      assert OpenAITools(tools)[..|tools| - 1] == OpenAITools(init);
      assert tools == init + [tools[|tools| - 1]];
    }
  }

  /** `tools.map(...)` into Anthropic's form. */
  function ClaudeTools(tools: seq<Tool>): (r: seq<ClaudeTool>)
    ensures |r| == |tools|
    ensures forall i :: 0 <= i < |tools| ==>
      r[i].name == tools[i].name && r[i].description == tools[i].description && r[i].inputSchema == tools[i].inputSchema
  {
    if tools == [] then [] else ClaudeTools(tools[..|tools| - 1]) + [ClaudeTool(tools[|tools| - 1].name, tools[|tools| - 1].description, tools[|tools| - 1].inputSchema)]
  }

  /**
   * `tool_calls.map(call => ({id, name, input: JSON.parse(arguments)}))`: the first
   * argument text that does not parse makes the whole mapping throw.
   */
  function ParseCalls(calls: seq<FunctionCall>, parse: string -> Result<Json, Fault>): (r: Result<seq<ToolCall>, Fault>)
    ensures r.Success? <==> forall i :: 0 <= i < |calls| ==> parse(calls[i].arguments).Success?
    ensures r.Success? ==> |r.value| == |calls| && forall i :: 0 <= i < |calls| ==>
      r.value[i] == ToolCall(calls[i].id, calls[i].name, parse(calls[i].arguments).value)
  {
    if calls == [] then Success([])
    else match parse(calls[0].arguments)
      case Failure(f) => Failure(f)
      case Success(input) =>
        match ParseCalls(calls[1..], parse)
        case Failure(f) => Failure(f)
        case Success(rest) => Success([ToolCall(calls[0].id, calls[0].name, input)] + rest)
  }

  /** `choices[0]?.message.content || ''`. */
  function FirstContent(c: Completion): (t: string)
    ensures |c.choices| > 0 && c.choices[0].content.Some? ==> t == c.choices[0].content.value
    ensures |c.choices| == 0 || c.choices[0].content.None? ==> t == ""
  {
    if |c.choices| > 0 && c.choices[0].content.Some? then c.choices[0].content.value else ""
  }

  /** The response built from a completion: its text and its parsed tool calls, `[]` when there are none. */
  function OpenAIResponse(id: string, c: Completion, parse: string -> Result<Json, Fault>): (r: Result<McpResponse, Fault>)
    ensures r.Success? ==> r.value.id == id && r.value.message == FirstContent(c) && r.value.toolCalls.Some?
    ensures (|c.choices| == 0 || c.choices[0].toolCalls.None?) ==> r == Success(McpResponse(id, FirstContent(c), Some([])))
    ensures |c.choices| > 0 && c.choices[0].toolCalls.Some? ==>
      match ParseCalls(c.choices[0].toolCalls.value, parse)
      case Success(calls) => r == Success(McpResponse(id, FirstContent(c), Some(calls)))
      case Failure(f) => r == Failure(f)
  {
    var calls := if |c.choices| > 0 && c.choices[0].toolCalls.Some? then ParseCalls(c.choices[0].toolCalls.value, parse) else Success([]);
    match calls
    case Failure(f) => Failure(f)
    case Success(cs) => Success(McpResponse(id, FirstContent(c), Some(cs)))
  }

  function ToolUse(b: ContentBlock): ToolCall
    requires b.ToolUseBlock?
  {
    ToolCall(b.id, b.name, b.input)
  }

  /** The `tool_use` blocks of a reply, in order, as tool calls. */
  function ToolUses(content: seq<ContentBlock>): (r: seq<ToolCall>)
    ensures |r| <= |content|
    ensures forall t :: t in r ==> exists i :: 0 <= i < |content| && content[i].ToolUseBlock? && ToolUse(content[i]) == t
    ensures forall i :: 0 <= i < |content| && content[i].ToolUseBlock? ==> ToolUse(content[i]) in r
  {
    if content == [] then []
    else
      var rest := ToolUses(content[1..]);
      assert forall i :: 1 <= i < |content| ==> content[i] == content[1..][i - 1];
      if content[0].ToolUseBlock? then [ToolUse(content[0])] + rest else rest
  }

  /** The `text` blocks of a reply joined with no separator. */
  function JoinTexts(content: seq<ContentBlock>): (t: string)
    ensures (forall i :: 0 <= i < |content| ==> !content[i].TextBlock?) ==> t == ""
    ensures |content| == 1 ==> t == (if content[0].TextBlock? then content[0].text else "")
    ensures |content| > 0 && content[0].TextBlock? ==> IsPrefix(content[0].text, t)
  {
    if content == [] then ""
    else (if content[0].TextBlock? then content[0].text else "") + JoinTexts(content[1..])
  }

  /** Extraction distributes over a split of the reply. */
  lemma ExtractionSplits(a: seq<ContentBlock>, b: seq<ContentBlock>)
    ensures ToolUses(a + b) == ToolUses(a) + ToolUses(b)
    ensures JoinTexts(a + b) == JoinTexts(a) + JoinTexts(b)
  {
    ToolUsesSplit(a, b);
    JoinTextsSplit(a, b);
  }

  lemma {:induction false} ToolUsesSplit(a: seq<ContentBlock>, b: seq<ContentBlock>)
    ensures ToolUses(a + b) == ToolUses(a) + ToolUses(b)
    decreases |a|
  {
    if a == [] {
      assert a + b == b;
    } else {
      assert (a + b)[0] == a[0] && (a + b)[1..] == a[1..] + b;
      ToolUsesSplit(a[1..], b);
      if a[0].ToolUseBlock? {
        calc {
          ToolUses(a + b);
          [ToolUse(a[0])] + ToolUses(a[1..] + b);
          [ToolUse(a[0])] + (ToolUses(a[1..]) + ToolUses(b));
          ([ToolUse(a[0])] + ToolUses(a[1..])) + ToolUses(b);
        }
      }
    }
  }

  lemma {:induction false} JoinTextsSplit(a: seq<ContentBlock>, b: seq<ContentBlock>)
    ensures JoinTexts(a + b) == JoinTexts(a) + JoinTexts(b)
    decreases |a|
  {
    if a == [] {
      assert a + b == b;
    } else {
      assert (a + b)[0] == a[0] && (a + b)[1..] == a[1..] + b;
      JoinTextsSplit(a[1..], b);
    }
  }

  /** The response built from Anthropic's reply. */
  function ClaudeResponse(id: string, content: seq<ContentBlock>): (r: McpResponse)
    ensures r.id == id && r.message == JoinTexts(content) && r.toolCalls == Some(ToolUses(content))
  {
    McpResponse(id, JoinTexts(content), Some(ToolUses(content)))
  }

  /** The stand-in Anthropic client the server installs: every reply has empty content. */
  function StubClaude(call: ClaudeCall): Result<seq<ContentBlock>, Fault>
  {
    Success([])
  }

  /** So every Claude request with a key answers an empty message and no tool calls. */
  lemma StubClaudeAnswersNothing(id: string, call: ClaudeCall)
    ensures StubClaude(call).Success?
    ensures ClaudeResponse(id, StubClaude(call).value) == McpResponse(id, "", Some([]))
  {
  }

  /** `result.error` as a condition: present and not empty. */
  predicate HasError(result: ToolResult)
  {
    result.error.Some? && result.error.value != ""
  }

  /** `result.output`, undefined when absent. */
  function OutputOf(result: ToolResult): Json
  {
    if result.output.Some? then result.output.value else JUndefined
  }

  /** The tool message's content: the error, marked, or the output as JSON text. */
  function ToolContent(result: ToolResult, stringify: Json -> string): (c: string)
    ensures HasError(result) ==> c == "Error: " + result.error.value
    ensures !HasError(result) ==> c == stringify(OutputOf(result))
  {
    if HasError(result) then "Error: " + result.error.value else stringify(OutputOf(result))
  }

  /** The assistant/tool pair that reports one result to OpenAI. */
  function ResultPair(result: ToolResult, stringify: Json -> string): seq<ChatMessage>
  {
    [AssistantMessage(None, [FunctionCall(result.id, PrefixBefore(result.id, ':'), "{}")]),
     ToolMessage(result.id, ToolContent(result, stringify))]
  }

  /** The messages of the follow-up completion: the user's message, then one pair per result. */
  function FollowUpMessages(original: string, results: seq<ToolResult>, stringify: Json -> string): (m: seq<ChatMessage>)
    ensures |m| == 1 + 2 * |results| && m[0] == UserMessage(original)
  {
    if results == [] then [UserMessage(original)]
    else FollowUpMessages(original, results[..|results| - 1], stringify) + ResultPair(results[|results| - 1], stringify)
  }

  /**
   * The follow-up messages in full: result `i` becomes an assistant message whose only
   * tool call has the result's id and, as name, the id's part before the first ':',
   * followed by a tool message answering that id.
   */
  lemma {:induction false} FollowUpMessagesShape(original: string, results: seq<ToolResult>, stringify: Json -> string)
    ensures var m := FollowUpMessages(original, results, stringify);
      && |m| == 1 + 2 * |results|
      && m[0] == UserMessage(original)
      && forall i :: 0 <= i < |results| ==>
           && m[1 + 2 * i] == AssistantMessage(None, [FunctionCall(results[i].id, PrefixBefore(results[i].id, ':'), "{}")])
           && m[2 + 2 * i] == ToolMessage(results[i].id, ToolContent(results[i], stringify))
    decreases |results|
  {
    if results != [] {
      FollowUpMessagesShape(original, results[..|results| - 1], stringify);
    }
  }

  /** The loop of `processOpenAIToolResults` that pushes two messages per result. */
  method BuildFollowUpMessages(original: string, results: seq<ToolResult>, stringify: Json -> string)
    returns (messages: seq<ChatMessage>)
    ensures messages == FollowUpMessages(original, results, stringify)
  {
    messages := [UserMessage(original)];
    for i := 0 to |results|
      invariant messages == FollowUpMessages(original, results[..i], stringify)
    {
      assert results[..i + 1][..i] == results[..i];
      messages := messages + ResultPair(results[i], stringify);
    }
    assert results[..|results|] == results;
  }

  /** One line of the Claude summary: the error if there is one, else the output as JSON text. */
  function SummaryLine(result: ToolResult, stringify: Json -> string): string
  {
    "- " + result.id + ": " + (if HasError(result) then result.error.value else stringify(OutputOf(result))) + "\n"
  }

  function SummaryLines(results: seq<ToolResult>, stringify: Json -> string): string
  {
    if results == [] then "" else SummaryLines(results[..|results| - 1], stringify) + SummaryLine(results[|results| - 1], stringify)
  }

  function SummaryHeader(original: string): string
  {
    "Response to: " + original + "\n\nTool results:\n"
  }

  /** The summary lines of two batches are the lines of each, in order. */
  lemma {:induction false} SummaryLinesSplit(a: seq<ToolResult>, b: seq<ToolResult>, stringify: Json -> string)
    ensures SummaryLines(a + b, stringify) == SummaryLines(a, stringify) + SummaryLines(b, stringify)
    decreases |b|
  {
    if b != [] {
      var b' := b[..|b| - 1];
      assert (a + b)[..|a + b| - 1] == a + b';
      assert (a + b)[|a + b| - 1] == b[|b| - 1];
      SummaryLinesSplit(a, b', stringify);
    } else {
      assert a + b == a;
    }
  }

  /** The loop of `processClaudeToolResults` that appends one line per result. */
  method BuildSummary(original: string, results: seq<ToolResult>, stringify: Json -> string) returns (text: string)
    ensures text == SummaryHeader(original) + SummaryLines(results, stringify)
  {
    text := SummaryHeader(original);
    for i := 0 to |results|
      invariant text == SummaryHeader(original) + SummaryLines(results[..i], stringify)
    {
      assert results[..i + 1][..i] == results[..i];
      text := text + SummaryLine(results[i], stringify);
    }
    assert results[..|results|] == results;
  }

  /** The server: whether an Anthropic client was installed, and the tools it offers by default. */
  class MCPServer {
    const hasAnthropic: bool
    var availableTools: seq<Tool>

    /** The Anthropic client exists exactly when a non-empty key is given. */
    constructor (anthropicApiKey: Option<string>, tools: seq<Tool>)
      ensures hasAnthropic <==> anthropicApiKey.Some? && anthropicApiKey.value != ""
      ensures availableTools == tools
    {
      hasAnthropic := anthropicApiKey.Some? && anthropicApiKey.value != "";
      availableTools := tools;
    }

    method RegisterTool(tool: Tool)
      modifies this
      ensures availableTools == old(availableTools) + [tool]
    {
      availableTools := availableTools + [tool];
    }

    method RegisterTools(tools: seq<Tool>)
      modifies this
      ensures availableTools == old(availableTools) + tools
    {
      availableTools := availableTools + tools;
    }

    /**
     * `processRequest`: a model name containing 'claude' goes to Anthropic (which needs
     * a client), any other, or none, to OpenAI with the guidance and the user's message.
     */
    method ProcessRequest(request: McpRequest,
                          openai: OpenAICall -> Result<Completion, Fault>,
                          claude: ClaudeCall -> Result<seq<ContentBlock>, Fault>,
                          parse: string -> Result<Json, Fault>)
      returns (r: Result<McpResponse, Fault>)
      ensures r.Success? ==> r.value.id == request.id && r.value.toolCalls.Some?
      ensures IsClaude(request.model) && !hasAnthropic ==> r == Failure(ErrorFault(MissingClaudeKey))
      ensures IsClaude(request.model) && hasAnthropic ==>
        match claude(ClaudeCall(request.model.value, ClaudeMaxTokens, request.message, ClaudeTools(ToolsFor(request, availableTools))))
        case Success(content) => r == Success(ClaudeResponse(request.id, content))
        case Failure(f) => r == Failure(f)
      ensures !IsClaude(request.model) ==>
        match openai(OpenAICall(ModelOr(request.model, DefaultOpenAIModel), [Guidance, UserMessage(request.message)],
                                Some(OpenAITools(ToolsFor(request, availableTools)))))
        case Success(c) => r == OpenAIResponse(request.id, c, parse)
        case Failure(f) => r == Failure(f)
    {
      var tools := ToolsFor(request, availableTools);
      if IsClaude(request.model) {
        if !hasAnthropic {
          return Failure(ErrorFault(MissingClaudeKey));
        }
        ClaudeModelIsNeverDefaulted(request.model);
        var reply := claude(ClaudeCall(ModelOr(request.model, DefaultClaudeModel), ClaudeMaxTokens, request.message, ClaudeTools(tools)));
        match reply {
          case Failure(f) => r := Failure(f);
          case Success(content) => r := Success(ClaudeResponse(request.id, content));
        }
      } else {
        var reply := openai(OpenAICall(ModelOr(request.model, DefaultOpenAIModel), [Guidance, UserMessage(request.message)],
                                       Some(OpenAITools(tools))));
        match reply {
          case Failure(f) => r := Failure(f);
          case Success(c) => r := OpenAIResponse(request.id, c, parse);
        }
      }
    }

    /**
     * `processToolResults`: for Claude, a summary text built locally (which still needs a
     * client); otherwise a follow-up completion over the user's message and the results.
     */
    method ProcessToolResults(requestId: string, results: seq<ToolResult>, original: string, model: Option<string>,
                              openai: OpenAICall -> Result<Completion, Fault>, stringify: Json -> string)
      returns (r: Result<McpResponse, Fault>)
      ensures r.Success? ==> r.value.id == requestId && r.value.toolCalls.None?
      ensures IsClaude(model) && !hasAnthropic ==> r == Failure(ErrorFault(MissingClaudeKey))
      ensures IsClaude(model) && hasAnthropic ==>
        r == Success(McpResponse(requestId, SummaryHeader(original) + SummaryLines(results, stringify), None))
      ensures !IsClaude(model) ==>
        match openai(OpenAICall(ModelOr(model, DefaultOpenAIModel), FollowUpMessages(original, results, stringify), None))
        case Success(c) => r == Success(McpResponse(requestId, FirstContent(c), None))
        case Failure(f) => r == Failure(f)
    {
      if IsClaude(model) {
        if !hasAnthropic {
          return Failure(ErrorFault(MissingClaudeKey));
        }
        var text := BuildSummary(original, results, stringify);
        var content := [TextBlock(text)];
        assert content[1..] == [];
        assert JoinTexts(content) == text + "" == text;
        r := Success(McpResponse(requestId, JoinTexts(content), None));
      } else {
        var messages := BuildFollowUpMessages(original, results, stringify);
        var reply := openai(OpenAICall(ModelOr(model, DefaultOpenAIModel), messages, None));
        match reply {
          case Failure(f) => r := Failure(f);
          case Success(c) => r := Success(McpResponse(requestId, FirstContent(c), None));
        }
      }
    }
  }
}
