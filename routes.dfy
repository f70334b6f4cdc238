/**
 * The HTTP routes of the relay server (src/index.ts): `/invoke`, which answers a
 * tool call on the server side, and the error envelopes of `/api/mcp/chat` and
 * `/api/mcp/tool-results`. The request body arrives already parsed, or as the
 * fault its parsing raised.
 */
module Routes {
  import opened Wrappers
  import opened JsValues
  import opened McpTypes
  import opened McpServer
  import opened Catalog

  /** A JSON reply and its status code. */
  datatype HttpReply = HttpReply(status: nat, body: Json)

  /** How a case of the `/invoke` switch ends. */
  datatype Outcome = Produced(result: Json) | Threw(message: string) | Unimplemented

  const DefaultStyle := "mapbox://styles/mapbox/streets-v12"

  /** The labels of the `/invoke` switch; two of them are not catalog tools. */
  const SwitchCases: set<string> := {
    "map_initialize", "map_move", "map_add_layer", "map_remove_layer", "map_get_features",
    "map_search", "map_get_bounds", "arcgis_parcel_search", "map_add_polygon", "map_clear_layers"
  }

  /** The cases whose `catch` reads `input` again, so a missing input escapes the case. */
  const RethrowingCases: set<string> := SwitchCases - {"map_get_bounds", "map_clear_layers"}

  /** The property of `input` each case reads first when `input` is missing. */
  function FirstRead(name: string): string
  {
    if name in {"map_initialize", "map_move"} then "center"
    else if name in {"map_add_layer", "map_remove_layer"} then "id"
    else if name == "map_get_features" then "point"
    else if name in {"map_search", "map_add_polygon"} then "query"
    else if name == "arcgis_parcel_search" then "apn"
    else if name == "map_get_bounds" then "format"
    else "confirm"
  }

  function Failed(message: string): Json
  {
    JObj([("success", JBool(false)), ("error", JStr(message))])
  }

  /** The fixed parcel the `arcgis_parcel_search` case describes. */
  function MockParcel(input: Json): Json
  {
    JObj([("type", JStr("Feature")),
          ("properties", JObj([("APN", Get(input, "apn")), ("County", Get(input, "county")),
                               ("OwnerName", JStr("Sample Owner")), ("LandValue", JNum(250000.0)),
                               ("ZoningCode", JStr("R-1")), ("Acres", JNum(1.25))])),
          ("geometry", JObj([("type", JStr("Polygon")),
                             ("coordinates", JArr([JArr([JArr([JNum(-112.0), JNum(33.45)]), JArr([JNum(-111.98), JNum(33.45)]),
                                                         JArr([JNum(-111.98), JNum(33.47)]), JArr([JNum(-112.0), JNum(33.47)]),
                                                         JArr([JNum(-112.0), JNum(33.45)])])]))]))])
  }

  /** `map_initialize`: every property falls back, through `||`, to a default. */
  function InitializeRecord(input: Json): (r: Json)
    ensures Get(r, "success") == JBool(true)
    ensures Get(r, "center") == Or(Get(input, "center"), JArr([JNum(-74.5), JNum(40.0)]))
    ensures Get(r, "zoom") == Or(Get(input, "zoom"), JNum(9.0))
    ensures Get(r, "style") == Or(Get(input, "style"), JStr(DefaultStyle))
  {
    var fields := [("center", Or(Get(input, "center"), JArr([JNum(-74.5), JNum(40.0)]))),
                   ("zoom", Or(Get(input, "zoom"), JNum(9.0))),
                   ("style", Or(Get(input, "style"), JStr(DefaultStyle))),
                   ("success", JBool(true))];
    LookupFindsLast(fields, 0, "center");
    LookupFindsLast(fields, 1, "zoom");
    LookupFindsLast(fields, 2, "style");
    LookupFindsLast(fields, 3, "success");
    JObj(fields)
  }

  /**
   * A record that echoes some properties of `input` and then claims success; `extra`
   * fields follow the flag (the cases without such fields pass `[]`).
   */
  function EchoRecord(input: Json, echoed: seq<string>, fixed: seq<(string, Json)>, extra: seq<(string, Json)>): (r: Json)
    requires forall i :: 0 <= i < |extra| ==> extra[i].0 != "success"
    ensures Get(r, "success") == JBool(true)
    ensures forall i :: 0 <= i < |echoed| ==> (echoed[i], Get(input, echoed[i])) in r.fields
  {
    var fields := Echo(input, echoed) + fixed + [("success", JBool(true))] + extra;
    LookupFindsLast(fields, |Echo(input, echoed) + fixed|, "success");
    JObj(fields)
  }

  /**
   * Reading an echoed property back from the record gives the input's value, for a
   * key echoed once and not overwritten by a later field.
   */
  lemma EchoRecordReadsBack(input: Json, echoed: seq<string>, fixed: seq<(string, Json)>, extra: seq<(string, Json)>, i: int)
    requires forall k :: 0 <= k < |extra| ==> extra[k].0 != "success"
    requires 0 <= i < |echoed| && echoed[i] != "success"
    requires forall k :: i < k < |echoed| ==> echoed[k] != echoed[i]
    requires forall k :: 0 <= k < |fixed| ==> fixed[k].0 != echoed[i]
    requires forall k :: 0 <= k < |extra| ==> extra[k].0 != echoed[i]
    ensures Get(EchoRecord(input, echoed, fixed, extra), echoed[i]) == Get(input, echoed[i])
  {
    var fields := Echo(input, echoed) + fixed + [("success", JBool(true))] + extra;
    LookupFindsLast(fields, i, echoed[i]);
  }

  function Echo(input: Json, keys: seq<string>): (fields: seq<(string, Json)>)
    ensures |fields| == |keys|
    ensures forall i :: 0 <= i < |keys| ==> fields[i] == (keys[i], Get(input, keys[i]))
  {
    if keys == [] then [] else [(keys[0], Get(input, keys[0]))] + Echo(input, keys[1..])
  }

  /** `map_search`: echoes the query and names a location whose zoom falls back, through `||`, to 12. */
  function SearchRecord(input: Json): (r: Json)
    ensures Get(r, "success") == JBool(true) && Get(r, "query") == Get(input, "query")
    ensures Get(Get(r, "location"), "name") == Get(input, "query")
    ensures Get(Get(r, "location"), "zoom") == Or(Get(input, "zoom"), JNum(12.0))
  {
    var location := [("name", Get(input, "query")), ("zoom", Or(Get(input, "zoom"), JNum(12.0)))];
    var fields := [("query", Get(input, "query")), ("success", JBool(true)), ("location", JObj(location))];
    LookupFindsLast(location, 0, "name");
    LookupFindsLast(fields, 0, "query");
    LookupFindsLast(fields, 1, "success");
    JObj(fields)
  }

  /** `map_add_polygon`: `style` defaults to `{}`, and only an explicit `false` turns `animate` off. */
  function PolygonRecord(input: Json): (r: Json)
    ensures Get(r, "success") == JBool(true)
    ensures Get(r, "style") == Or(Get(input, "style"), JObj([]))
    ensures Get(r, "animate") == JBool(Get(input, "animate") != JBool(false))
  {
    var fields := [("query", Get(input, "query")), ("style", Or(Get(input, "style"), JObj([]))),
                   ("animate", JBool(Get(input, "animate") != JBool(false))), ("success", JBool(true)),
                   ("message", JStr("Polygon tool called for \"" + JsText(Get(input, "query")) + "\" - processing will be handled by frontend"))];
    LookupFindsLast(fields, 1, "style");
    LookupFindsLast(fields, 2, "animate");
    LookupFindsLast(fields, 3, "success");
    JObj(fields)
  }

  /** `map_clear_layers`: only an explicit `false` withholds confirmation. */
  function ClearRecord(input: Json): (r: Json)
    ensures Get(r, "success") == JBool(true)
    ensures Get(r, "confirm") == JBool(Get(input, "confirm") != JBool(false))
  {
    var fields := [("confirm", JBool(Get(input, "confirm") != JBool(false))), ("success", JBool(true)),
                   ("message", JStr("Map layer clearing initiated"))];
    LookupFindsLast(fields, 0, "confirm");
    LookupFindsLast(fields, 1, "success");
    JObj(fields)
  }

  /** `map_get_bounds`: `format` and `padding` fall back, through `||`, to 'bbox' and 0. */
  function BoundsRecord(input: Json): (r: Json)
    ensures Get(r, "success") == JBool(true)
    ensures Get(r, "format") == Or(Get(input, "format"), JStr("bbox"))
    ensures Get(r, "padding") == Or(Get(input, "padding"), JNum(0.0))
  {
    var fields := [("format", Or(Get(input, "format"), JStr("bbox"))), ("padding", Or(Get(input, "padding"), JNum(0.0))),
                   ("success", JBool(true)),
                   ("message", JStr("Map bounds retrieval initiated - will be processed by frontend"))];
    LookupFindsLast(fields, 0, "format");
    LookupFindsLast(fields, 1, "padding");
    LookupFindsLast(fields, 2, "success");
    JObj(fields)
  }

  /** The result record of each case, for an `input` whose properties can be read. */
  function CaseRecord(name: string, input: Json): (r: Json)
    requires name in SwitchCases && !IsNullish(input)
    ensures Get(r, "success") == JBool(true)
  {
    if name == "map_initialize" then InitializeRecord(input)
    else if name == "map_move" then EchoRecord(input, ["center", "zoom"], [], [])
    else if name == "map_add_layer" then EchoRecord(input, ["id", "type"], [], [])
    else if name == "map_remove_layer" then EchoRecord(input, ["id"], [], [])
    else if name == "map_get_features" then EchoRecord(input, ["point"], [("features", JArr([]))], [])
    else if name == "map_search" then SearchRecord(input)
    else if name == "map_get_bounds" then BoundsRecord(input)
    else if name == "arcgis_parcel_search" then
      EchoRecord(input, ["apn", "county"], [],
                 [("parcel", MockParcel(input)), ("center", JArr([JNum(-111.99), JNum(33.46)])), ("zoom", JNum(16.0))])
    else if name == "map_add_polygon" then PolygonRecord(input)
    else ClearRecord(input)
  }

  /**
   * The `/invoke` switch on a found tool's name. A missing `input` makes the first
   * property read throw; two cases catch that and report it in their record.
   */
  function ToolOutcome(name: string, input: Json): (o: Outcome)
    ensures o.Unimplemented? <==> name !in SwitchCases
    ensures o.Threw? <==> name in RethrowingCases && IsNullish(input)
    ensures o.Threw? ==> o.message == ReadError(input, FirstRead(name))
    ensures name in SwitchCases && !IsNullish(input) ==> o == Produced(CaseRecord(name, input))
    ensures name in SwitchCases - RethrowingCases && IsNullish(input) ==>
      o == Produced(Failed(ReadError(input, FirstRead(name))))
    ensures o.Produced? ==> Get(o.result, "success") == JBool(!IsNullish(input))
  {
    if name !in SwitchCases then Unimplemented
    else if !IsNullish(input) then Produced(CaseRecord(name, input))
    else if name in RethrowingCases then Threw(ReadError(input, FirstRead(name)))
    else
      var r := Failed(ReadError(input, FirstRead(name)));
      LookupFindsLast(r.fields, 0, "success");
      Produced(r)
  }

  function ErrorBody(message: string): Json
  {
    JObj([("error", JStr(message))])
  }

  /**
   * `POST /invoke`: destructure `{name, input}` from the body, look the name up in the
   * catalog (404 when absent), run the switch (200 with `{result}`), and turn anything
   * thrown into a 500 carrying the error's message. Every catalog tool has a case,
   * so it answers 200, 404 or 500, never 501, and 404 exactly for a name outside
   * the catalog.
   */
  function Invoke(body: Result<Json, Fault>): (reply: HttpReply)
    ensures reply.status in {200, 404, 500}
    ensures reply.status == 404 <==>
      body.Success? && !IsNullish(body.value) && !(Get(body.value, "name").JStr? && Get(body.value, "name").s in CatalogToolNames)
  {
    CatalogNames();
    InvokeInStatus(MapboxTools, body);
    InvokeIn(MapboxTools, body)
  }

  /** `/invoke` over a given tool list. */
  function InvokeIn(tools: seq<Tool>, body: Result<Json, Fault>): (reply: HttpReply)
    ensures body.Failure? ==> reply == HttpReply(500, ErrorBody(FaultText(body.error)))
    ensures body.Success? && IsNullish(body.value) ==>
      reply == HttpReply(500, ErrorBody(DestructureError(body.value, "name", "(intermediate value)")))
    ensures body.Success? && !IsNullish(body.value) && FindTool(tools, Get(body.value, "name")).None? ==>
      reply == HttpReply(404, ErrorBody("Tool '" + JsText(Get(body.value, "name")) + "' not found"))
    ensures body.Success? && !IsNullish(body.value) && FindTool(tools, Get(body.value, "name")).Some? ==>
      reply == RunTool(FindTool(tools, Get(body.value, "name")).value.name, Get(body.value, "input"))
  {
    match body
    case Failure(f) => HttpReply(500, ErrorBody(FaultText(f)))
    case Success(b) =>
      if IsNullish(b) then HttpReply(500, ErrorBody(DestructureError(b, "name", "(intermediate value)")))
      else if FindTool(tools, Get(b, "name")).None? then
        HttpReply(404, ErrorBody("Tool '" + JsText(Get(b, "name")) + "' not found"))
      else RunTool(FindTool(tools, Get(b, "name")).value.name, Get(b, "input"))
  }

  /** The switch's outcome as a reply: the record, the thrown message, or 501. */
  function RunTool(name: string, input: Json): (reply: HttpReply)
    ensures reply.status == 501 <==> name !in SwitchCases
    ensures reply.status in {200, 500, 501}
  {
    match ToolOutcome(name, input)
    case Produced(result) => HttpReply(200, JObj([("result", result)]))
    case Threw(message) => HttpReply(500, ErrorBody(message))
    case Unimplemented => HttpReply(501, ErrorBody("Tool '" + name + "' has no implementation"))
  }

  /** Names that are switch cases: every catalog name is one. */
  lemma CatalogNamesAreCases()
    ensures forall n :: n in CatalogToolNames ==> n in SwitchCases
  {
  }

  /**
   * The statuses of `/invoke` over a list whose names are the catalog's: every listed
   * tool has a case, so the 501 branch is dead, and 404 means exactly an unlisted name.
   */
  lemma InvokeInStatus(tools: seq<Tool>, body: Result<Json, Fault>)
    requires Names(tools) == CatalogToolNames
    ensures InvokeIn(tools, body).status in {200, 404, 500}
    ensures InvokeIn(tools, body).status == 404 <==>
      body.Success? && !IsNullish(body.value) && !(Get(body.value, "name").JStr? && Get(body.value, "name").s in CatalogToolNames)
    ensures InvokeIn(tools, body).status == 200 ==>
      var name := Get(body.value, "name");
      && body.Success? && name.JStr? && name.s in CatalogToolNames
      && InvokeIn(tools, body).body == JObj([("result", ToolOutcome(name.s, Get(body.value, "input")).result)])
  {
    if body.Success? && !IsNullish(body.value) {
      var name := Get(body.value, "name");
      FindByName(tools, name);
      CatalogNamesAreCases();
    }
  }

  /** `arcgis_parcel_search` and `map_clear_layers` have cases but no catalog entry: both answer 404. */
  lemma UncataloguedCasesAreUnreachable(body: Json)
    requires !IsNullish(body)
    requires Get(body, "name") in {JStr("arcgis_parcel_search"), JStr("map_clear_layers")}
    ensures Invoke(Success(body)).status == 404
  {
    assert "arcgis_parcel_search" !in CatalogToolNames && "map_clear_layers" !in CatalogToolNames;
  }

  /** `input.zoom || 9` treats zoom 0 as missing, like every `||` default of `map_initialize`. */
  lemma InitializeDefaults(input: Json)
    requires !IsNullish(input)
    ensures var r := CaseRecord("map_initialize", input);
      && Get(r, "zoom") == (if Truthy(Get(input, "zoom")) then Get(input, "zoom") else JNum(9.0))
      && Get(r, "center") == (if Truthy(Get(input, "center")) then Get(input, "center") else JArr([JNum(-74.5), JNum(40.0)]))
      && Get(r, "style") == (if Truthy(Get(input, "style")) then Get(input, "style") else JStr(DefaultStyle))
    ensures Get(input, "zoom") == JNum(0.0) ==> Get(CaseRecord("map_initialize", input), "zoom") == JNum(9.0)
  {
  }

  /** `input.zoom || 12`: the searched location's zoom is the input's when truthy, so a zoom of 0 becomes 12. */
  lemma SearchZoomDefault(input: Json)
    requires !IsNullish(input)
    ensures var location := Get(CaseRecord("map_search", input), "location");
      && Get(location, "zoom") == (if Truthy(Get(input, "zoom")) then Get(input, "zoom") else JNum(12.0))
      && Get(location, "name") == Get(input, "query")
    ensures Get(input, "zoom") == JNum(0.0) ==> Get(Get(CaseRecord("map_search", input), "location"), "zoom") == JNum(12.0)
  {
    assert CaseRecord("map_search", input) == SearchRecord(input);
  }

  /** Only an explicit `false` turns off `animate` and `confirm`. */
  lemma FlagsDefaultToTrue(input: Json)
    requires !IsNullish(input)
    ensures Get(CaseRecord("map_add_polygon", input), "animate") == JBool(Get(input, "animate") != JBool(false))
    ensures Get(CaseRecord("map_clear_layers", input), "confirm") == JBool(Get(input, "confirm") != JBool(false))
  {
    assert CaseRecord("map_add_polygon", input) == PolygonRecord(input);
    assert CaseRecord("map_clear_layers", input) == ClearRecord(input);
  }

  /** A missing `input` to `map_get_bounds` still answers 200, with a failure record. */
  lemma GetBoundsWithoutInput(body: Json)
    requires !IsNullish(body) && Get(body, "name") == JStr("map_get_bounds") && IsNullish(Get(body, "input"))
    ensures Invoke(Success(body)) ==
      HttpReply(200, JObj([("result", Failed(ReadError(Get(body, "input"), "format")))]))
  {
    CatalogNames();
    GetBoundsWithoutInputIn(MapboxTools, body);
  }

  lemma GetBoundsWithoutInputIn(tools: seq<Tool>, body: Json)
    requires Names(tools) == CatalogToolNames
    requires !IsNullish(body) && Get(body, "name") == JStr("map_get_bounds") && IsNullish(Get(body, "input"))
    ensures InvokeIn(tools, Success(body)) ==
      HttpReply(200, JObj([("result", Failed(ReadError(Get(body, "input"), "format")))]))
  {
    FindByName(tools, Get(body, "name"));
    assert "map_get_bounds" in Names(tools);
    GetBoundsRunsWithoutInput(Get(body, "input"));
  }

  /** The `map_get_bounds` case reports a missing input in its record instead of throwing. */
  lemma GetBoundsRunsWithoutInput(input: Json)
    requires IsNullish(input)
    ensures RunTool("map_get_bounds", input) == HttpReply(200, JObj([("result", Failed(ReadError(input, "format")))]))
  {
    assert FirstRead("map_get_bounds") == "format";
    assert "map_get_bounds" in SwitchCases && "map_get_bounds" !in RethrowingCases;
  }

  // ------------------------------------------------------------ chat routes

  const ChatFailureMessage := "Failed to process chat request. Check server logs for details."
  const ToolResultsFailureMessage := "Failed to process tool results. Check server logs for details."

  /** The body of a failed chat or tool-results request. */
  datatype ErrorEnvelope = ErrorEnvelope(id: string, message: string, error: string)

  datatype ApiReply = Answer(response: McpResponse) | Refused(status: nat, envelope: ErrorEnvelope)

  /** Anything thrown while answering becomes a 500 with the placeholder id 'error_id'. */
  function FailureReply(message: string, f: Fault): (r: ApiReply)
    ensures r.Refused? && r.status == 500
    ensures r.envelope == ErrorEnvelope("error_id", message, FaultText(f))
  {
    Refused(500, ErrorEnvelope("error_id", message, FaultText(f)))
  }

  function ReplyOf(message: string, r: Result<McpResponse, Fault>): (reply: ApiReply)
    ensures r.Success? ==> reply == Answer(r.value)
    ensures r.Failure? ==> reply == FailureReply(message, r.error)
  {
    match r
    case Success(response) => Answer(response)
    case Failure(f) => FailureReply(message, f)
  }

  /** The server key as a condition: set and not empty. */
  predicate HasKey(key: Option<string>)
  {
    key.Some? && key.value != ""
  }

  /**
   * `POST /api/mcp/chat`: a server over the catalog answers the request; any fault,
   * from parsing the body to the provider call, becomes the chat failure envelope.
   */
  method Chat(body: Result<McpRequest, Fault>, anthropicKey: Option<string>,
              openai: OpenAICall -> Result<Completion, Fault>,
              claude: ClaudeCall -> Result<seq<ContentBlock>, Fault>,
              parse: string -> Result<Json, Fault>)
    returns (reply: ApiReply)
    ensures body.Failure? ==> reply == FailureReply(ChatFailureMessage, body.error)
    ensures reply.Answer? ==> body.Success? && reply.response.id == body.value.id && reply.response.toolCalls.Some?
    ensures reply.Refused? ==> reply.status == 500 && reply.envelope.id == "error_id" && reply.envelope.message == ChatFailureMessage
    ensures body.Success? && IsClaude(body.value.model) && !HasKey(anthropicKey) ==>
      reply == FailureReply(ChatFailureMessage, ErrorFault(MissingClaudeKey))
    ensures body.Success? && IsClaude(body.value.model) && HasKey(anthropicKey) ==>
      var request := body.value;
      match claude(ClaudeCall(request.model.value, ClaudeMaxTokens, request.message, ClaudeTools(ToolsFor(request, MapboxTools))))
      case Success(content) => reply == Answer(ClaudeResponse(request.id, content))
      case Failure(f) => reply == FailureReply(ChatFailureMessage, f)
    ensures body.Success? && !IsClaude(body.value.model) ==>
      var request := body.value;
      match openai(OpenAICall(ModelOr(request.model, DefaultOpenAIModel), [Guidance, UserMessage(request.message)],
                              Some(OpenAITools(ToolsFor(request, MapboxTools)))))
      case Success(c) => reply == ReplyOf(ChatFailureMessage, OpenAIResponse(request.id, c, parse))
      case Failure(f) => reply == FailureReply(ChatFailureMessage, f)
  {
    if body.Failure? {
      return FailureReply(ChatFailureMessage, body.error);
    }
    var server := new MCPServer(anthropicKey, MapboxTools);
    var response := server.ProcessRequest(body.value, openai, claude, parse);
    reply := ReplyOf(ChatFailureMessage, response);
  }

  /** The body of `POST /api/mcp/tool-results`. */
  datatype ToolResultsRequest = ToolResultsRequest(requestId: string, results: seq<ToolResult>, originalMessage: string, model: Option<string>)

  /**
   * `POST /api/mcp/tool-results`: a server without tools reports the results; any
   * fault becomes the tool-results failure envelope.
   */
  method ToolResults(body: Result<ToolResultsRequest, Fault>, anthropicKey: Option<string>,
                     openai: OpenAICall -> Result<Completion, Fault>, stringify: Json -> string)
    returns (reply: ApiReply)
    ensures body.Failure? ==> reply == FailureReply(ToolResultsFailureMessage, body.error)
    ensures reply.Answer? ==> body.Success? && reply.response.id == body.value.requestId && reply.response.toolCalls.None?
    ensures reply.Refused? ==> reply.status == 500 && reply.envelope.id == "error_id" && reply.envelope.message == ToolResultsFailureMessage
    ensures body.Success? && IsClaude(body.value.model) && !HasKey(anthropicKey) ==>
      reply == FailureReply(ToolResultsFailureMessage, ErrorFault(MissingClaudeKey))
    ensures body.Success? && IsClaude(body.value.model) && HasKey(anthropicKey) ==>
      var b := body.value;
      reply == Answer(McpResponse(b.requestId, SummaryHeader(b.originalMessage) + SummaryLines(b.results, stringify), None))
    ensures body.Success? && !IsClaude(body.value.model) ==>
      var b := body.value;
      match openai(OpenAICall(ModelOr(b.model, DefaultOpenAIModel), FollowUpMessages(b.originalMessage, b.results, stringify), None))
      case Success(c) => reply == Answer(McpResponse(b.requestId, FirstContent(c), None))
      case Failure(f) => reply == FailureReply(ToolResultsFailureMessage, f)
  {
    if body.Failure? {
      return FailureReply(ToolResultsFailureMessage, body.error);
    }
    var b := body.value;
    var server := new MCPServer(anthropicKey, []);
    var response := server.ProcessToolResults(b.requestId, b.results, b.originalMessage, b.model, openai, stringify);
    reply := ReplyOf(ToolResultsFailureMessage, response);
  }
}
