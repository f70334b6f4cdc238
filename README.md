# Mapbox MCP demo — a Dafny model of its core

The system is a chat-driven map. A browser client draws a Mapbox map. A relay
server forwards the user's message and a catalog of map tools to a language
model (OpenAI, or Anthropic when the model name contains "claude"). The client
runs each tool call the model proposes against the map and sends the results
back for a follow-up answer. The parcel and lead layers come from a backend
that is queried by bounding box, radius or point. Before each query the client
throttles it by the map's zoom level and by the size of the area or radius.

This project models that core.

- `throttle.dfy` (module `Throttle`): the client's throttling tables. These are
  `getFeatureLimit`, `maxArea`, `getRadiusFeatureLimit`, `maxRadius` and the
  point-query zoom gate. They combine into the decisions: refuse for zoom,
  refuse for size, or query with a cap. The module also holds the 4×-view
  fallback for a large box, the `isLimited` tally and the records the three
  query handlers return.
- `viewport.dfy` (module `Viewport`): `handleMapGetBounds`, covering its three
  output shapes, the closed GeoJSON ring, the padding and the width/height.
- `mapclient.dfy` (module `MapClient`): the map's layer and source registry as
  a class `Map` whose methods change it in place. The methods are
  `handleMapAddLayer`, `handleMapRemoveLayer`, `clearArcGISLayers`,
  `handleMapClearLayers`, the three query handlers with their drawing and
  clean-up, and `processToolCalls`, which answers every call with one
  `{id, output | error}` entry. Each handler's effect is a predicate relating the
  registry before, the outcome and the registry after (`AddLayerStep`,
  `BboxQueryStep`, ...). `DispatchStep` combines them for one call, and
  `ProcessToolCalls` states it for every call of a batch, over a trace of
  registries.
- `mcpserver.dfy` (module `McpServer`): the class `MCPServer`. It covers
  provider routing, the tool-format mappings, parsing the model's tool calls,
  the follow-up message list for OpenAI and the summary text for Claude.
- `routes.dfy` (module `Routes`): the relay's `/invoke` endpoint, with its
  lookup, its switch, its 404/500/501 answers and each case's record. It also
  covers the error envelopes of `/api/mcp/chat` and `/api/mcp/tool-results`.
- `catalog.dfy` (module `Catalog`): the eight-tool catalog transcribed as data,
  and the `find` lookup over it.
- `jsvalues.dfy`, `mcptypes.dfy`, `wrappers.dfy`: JavaScript values and their
  semantics, the message shapes, and `Option`/`Result`.
  - The JavaScript semantics covered are property reads, truthiness for `||`,
    destructuring defaults, the V8 error texts, template text and `includes`.

Everything outside the program becomes a parameter of the member that uses it:

- the provider SDK calls (`openai`, `claude`);
- `fetch` to the backend;
- `JSON.parse` and `JSON.stringify` (`parse`, `stringify`);
- `Date.now()` (`stamp`, or `clock(i)` for the i-th call of a batch);
- the map's camera (zoom and view) as each call reads it;
- the handlers of the twelve tools the model does not cover (`others`). They get
  the registry and give back the one they leave, since most of them draw on the
  map or replace it;
- the circle polygon built by the geometry library (`circle`);
- the pixel-to-degree conversion (`degreesPerPixel`).

A thrown exception becomes a `Failure`/`Fault` value. The model exposes it
where the source's `catch` turns it into a message or a status code.

Anthropic client: the constructor installs a stand-in whose replies have empty
content. `McpServer.StubClaude` models it, and `McpServer.StubClaudeAnswersNothing`
states the consequence. The methods still take the Anthropic call as a
parameter, so their contracts hold for any client.

## Model

| member | source | states |
|---|---|---|
| Throttle.Area | public/app.js:1347 | the rough box area is non-negative, and zero exactly for a degenerate box |
| Throttle.FeatureLimit | public/app.js:1350-1368 | the bounding-box cap is at most 10000 (5000 for layers other than parcels/leads), and is 0 exactly below the layer's minimum zoom |
| Throttle.FeatureLimitMonotone | public/app.js:1350-1368 | zooming in never lowers the cap |
| Throttle.ZoomHintMisleadsForLeads | public/app.js:1372-1382 | as written, the refusal names level 8 for 'leads', yet at zoom 9 the 'leads' cap is still 0 (real minimum 10) |
| Throttle.MinZoomIsExact | public/app.js:1350-1382 | the corrected hint is exact: the cap is positive at `MinZoom` and 0 at every lower zoom |
| Throttle.AllowedArea | public/app.js:1385-1404 | each layer's area allowance lies in (0, 1], and unknown layers get the default 1.0 |
| Throttle.PlanBbox | public/app.js:1347-1420 | refuse for zoom iff the cap is 0; refuse for area iff the cap is positive and the area exceeds the allowance; otherwise query with the cap, using the view when the request exceeds four views; an issued box never exceeds the allowance nor four views |
| Throttle.TallyOf | public/app.js:1447-1454 | the feature count is the reply's feature array length on success; it is positive iff the handler draws; `isLimited` iff the count reaches the cap |
| Throttle.ResultMessage | public/app.js:1521-1524 | the backend's message or the fallback, with the "limited to" suffix exactly when limited |
| Throttle.BboxRefusal | public/app.js:1372-1404 | a refusal reports no success and no features, and carries the zoom or area flag matching the plan, with the requested box |
| Throttle.BboxResultOf | public/app.js:1447-1454 | after a reply: the queried box, the cap, the reply's success, its feature count, and `isLimited` iff count >= cap |
| Throttle.RadiusFeatureLimit | public/app.js:1560-1573 | the radius cap is at most 5000, is 0 exactly for ownerindex below 10 and koordinates below 8, and is 1000 for every other layer |
| Throttle.RadiusFeatureLimitMonotone | public/app.js:1560-1573 | zooming in never lowers the radius cap |
| Throttle.RadiusZoomHintIsExact | public/app.js:1577-1587 | the radius refusal's level is above the current zoom and is a level where the cap is positive |
| Throttle.AllowedRadius | public/app.js:1590-1607 | the radius allowance lies between 5 km and 100 km, and is 50 km for unlisted layers |
| Throttle.AllowedRadiusMonotone | public/app.js:1590-1607 | zooming in never shrinks the radius allowance |
| Throttle.PlanRadius | public/app.js:1545-1607 | refuse for zoom iff the radius cap is 0; refuse for size iff the radius (default 1000 m) exceeds the allowance; otherwise query that radius with the cap |
| Throttle.RadiusRefusal | public/app.js:1577-1607 | a radius refusal reports no success and no features, with the flag matching the plan |
| Throttle.RadiusResultOf | public/app.js:1644-1650 | after a reply: the cap, the reply's success, its feature count, and `isLimited` iff count >= cap |
| Throttle.PointRefused | public/app.js:1869-1880 | only 'parcels' is refused; for parcels, refusal is exactly a bounding-box cap below 2000 (zoom < 12) |
| Throttle.PointResultOf | public/app.js:1948-1998 | the point result carries the reply's success and its feature count |
| Throttle.HasFeatures | public/app.js:1451 | the handlers draw only a successful reply whose `data.features` is a non-empty array; such a reply has truthy `data` and `data.features` |
| Throttle.RadiusOrDefault | public/app.js:1553 | the `radius = 1000` default: the input's radius when given, 1000 m when undefined |
| Throttle.BboxRefusalJson | public/app.js:1372-1404 | the refusal object: `success: false`, `featureCount: 0`, the layer, the input's `bounds` as given, the message and exactly one of `zoomRequired`/`areaTooLarge` |
| Throttle.BboxResultJson | public/app.js:1526-1536 | the result object: the reply's success, the layer, the queried `bounds` as passed, the feature count, the message, `currentZoom` written with one decimal, and no refusal flag |
| Throttle.BboxJson | public/app.js:1372-1536 | the object the bounding-box handler returns for any report, with flags and `currentZoom` only where the source sets them |
| Throttle.RadiusRefusalJson | public/app.js:1577-1607 | the radius refusal object, echoing the input's `center` array as given and the defaulted `radius`, with exactly one of `zoomRequired`/`radiusTooLarge` |
| Throttle.RadiusResultJson | public/app.js:1742-1752 | the radius result object, echoing the input's `center` array as given and the defaulted `radius`, with `currentZoom` |
| Throttle.RadiusJson | public/app.js:1577-1752 | the object the radius handler returns for any report |
| Throttle.PointRefusalJson | public/app.js:1869-1880 | the point refusal object, echoing the input's `point` array as given and `county`, with `zoomRequired: true` |
| Throttle.PointResultJson | public/app.js:1989-1998 | the point result object, echoing the input's `point` array as given and `county`, with `currentZoom` |
| Throttle.PointJson | public/app.js:1869-1998 | the object the point handler returns for any report |
| JsValues.ToFixed1Reads | public/app.js:1534 | `currentZoom.toFixed(1)` for a non-negative zoom is digits, a point and one digit, denoting the tenths nearest to the zoom, within 0.05 |
| JsValues.Contains | public/app.js:2158-2168 | `includes`: a match implies the part is no longer than the whole |
| JsValues.ContainsIff | public/app.js:2158-2168 | `includes` holds exactly when some window of the string equals the part |
| JsValues.PrefixBefore | src/services/mcp-server.ts:200 | `split(':')[0]`: a prefix of the id, free of ':', followed by ':' unless it is the whole id |
| JsValues.PrefixBeforeUnique | src/services/mcp-server.ts:200 | those three properties determine the part before the first ':' |
| Viewport.Ring | public/app.js:624-630 | the GeoJSON ring has five corners, is closed, and every edge is axis-aligned |
| Viewport.RingRoundTrip | public/app.js:624-630 | the box can be read back from its ring |
| Viewport.Pad | public/app.js:585-597 | padding widens the box by the same amount on every side |
| Viewport.GetBounds | public/app.js:568-668 | the reported box is the view padded by `padding` pixels when that is positive (`AdjustedBounds`): 'bbox' (also the default for undefined) gives its W/S/E/N array, 'geojson' its ring, any other value its W/S/E/N object; width and height of that box; the center and zoom as read; padding defaults to 0 only when undefined; the message names the format |
| Viewport.GeoJsonShapeIsClosedRing | public/app.js:602-662 | the 'geojson' answer is exactly the ring of the adjusted view: closed, five points, the box reads back from it, and its edges measure the reported width and height |
| MapClient.SourceArgOf | public/app.js:389 | a source is inline exactly when it is an object with a truthy `type`, and missing (so `source.type` throws) exactly when nullish |
| MapClient.ClearLeavesNothingClearable | public/app.js:2158-2170 | after a clear nothing clearable remains, and exactly the non-clearable ids survive |
| MapClient.Envelope | public/app.js:240-250 | a call's entry carries its id, and an output exactly when the handler returned, an error exactly when it threw; the outcome can be read back from the entry |
| MapClient.PerformanceInfo | public/app.js:2198-2214 | the layer count, the source count and the count of layers whose id contains 'arcgis-' |
| MapClient.ClearedReply | public/app.js:2237-2243 | the confirmed-clear reply reports success, the counts before clearing and the numbers removed |
| MapClient.Cleaned | public/app.js:1457-1466 | the query handlers' clean-up keeps exactly the layers and sources whose id lacks the marker, unchanged |
| MapClient.AddLayerChangesOnlyItsIds | public/app.js:375-433 | after a successful add the layer exists with its type (and an inline source's `id-source` exists and is its source); it fails exactly without a map or with a nullish source; no other layer or source id changes |
| MapClient.RemoveLayerChangesOnlyItsIds | public/app.js:435-466 | removing drops the layer and, when the layer was present, its `id-source`; an absent id changes nothing; every other id is kept unchanged |
| MapClient.BboxQueryKeepsOtherDrawings | public/app.js:1455-1501 | a bounding-box query keeps every layer and source whose id does not contain `arcgis-<layer>-` |
| MapClient.BboxQueryStepIsDeterministic | public/app.js:1331-1542 | the bounding-box step has exactly one outcome for its inputs |
| MapClient.RadiusQueryStepIsDeterministic | public/app.js:1545-1758 | the radius step has exactly one outcome for its inputs |
| MapClient.PointQueryStepIsDeterministic | public/app.js:1857-2005 | the point step has exactly one outcome for its inputs |
| MapClient.DispatchStepIsDeterministic | public/app.js:180-238 | each call has exactly one outcome and one resulting registry |
| MapClient.OthersAreTheUnmodelledTools | public/app.js:180-238 | a known tool outside the six modelled handlers does exactly what `others` says |
| MapClient.UnknownToolChangesNothing | public/app.js:236-237 | an unknown name fails with "Unknown tool: <name>" and leaves the registry as it was |
| MapClient.NumbersOf | public/app.js:1340 | the leading numbers of an array when there are enough of them; otherwise no list of that length matches |
| MapClient.BboxInputOf | public/app.js:1339-1340 | the layer, county and four box numbers read from the input, when the layer is a string and the box starts with four numbers; the `bounds` array itself is kept as given |
| MapClient.RadiusInputOf | public/app.js:1553-1554 | the layer, centre numbers, radius (absent exactly when undefined) and koordinates layer read from the input; the `center` array itself is kept as given |
| MapClient.PointInputOf | public/app.js:1865-1866 | the layer, point numbers, county and koordinates layer read from the input; the `point` array itself is kept as given |
| MapClient.Map.constructor | public/app.js:375-380 | a map with the given layers and sources, existing or not |
| MapClient.Map.RemoveLayers | public/app.js:2174-2178 | removes exactly the listed layers still present, and nothing else |
| MapClient.Map.RemoveSources | public/app.js:2180-2184 | removes exactly the listed sources still present, and nothing else |
| MapClient.Map.RemoveMarked | public/app.js:1457-1466 | leaves exactly the registry `Cleaned` describes |
| MapClient.Map.AddLayer | public/app.js:375-433 | `AddLayerStep`: without a map, fails; a nullish source throws after the old layer is gone; an inline source replaces `id-source` and the layer points at it; a string source is used by id; any other value is passed as is |
| MapClient.Map.RemoveLayer | public/app.js:435-466 | `RemoveLayerStep`: without a map, fails; an absent layer answers "not found" and changes nothing; a present one is removed together with `id-source` |
| MapClient.Map.ClearArcGISLayers | public/app.js:2154-2195 | removes exactly the ids containing 'arcgis-', 'polygon-', 'parcel-' or 'lead-', counts them, and leaves no such id; nothing without a map |
| MapClient.Map.ClearLayers | public/app.js:2217-2248 | `ClearLayersStep`: without a map or input, fails; a falsy `confirm` (default true) cancels with no change; otherwise clears and reports the counts from before and the numbers removed |
| MapClient.QueryBoundsStartWithPlan | public/app.js:1406-1422 | the `bounds` a query posts and echoes (the input array, or the view's box) starts with the numbers of the planned box |
| MapClient.Map.BboxQuery | public/app.js:1331-1542 | `BboxQueryStep`: a refusal issues no request, changes nothing and returns the refusal object echoing the input array; each failure gives its message; a reply with features replaces the layer's earlier drawings with one source and three layers; the request and the object carry `queryBounds` (the input array as given, or the view's box), and the object is `BboxJson` of `BboxResultOf` over the planned box and cap |
| MapClient.Map.RadiusQuery | public/app.js:1545-1758 | `RadiusQueryStep`: a refusal changes nothing; the request and the object carry the input's `center` array as given, the drawings its first two numbers; after any reply the layer's earlier radius drawings are replaced by the circle, the centre and, with features, the data |
| MapClient.Map.PointQuery | public/app.js:1857-2005 | `PointQueryStep`: the parcel zoom gate refuses with no change; the request and the object carry the input's `point` array as given, the marker its first two numbers; after any reply the earlier point drawings are replaced by the marker and, with features, the data |
| MapClient.Map.Dispatch | public/app.js:180-238 | `DispatchStep`: the three registry tools and the three queries run their handlers (a query first needs the map); the other known tools, and query inputs of another shape, do what `others` does to the registry; an unknown name fails with no change |
| MapClient.Map.RunOther | public/app.js:180-238 | installs exactly the registry and outcome that `others` gives |
| MapClient.Map.ProcessToolCalls | public/app.js:175-251 | one entry per call, in order, with the call's id and an output or an error, never both; a trace of registries from the old one to the new one in which call i takes `trace[i]` to `trace[i+1]` as `DispatchStep` says, with the entry's outcome; unknown tools get the "Unknown tool" error and change nothing |
| McpServer.IsClaude | src/services/mcp-server.ts:40 | the Claude route is taken exactly when the model name has "claude" at some position |
| McpServer.ModelOr | src/services/mcp-server.ts:97-103 | a non-empty model name is used, otherwise the default |
| McpServer.ClaudeModelIsNeverDefaulted | src/services/mcp-server.ts:142-147 | a model routed to Claude names itself, so the Claude default never applies |
| McpServer.ToolsFor | src/services/mcp-server.ts:38 | a request's own tool list, even an empty one, replaces the server's |
| McpServer.OpenAITools | src/services/mcp-server.ts:55-62 | the OpenAI form keeps each tool's name, description and schema, in order |
| McpServer.OpenAIToolsRoundTrip | src/services/mcp-server.ts:55-62 | the OpenAI form loses nothing: mapping back gives the catalog entries |
| McpServer.ClaudeTools | src/services/mcp-server.ts:136-140 | the Anthropic form keeps each tool's name, description and schema, in order |
| McpServer.ParseCalls | src/services/mcp-server.ts:108-115 | the calls parse iff every argument text parses, and then each call keeps its id, name and parsed input |
| McpServer.FirstContent | src/services/mcp-server.ts:117-121 | the first choice's text, or "" without one |
| McpServer.OpenAIResponse | src/services/mcp-server.ts:105-121 | the response carries the request id, the first text and the parsed calls (`[]` without calls), or the parse fault |
| McpServer.ToolUses | src/services/mcp-server.ts:149-161 | exactly the reply's tool_use blocks become tool calls |
| McpServer.JoinTexts | src/services/mcp-server.ts:163-166 | a reply without text blocks gives "" |
| McpServer.ExtractionSplits | src/services/mcp-server.ts:149-166 | extracting tool calls and texts distributes over a split of the reply |
| McpServer.ToolUsesSplit | src/services/mcp-server.ts:149-161 | the tool uses of a split reply are those of each part, in order |
| McpServer.JoinTextsSplit | src/services/mcp-server.ts:163-166 | the joined text of a split reply is the text of each part, concatenated |
| McpServer.ClaudeResponse | src/services/mcp-server.ts:149-171 | the Claude response carries the id, the joined texts and the tool uses |
| McpServer.StubClaudeAnswersNothing | src/services/mcp-server.ts:20-24 | with the installed stand-in client, every Claude reply is empty with no tool calls |
| McpServer.ToolContent | src/services/mcp-server.ts:218-220 | a non-empty error is reported as "Error: …", anything else as the output's JSON text |
| McpServer.FollowUpMessages | src/services/mcp-server.ts:193-223 | the follow-up list has one message plus two per result, and starts with the user's message |
| McpServer.FollowUpMessagesShape | src/services/mcp-server.ts:193-223 | the follow-up list is the user's message, then per result an assistant call (id, name before ':') answered by a tool message with that id |
| McpServer.BuildFollowUpMessages | src/services/mcp-server.ts:193-223 | the loop builds exactly the follow-up list |
| McpServer.SummaryLinesSplit | src/services/mcp-server.ts:246-252 | the summary of two batches is the summary of each, in order |
| McpServer.BuildSummary | src/services/mcp-server.ts:246-252 | the loop builds the header followed by one line per result |
| McpServer.MCPServer.constructor | src/services/mcp-server.ts:11-27 | the Anthropic client exists exactly for a non-empty key; the tools are the given list |
| McpServer.MCPServer.RegisterTool | src/services/mcp-server.ts:29-31 | appends one tool |
| McpServer.MCPServer.RegisterTools | src/services/mcp-server.ts:33-35 | appends the tools in order |
| McpServer.MCPServer.ProcessRequest | src/services/mcp-server.ts:37-173 | a 'claude' model needs the client and gets the Claude response; any other model gets the OpenAI completion over the guidance and the message, with the tools in OpenAI form; faults pass through |
| McpServer.MCPServer.ProcessToolResults | src/services/mcp-server.ts:175-274 | Claude (with a client) gets the local summary; otherwise the first text of a completion over the follow-up list; the response never carries tool calls |
| Catalog.Names | src/services/mapbox-tools.ts:13-250 | the names of a tool list, in order |
| Catalog.CatalogNames | src/services/mapbox-tools.ts:13-250 | the catalog holds the eight tools under these names, each once |
| Catalog.CatalogNamesInOrder | src/services/mapbox-tools.ts:13-250 | the catalog's tool names, in order |
| Catalog.CatalogNamesDistinct | src/services/mapbox-tools.ts:13-250 | no tool name occurs twice |
| Catalog.FindTool | src/index.ts:179-184 | `find` returns a listed tool of exactly that name, and nothing iff no tool has it |
| Catalog.FindByName | src/index.ts:179-184 | the lookup succeeds exactly for a string that is a listed name (no coercion) |
| Catalog.FindInCatalog | src/index.ts:179-184 | over the catalog: exactly the eight names are found |
| Routes.InitializeRecord | src/index.ts:190-197 | center, zoom and style fall back through `||` to their defaults, and the record claims success |
| Routes.EchoRecord | src/index.ts:198-245 | the record echoes the named properties of the input and claims success |
| Routes.EchoRecordReadsBack | src/index.ts:198-245 | a property echoed once and not overwritten reads back from the record as the input's value |
| Routes.Echo | src/index.ts:198-245 | each echoed field is the input's property of that name |
| Routes.PolygonRecord | src/index.ts:310-330 | style defaults to `{}`, and only an explicit `false` turns animation off |
| Routes.ClearRecord | src/index.ts:331-346 | only an explicit `false` withholds confirmation |
| Routes.BoundsRecord | src/index.ts:247-263 | format and padding fall back through `||` to 'bbox' and 0 |
| Routes.SearchRecord | src/index.ts:225-237 | the map_search record echoes the query as the location's name, with the location's zoom falling back through `||` to 12 |
| Routes.CaseRecord | src/index.ts:189-346 | every case's record for a readable input claims success |
| Routes.ToolOutcome | src/index.ts:189-351 | 501 exactly for a name without a case; a missing input throws out of every case but get_bounds and clear_layers, which report it; the success flag is exactly "the input was readable" |
| Routes.InvokeIn | src/index.ts:161-363 | a body that fails to parse or to destructure gives 500 with the message; an unlisted name 404; a listed one runs the switch |
| Routes.RunTool | src/index.ts:189-356 | 501 exactly without a case; otherwise 200 or 500 |
| Routes.CatalogNamesAreCases | src/index.ts:189-351 | every catalog name has a switch case |
| Routes.InvokeInStatus | src/index.ts:161-363 | over a list with the catalog's names: the status is 200, 404 or 500; 404 exactly for an unlisted name; 200 carries the case's result |
| Routes.Invoke | src/index.ts:161-363 | `/invoke` answers 200, 404 or 500, never 501, and 404 exactly for a name outside the catalog |
| Routes.UncataloguedCasesAreUnreachable | src/index.ts:179-184 | `arcgis_parcel_search` and `map_clear_layers` have cases but always answer 404 |
| Routes.InitializeDefaults | src/index.ts:190-197 | a zoom of 0 is treated as missing and becomes 9 |
| Routes.SearchZoomDefault | src/index.ts:229-237 | the searched location's zoom is the input's when truthy and 12 otherwise, so zoom 0 becomes 12 |
| Routes.FlagsDefaultToTrue | src/index.ts:310-346 | only an explicit `false` turns off animate and confirm |
| Routes.GetBoundsWithoutInput | src/index.ts:247-263 | a missing input to map_get_bounds still answers 200, with a failure record |
| Routes.GetBoundsWithoutInputIn | src/index.ts:247-263 | the same over any list with the catalog's names |
| Routes.GetBoundsRunsWithoutInput | src/index.ts:247-263 | the get_bounds case answers 200 with a failure record naming the first property read |
| Routes.FailureReply | src/index.ts:47-53 | a fault gives 500 with id 'error_id', the fixed message and the error's text ('Unknown error' for a non-Error) |
| Routes.ReplyOf | src/index.ts:44-53 | a response is returned as is, and a fault becomes the failure envelope |
| Routes.Chat | src/index.ts:29-55 | the catalog server's answer, or the chat failure envelope for any fault, including a body that does not parse and a Claude model without a key |
| Routes.ToolResults | src/index.ts:57-93 | the tool-less server's answer, or the tool-results failure envelope for any fault |

## Left out

- I/O and foreign code are parameters. These are the provider SDK calls, `fetch`, `JSON.parse`/`JSON.stringify`, `Date.now()`, the map's zoom and view, the geometry library's circle and the pixel-to-degree conversion. Their results are whatever the caller passes.
- Camera moves (`fitBounds` at public/app.js:1517, `flyTo` at public/app.js:1730 and public/app.js:1982, `easeTo`), paint, layout, popups and console logging are not modelled. The camera a call sees is an input (`camera(i)`), so a move made by one call of a batch is not carried into the next.
- The twelve tool handlers outside the registry tools and the three queries are the `others` parameter of `Services`. It receives the registry and returns the one it leaves, so the model covers their dispatch and threads their effect on the registry, but not their bodies.
- A query whose input has another shape than the handler destructures (a non-string layer, a box or point that does not start with numbers, a radius that is not a number) is also handed to `others`. JavaScript's coercions of such values are not modelled.
- Concurrency: `processToolCalls` starts every call and awaits them together with `Promise.all`. The model runs the calls one after another in the list's order, each atomically, and the interleaving of awaited replies is not modelled.
- Throttle.BboxRefusal: its message names `MinZoom`, the corrected level (10 for leads), not the level 8 the code as written names for leads. The as-written level is `ZoomHintAsWritten`, see Findings.
- Throttle.AllowedRadius: `maxRadius[layer]` also finds inherited object keys. For the layer "constructor" it yields a function, `radius > allowedRadius` is then false and the radius is never refused. The model gives such layers the default 50000 m.
- Throttle.AllowedArea: `maxArea[layer]` would also find inherited object keys such as "constructor". The model treats every unlisted layer as the default.
- MapClient.Map.ClearArcGISLayers: without a map the source returns undefined and throws nothing, which the model gives as `None`. Errors thrown by the map library itself are not modelled.
- MapClient.PerformanceInfo: omits `currentZoom` and `mapLoaded`, which need the map's floating-point zoom and load state.
- Viewport.GetBounds: takes the view as a value, so its "Map not initialized" and nullish-input errors are not modelled. Its report also omits the constant `success: true` field.
- Viewport.GetBounds: compares padding with 0 only for numbers. JavaScript's coercion of other values in `padding > 0` is not modelled.
- Number text: `NumText` writes integers exactly and a placeholder otherwise, so non-integral numbers in messages are not modelled. `currentZoom` is written with `ToFixed1`.
- The wording of the OpenAI system prompt is abstracted as a single `Guidance` message.
- `JSON.stringify` omitting undefined fields, and the key order of `c.json`, are not modelled. An object is its field list, and lookups take the last occurrence of a key.
- `availableTools` is copied on construction. Aliasing of the caller's array, which `registerTool` would mutate, is not modelled.
- The OpenAI key, the `/sse` route, static files, the DOM, the conversation history and the `/api/arcgis/*` backend itself are outside the core.
- The type declaration files serve only as the shapes of the datatypes in `McpTypes`.

## Findings

| source | as written | input that shows it | evidently intended | confidence | as-written member | corrected member |
|---|---|---|---|---|---|---|
| public/app.js:1378 | the zoom refusal names level 10 only when the layer is 'parcels', else 11 for 'ownerindex' and 8 otherwise | layer 'leads' at zoom 9: refused with "Zoom in to at least level 8", although 'leads' needs 10 like 'parcels' | name the level where the layer's cap becomes positive (10 for parcels and leads) | not executed | Throttle.ZoomHintAsWritten (lemma Throttle.ZoomHintMisleadsForLeads) | Throttle.MinZoom (lemma Throttle.MinZoomIsExact; used by Throttle.PlanBbox and Throttle.BboxRefusal) |
