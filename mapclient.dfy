/**
 * The browser client's effects on the map (public/app.js): the registry of layer
 * ids and source ids that the tool handlers change in place, the three query
 * handlers around the throttling plans, and `processToolCalls`, which runs each
 * tool call and answers it with one `{id, output | error}` entry.
 */
module MapClient {
  import opened Wrappers
  import opened JsValues
  import opened Throttle
  import opened McpTypes

  /** What a layer draws from: a source id, or a value handed to the map as is. */
  datatype SourceRef = SourceId(id: string) | SourceValue(v: Json)

  /** A layer as far as the registry is concerned (paint and layout are not modelled). */
  datatype LayerSpec = LayerSpec(layerType: Json, source: SourceRef)

  /** A source: an inline definition given to map_add_layer, or GeoJSON the client built. */
  datatype SourceSpec = Definition(def: Json) | GeoJson(data: Json)

  /** How `handleMapAddLayer` reads its `source` argument. */
  datatype SourceArg =
    | SourceName(name: string)   // a string: the id of an existing source
    | InlineSource               // an object with a truthy `type`: stored as `id-source`
    | OtherSource                // any other value: passed to the layer unchanged
    | MissingSource(v: Json)     // undefined or null: reading `source.type` throws

  function SourceArgOf(v: Json): (a: SourceArg)
    ensures a.InlineSource? <==> v.JObj? && Truthy(Get(v, "type"))
    ensures a.MissingSource? <==> IsNullish(v)
  {
    match v
    case JStr(s) => SourceName(s)
    case JUndefined => MissingSource(v)
    case JNull => MissingSource(v)
    case _ => if Truthy(Get(v, "type")) then InlineSource else OtherSource
  }

  function InlineSourceId(id: string): string
  {
    id + "-source"
  }

  /** The ids `clearArcGISLayers` removes. */
  predicate Clearable(id: string)
  {
    Contains(id, "arcgis-") || Contains(id, "polygon-") || Contains(id, "parcel-") || Contains(id, "lead-")
  }

  /** The keys of `m` that contain `marker`, as the query handlers select them. */
  function Marked<V>(m: map<string, V>, marker: string): set<string>
  {
    set k | k in m && Contains(k, marker)
  }

  function ClearableKeys<V>(m: map<string, V>): set<string>
  {
    set k | k in m && Clearable(k)
  }

  /** Clearing is idempotent: what survives a clear holds nothing clearable, and every other id survives. */
  lemma ClearLeavesNothingClearable<V>(m: map<string, V>)
    ensures ClearableKeys(m - ClearableKeys(m)) == {}
    ensures forall k :: k in m && !Clearable(k) <==> k in m - ClearableKeys(m)
  {
  }

  /** The tool names `processToolCalls` dispatches; any other name is an error. */
  const ClientToolNames: set<string> := {
    "map_initialize", "map_move", "map_add_layer", "map_remove_layer", "map_get_features",
    "map_search", "map_get_bounds", "arcgis_parcel_search", "arcgis_lead_search",
    "arcgis_parcel_query", "arcgis_lead_query", "map_add_polygon", "arcgis_bbox_query",
    "arcgis_radius_query", "arcgis_layer_search", "arcgis_point_query", "arcgis_data_visualize",
    "map_clear_layers"
  }

  /** The handlers modelled here; the others are given to `processToolCalls` as a parameter. */
  const ModelledToolNames: set<string> := {
    "map_add_layer", "map_remove_layer", "map_clear_layers",
    "arcgis_bbox_query", "arcgis_radius_query", "arcgis_point_query"
  }

  /** The map's registry as a value: whether the map exists, and its layers and sources by id. */
  datatype Registry = Registry(initialized: bool, layers: map<string, LayerSpec>, sources: map<string, SourceSpec>)

  /** The outcome an `{id, output | error}` entry carries. */
  function OutcomeOf(entry: ToolResult): Result<Json, string>
  {
    if entry.output.Some? then Success(entry.output.value)
    else if entry.error.Some? then Failure(entry.error.value)
    else Failure("")
  }

  /** One `{id, output}` or `{id, error}` entry for a call's outcome. */
  function Envelope(id: string, outcome: Result<Json, string>): (r: ToolResult)
    ensures r.id == id
    ensures r.output.Some? <==> outcome.Success?
    ensures r.error.Some? <==> outcome.Failure?
    ensures OutcomeOf(r) == outcome
  {
    match outcome
    case Success(v) => ToolResult(id, Some(v), None)
    case Failure(e) => ToolResult(id, None, Some(e))
  }

  function Reply(success: bool, message: string): Json
  {
    JObj([("success", JBool(success)), ("message", JStr(message))])
  }

  /** The counts of `getMapPerformanceInfo` (zoom and load state are not modelled). */
  function PerformanceInfo(s: Registry): (j: Json)
    ensures Get(j, "totalLayers") == JNum(|s.layers| as real)
    ensures Get(j, "totalSources") == JNum(|s.sources| as real)
    ensures Get(j, "arcgisLayers") == JNum(|Marked(s.layers, "arcgis-")| as real)
  {
    var fields := [("totalLayers", JNum(|s.layers| as real)),
                   ("totalSources", JNum(|s.sources| as real)),
                   ("arcgisLayers", JNum(|Marked(s.layers, "arcgis-")| as real))];
    LookupFindsLast(fields, 0, "totalLayers");
    LookupFindsLast(fields, 1, "totalSources");
    JObj(fields)
  }

  /** The reply of a confirmed `map_clear_layers`, given the counts before and the numbers removed. */
  function ClearedReply(before: Json, layersRemoved: nat, sourcesRemoved: nat): (r: Json)
    ensures Get(r, "success") == JBool(true)
    ensures Get(r, "beforeClear") == before
    ensures Get(r, "layersRemoved") == JNum(layersRemoved as real)
    ensures Get(r, "sourcesRemoved") == JNum(sourcesRemoved as real)
  {
    var fields := [
      ("success", JBool(true)),
      ("message", JStr("Cleared " + NatText(layersRemoved) + " layers and " + NatText(sourcesRemoved) + " sources from the map")),
      ("beforeClear", before),
      ("layersRemoved", JNum(layersRemoved as real)),
      ("sourcesRemoved", JNum(sourcesRemoved as real))];
    LookupFindsLast(fields, 0, "success");
    LookupFindsLast(fields, 2, "beforeClear");
    LookupFindsLast(fields, 3, "layersRemoved");
    JObj(fields)
  }

  /** A GeoJSON point feature at `p` with the given properties. */
  function PointFeature(p: (real, real), properties: Json): Json
  {
    JObj([("type", JStr("Feature")),
          ("geometry", JObj([("type", JStr("Point")), ("coordinates", JArr([JNum(p.0), JNum(p.1)]))])),
          ("properties", properties)])
  }

  /** A failed fetch: a reply that was not `ok` (with its status text) or a rejected promise. */
  datatype FetchFault = NotOk(statusText: string) | Rejected(message: string)

  datatype BboxRequest = BboxRequest(layer: string, county: Json, bounds: Json, limit: nat)
  datatype RadiusRequest = RadiusRequest(layer: string, center: Json, radius: real, koordinatesLayer: Json, limit: nat)
  datatype PointRequest = PointRequest(layer: string, point: Json, county: Json, koordinatesLayer: Json)

  /** The map's camera as a handler reads it (`getZoom`, `getBounds`). */
  datatype Camera = Camera(zoom: real, view: Bounds)

  /**
   * What lies outside the client code modelled here: the backend's three query
   * endpoints, the geometry library's circle around a centre (radius in metres),
   * `Date.now()` and the camera as seen by the i-th call, and `others`, the handlers
   * of the remaining tools, which read the registry and give back the one they leave.
   */
  datatype Services = Services(
    bboxFetch: BboxRequest -> Result<ArcGISReply, FetchFault>,
    radiusFetch: RadiusRequest -> Result<ArcGISReply, FetchFault>,
    pointFetch: PointRequest -> Result<ArcGISReply, FetchFault>,
    circle: ((real, real), real) -> Json,
    clock: nat -> string,
    camera: nat -> Camera,
    others: (string, Json, Registry) -> (Result<Json, string>, Registry))

  // ------------------------------------------------------------ what each handler does

  /** The registry after the query handlers' clean-up: no layer or source whose id contains `marker`. */
  function Cleaned(s: Registry, marker: string): (t: Registry)
    ensures t.initialized == s.initialized
    ensures forall k :: k in t.layers <==> k in s.layers && !Contains(k, marker)
    ensures forall k :: k in t.sources <==> k in s.sources && !Contains(k, marker)
    ensures forall k :: k in t.layers ==> t.layers[k] == s.layers[k]
    ensures forall k :: k in t.sources ==> t.sources[k] == s.sources[k]
  {
    s.(layers := s.layers - Marked(s.layers, marker), sources := s.sources - Marked(s.sources, marker))
  }

  /**
   * `handleMapAddLayer` on registry `s` gives `r` and leaves `t`: any same-id layer
   * is replaced; with an inline source the source `id-source` is replaced first and
   * the layer points at it.
   */
  predicate AddLayerStep(s: Registry, id: string, layerType: Json, source: Json, r: Result<Json, string>, t: Registry)
  {
    if !s.initialized then r == Failure("Failed to add layer: Map not initialized") && t == s
    else match SourceArgOf(source)
      case MissingSource(_) =>
        r == Failure("Failed to add layer: " + ReadError(source, "type")) && t == s.(layers := s.layers - {id})
      case InlineSource =>
        && r == Success(Reply(true, "Layer '" + id + "' added successfully"))
        && t == s.(layers := s.layers[id := LayerSpec(layerType, SourceId(InlineSourceId(id)))],
                   sources := s.sources[InlineSourceId(id) := Definition(source)])
      case SourceName(name) =>
        r == Success(Reply(true, "Layer '" + id + "' added successfully"))
        && t == s.(layers := s.layers[id := LayerSpec(layerType, SourceId(name))])
      case OtherSource =>
        r == Success(Reply(true, "Layer '" + id + "' added successfully"))
        && t == s.(layers := s.layers[id := LayerSpec(layerType, SourceValue(source))])
  }

  /**
   * After adding a layer, the layer exists (and, for an inline source, its
   * `id-source`), and no id other than those two changes.
   */
  lemma AddLayerChangesOnlyItsIds(s: Registry, id: string, layerType: Json, source: Json, r: Result<Json, string>, t: Registry)
    requires AddLayerStep(s, id, layerType, source, r, t)
    ensures t.initialized == s.initialized
    ensures r.Success? <==> s.initialized && !SourceArgOf(source).MissingSource?
    ensures r.Success? ==> id in t.layers && t.layers[id].layerType == layerType
    ensures r.Success? && SourceArgOf(source).InlineSource? ==>
      InlineSourceId(id) in t.sources && t.layers[id].source == SourceId(InlineSourceId(id))
    ensures forall k :: k != id ==> (k in t.layers <==> k in s.layers)
    ensures forall k :: k != id && k in t.layers ==> t.layers[k] == s.layers[k]
    ensures forall k :: k != InlineSourceId(id) ==> (k in t.sources <==> k in s.sources)
    ensures forall k :: k != InlineSourceId(id) && k in t.sources ==> t.sources[k] == s.sources[k]
  {
  }

  /** `handleMapRemoveLayer`: removes the layer and its `id-source`, or reports it missing. */
  predicate RemoveLayerStep(s: Registry, id: string, r: Result<Json, string>, t: Registry)
  {
    if !s.initialized then r == Failure("Failed to remove layer: Map not initialized") && t == s
    else if id !in s.layers then r == Success(Reply(false, "Layer '" + id + "' not found")) && t == s
    else
      && r == Success(Reply(true, "Layer '" + id + "' removed successfully"))
      && t == s.(layers := s.layers - {id}, sources := s.sources - {InlineSourceId(id)})
  }

  /** Removing a layer drops exactly that layer and its `id-source`; an absent id changes nothing. */
  lemma RemoveLayerChangesOnlyItsIds(s: Registry, id: string, r: Result<Json, string>, t: Registry)
    requires RemoveLayerStep(s, id, r, t)
    ensures t.initialized == s.initialized
    ensures id !in s.layers ==> t == s
    ensures s.initialized ==> id !in t.layers
    ensures s.initialized && id in s.layers ==> InlineSourceId(id) !in t.sources
    ensures forall k :: k != id ==> (k in t.layers <==> k in s.layers)
    ensures forall k :: k != InlineSourceId(id) ==> (k in t.sources <==> k in s.sources)
    ensures forall k :: k in t.layers ==> t.layers[k] == s.layers[k]
    ensures forall k :: k in t.sources ==> t.sources[k] == s.sources[k]
  {
  }

  /** `handleMapClearLayers`: needs the map, then a `confirm` that is not falsy (default true). */
  predicate ClearLayersStep(s: Registry, input: Json, r: Result<Json, string>, t: Registry)
  {
    if !s.initialized then r == Failure("Failed to clear layers: Map not initialized") && t == s
    else if IsNullish(input) then
      r == Failure("Failed to clear layers: " + DestructureError(input, "confirm", "input")) && t == s
    else if !Truthy(OrIfUndefined(Get(input, "confirm"), JBool(true))) then
      r == Success(Reply(false, "Layer clearing cancelled - confirmation required")) && t == s
    else
      && t == s.(layers := s.layers - ClearableKeys(s.layers), sources := s.sources - ClearableKeys(s.sources))
      && r == Success(ClearedReply(PerformanceInfo(s), |ClearableKeys(s.layers)|, |ClearableKeys(s.sources)|))
  }

  /**
   * `queryBounds`: the input's `bounds` array as given, or the view's box when the
   * requested box covers more than four views.
   */
  function QueryBounds(requested: Bounds, boundsArg: Json, view: Bounds): Json
  {
    if Area(requested) > Area(view) * 4.0 then BoundsJson(view) else boundsArg
  }

  /**
   * The array a bounding-box query posts and echoes starts with the box it plans:
   * the input's own numbers, or the view's when the view replaced them.
   */
  lemma QueryBoundsStartWithPlan(layer: string, zoom: real, requested: Bounds, boundsArg: Json, view: Bounds)
    requires StartsWithNumbers(boundsArg, [requested.xmin, requested.ymin, requested.xmax, requested.ymax])
    requires PlanBbox(layer, zoom, requested, view).Query?
    ensures var b := PlanBbox(layer, zoom, requested, view).bounds;
      StartsWithNumbers(QueryBounds(requested, boundsArg, view), [b.xmin, b.ymin, b.xmax, b.ymax])
  {
  }

  const BboxFault := "Failed to query ArcGIS layer: "
  const RadiusFault := "Failed to perform radius query: "
  const PointFault := "Failed to query point: "

  /**
   * `handleArcGISBboxQuery` at the camera's `zoom` and `view`: refuse without a
   * request, or fetch the planned box and, when features come back, replace the
   * layer's earlier drawings by one source and three layers.
   */
  predicate BboxQueryStep(s: Registry, layer: string, county: Json, requested: Bounds, boundsArg: Json, zoom: real, view: Bounds,
                          fetch: BboxRequest -> Result<ArcGISReply, FetchFault>, stamp: string,
                          r: Result<Json, string>, t: Registry)
  {
    if !s.initialized then r == Failure(BboxFault + "Map not initialized") && t == s
    else
      var p := PlanBbox(layer, zoom, requested, view);
      if !p.Query? then r == Success(BboxJson(BboxRefusal(layer, county, requested, p), boundsArg, zoom)) && t == s
      else
        var queried := QueryBounds(requested, boundsArg, view);
        match fetch(BboxRequest(layer, county, queried, p.limit))
        case Failure(NotOk(text)) => r == Failure(BboxFault + "Failed to fetch " + layer + " data: " + text) && t == s
        case Failure(Rejected(m)) => r == Failure(BboxFault + m) && t == s
        case Success(reply) =>
          && r == Success(BboxJson(BboxResultOf(layer, county, p.bounds, p.limit, reply), queried, zoom))
          && if !HasFeatures(reply) then t == s
             else
               var id := "arcgis-" + layer + "-" + stamp;
               var c := Cleaned(s, "arcgis-" + layer + "-");
               t == c.(sources := c.sources[id := GeoJson(reply.data)],
                       layers := c.layers[id + "-fill" := LayerSpec(JStr("fill"), SourceId(id))]
                                         [id + "-line" := LayerSpec(JStr("line"), SourceId(id))]
                                         [id + "-circle" := LayerSpec(JStr("circle"), SourceId(id))])
  }

  /**
   * A bounding-box query touches only the ids of its own layer's drawings
   * (those containing `arcgis-<layer>-`): every other layer and source is kept.
   */
  lemma BboxQueryKeepsOtherDrawings(s: Registry, layer: string, county: Json, requested: Bounds, boundsArg: Json, zoom: real, view: Bounds,
                                    fetch: BboxRequest -> Result<ArcGISReply, FetchFault>, stamp: string,
                                    r: Result<Json, string>, t: Registry)
    requires BboxQueryStep(s, layer, county, requested, boundsArg, zoom, view, fetch, stamp, r, t)
    ensures t.initialized == s.initialized
    ensures forall k :: !Contains(k, "arcgis-" + layer + "-") ==>
      (k in t.layers <==> k in s.layers) && (k in t.sources <==> k in s.sources)
    ensures forall k :: !Contains(k, "arcgis-" + layer + "-") && k in t.layers ==> t.layers[k] == s.layers[k]
    ensures forall k :: !Contains(k, "arcgis-" + layer + "-") && k in t.sources ==> t.sources[k] == s.sources[k]
  {
    var marker := "arcgis-" + layer + "-";
    var id := marker + stamp;
    assert IsPrefix(marker, id + "-fill") && IsPrefix(marker, id + "-line") && IsPrefix(marker, id + "-circle");
    assert IsPrefix(marker, id);
  }

  /**
   * `handleArcGISRadiusQuery`: refuse without a request, or fetch and, after any
   * reply, replace the layer's earlier radius drawings by the circle, the centre
   * and, with features, the data.
   */
  predicate RadiusQueryStep(s: Registry, layer: string, center: (real, real), centerArg: Json, radius: Option<real>, koordinatesLayer: Json,
                            zoom: real, fetch: RadiusRequest -> Result<ArcGISReply, FetchFault>,
                            circle: ((real, real), real) -> Json, stamp: string, r: Result<Json, string>, t: Registry)
  {
    if !s.initialized then r == Failure(RadiusFault + "Map not initialized") && t == s
    else
      var p := PlanRadius(layer, zoom, radius);
      if !p.RadiusQuery? then
        r == Success(RadiusJson(RadiusRefusal(layer, p, RadiusOrDefault(radius)), centerArg, zoom)) && t == s
      else match fetch(RadiusRequest(layer, centerArg, p.radius, koordinatesLayer, p.limit))
        case Failure(NotOk(text)) => r == Failure(RadiusFault + "Failed to fetch " + layer + " data: " + text) && t == s
        case Failure(Rejected(m)) => r == Failure(RadiusFault + m) && t == s
        case Success(reply) =>
          && r == Success(RadiusJson(RadiusResultOf(layer, p.radius, p.limit, reply), centerArg, zoom))
          && var id := "arcgis-radius-" + layer + "-" + stamp;
             var c := Cleaned(s, "arcgis-radius-" + layer + "-");
             var dataLayers := if HasFeatures(reply) then
                 c.layers[id + "-fill" := LayerSpec(JStr("fill"), SourceId(id))]
                         [id + "-circle" := LayerSpec(JStr("circle"), SourceId(id))]
               else c.layers;
             var dataSources := if HasFeatures(reply) then c.sources[id := GeoJson(reply.data)] else c.sources;
             t == c.(layers := dataLayers[id + "-radius-line" := LayerSpec(JStr("line"), SourceId(id + "-radius"))]
                                         [id + "-center" := LayerSpec(JStr("circle"), SourceId(id + "-center"))],
                     sources := dataSources[id + "-radius" := GeoJson(circle(center, p.radius))]
                                           [id + "-center" := GeoJson(PointFeature(center, JObj([("type", JStr("center"))])))])
  }

  /** `handleArcGISPointQuery`: the parcel zoom gate, then the query and its drawing. */
  predicate PointQueryStep(s: Registry, layer: string, point: (real, real), pointArg: Json, county: Json, koordinatesLayer: Json,
                           zoom: real, fetch: PointRequest -> Result<ArcGISReply, FetchFault>, stamp: string,
                           r: Result<Json, string>, t: Registry)
  {
    if !s.initialized then r == Failure(PointFault + "Map not initialized") && t == s
    else if PointRefused(layer, zoom) then
      r == Success(PointJson(PointZoomRefusal(layer, PointZoomMessage), pointArg, county, zoom)) && t == s
    else match fetch(PointRequest(layer, pointArg, county, koordinatesLayer))
      case Failure(NotOk(text)) => r == Failure(PointFault + "Failed to query " + layer + " at point: " + text) && t == s
      case Failure(Rejected(m)) => r == Failure(PointFault + m) && t == s
      case Success(reply) =>
        && r == Success(PointJson(PointResultOf(layer, reply), pointArg, county, zoom))
        && var id := "arcgis-point-" + layer + "-" + stamp;
           var c := Cleaned(s, "arcgis-point-" + layer + "-");
           var markerLayers := c.layers[id + "-point" := LayerSpec(JStr("circle"), SourceId(id + "-point"))];
           var markerSources := c.sources[id + "-point" := GeoJson(PointFeature(point, JObj([("query", JStr("point"))])))];
           t == c.(layers := if HasFeatures(reply) then
                               markerLayers[id + "-fill" := LayerSpec(JStr("fill"), SourceId(id))]
                                           [id + "-line" := LayerSpec(JStr("line"), SourceId(id))]
                             else markerLayers,
                   sources := if HasFeatures(reply) then markerSources[id := GeoJson(reply.data)] else markerSources)
  }

  // ------------------------------------------------------------ reading the query inputs

  /** `v` is an array whose first items are the numbers `xs`. */
  predicate StartsWithNumbers(v: Json, xs: seq<real>)
  {
    v.JArr? && |xs| <= |v.items| && forall i :: 0 <= i < |xs| ==> v.items[i] == JNum(xs[i])
  }

  /** The first `n` items of an array, when they are all numbers. */
  function NumbersOf(v: Json, n: nat): (xs: Option<seq<real>>)
    ensures xs.Some? ==> |xs.value| == n && StartsWithNumbers(v, xs.value)
    ensures xs.None? ==> forall ys :: |ys| == n ==> !StartsWithNumbers(v, ys)
  {
    if v.JArr? && n <= |v.items| && forall i :: 0 <= i < n ==> v.items[i].JNum? then
      Some(seq(n, i requires 0 <= i < n && v.items[i].JNum? => v.items[i].n))
    else None
  }

  /**
   * A query's input as its handler destructures it: the coordinates as numbers,
   * and the array they came from (`boundsArg`, `centerArg`, `pointArg`), which the
   * handler echoes and posts as given.
   */
  datatype BboxInput = BboxInput(layer: string, county: Json, bounds: Bounds, boundsArg: Json)
  datatype RadiusInput = RadiusInput(layer: string, center: (real, real), centerArg: Json, radius: Option<real>, koordinatesLayer: Json)
  datatype PointInput = PointInput(layer: string, point: (real, real), pointArg: Json, county: Json, koordinatesLayer: Json)

  /**
   * `const { layer, county, bounds } = input; const [xmin, ymin, xmax, ymax] = bounds`
   * for inputs whose layer is a string and whose bounds start with four numbers.
   */
  function BboxInputOf(input: Json): (a: Option<BboxInput>)
    ensures a.Some? ==> Get(input, "layer") == JStr(a.value.layer) && Get(input, "county") == a.value.county
    ensures a.Some? ==> var b := a.value.bounds;
      a.value.boundsArg == Get(input, "bounds") && StartsWithNumbers(a.value.boundsArg, [b.xmin, b.ymin, b.xmax, b.ymax])
  {
    var b := NumbersOf(Get(input, "bounds"), 4);
    if Get(input, "layer").JStr? && b.Some? then
      Some(BboxInput(Get(input, "layer").s, Get(input, "county"), Bounds(b.value[0], b.value[1], b.value[2], b.value[3]), Get(input, "bounds")))
    else None
  }

  /** `radius = 1000`: the default applies to undefined; a number is kept. */
  function RadiusInputOf(input: Json): (a: Option<RadiusInput>)
    ensures a.Some? ==> Get(input, "layer") == JStr(a.value.layer) && Get(input, "koordinatesLayer") == a.value.koordinatesLayer
    ensures a.Some? ==> a.value.centerArg == Get(input, "center") && StartsWithNumbers(a.value.centerArg, [a.value.center.0, a.value.center.1])
    ensures a.Some? ==> (a.value.radius.None? <==> Get(input, "radius") == JUndefined)
    ensures a.Some? && a.value.radius.Some? ==> Get(input, "radius") == JNum(a.value.radius.value)
  {
    var c := NumbersOf(Get(input, "center"), 2);
    var radius := Get(input, "radius");
    if Get(input, "layer").JStr? && c.Some? && (radius == JUndefined || radius.JNum?) then
      Some(RadiusInput(Get(input, "layer").s, (c.value[0], c.value[1]), Get(input, "center"),
                       if radius.JNum? then Some(radius.n) else None, Get(input, "koordinatesLayer")))
    else None
  }

  function PointInputOf(input: Json): (a: Option<PointInput>)
    ensures a.Some? ==> Get(input, "layer") == JStr(a.value.layer) && Get(input, "county") == a.value.county
    ensures a.Some? ==> Get(input, "koordinatesLayer") == a.value.koordinatesLayer
    ensures a.Some? ==> a.value.pointArg == Get(input, "point") && StartsWithNumbers(a.value.pointArg, [a.value.point.0, a.value.point.1])
  {
    var p := NumbersOf(Get(input, "point"), 2);
    if Get(input, "layer").JStr? && p.Some? then
      Some(PointInput(Get(input, "layer").s, (p.value[0], p.value[1]), Get(input, "point"), Get(input, "county"), Get(input, "koordinatesLayer")))
    else None
  }

  // ------------------------------------------------------------ one call

  /**
   * What running `call` does to registry `s`, with `stamp` for `Date.now()` and `cam`
   * for the camera: the six modelled handlers as above; a query input whose layer
   * or coordinates have another shape, and every other known tool, as `others` says;
   * an unknown name fails and changes nothing.
   */
  predicate DispatchStep(call: ToolCall, sv: Services, stamp: string, cam: Camera,
                         s: Registry, r: Result<Json, string>, t: Registry)
  {
    var input := call.input;
    if call.name == "map_add_layer" then
      if IsNullish(input) then r == Failure("Failed to add layer: " + DestructureError(input, "id", "input")) && t == s
      else AddLayerStep(s, JsText(Get(input, "id")), Get(input, "type"), Get(input, "source"), r, t)
    else if call.name == "map_remove_layer" then
      if IsNullish(input) then r == Failure("Failed to remove layer: " + DestructureError(input, "id", "input")) && t == s
      else RemoveLayerStep(s, JsText(Get(input, "id")), r, t)
    else if call.name == "map_clear_layers" then
      ClearLayersStep(s, input, r, t)
    else if call.name == "arcgis_bbox_query" then
      if !s.initialized then r == Failure(BboxFault + "Map not initialized") && t == s
      else match BboxInputOf(input)
        case Some(a) => BboxQueryStep(s, a.layer, a.county, a.bounds, a.boundsArg, cam.zoom, cam.view, sv.bboxFetch, stamp, r, t)
        case None => (r, t) == sv.others(call.name, input, s)
    else if call.name == "arcgis_radius_query" then
      if !s.initialized then r == Failure(RadiusFault + "Map not initialized") && t == s
      else match RadiusInputOf(input)
        case Some(a) => RadiusQueryStep(s, a.layer, a.center, a.centerArg, a.radius, a.koordinatesLayer, cam.zoom, sv.radiusFetch, sv.circle, stamp, r, t)
        case None => (r, t) == sv.others(call.name, input, s)
    else if call.name == "arcgis_point_query" then
      if !s.initialized then r == Failure(PointFault + "Map not initialized") && t == s
      else match PointInputOf(input)
        case Some(a) => PointQueryStep(s, a.layer, a.point, a.pointArg, a.county, a.koordinatesLayer, cam.zoom, sv.pointFetch, stamp, r, t)
        case None => (r, t) == sv.others(call.name, input, s)
    else if call.name in ClientToolNames then
      (r, t) == sv.others(call.name, input, s)
    else
      r == Failure("Unknown tool: " + call.name) && t == s
  }

  /** The bounding-box step has one outcome for given inputs. */
  lemma BboxQueryStepIsDeterministic(s: Registry, layer: string, county: Json, requested: Bounds, boundsArg: Json, zoom: real, view: Bounds,
                                     fetch: BboxRequest -> Result<ArcGISReply, FetchFault>, stamp: string,
                                     r1: Result<Json, string>, t1: Registry, r2: Result<Json, string>, t2: Registry)
    requires BboxQueryStep(s, layer, county, requested, boundsArg, zoom, view, fetch, stamp, r1, t1)
    requires BboxQueryStep(s, layer, county, requested, boundsArg, zoom, view, fetch, stamp, r2, t2)
    ensures r1 == r2 && t1 == t2
  {
  }

  lemma RadiusQueryStepIsDeterministic(s: Registry, layer: string, center: (real, real), centerArg: Json, radius: Option<real>, koordinatesLayer: Json,
                                       zoom: real, fetch: RadiusRequest -> Result<ArcGISReply, FetchFault>,
                                       circle: ((real, real), real) -> Json, stamp: string,
                                       r1: Result<Json, string>, t1: Registry, r2: Result<Json, string>, t2: Registry)
    requires RadiusQueryStep(s, layer, center, centerArg, radius, koordinatesLayer, zoom, fetch, circle, stamp, r1, t1)
    requires RadiusQueryStep(s, layer, center, centerArg, radius, koordinatesLayer, zoom, fetch, circle, stamp, r2, t2)
    ensures r1 == r2 && t1 == t2
  {
  }

  lemma PointQueryStepIsDeterministic(s: Registry, layer: string, point: (real, real), pointArg: Json, county: Json, koordinatesLayer: Json,
                                      zoom: real, fetch: PointRequest -> Result<ArcGISReply, FetchFault>, stamp: string,
                                      r1: Result<Json, string>, t1: Registry, r2: Result<Json, string>, t2: Registry)
    requires PointQueryStep(s, layer, point, pointArg, county, koordinatesLayer, zoom, fetch, stamp, r1, t1)
    requires PointQueryStep(s, layer, point, pointArg, county, koordinatesLayer, zoom, fetch, stamp, r2, t2)
    ensures r1 == r2 && t1 == t2
  {
  }

  /** Each call has exactly one outcome: the step relation is a function of the call and the registry. */
  lemma DispatchStepIsDeterministic(call: ToolCall, sv: Services, stamp: string, cam: Camera, s: Registry,
                                    r1: Result<Json, string>, t1: Registry, r2: Result<Json, string>, t2: Registry)
    requires DispatchStep(call, sv, stamp, cam, s, r1, t1)
    requires DispatchStep(call, sv, stamp, cam, s, r2, t2)
    ensures r1 == r2 && t1 == t2
  {
    var input := call.input;
    if call.name == "arcgis_bbox_query" {
      if s.initialized && BboxInputOf(input).Some? {
        var a := BboxInputOf(input).value;
        BboxQueryStepIsDeterministic(s, a.layer, a.county, a.bounds, a.boundsArg, cam.zoom, cam.view, sv.bboxFetch, stamp, r1, t1, r2, t2);
      }
    } else if call.name == "arcgis_radius_query" {
      if s.initialized && RadiusInputOf(input).Some? {
        var a := RadiusInputOf(input).value;
        RadiusQueryStepIsDeterministic(s, a.layer, a.center, a.centerArg, a.radius, a.koordinatesLayer, cam.zoom, sv.radiusFetch, sv.circle, stamp, r1, t1, r2, t2);
      }
    } else if call.name == "arcgis_point_query" {
      if s.initialized && PointInputOf(input).Some? {
        var a := PointInputOf(input).value;
        PointQueryStepIsDeterministic(s, a.layer, a.point, a.pointArg, a.county, a.koordinatesLayer, cam.zoom, sv.pointFetch, stamp, r1, t1, r2, t2);
      }
    }
  }

  /** The tools whose handlers the model leaves to `others` are exactly the remaining known names. */
  lemma OthersAreTheUnmodelledTools(call: ToolCall, sv: Services, stamp: string, cam: Camera, s: Registry,
                                    r: Result<Json, string>, t: Registry)
    requires call.name in ClientToolNames - ModelledToolNames
    ensures DispatchStep(call, sv, stamp, cam, s, r, t) <==> (r, t) == sv.others(call.name, call.input, s)
  {
  }

  /** A failing or unknown call is answered with an error, and an unknown one changes nothing. */
  lemma UnknownToolChangesNothing(call: ToolCall, sv: Services, stamp: string, cam: Camera, s: Registry,
                                  r: Result<Json, string>, t: Registry)
    requires call.name !in ClientToolNames
    ensures DispatchStep(call, sv, stamp, cam, s, r, t) <==> r == Failure("Unknown tool: " + call.name) && t == s
  {
  }

  /** The client's map object: whether it exists, and its layers and sources by id. */
  class Map {
    var initialized: bool
    var layers: map<string, LayerSpec>
    var sources: map<string, SourceSpec>

    function State(): Registry
      reads this
    {
      Registry(initialized, layers, sources)
    }

    constructor (initialized: bool, layers: map<string, LayerSpec>, sources: map<string, SourceSpec>)
      ensures State() == Registry(initialized, layers, sources)
    {
      this.initialized := initialized;
      this.layers := layers;
      this.sources := sources;
    }

    /** The `forEach` that removes each listed layer still present. */
    method RemoveLayers(ids: set<string>)
      modifies this
      ensures layers == old(layers) - ids
      ensures sources == old(sources) && initialized == old(initialized)
    {
      var pending := ids;
      while pending != {}
        invariant pending <= ids
        invariant layers == old(layers) - (ids - pending)
        invariant sources == old(sources) && initialized == old(initialized)
        decreases pending
      {
        var id :| id in pending;
        if id in layers {
          layers := layers - {id};
        }
        pending := pending - {id};
      }
    }

    /** The `forEach` that removes each listed source still present. */
    method RemoveSources(ids: set<string>)
      modifies this
      ensures sources == old(sources) - ids
      ensures layers == old(layers) && initialized == old(initialized)
    {
      var pending := ids;
      while pending != {}
        invariant pending <= ids
        invariant sources == old(sources) - (ids - pending)
        invariant layers == old(layers) && initialized == old(initialized)
        decreases pending
      {
        var id :| id in pending;
        if id in sources {
          sources := sources - {id};
        }
        pending := pending - {id};
      }
    }

    /** Removes every layer and source whose id contains `marker` (the query handlers' clean-up). */
    method RemoveMarked(marker: string)
      modifies this
      ensures State() == Cleaned(old(State()), marker)
    {
      var staleLayers := Marked(layers, marker);
      RemoveLayers(staleLayers);
      var staleSources := Marked(sources, marker);
      RemoveSources(staleSources);
    }

    /** `handleMapAddLayer`. */
    method AddLayer(id: string, layerType: Json, source: Json) returns (r: Result<Json, string>)
      modifies this
      ensures AddLayerStep(old(State()), id, layerType, source, r, State())
    {
      if !initialized {
        return Failure("Failed to add layer: Map not initialized");
      }
      if id in layers {
        layers := layers - {id};
      }
      match SourceArgOf(source) {
        case MissingSource(v) =>
          return Failure("Failed to add layer: " + ReadError(v, "type"));
        case InlineSource =>
          var sourceId := InlineSourceId(id);
          if sourceId in sources {
            sources := sources - {sourceId};
          }
          sources := sources[sourceId := Definition(source)];
          layers := layers[id := LayerSpec(layerType, SourceId(sourceId))];
        case SourceName(name) =>
          layers := layers[id := LayerSpec(layerType, SourceId(name))];
        case OtherSource =>
          layers := layers[id := LayerSpec(layerType, SourceValue(source))];
      }
      r := Success(Reply(true, "Layer '" + id + "' added successfully"));
    }

    /** `handleMapRemoveLayer`. */
    method RemoveLayer(id: string) returns (r: Result<Json, string>)
      modifies this
      ensures RemoveLayerStep(old(State()), id, r, State())
    {
      if !initialized {
        return Failure("Failed to remove layer: Map not initialized");
      }
      if id in layers {
        layers := layers - {id};
        var sourceId := InlineSourceId(id);
        if sourceId in sources {
          sources := sources - {sourceId};
        }
        r := Success(Reply(true, "Layer '" + id + "' removed successfully"));
      } else {
        r := Success(Reply(false, "Layer '" + id + "' not found"));
      }
    }

    /**
     * `clearArcGISLayers`: removes exactly the layers and sources whose id contains
     * 'arcgis-', 'polygon-', 'parcel-' or 'lead-', and counts them. It returns
     * undefined, and changes nothing, when there is no map.
     */
    method ClearArcGISLayers() returns (r: Option<(nat, nat)>)
      modifies this
      ensures initialized == old(initialized)
      ensures !old(initialized) ==> r == None && layers == old(layers) && sources == old(sources)
      ensures old(initialized) ==>
        && layers == old(layers) - ClearableKeys(old(layers))
        && sources == old(sources) - ClearableKeys(old(sources))
        && r == Some((|ClearableKeys(old(layers))|, |ClearableKeys(old(sources))|))
      ensures forall k :: k in layers ==> k in old(layers)
      ensures old(initialized) ==> forall k :: k in layers ==> !Clearable(k)
    {
      if !initialized {
        return None;
      }
      var layersToRemove := ClearableKeys(layers);
      var sourcesToRemove := ClearableKeys(sources);
      RemoveLayers(layersToRemove);
      RemoveSources(sourcesToRemove);
      r := Some((|layersToRemove|, |sourcesToRemove|));
    }

    /** `handleMapClearLayers`. */
    method ClearLayers(input: Json) returns (r: Result<Json, string>)
      modifies this
      ensures ClearLayersStep(old(State()), input, r, State())
    {
      if !initialized {
        return Failure("Failed to clear layers: Map not initialized");
      }
      if IsNullish(input) {
        return Failure("Failed to clear layers: " + DestructureError(input, "confirm", "input"));
      }
      var confirm := OrIfUndefined(Get(input, "confirm"), JBool(true));
      if !Truthy(confirm) {
        return Success(Reply(false, "Layer clearing cancelled - confirmation required"));
      }
      var before := PerformanceInfo(State());
      var counts := ClearArcGISLayers();
      var (nLayers, nSources) := counts.value;
      r := Success(ClearedReply(before, nLayers, nSources));
    }

    /** `handleArcGISBboxQuery` with the backend as `fetch` and `Date.now()` as `stamp`. */
    method BboxQuery(layer: string, county: Json, requested: Bounds, boundsArg: Json, zoom: real, view: Bounds,
                     fetch: BboxRequest -> Result<ArcGISReply, FetchFault>, stamp: string)
      returns (r: Result<Json, string>)
      modifies this
      ensures BboxQueryStep(old(State()), layer, county, requested, boundsArg, zoom, view, fetch, stamp, r, State())
    {
      if !initialized {
        return Failure(BboxFault + "Map not initialized");
      }
      var p := PlanBbox(layer, zoom, requested, view);
      if !p.Query? {
        return Success(BboxJson(BboxRefusal(layer, county, requested, p), boundsArg, zoom));
      }
      var queried := QueryBounds(requested, boundsArg, view);
      var reply := fetch(BboxRequest(layer, county, queried, p.limit));
      match reply
      case Failure(NotOk(text)) =>
        return Failure(BboxFault + "Failed to fetch " + layer + " data: " + text);
      case Failure(Rejected(m)) =>
        return Failure(BboxFault + m);
      case Success(result) =>
        if HasFeatures(result) {
          var id := "arcgis-" + layer + "-" + stamp;
          RemoveMarked("arcgis-" + layer + "-");
          sources := sources[id := GeoJson(result.data)];
          layers := layers[id + "-fill" := LayerSpec(JStr("fill"), SourceId(id))];
          layers := layers[id + "-line" := LayerSpec(JStr("line"), SourceId(id))];
          layers := layers[id + "-circle" := LayerSpec(JStr("circle"), SourceId(id))];
        }
        r := Success(BboxJson(BboxResultOf(layer, county, p.bounds, p.limit, result), queried, zoom));
    }

    /** `handleArcGISRadiusQuery`; `circle` is the geometry library's circle polygon. */
    method RadiusQuery(layer: string, center: (real, real), centerArg: Json, radius: Option<real>, koordinatesLayer: Json,
                       zoom: real, fetch: RadiusRequest -> Result<ArcGISReply, FetchFault>,
                       circle: ((real, real), real) -> Json, stamp: string)
      returns (r: Result<Json, string>)
      modifies this
      ensures RadiusQueryStep(old(State()), layer, center, centerArg, radius, koordinatesLayer, zoom, fetch, circle, stamp, r, State())
    {
      if !initialized {
        return Failure(RadiusFault + "Map not initialized");
      }
      var p := PlanRadius(layer, zoom, radius);
      if !p.RadiusQuery? {
        return Success(RadiusJson(RadiusRefusal(layer, p, RadiusOrDefault(radius)), centerArg, zoom));
      }
      var reply := fetch(RadiusRequest(layer, centerArg, p.radius, koordinatesLayer, p.limit));
      match reply
      case Failure(NotOk(text)) =>
        return Failure(RadiusFault + "Failed to fetch " + layer + " data: " + text);
      case Failure(Rejected(m)) =>
        return Failure(RadiusFault + m);
      case Success(result) =>
        RemoveMarked("arcgis-radius-" + layer + "-");
        var id := "arcgis-radius-" + layer + "-" + stamp;
        if HasFeatures(result) {
          sources := sources[id := GeoJson(result.data)];
          layers := layers[id + "-fill" := LayerSpec(JStr("fill"), SourceId(id))];
          layers := layers[id + "-circle" := LayerSpec(JStr("circle"), SourceId(id))];
        }
        sources := sources[id + "-radius" := GeoJson(circle(center, p.radius))];
        layers := layers[id + "-radius-line" := LayerSpec(JStr("line"), SourceId(id + "-radius"))];
        sources := sources[id + "-center" := GeoJson(PointFeature(center, JObj([("type", JStr("center"))])))];
        layers := layers[id + "-center" := LayerSpec(JStr("circle"), SourceId(id + "-center"))];
        r := Success(RadiusJson(RadiusResultOf(layer, p.radius, p.limit, result), centerArg, zoom));
    }

    /** `handleArcGISPointQuery`. */
    method PointQuery(layer: string, point: (real, real), pointArg: Json, county: Json, koordinatesLayer: Json,
                      zoom: real, fetch: PointRequest -> Result<ArcGISReply, FetchFault>, stamp: string)
      returns (r: Result<Json, string>)
      modifies this
      ensures PointQueryStep(old(State()), layer, point, pointArg, county, koordinatesLayer, zoom, fetch, stamp, r, State())
    {
      if !initialized {
        return Failure(PointFault + "Map not initialized");
      }
      if PointRefused(layer, zoom) {
        return Success(PointJson(PointZoomRefusal(layer, PointZoomMessage), pointArg, county, zoom));
      }
      var reply := fetch(PointRequest(layer, pointArg, county, koordinatesLayer));
      match reply
      case Failure(NotOk(text)) =>
        return Failure(PointFault + "Failed to query " + layer + " at point: " + text);
      case Failure(Rejected(m)) =>
        return Failure(PointFault + m);
      case Success(result) =>
        RemoveMarked("arcgis-point-" + layer + "-");
        var id := "arcgis-point-" + layer + "-" + stamp;
        sources := sources[id + "-point" := GeoJson(PointFeature(point, JObj([("query", JStr("point"))])))];
        layers := layers[id + "-point" := LayerSpec(JStr("circle"), SourceId(id + "-point"))];
        if HasFeatures(result) {
          sources := sources[id := GeoJson(result.data)];
          layers := layers[id + "-fill" := LayerSpec(JStr("fill"), SourceId(id))];
          layers := layers[id + "-line" := LayerSpec(JStr("line"), SourceId(id))];
        }
        r := Success(PointJson(PointResultOf(layer, result), pointArg, county, zoom));
    }

    /** Runs one call through the `switch` of `processToolCalls`. */
    method Dispatch(call: ToolCall, sv: Services, stamp: string, cam: Camera) returns (r: Result<Json, string>)
      modifies this
      ensures DispatchStep(call, sv, stamp, cam, old(State()), r, State())
    {
      var input := call.input;
      if call.name == "map_add_layer" {
        if IsNullish(input) {
          return Failure("Failed to add layer: " + DestructureError(input, "id", "input"));
        }
        r := AddLayer(JsText(Get(input, "id")), Get(input, "type"), Get(input, "source"));
      } else if call.name == "map_remove_layer" {
        if IsNullish(input) {
          return Failure("Failed to remove layer: " + DestructureError(input, "id", "input"));
        }
        r := RemoveLayer(JsText(Get(input, "id")));
      } else if call.name == "map_clear_layers" {
        r := ClearLayers(input);
      } else if call.name == "arcgis_bbox_query" {
        if !initialized {
          return Failure(BboxFault + "Map not initialized");
        }
        match BboxInputOf(input) {
          case Some(a) =>
            r := BboxQuery(a.layer, a.county, a.bounds, a.boundsArg, cam.zoom, cam.view, sv.bboxFetch, stamp);
          case None =>
            r := RunOther(call.name, input, sv);
        }
      } else if call.name == "arcgis_radius_query" {
        if !initialized {
          return Failure(RadiusFault + "Map not initialized");
        }
        match RadiusInputOf(input) {
          case Some(a) =>
            r := RadiusQuery(a.layer, a.center, a.centerArg, a.radius, a.koordinatesLayer, cam.zoom, sv.radiusFetch, sv.circle, stamp);
          case None =>
            r := RunOther(call.name, input, sv);
        }
      } else if call.name == "arcgis_point_query" {
        if !initialized {
          return Failure(PointFault + "Map not initialized");
        }
        match PointInputOf(input) {
          case Some(a) =>
            r := PointQuery(a.layer, a.point, a.pointArg, a.county, a.koordinatesLayer, cam.zoom, sv.pointFetch, stamp);
          case None =>
            r := RunOther(call.name, input, sv);
        }
      } else if call.name in ClientToolNames {
        r := RunOther(call.name, input, sv);
      } else {
        r := Failure("Unknown tool: " + call.name);
      }
    }

    /** Hands a call to the handlers outside the model and installs the registry they leave. */
    method RunOther(name: string, input: Json, sv: Services) returns (r: Result<Json, string>)
      modifies this
      ensures (r, State()) == sv.others(name, input, old(State()))
    {
      var (outcome, after) := sv.others(name, input, State());
      initialized, layers, sources := after.initialized, after.layers, after.sources;
      r := outcome;
    }

    /**
     * `processToolCalls`: one result per call, in call order, carrying the call's id,
     * with an `output` when the handler returned and an `error` when it threw. Call
     * `i` reads the clock and the camera as `sv` gives them for `i`; `trace[i]` is the
     * registry it starts from.
     */
    method ProcessToolCalls(calls: seq<ToolCall>, sv: Services)
      returns (results: seq<ToolResult>, ghost trace: seq<Registry>)
      modifies this
      ensures |results| == |calls| && |trace| == |calls| + 1
      ensures trace[0] == old(State()) && trace[|calls|] == State()
      ensures forall i :: 0 <= i < |calls| ==> results[i].id == calls[i].id
      ensures forall i :: 0 <= i < |calls| ==> (results[i].output.Some? <==> results[i].error.None?)
      ensures forall i :: 0 <= i < |calls| ==>
        DispatchStep(calls[i], sv, sv.clock(i), sv.camera(i), trace[i], OutcomeOf(results[i]), trace[i + 1])
      ensures forall i :: 0 <= i < |calls| && calls[i].name !in ClientToolNames ==>
        results[i] == ToolResult(calls[i].id, None, Some("Unknown tool: " + calls[i].name)) && trace[i + 1] == trace[i]
    {
      results := [];
      trace := [State()];
      for i := 0 to |calls|
        invariant |results| == i && |trace| == i + 1
        invariant trace[0] == old(State()) && trace[i] == State()
        invariant forall j :: 0 <= j < i ==> results[j].id == calls[j].id
        invariant forall j :: 0 <= j < i ==> (results[j].output.Some? <==> results[j].error.None?)
        invariant forall j :: 0 <= j < i ==>
          DispatchStep(calls[j], sv, sv.clock(j), sv.camera(j), trace[j], OutcomeOf(results[j]), trace[j + 1])
        invariant forall j :: 0 <= j < i && calls[j].name !in ClientToolNames ==>
          results[j] == ToolResult(calls[j].id, None, Some("Unknown tool: " + calls[j].name)) && trace[j + 1] == trace[j]
      {
        var outcome := Dispatch(calls[i], sv, sv.clock(i), sv.camera(i));
        results := results + [Envelope(calls[i].id, outcome)];
        trace := trace + [State()];
      }
    }
  }
}
