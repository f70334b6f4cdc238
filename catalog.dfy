/**
 * The tool catalog the server offers (src/services/mapbox-tools.ts): eight tools
 * with their JSON-schema input descriptions, transcribed as data.
 */
module Catalog {
  import opened Wrappers
  import opened JsValues
  import opened McpTypes

  function Typed(t: string, description: string): Json
  {
    JObj([("type", JStr(t)), ("description", JStr(description))])
  }

  function Coordinates(description: string): Json
  {
    JObj([("type", JStr("array")), ("items", JObj([("type", JStr("number"))])),
          ("minItems", JNum(2.0)), ("maxItems", JNum(2.0)), ("description", JStr(description))])
  }

  function Schema(properties: seq<(string, Json)>, required: seq<Json>): Json
  {
    JObj([("type", JStr("object")), ("properties", JObj(properties)),
          ("required", JArr(required))])
  }

  const MapInitialize := Tool("map_initialize", "Initialize a Mapbox map with specified options",
    Schema([("center", Coordinates("Longitude and latitude for the center of the map")),
            ("zoom", Typed("number", "Initial zoom level")),
            ("style", Typed("string", "URL or style JSON for the map"))],
           [JStr("center"), JStr("zoom")]))

  const MapMove := Tool("map_move", "Move the map to a specified location",
    Schema([("center", Coordinates("Longitude and latitude to move the map to")),
            ("zoom", Typed("number", "Zoom level to set")),
            ("bearing", Typed("number", "Map bearing in degrees")),
            ("pitch", Typed("number", "Map pitch in degrees")),
            ("animate", Typed("boolean", "Whether to animate the movement")),
            ("duration", Typed("number", "Duration of animation in milliseconds"))],
           [JStr("center")]))

  const LayerTypes: seq<Json> := [JStr("fill"), JStr("line"), JStr("symbol"), JStr("circle"), JStr("heatmap"),
    JStr("fill-extrusion"), JStr("raster"), JStr("hillshade"), JStr("background")]

  const MapAddLayer := Tool("map_add_layer", "Add a new layer to the map",
    Schema([("id", Typed("string", "Unique identifier for the layer")),
            ("type", JObj([("type", JStr("string")),
                           ("enum", JArr(LayerTypes)),
                           ("description", JStr("Type of the layer"))])),
            ("source", JObj([("oneOf", JArr([JObj([("type", JStr("string"))]),
                                             JObj([("type", JStr("object")),
                                                   ("properties", JObj([("type", JObj([("type", JStr("string"))])),
                                                                        ("data", JObj([("type", JStr("object"))]))]))])])),
                             ("description", JStr("Source name or source definition"))])),
            ("paint", Typed("object", "Layer paint properties")),
            ("layout", Typed("object", "Layer layout properties"))],
           [JStr("id"), JStr("type"), JStr("source")]))

  const MapRemoveLayer := Tool("map_remove_layer", "Remove a layer from the map",
    Schema([("id", Typed("string", "Identifier of the layer to remove"))], [JStr("id")]))

  const MapGetFeatures := Tool("map_get_features", "Get features at a point on the map",
    Schema([("point", Coordinates("Longitude and latitude of the point")),
            ("layers", JObj([("type", JStr("array")), ("items", JObj([("type", JStr("string"))])),
                             ("description", JStr("Layer IDs to query features from"))]))],
           [JStr("point")]))

  const MapSearch := Tool("map_search", "Search for a location by name and fly to it",
    Schema([("query", Typed("string", "The name of the location to search for (e.g., 'New York', 'Paris', 'Tokyo')")),
            ("zoom", Typed("number", "Zoom level to set after finding the location")),
            ("animate", Typed("boolean", "Whether to animate the movement to the location")),
            ("duration", Typed("number", "Duration of animation in milliseconds"))],
           [JStr("query")]))

  /** The only schema without a `required` list. */
  const MapGetBounds := Tool("map_get_bounds",
    "Get the current map bounds (viewport) - useful for spatial queries in the visible area",
    JObj([("type", JStr("object")),
          ("properties", JObj([
            ("format", JObj([("type", JStr("string")), ("enum", JArr([JStr("bbox"), JStr("geojson"), JStr("bounds")])),
                             ("description", JStr("Format to return bounds in: 'bbox' [xmin,ymin,xmax,ymax], 'geojson' polygon, or 'bounds' object")),
                             ("default", JStr("bbox"))])),
            ("padding", JObj([("type", JStr("number")), ("description", JStr("Optional padding in pixels to expand the bounds")),
                              ("default", JNum(0.0))]))]))]))

  function Styled(t: string, description: string, default: Json): Json
  {
    JObj([("type", JStr(t)), ("description", JStr(description)), ("default", default)])
  }

  const MapAddPolygon := Tool("map_add_polygon",
    "Add a polygon boundary around a geographic area by searching for the area name",
    Schema([("query", Typed("string", "The name of the geographic area to outline (e.g., 'Lincoln Park Chicago', 'Central Park NYC', 'Golden Gate Park')")),
            ("style", JObj([("type", JStr("object")), ("description", JStr("Styling options for the polygon")),
                            ("properties", JObj([
                              ("fillColor", Styled("string", "Fill color for the polygon (hex, rgb, or CSS color name)", JStr("#3498db"))),
                              ("fillOpacity", Styled("number", "Fill opacity (0-1)", JNum(0.3))),
                              ("strokeColor", Styled("string", "Stroke color for the polygon outline", JStr("#2980b9"))),
                              ("strokeWidth", Styled("number", "Stroke width in pixels", JNum(2.0)))]))])),
            ("animate", Styled("boolean", "Whether to animate the movement to the polygon", JBool(true)))],
           [JStr("query")]))

  /** `mapboxTools`, in catalog order. */
  const MapboxTools: seq<Tool> := [MapInitialize, MapMove, MapAddLayer, MapRemoveLayer, MapGetFeatures, MapSearch, MapGetBounds, MapAddPolygon]

  function Names(tools: seq<Tool>): (names: seq<string>)
    ensures |names| == |tools|
    ensures forall i :: 0 <= i < |tools| ==> names[i] == tools[i].name
  {
    if tools == [] then [] else [tools[0].name] + Names(tools[1..])
  }

  /** The catalog's names, in order. */
  const CatalogToolNames: seq<string> := ["map_initialize", "map_move", "map_add_layer", "map_remove_layer",
                                          "map_get_features", "map_search", "map_get_bounds", "map_add_polygon"]

  /** The catalog holds the eight tools under these names, and no name twice. */
  lemma CatalogNames()
    ensures Names(MapboxTools) == CatalogToolNames
    ensures forall i, j :: 0 <= i < j < |CatalogToolNames| ==> CatalogToolNames[i] != CatalogToolNames[j]
  {
    CatalogNamesInOrder();
    CatalogNamesDistinct();
  }

  lemma CatalogNamesInOrder()
    ensures Names(MapboxTools) == CatalogToolNames
  {
    var names := Names(MapboxTools);
    assert |names| == 8;
    forall i | 0 <= i < 8
      ensures names[i] == CatalogToolNames[i]
    {
      assert names[i] == MapboxTools[i].name;
    }
  }

  lemma CatalogNamesDistinct()
    ensures forall i, j :: 0 <= i < j < |CatalogToolNames| ==> CatalogToolNames[i] != CatalogToolNames[j]
  {
  }

  /** `tools.find(t => t.name === name)`: the first tool whose name is exactly `name`. */
  function FindTool(tools: seq<Tool>, name: Json): (r: Option<Tool>)
    ensures r.Some? ==> r.value in tools && name == JStr(r.value.name)
    ensures r.None? <==> forall i :: 0 <= i < |tools| ==> name != JStr(tools[i].name)
  {
    if tools == [] then None
    else if name == JStr(tools[0].name) then Some(tools[0])
    else
      assert forall i :: 1 <= i < |tools| ==> tools[i] == tools[1..][i - 1];
      FindTool(tools[1..], name)
  }

  /** The lookup succeeds exactly for the string of a listed name (strict equality: no coercion). */
  lemma FindByName(tools: seq<Tool>, name: Json)
    ensures FindTool(tools, name).Some? <==> name.JStr? && name.s in Names(tools)
    ensures FindTool(tools, name).Some? ==> FindTool(tools, name).value.name == name.s
  {
    if name.JStr? && name.s in Names(tools) {
      var i :| 0 <= i < |tools| && Names(tools)[i] == name.s;
      assert name == JStr(tools[i].name);
    }
  }

  /** A name finds a catalog tool exactly when it is the string of one of the eight names. */
  lemma FindInCatalog(name: Json)
    ensures FindTool(MapboxTools, name).Some? <==> name.JStr? && name.s in CatalogToolNames
    ensures FindTool(MapboxTools, name).Some? ==> FindTool(MapboxTools, name).value.name == name.s
  {
    FindByName(MapboxTools, name);
    CatalogNames();
  }
}
