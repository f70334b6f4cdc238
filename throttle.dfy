/**
 * The browser client's query throttling (public/app.js): before a bounding-box,
 * radius or point query is sent to the parcel/lead backend, the layer name and the
 * map's zoom decide a feature cap, and the query is refused ("zoom in", "area or
 * radius too large") or issued. Zoom levels, coordinates and radii are only
 * compared and multiplied, so `real` stands for JavaScript's numbers.
 */
module Throttle {
  import opened Wrappers
  import opened JsValues

  const Parcels := "parcels"
  const Leads := "leads"
  const OwnerIndex := "ownerindex"
  const Koordinates := "koordinates"

  /** A box as the client passes it around: `[xmin, ymin, xmax, ymax]` (west, south, east, north). */
  datatype Bounds = Bounds(xmin: real, ymin: real, xmax: real, ymax: real)

  function Abs(x: real): real
  {
    if x < 0.0 then -x else x
  }

  /** `Math.abs(xmax - xmin) * Math.abs(ymax - ymin)`, the rough area used for both boxes. */
  function Area(b: Bounds): (a: real)
    ensures a >= 0.0
    ensures a == 0.0 <==> b.xmin == b.xmax || b.ymin == b.ymax
  {
    Abs(b.xmax - b.xmin) * Abs(b.ymax - b.ymin)
  }

  // ------------------------------------------------------------ bounding-box queries

  /** The least zoom at which `FeatureLimit` is positive for `layer`. */
  function MinZoom(layer: string): int
  {
    if layer == Parcels || layer == Leads then 10
    else if layer == OwnerIndex then 11
    else 8
  }

  /**
   * The zoom level the refusal message names, as written in the source: it tests
   * 'parcels' alone, so 'leads' is told level 8 (see `ZoomHintMisleadsForLeads`).
   */
  function ZoomHintAsWritten(layer: string): int
  {
    if layer == Parcels then 10
    else if layer == OwnerIndex then 11
    else 8
  }

  /** `getFeatureLimit(zoom, layer)`: the feature cap for a bounding-box query. */
  function FeatureLimit(zoom: real, layer: string): (cap: nat)
    ensures cap <= 10000
    ensures cap == 0 <==> zoom < MinZoom(layer) as real
    ensures layer != Parcels && layer != Leads ==> cap <= 5000
  {
    if layer == Parcels || layer == Leads then
      if zoom < 10.0 then 0
      else if zoom < 12.0 then 500
      else if zoom < 14.0 then 2000
      else if zoom < 16.0 then 5000
      else 10000
    else if layer == OwnerIndex then
      if zoom < 11.0 then 0
      else if zoom < 13.0 then 1000
      else 5000
    else
      if zoom < 8.0 then 0
      else if zoom < 10.0 then 1000
      else if zoom < 12.0 then 3000
      else 5000
  }

  /** Zooming in never lowers the cap. */
  lemma FeatureLimitMonotone(layer: string, z1: real, z2: real)
    requires z1 <= z2
    ensures FeatureLimit(z1, layer) <= FeatureLimit(z2, layer)
  {
  }

  /** At zoom 9, past the level the message names, the 'leads' cap is still 0. */
  lemma ZoomHintMisleadsForLeads()
    ensures ZoomHintAsWritten(Leads) as real <= 9.0
    ensures FeatureLimit(9.0, Leads) == 0
    ensures MinZoom(Leads) == 10
  {
  }

  /** The corrected hint is exact: the cap is positive exactly from `MinZoom` upward. */
  lemma MinZoomIsExact(layer: string)
    ensures FeatureLimit(MinZoom(layer) as real, layer) > 0
    ensures forall z: real :: z < MinZoom(layer) as real ==> FeatureLimit(z, layer) == 0
  {
  }

  /** The hint as written names the corrected level for every layer but 'leads'. */
  lemma ZoomHintsDifferOnlyForLeads(layer: string)
    ensures ZoomHintAsWritten(layer) == MinZoom(layer) <==> layer != Leads
  {
  }

  /** `maxArea[layer] || maxArea.default`. */
  function AllowedArea(layer: string): (allowed: real)
    ensures 0.0 < allowed <= 1.0
    ensures layer != Parcels && layer != Leads && layer != OwnerIndex ==> allowed == 1.0
  {
    if layer == Parcels then 0.1
    else if layer == Leads then 0.5
    else if layer == OwnerIndex then 0.2
    else 1.0
  }

  /** What the bounding-box handler decides before any request is sent. */
  datatype BboxPlan =
    | ZoomRequired(minZoom: int)
    | AreaTooLarge(allowed: real)
    | Query(bounds: Bounds, limit: nat)

  /**
   * The decision of `handleArcGISBboxQuery` from the layer, the current zoom, the
   * requested box and the current view: refuse for zoom, refuse for area, or query
   * with the cap, falling back to the view when the request exceeds four views.
   */
  function PlanBbox(layer: string, zoom: real, requested: Bounds, view: Bounds): (p: BboxPlan)
    ensures p.ZoomRequired? <==> FeatureLimit(zoom, layer) == 0
    ensures p.ZoomRequired? ==> p.minZoom == MinZoom(layer) && zoom < p.minZoom as real
    ensures p.AreaTooLarge? <==> FeatureLimit(zoom, layer) > 0 && Area(requested) > AllowedArea(layer)
    ensures p.AreaTooLarge? ==> p.allowed == AllowedArea(layer)
    ensures p.Query? ==> p.limit == FeatureLimit(zoom, layer) && 0 < p.limit <= 10000
    ensures p.Query? ==> p.bounds == (if Area(requested) > Area(view) * 4.0 then view else requested)
    // an issued query never exceeds the layer's allowance, nor four times the view
    ensures p.Query? ==> Area(p.bounds) <= AllowedArea(layer) && Area(p.bounds) <= Area(view) * 4.0
  {
    var cap := FeatureLimit(zoom, layer);
    if cap == 0 then ZoomRequired(MinZoom(layer))
    else if Area(requested) > AllowedArea(layer) then AreaTooLarge(AllowedArea(layer))
    else if Area(requested) > Area(view) * 4.0 then Query(view, cap)
    else Query(requested, cap)
  }

  // ------------------------------------------------------------ what the backend returns

  /**
   * The backend's JSON reply: `success`, the `data` payload (a GeoJSON feature
   * collection, or undefined) and `message` ("" when absent).
   */
  datatype ArcGISReply = ArcGISReply(success: bool, data: Json, message: string)

  /** `result.data.features` when it is present as an array. */
  function Features(reply: ArcGISReply): Option<seq<Json>>
  {
    match Get(reply.data, "features")
    case JArr(items) => Some(items)
    case _ => None
  }

  /** The handlers draw the reply only when it succeeded with at least one feature. */
  predicate HasFeatures(reply: ArcGISReply): (h: bool)
    ensures h ==> Truthy(reply.data) && Truthy(Get(reply.data, "features"))
  {
    reply.success && Features(reply).Some? && |Features(reply).value| > 0
  }

  /** `featureCount` and `isLimited` as the handlers compute them after the reply. */
  datatype Tally = Tally(featureCount: nat, isLimited: bool)

  function TallyOf(reply: ArcGISReply, maxFeatures: nat): (t: Tally)
    ensures t.featureCount == (if reply.success && Features(reply).Some? then |Features(reply).value| else 0)
    ensures t.featureCount > 0 <==> HasFeatures(reply)
    ensures maxFeatures > 0 ==> (t.isLimited <==> t.featureCount >= maxFeatures)
    ensures t.isLimited ==> t.featureCount > 0
  {
    if HasFeatures(reply) then
      var n := |Features(reply).value|;
      Tally(n, n >= maxFeatures)
    else Tally(0, false)
  }

  /** `result.message || fallback`, then the "limited to" suffix exactly when limited. */
  function ResultMessage(reply: ArcGISReply, fallback: string, t: Tally, maxFeatures: nat, smaller: string): (m: string)
    ensures !t.isLimited ==> m == (if reply.message != "" then reply.message else fallback)
    ensures t.isLimited ==> m == (if reply.message != "" then reply.message else fallback) + LimitedSuffix(maxFeatures, smaller)
  {
    var base := if reply.message != "" then reply.message else fallback;
    if t.isLimited then base + LimitedSuffix(maxFeatures, smaller) else base
  }

  function LimitedSuffix(maxFeatures: nat, smaller: string): string
  {
    " (limited to " + NatText(maxFeatures) + "). Zoom in for more detail or use a smaller " + smaller + "."
  }

  /** The record `handleArcGISBboxQuery` returns. */
  datatype BboxReport =
    | BboxZoomRefusal(layer: string, county: Json, bounds: Bounds, message: string)
    | BboxAreaRefusal(layer: string, county: Json, bounds: Bounds, message: string)
    | BboxResult(success: bool, layer: string, county: Json, bounds: Bounds,
                 featureCount: nat, maxFeatures: nat, isLimited: bool, message: string)
  {
    predicate Success() { BboxResult? && success }
    function FeatureCount(): nat { if BboxResult? then featureCount else 0 }
    predicate ZoomRequiredFlag() { BboxZoomRefusal? }
    predicate AreaTooLargeFlag() { BboxAreaRefusal? }
  }

  /** The refusal record for a plan that issues no request. */
  function BboxRefusal(layer: string, county: Json, requested: Bounds, p: BboxPlan): (r: BboxReport)
    requires !p.Query?
    ensures !r.Success() && r.FeatureCount() == 0
    ensures r.ZoomRequiredFlag() <==> p.ZoomRequired?
    ensures r.AreaTooLargeFlag() <==> p.AreaTooLarge?
    ensures r.bounds == requested
  {
    if p.ZoomRequired? then
      BboxZoomRefusal(layer, county, requested,
        "Zoom in to at least level " + IntText(p.minZoom) + " to view " + layer + " data")
    else
      BboxAreaRefusal(layer, county, requested,
        "Query area too large for " + layer + " data. Please zoom in or select a smaller area.")
  }

  /** The record after the backend replied to a bounding-box query. */
  function BboxResultOf(layer: string, county: Json, queried: Bounds, maxFeatures: nat, reply: ArcGISReply): (r: BboxReport)
    requires maxFeatures > 0
    ensures r.BboxResult? && r.bounds == queried && r.maxFeatures == maxFeatures && r.success == reply.success
    ensures r.featureCount == (if reply.success && Features(reply).Some? then |Features(reply).value| else 0)
    ensures r.isLimited <==> r.featureCount >= maxFeatures
  {
    var t := TallyOf(reply, maxFeatures);
    var fallback := "Found " + NatText(t.featureCount) + " " + layer + " features";
    BboxResult(reply.success, layer, county, queried, t.featureCount, maxFeatures, t.isLimited,
               ResultMessage(reply, fallback, t, maxFeatures, "area"))
  }

  // ------------------------------------------------------------ radius queries

  /** `getRadiusFeatureLimit(zoom, layer)`. */
  function RadiusFeatureLimit(zoom: real, layer: string): (cap: nat)
    ensures cap <= 5000
    ensures cap == 0 <==> (layer == OwnerIndex && zoom < 10.0) || (layer == Koordinates && zoom < 8.0)
    ensures layer != OwnerIndex && layer != Koordinates ==> cap == 1000
  {
    if layer == OwnerIndex then
      if zoom < 10.0 then 0
      else if zoom < 12.0 then 500
      else if zoom < 14.0 then 2000
      else 5000
    else if layer == Koordinates then
      if zoom < 8.0 then 0
      else if zoom < 10.0 then 1000
      else if zoom < 12.0 then 3000
      else 5000
    else 1000
  }

  lemma RadiusFeatureLimitMonotone(layer: string, z1: real, z2: real)
    requires z1 <= z2
    ensures RadiusFeatureLimit(z1, layer) <= RadiusFeatureLimit(z2, layer)
  {
  }

  /** The level the radius refusal message names; unlike the bounding-box one it is exact. */
  function RadiusZoomHint(layer: string): int
  {
    if layer == OwnerIndex then 10 else 8
  }

  lemma RadiusZoomHintIsExact(layer: string, zoom: real)
    requires RadiusFeatureLimit(zoom, layer) == 0
    ensures zoom < RadiusZoomHint(layer) as real
    ensures RadiusFeatureLimit(RadiusZoomHint(layer) as real, layer) > 0
  {
  }

  /** `maxRadius[layer] || 50000`, in metres, tiered by the current zoom. */
  function AllowedRadius(layer: string, zoom: real): (allowed: real)
    ensures 5000.0 <= allowed <= 100000.0
    ensures layer != OwnerIndex && layer != Koordinates ==> allowed == 50000.0
  {
    if layer == OwnerIndex then
      if zoom < 12.0 then 5000.0 else if zoom < 14.0 then 10000.0 else 20000.0
    else if layer == Koordinates then
      if zoom < 10.0 then 10000.0 else if zoom < 12.0 then 50000.0 else 100000.0
    else 50000.0
  }

  lemma AllowedRadiusMonotone(layer: string, z1: real, z2: real)
    requires z1 <= z2
    ensures AllowedRadius(layer, z1) <= AllowedRadius(layer, z2)
  {
  }

  /** The radius the handler uses: the input's, or 1000 m when it is undefined. */
  function RadiusOrDefault(radius: Option<real>): (r: real)
    ensures radius.Some? ==> r == radius.value
    ensures radius.None? ==> r == 1000.0
  {
    if radius.Some? then radius.value else 1000.0
  }

  datatype RadiusPlan =
    | RadiusZoomRequired(minZoom: int)
    | RadiusTooLarge(allowed: real)
    | RadiusQuery(radius: real, limit: nat)

  /** The decision of `handleArcGISRadiusQuery` before any request is sent. */
  function PlanRadius(layer: string, zoom: real, radius: Option<real>): (p: RadiusPlan)
    ensures p.RadiusZoomRequired? <==> RadiusFeatureLimit(zoom, layer) == 0
    ensures p.RadiusZoomRequired? ==> zoom < p.minZoom as real
    ensures p.RadiusTooLarge? <==> RadiusFeatureLimit(zoom, layer) > 0 && RadiusOrDefault(radius) > AllowedRadius(layer, zoom)
    ensures p.RadiusTooLarge? ==> p.allowed == AllowedRadius(layer, zoom)
    ensures p.RadiusQuery? ==> p.radius == RadiusOrDefault(radius) && p.radius <= AllowedRadius(layer, zoom)
    ensures p.RadiusQuery? ==> p.limit == RadiusFeatureLimit(zoom, layer) && 0 < p.limit <= 5000
  {
    var cap := RadiusFeatureLimit(zoom, layer);
    var r := RadiusOrDefault(radius);
    if cap == 0 then RadiusZoomRequired(RadiusZoomHint(layer))
    else if r > AllowedRadius(layer, zoom) then RadiusTooLarge(AllowedRadius(layer, zoom))
    else RadiusQuery(r, cap)
  }

  /** The record `handleArcGISRadiusQuery` returns. */
  datatype RadiusReport =
    | RadiusZoomRefusal(layer: string, radius: real, message: string)
    | RadiusSizeRefusal(layer: string, radius: real, message: string)
    | RadiusResult(success: bool, layer: string, radius: real, featureCount: nat,
                   maxFeatures: nat, isLimited: bool, message: string)
  {
    predicate Success() { RadiusResult? && success }
    function FeatureCount(): nat { if RadiusResult? then featureCount else 0 }
    predicate ZoomRequiredFlag() { RadiusZoomRefusal? }
    predicate RadiusTooLargeFlag() { RadiusSizeRefusal? }
  }

  function RadiusRefusal(layer: string, p: RadiusPlan, radius: real): (r: RadiusReport)
    requires !p.RadiusQuery?
    ensures !r.Success() && r.FeatureCount() == 0
    ensures r.ZoomRequiredFlag() <==> p.RadiusZoomRequired?
    ensures r.RadiusTooLargeFlag() <==> p.RadiusTooLarge?
  {
    if p.RadiusZoomRequired? then
      RadiusZoomRefusal(layer, radius,
        "Zoom in to at least level " + IntText(p.minZoom) + " to view " + layer + " data")
    else
      RadiusSizeRefusal(layer, radius,
        "Radius too large for " + layer + " data at this zoom level. Maximum: " + NumText(p.allowed)
        + "m. Please zoom in or use a smaller radius.")
  }

  function RadiusResultOf(layer: string, radius: real, maxFeatures: nat, reply: ArcGISReply): (r: RadiusReport)
    requires maxFeatures > 0
    ensures r.RadiusResult? && r.maxFeatures == maxFeatures && r.success == reply.success
    ensures r.featureCount == (if reply.success && Features(reply).Some? then |Features(reply).value| else 0)
    ensures r.isLimited <==> r.featureCount >= maxFeatures
  {
    var t := TallyOf(reply, maxFeatures);
    var fallback := "Found " + NatText(t.featureCount) + " " + layer + " features within " + NumText(radius) + "m";
    RadiusResult(reply.success, layer, radius, t.featureCount, maxFeatures, t.isLimited,
                 ResultMessage(reply, fallback, t, maxFeatures, "radius"))
  }

  // ------------------------------------------------------------ point queries

  /** The point-query zoom gate: only 'parcels' below zoom 12 is refused. */
  function PointRefused(layer: string, zoom: real): (refused: bool)
    ensures refused ==> layer == Parcels
    ensures layer == Parcels ==> (refused <==> FeatureLimit(zoom, layer) < 2000)
  {
    layer == Parcels && zoom < 12.0
  }

  datatype PointReport =
    | PointZoomRefusal(layer: string, message: string)
    | PointResult(success: bool, layer: string, featureCount: nat, message: string)
  {
    predicate Success() { PointResult? && success }
    function FeatureCount(): nat { if PointResult? then featureCount else 0 }
  }

  function PointResultOf(layer: string, reply: ArcGISReply): (r: PointReport)
    ensures r.PointResult? && r.success == reply.success
    ensures r.featureCount == (if reply.success && Features(reply).Some? then |Features(reply).value| else 0)
  {
    var n := TallyOf(reply, 1).featureCount;
    PointResult(reply.success, layer, n,
      if reply.message != "" then reply.message
      else if n > 0 then "Found " + NatText(n) + " " + layer + " feature(s) at this location"
      else "No " + layer + " features found at this location")
  }

  const PointZoomMessage := "Zoom in to at least level 12 to query parcel data at specific points"

  // ------------------------------------------------------------ the records as JSON

  function BoundsJson(b: Bounds): Json
  {
    JArr([JNum(b.xmin), JNum(b.ymin), JNum(b.xmax), JNum(b.ymax)])
  }

  /** `true` for a flag the record sets; absent otherwise. */
  function Flag(on: bool): Json
  {
    if on then JBool(true) else JUndefined
  }

  /** `{success: false, layer, county, bounds, message, featureCount: 0, <flag>: true}`. */
  function BboxRefusalJson(r: BboxReport, bounds: Json): (j: Json)
    requires !r.BboxResult?
    ensures Get(j, "success") == JBool(false) && Get(j, "featureCount") == JNum(0.0)
    ensures Get(j, "layer") == JStr(r.layer) && Get(j, "bounds") == bounds
    ensures Get(j, "message") == JStr(r.message)
    ensures Get(j, "zoomRequired") == Flag(r.BboxZoomRefusal?) && Get(j, "areaTooLarge") == Flag(r.BboxAreaRefusal?)
    ensures Get(j, "currentZoom") == JUndefined
  {
    var flag := if r.BboxZoomRefusal? then "zoomRequired" else "areaTooLarge";
    var fields := [("success", JBool(false)), ("layer", JStr(r.layer)), ("county", r.county),
                   ("bounds", bounds), ("message", JStr(r.message)),
                   ("featureCount", JNum(0.0)), (flag, JBool(true))];
    LookupFindsLast(fields, 0, "success");
    LookupFindsLast(fields, 1, "layer");
    LookupFindsLast(fields, 3, "bounds");
    LookupFindsLast(fields, 4, "message");
    LookupFindsLast(fields, 5, "featureCount");
    LookupFindsLast(fields, 6, flag);
    LookupAbsent(fields, if r.BboxZoomRefusal? then "areaTooLarge" else "zoomRequired");
    LookupAbsent(fields, "currentZoom");
    JObj(fields)
  }

  /** `{success, layer, county, bounds, featureCount, maxFeatures, isLimited, currentZoom, message}`. */
  function BboxResultJson(r: BboxReport, bounds: Json, zoom: real): (j: Json)
    requires r.BboxResult?
    ensures Get(j, "success") == JBool(r.success) && Get(j, "featureCount") == JNum(r.featureCount as real)
    ensures Get(j, "layer") == JStr(r.layer) && Get(j, "bounds") == bounds
    ensures Get(j, "message") == JStr(r.message) && Get(j, "currentZoom") == JStr(ToFixed1(zoom))
    ensures Get(j, "zoomRequired") == JUndefined && Get(j, "areaTooLarge") == JUndefined
  {
    var fields := [("success", JBool(r.success)), ("layer", JStr(r.layer)), ("county", r.county),
                   ("bounds", bounds), ("featureCount", JNum(r.featureCount as real)),
                   ("maxFeatures", JNum(r.maxFeatures as real)), ("isLimited", JBool(r.isLimited)),
                   ("currentZoom", JStr(ToFixed1(zoom))), ("message", JStr(r.message))];
    LookupFindsLast(fields, 0, "success");
    LookupFindsLast(fields, 1, "layer");
    LookupFindsLast(fields, 3, "bounds");
    LookupFindsLast(fields, 4, "featureCount");
    LookupFindsLast(fields, 7, "currentZoom");
    LookupFindsLast(fields, 8, "message");
    LookupAbsent(fields, "zoomRequired");
    LookupAbsent(fields, "areaTooLarge");
    JObj(fields)
  }

  /**
   * The object `handleArcGISBboxQuery` returns for `r`, echoing `bounds` (the input
   * array for a refusal, the queried box for a result) and with `zoom` the map's zoom
   * (written with one decimal in `currentZoom`).
   */
  function BboxJson(r: BboxReport, bounds: Json, zoom: real): (j: Json)
    ensures Get(j, "success") == JBool(r.Success())
    ensures Get(j, "layer") == JStr(r.layer) && Get(j, "bounds") == bounds
    ensures Get(j, "featureCount") == JNum(r.FeatureCount() as real)
    ensures Get(j, "message") == JStr(r.message)
    ensures Get(j, "zoomRequired") == Flag(r.ZoomRequiredFlag())
    ensures Get(j, "areaTooLarge") == Flag(r.AreaTooLargeFlag())
    ensures Get(j, "currentZoom") == (if r.BboxResult? then JStr(ToFixed1(zoom)) else JUndefined)
  {
    if r.BboxResult? then BboxResultJson(r, bounds, zoom) else BboxRefusalJson(r, bounds)
  }

  /** `{success: false, layer, center, radius, message, featureCount: 0, <flag>: true}`. */
  function RadiusRefusalJson(r: RadiusReport, center: Json): (j: Json)
    requires !r.RadiusResult?
    ensures Get(j, "success") == JBool(false) && Get(j, "featureCount") == JNum(0.0)
    ensures Get(j, "center") == center && Get(j, "radius") == JNum(r.radius)
    ensures Get(j, "message") == JStr(r.message)
    ensures Get(j, "zoomRequired") == Flag(r.RadiusZoomRefusal?) && Get(j, "radiusTooLarge") == Flag(r.RadiusSizeRefusal?)
    ensures Get(j, "currentZoom") == JUndefined
  {
    var flag := if r.RadiusZoomRefusal? then "zoomRequired" else "radiusTooLarge";
    var fields := [("success", JBool(false)), ("layer", JStr(r.layer)), ("center", center),
                   ("radius", JNum(r.radius)), ("message", JStr(r.message)),
                   ("featureCount", JNum(0.0)), (flag, JBool(true))];
    LookupFindsLast(fields, 0, "success");
    LookupFindsLast(fields, 2, "center");
    LookupFindsLast(fields, 3, "radius");
    LookupFindsLast(fields, 4, "message");
    LookupFindsLast(fields, 5, "featureCount");
    LookupFindsLast(fields, 6, flag);
    LookupAbsent(fields, if r.RadiusZoomRefusal? then "radiusTooLarge" else "zoomRequired");
    LookupAbsent(fields, "currentZoom");
    JObj(fields)
  }

  /** `{success, layer, center, radius, featureCount, maxFeatures, isLimited, currentZoom, message}`. */
  function RadiusResultJson(r: RadiusReport, center: Json, zoom: real): (j: Json)
    requires r.RadiusResult?
    ensures Get(j, "success") == JBool(r.success) && Get(j, "featureCount") == JNum(r.featureCount as real)
    ensures Get(j, "center") == center && Get(j, "radius") == JNum(r.radius)
    ensures Get(j, "message") == JStr(r.message) && Get(j, "currentZoom") == JStr(ToFixed1(zoom))
    ensures Get(j, "zoomRequired") == JUndefined && Get(j, "radiusTooLarge") == JUndefined
  {
    var fields := [("success", JBool(r.success)), ("layer", JStr(r.layer)), ("center", center),
                   ("radius", JNum(r.radius)), ("featureCount", JNum(r.featureCount as real)),
                   ("maxFeatures", JNum(r.maxFeatures as real)), ("isLimited", JBool(r.isLimited)),
                   ("currentZoom", JStr(ToFixed1(zoom))), ("message", JStr(r.message))];
    LookupFindsLast(fields, 0, "success");
    LookupFindsLast(fields, 2, "center");
    LookupFindsLast(fields, 3, "radius");
    LookupFindsLast(fields, 4, "featureCount");
    LookupFindsLast(fields, 7, "currentZoom");
    LookupFindsLast(fields, 8, "message");
    LookupAbsent(fields, "zoomRequired");
    LookupAbsent(fields, "radiusTooLarge");
    JObj(fields)
  }

  /** The object `handleArcGISRadiusQuery` returns for `r` around `center`. */
  function RadiusJson(r: RadiusReport, center: Json, zoom: real): (j: Json)
    ensures Get(j, "success") == JBool(r.Success())
    ensures Get(j, "center") == center && Get(j, "radius") == JNum(r.radius)
    ensures Get(j, "featureCount") == JNum(r.FeatureCount() as real)
    ensures Get(j, "message") == JStr(r.message)
    ensures Get(j, "zoomRequired") == Flag(r.ZoomRequiredFlag())
    ensures Get(j, "radiusTooLarge") == Flag(r.RadiusTooLargeFlag())
    ensures Get(j, "currentZoom") == (if r.RadiusResult? then JStr(ToFixed1(zoom)) else JUndefined)
  {
    if r.RadiusResult? then RadiusResultJson(r, center, zoom) else RadiusRefusalJson(r, center)
  }

  /** `{success, layer, point, county, featureCount, currentZoom, message}`. */
  function PointResultJson(r: PointReport, point: Json, county: Json, zoom: real): (j: Json)
    requires r.PointResult?
    ensures Get(j, "success") == JBool(r.success) && Get(j, "featureCount") == JNum(r.featureCount as real)
    ensures Get(j, "point") == point && Get(j, "county") == county
    ensures Get(j, "message") == JStr(r.message) && Get(j, "currentZoom") == JStr(ToFixed1(zoom))
    ensures Get(j, "zoomRequired") == JUndefined
  {
    var fields := [("success", JBool(r.success)), ("layer", JStr(r.layer)), ("point", point),
                   ("county", county), ("featureCount", JNum(r.featureCount as real)),
                   ("currentZoom", JStr(ToFixed1(zoom))), ("message", JStr(r.message))];
    LookupFindsLast(fields, 0, "success");
    LookupFindsLast(fields, 2, "point");
    LookupFindsLast(fields, 3, "county");
    LookupFindsLast(fields, 4, "featureCount");
    LookupFindsLast(fields, 5, "currentZoom");
    LookupFindsLast(fields, 6, "message");
    LookupAbsent(fields, "zoomRequired");
    JObj(fields)
  }

  /** `{success: false, layer, point, county, message, featureCount: 0, zoomRequired: true}`. */
  function PointRefusalJson(r: PointReport, point: Json, county: Json): (j: Json)
    requires r.PointZoomRefusal?
    ensures Get(j, "success") == JBool(false) && Get(j, "featureCount") == JNum(0.0)
    ensures Get(j, "point") == point && Get(j, "county") == county
    ensures Get(j, "message") == JStr(r.message) && Get(j, "zoomRequired") == JBool(true)
    ensures Get(j, "currentZoom") == JUndefined
  {
    var fields := [("success", JBool(false)), ("layer", JStr(r.layer)), ("point", point),
                   ("county", county), ("message", JStr(r.message)),
                   ("featureCount", JNum(0.0)), ("zoomRequired", JBool(true))];
    LookupFindsLast(fields, 0, "success");
    LookupFindsLast(fields, 2, "point");
    LookupFindsLast(fields, 3, "county");
    LookupFindsLast(fields, 4, "message");
    LookupFindsLast(fields, 5, "featureCount");
    LookupFindsLast(fields, 6, "zoomRequired");
    LookupAbsent(fields, "currentZoom");
    JObj(fields)
  }

  /** The object `handleArcGISPointQuery` returns for `r` at `point`. */
  function PointJson(r: PointReport, point: Json, county: Json, zoom: real): (j: Json)
    ensures Get(j, "success") == JBool(r.Success())
    ensures Get(j, "point") == point && Get(j, "county") == county
    ensures Get(j, "featureCount") == JNum(r.FeatureCount() as real)
    ensures Get(j, "message") == JStr(r.message)
    ensures Get(j, "zoomRequired") == Flag(r.PointZoomRefusal?)
    ensures Get(j, "currentZoom") == (if r.PointResult? then JStr(ToFixed1(zoom)) else JUndefined)
  {
    if r.PointResult? then PointResultJson(r, point, county, zoom) else PointRefusalJson(r, point, county)
  }
}
