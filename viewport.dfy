/**
 * `handleMapGetBounds` (public/app.js): the current view, optionally padded, in one
 * of three shapes, with its width and height.
 */
module Viewport {
  import opened JsValues
  import opened Throttle

  type Point = (real, real)

  /** The three shapes the bounds are reported in. */
  datatype BoundsShape =
    | BboxArray(west: real, south: real, east: real, north: real)
    | GeoJsonPolygon(ring: seq<Point>)
    | BoundsObject(west: real, south: real, east: real, north: real)

  datatype BoundsReport = BoundsReport(
    shape: BoundsShape, format: string, center: Point, zoom: real, padding: Json,
    width: real, height: real, message: string)

  /** The closed ring of the 'geojson' shape: SW, SE, NE, NW, SW. */
  function Ring(b: Bounds): (ring: seq<Point>)
    ensures |ring| == 5 && ring[0] == ring[4]
    // consecutive corners share a coordinate: each edge is axis-aligned
    ensures forall i :: 0 <= i < 4 ==> ring[i].0 == ring[i + 1].0 || ring[i].1 == ring[i + 1].1
  {
    [(b.xmin, b.ymin), (b.xmax, b.ymin), (b.xmax, b.ymax), (b.xmin, b.ymax), (b.xmin, b.ymin)]
  }

  /** Reading the box back from a ring: its first and third corners. */
  function RingBounds(ring: seq<Point>): Bounds
    requires |ring| >= 3
  {
    Bounds(ring[0].0, ring[0].1, ring[2].0, ring[2].1)
  }

  lemma RingRoundTrip(b: Bounds)
    ensures RingBounds(Ring(b)) == b
  {
  }

  /** The view expanded by `d` degrees on every side. */
  function Pad(b: Bounds, d: real): (p: Bounds)
    ensures p.xmin == b.xmin - d && p.ymin == b.ymin - d && p.xmax == b.xmax + d && p.ymax == b.ymax + d
  {
    Bounds(b.xmin - d, b.ymin - d, b.xmax + d, b.ymax + d)
  }

  /** `adjustedBounds`: the view padded by `padding` pixels when that is a positive number. */
  function AdjustedBounds(view: Bounds, padding: Json, degreesPerPixel: real): Bounds
  {
    if padding.JNum? && padding.n > 0.0 then Pad(view, padding.n * degreesPerPixel) else view
  }

  /** The format after the destructuring default ('bbox' only for undefined). */
  function FormatOf(format: Json): Json
  {
    OrIfUndefined(format, JStr("bbox"))
  }

  /**
   * The report for the current view `view` at `zoom` and `center`. `degreesPerPixel`
   * stands for the pixel-to-degree conversion, which is floating-point geometry.
   */
  function GetBounds(view: Bounds, zoom: real, center: Point, format: Json, padding: Json, degreesPerPixel: real): (r: BoundsReport)
    ensures (padding.JNum? && padding.n > 0.0) ==>
      && r.width == Abs(view.xmax - view.xmin + 2.0 * padding.n * degreesPerPixel)
      && r.height == Abs(view.ymax - view.ymin + 2.0 * padding.n * degreesPerPixel)
    ensures !(padding.JNum? && padding.n > 0.0) ==> r.width == Abs(view.xmax - view.xmin) && r.height == Abs(view.ymax - view.ymin)
    ensures format == JUndefined || format == JStr("bbox") ==> r.shape.BboxArray? && r.format == "bbox"
    ensures format == JStr("geojson") ==> r.shape.GeoJsonPolygon? && r.format == "geojson"
    ensures format != JUndefined && format != JStr("bbox") && format != JStr("geojson") ==> r.shape.BoundsObject? && r.format == "bounds"
    ensures r.padding == OrIfUndefined(padding, JNum(0.0))
    // the reported box is the adjusted view, in the shape the format asks for
    ensures var b := AdjustedBounds(view, padding, degreesPerPixel);
      var fmt := FormatOf(format);
      && (fmt == JStr("bbox") ==> r.shape == BboxArray(b.xmin, b.ymin, b.xmax, b.ymax))
      && (fmt == JStr("geojson") ==> r.shape == GeoJsonPolygon(Ring(b)))
      && (fmt != JStr("bbox") && fmt != JStr("geojson") ==> r.shape == BoundsObject(b.xmin, b.ymin, b.xmax, b.ymax))
    ensures r.center == center && r.zoom == zoom
    ensures r.message == "Current map bounds retrieved in " + JsText(FormatOf(format)) + " format"
  {
    var pad := OrIfUndefined(padding, JNum(0.0));
    var b := AdjustedBounds(view, padding, degreesPerPixel);
    var fmt := FormatOf(format);
    var shape :=
      if fmt == JStr("bbox") then BboxArray(b.xmin, b.ymin, b.xmax, b.ymax)
      else if fmt == JStr("geojson") then GeoJsonPolygon(Ring(b))
      else BoundsObject(b.xmin, b.ymin, b.xmax, b.ymax);
    var name := if fmt == JStr("bbox") then "bbox" else if fmt == JStr("geojson") then "geojson" else "bounds";
    BoundsReport(shape, name, center, zoom, pad, Abs(b.xmax - b.xmin), Abs(b.ymax - b.ymin),
                 "Current map bounds retrieved in " + JsText(fmt) + " format")
  }

  /**
   * The 'geojson' shape is the closed ring of the adjusted view: the box can be read
   * back from it, and its edges measure the reported width and height.
   */
  lemma GeoJsonShapeIsClosedRing(view: Bounds, zoom: real, center: Point, padding: Json, degreesPerPixel: real)
    ensures var r := GetBounds(view, zoom, center, JStr("geojson"), padding, degreesPerPixel);
      var b := AdjustedBounds(view, padding, degreesPerPixel);
      && r.shape == GeoJsonPolygon(Ring(b))
      && |r.shape.ring| == 5 && r.shape.ring[0] == r.shape.ring[4]
      && RingBounds(r.shape.ring) == b
      && r.width == Abs(r.shape.ring[1].0 - r.shape.ring[0].0) && r.height == Abs(r.shape.ring[2].1 - r.shape.ring[1].1)
  {
    RingRoundTrip(AdjustedBounds(view, padding, degreesPerPixel));
  }
}
