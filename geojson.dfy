/**
 The GeoJSON feature shapes the two feeds deliver, reduced to the members the
 map scripts read.
 */
module GeoJson {
  import opened Js

  /** A GeoJSON position: longitude, latitude and optionally depth/elevation, in that order. */
  type Position = p: seq<real> | |p| >= 2 witness [0.0, 0.0]

  function Longitude(p: Position): real { p[0] }

  function Latitude(p: Position): real { p[1] }

  /** `coords[2]`: undefined when the position has only two members. */
  function Depth(p: Position): Option<real> {
    if |p| > 2 then Some(p[2]) else None
  }

  /** Properties of one seismic-feed feature; `mag` is taken to be a defined number. */
  datatype QuakeProperties = QuakeProperties(
    mag: real,
    place: Option<string>,
    time: int,
    url: Option<string>)

  datatype QuakeFeature = QuakeFeature(coordinates: Position, properties: QuakeProperties)

  /** Properties of one weather-alert feature. */
  datatype AlertProperties = AlertProperties(
    event: Option<string>,
    severity: Option<string>,
    headline: Option<string>,
    areaDesc: Option<string>,
    effective: Option<string>,
    expires: Option<string>)

  /** Region geometry of an alert, passed through to the renderer untouched. */
  datatype Geometry = Polygons(rings: seq<seq<Position>>)

  datatype AlertFeature = AlertFeature(geometry: Geometry, properties: AlertProperties)
}
