/**
 The mapping library's side of the scripts, kept as plain values: style
 option records, rendered layers and the identities of the layers a map can hold.
 */
module MapLayers {
  import opened GeoJson

  /** A CSS hex colour such as "#ff0000". */
  type Color = string

  /** Options given to a circle marker. */
  datatype MarkerStyle = MarkerStyle(
    radius: real,
    fillColor: Color,
    color: Color,
    weight: real,
    opacity: real,
    fillOpacity: real)

  /** Options returned by a GeoJSON layer's `style` callback. */
  datatype PathStyle = PathStyle(
    color: Color,
    weight: real,
    fillOpacity: real,
    fillColor: Color)

  datatype LatLng = LatLng(lat: real, lng: real)

  /** One alert region as drawn: its geometry, its style and its bound popup markup. */
  datatype AlertShape = AlertShape(geometry: Geometry, style: PathStyle, popup: string)

  /** A layer put into a layer group. */
  datatype Layer =
    | CircleMarker(at: LatLng, style: MarkerStyle, popup: string)
    | GeoJsonLayer(shapes: seq<AlertShape>)

  /** The layers the combined map can attach: the base tiles, the two groups and the radar overlay. */
  datatype LayerId = BaseTiles | WeatherGroup | QuakeGroup | RadarTiles
}
