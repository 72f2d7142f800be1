/**
 The combined map (combined/combined.js): earthquake and weather-alert styling,
 the popups, the two fetch handlers that refill their layer groups, and the
 checkbox handlers that attach and detach layers.
 */
module Combined {
  import opened Js
  import opened GeoJson
  import opened MapLayers
  import opened Palette
  import opened Popups

  /*
   * Earthquake colour
   */

  /** The `colors` object of `quakeColor`, as the literal writes it: highest threshold first. */
  const QuakeColorTable: seq<Property<Color>> :=
    [Property(7, DarkRed), Property(6, Red), Property(5, OrangeRed), Property(4, Orange), Property(3, Yellow)]

  /**
   Walking `order`, the colour of the first entry whose threshold the magnitude
   reaches (the key string compares as its number); green when none is reached.
   */
  function FirstReached(order: seq<Property<Color>>, mag: real): Color {
    if order == [] then Green
    else if mag >= order[0].key as real then order[0].value
    else FirstReached(order[1..], mag)
  }

  /** `for (threshold in colors)` visits the keys 3, 4, 5, 6, 7 in that order. */
  lemma ForInVisitsAscending()
    ensures IndexOrder(QuakeColorTable)
         == [Property(3, Yellow), Property(4, Orange), Property(5, OrangeRed), Property(6, Red), Property(7, DarkRed)]
  {
    IndexOrderOfDescending(QuakeColorTable);
  }

  /** A magnitude below every threshold of the walk falls through to green. */
  lemma {:induction false} FirstReachedNone(order: seq<Property<Color>>, mag: real)
    requires forall i :: 0 <= i < |order| ==> mag < order[i].key as real
    ensures FirstReached(order, mag) == Green
  {
    if order != [] {
      FirstReachedNone(order[1..], mag);
    }
  }

  /** The colour `quakeColor` returns, as a function of the magnitude. */
  function QuakeColorOf(mag: real): Color {
    FirstReached(IndexOrder(QuakeColorTable), mag)
  }

  /**
   Because threshold 3 is tested first, every magnitude from 3 up is yellow and
   every smaller one green: the four redder colours are never returned.
   */
  lemma QuakeColorCollapses(mag: real)
    ensures QuakeColorOf(mag) == if mag >= 3.0 then Yellow else Green
  {
    ForInVisitsAscending();
    var order := IndexOrder(QuakeColorTable);
    if mag < 3.0 {
      FirstReachedNone(order, mag);
    }
  }

  /** `quakeColor`: the for-in loop over the colour table, returning at the first threshold reached. */
  method QuakeColor(mag: real) returns (c: Color)
    ensures c == QuakeColorOf(mag)
    ensures c == if mag >= 3.0 then Yellow else Green
  {
    QuakeColorCollapses(mag);
    var order := IndexOrder(QuakeColorTable);
    var i := 0;
    while i < |order|
      invariant 0 <= i <= |order|
      invariant FirstReached(order[i..], mag) == QuakeColorOf(mag)
    {
      if mag >= order[i].key as real {
        return order[i].value;
      }
      assert order[i..][1..] == order[i + 1..];
      i := i + 1;
    }
    return Green;
  }

  /*
   * Earthquake size
   */

  function Min(a: real, b: real): real {
    if a <= b then a else b
  }

  function Max(a: real, b: real): real {
    if a >= b then a else b
  }

  /** `quakeSize`: three times the magnitude, held between 6 and 20. */
  function QuakeSize(mag: real): (r: real)
    ensures 6.0 <= r <= 20.0
    ensures 2.0 <= mag <= 20.0 / 3.0 ==> r == 3.0 * mag
    ensures mag <= 2.0 ==> r == 6.0
    ensures mag >= 20.0 / 3.0 ==> r == 20.0
  {
    Max(6.0, Min(20.0, mag * 3.0))
  }

  /** A stronger quake is never drawn smaller. */
  lemma QuakeSizeMonotone(m1: real, m2: real)
    requires m1 <= m2
    ensures QuakeSize(m1) <= QuakeSize(m2)
  {
  }

  /*
   * Weather alert colour
   */

  /** `weatherAlertColor`: a switch on the severity; anything unmatched, a missing value included, is orange. */
  function WeatherAlertColor(severity: Option<string>): (r: Color)
    ensures r == DarkRed <==> severity == Some("Extreme")
    ensures r == Red <==> severity == Some("Severe")
    ensures r == Yellow <==> severity == Some("Minor")
    ensures r == Orange <==> severity !in {Some("Extreme"), Some("Severe"), Some("Minor")}
  {
    match severity
    case Some("Extreme") => DarkRed
    case Some("Severe") => Red
    case Some("Minor") => Yellow
    case _ => Orange
  }

  /*
   * Style records
   */

  /** The options `makeQuakeMarker` builds, as a function of the magnitude. */
  function QuakeMarkerOptions(mag: real): MarkerStyle {
    MarkerStyle(
      radius := QuakeSize(mag),
      fillColor := QuakeColorOf(mag),
      color := Black,
      weight := 1.0,
      opacity := 1.0,
      fillOpacity := 0.8)
  }

  /** `makeQuakeMarker`: sized by `quakeSize`, filled by `quakeColor`, with a thin black outline. */
  method MakeQuakeMarker(magnitude: real) returns (options: MarkerStyle)
    ensures options == QuakeMarkerOptions(magnitude)
    ensures options.radius == QuakeSize(magnitude)
    ensures options.fillColor == if magnitude >= 3.0 then Yellow else Green
    ensures options.color == Black && options.weight == 1.0 && options.opacity == 1.0
    ensures options.fillOpacity == 0.8
  {
    var fill := QuakeColor(magnitude);
    options := MarkerStyle(
      radius := QuakeSize(magnitude),
      fillColor := fill,
      color := Black,
      weight := 1.0,
      opacity := 1.0,
      fillOpacity := 0.8);
  }

  /** The `style` callback of the alerts layer: outline and fill both in the severity's colour. */
  function WeatherStyle(feature: AlertFeature): (s: PathStyle)
    ensures s.color == WeatherAlertColor(feature.properties.severity)
    ensures s.fillColor == s.color
    ensures s.weight == 2.0 && s.fillOpacity == 0.3
  {
    var alertColor := WeatherAlertColor(feature.properties.severity);
    PathStyle(color := alertColor, weight := 2.0, fillOpacity := 0.3, fillColor := alertColor)
  }

  /*
   * Popups
   */

  const WeatherHeading := "<div class=\"weather-popup\"><h3>Weather Alert</h3>"

  const WeatherFieldNames: seq<string> := ["Event", "Severity", "Headline", "Area", "Effective", "Expires"]

  /** `t ? makeReadableDate(t) : 'N/A'` */
  function DateOr(fmt: Formats, t: Option<string>): string {
    if TruthyText(t) then fmt.localeDate(IsoText(t.value)) else "N/A"
  }

  /** The six paragraphs of an alert popup; each missing or empty property shows "N/A". */
  function WeatherFields(info: AlertProperties, fmt: Formats): (r: seq<Field>)
    ensures |r| == |WeatherFieldNames|
    ensures forall i :: 0 <= i < |r| ==> r[i].name == WeatherFieldNames[i]
    ensures r[0].value == (if TruthyText(info.event) then info.event.value else "N/A")
    ensures r[1].value == (if TruthyText(info.severity) then info.severity.value else "N/A")
    ensures r[2].value == (if TruthyText(info.headline) then info.headline.value else "N/A")
    ensures r[3].value == (if TruthyText(info.areaDesc) then info.areaDesc.value else "N/A")
    ensures !TruthyText(info.effective) ==> r[4].value == "N/A"
    ensures TruthyText(info.effective) ==> r[4].value == fmt.localeDate(IsoText(info.effective.value))
    ensures !TruthyText(info.expires) ==> r[5].value == "N/A"
    ensures TruthyText(info.expires) ==> r[5].value == fmt.localeDate(IsoText(info.expires.value))
  {
    [ Field("Event", TextOr(info.event, "N/A")),
      Field("Severity", TextOr(info.severity, "N/A")),
      Field("Headline", TextOr(info.headline, "N/A")),
      Field("Area", TextOr(info.areaDesc, "N/A")),
      Field("Effective", DateOr(fmt, info.effective)),
      Field("Expires", DateOr(fmt, info.expires)) ]
  }

  /** The popup bound to each alert region: heading, the six paragraphs, nothing after them. */
  function WeatherPopup(feature: AlertFeature, fmt: Formats): (r: string)
    ensures StartsWith(r, WeatherHeading)
    ensures EndsWith(r, "</p></div>")
    ensures forall i :: 0 <= i < |WeatherFieldNames| ==> Contains(r, Paragraph(WeatherFields(feature.properties, fmt)[i]))
  {
    var fields := WeatherFields(feature.properties, fmt);
    PopupClosesLastParagraph(WeatherHeading, fields);
    Popup(WeatherHeading, fields, "")
  }

  /** The placeholder this map prints for a missing place. */
  const UnknownPlace := "Unknown"

  /** The popup bound to each earthquake marker: the shared earthquake popup, with "Unknown" for a missing place. */
  function QuakePopupText(quake: QuakeFeature, fmt: Formats): (r: string)
    ensures !TruthyText(quake.properties.place) ==> Contains(r, Paragraph(Field("Location", "Unknown")))
  {
    QuakePopup(quake, UnknownPlace, fmt)
  }

  /*
   * Layers
   */

  /** The marker the success handler adds for one quake: at `[coords[1], coords[0]]`, i.e. latitude first. */
  function QuakeMarker(quake: QuakeFeature, fmt: Formats): Layer {
    var coords := quake.coordinates;
    CircleMarker(LatLng(Latitude(coords), Longitude(coords)), QuakeMarkerOptions(quake.properties.mag), QuakePopupText(quake, fmt))
  }

  /** One pass of the success handler's loop: the marker for one quake, with its popup bound. */
  method BuildQuakeMarker(quake: QuakeFeature, fmt: Formats) returns (marker: Layer)
    ensures marker == QuakeMarker(quake, fmt)
    ensures marker.at == LatLng(quake.coordinates[1], quake.coordinates[0])
    ensures marker.style.radius == QuakeSize(quake.properties.mag)
    ensures marker.style.fillColor == if quake.properties.mag >= 3.0 then Yellow else Green
  {
    var coords := quake.coordinates;
    var lat, lng := Latitude(coords), Longitude(coords);
    var magnitude := quake.properties.mag;
    var options := MakeQuakeMarker(magnitude);
    var popupText := QuakePopupText(quake, fmt);
    marker := CircleMarker(LatLng(lat, lng), options, popupText);
  }

  /** The marker of one quake, as a value `Collect` can apply. */
  function MarkerFor(fmt: Formats): QuakeFeature -> Layer {
    quake => QuakeMarker(quake, fmt)
  }

  /** The markers of a feed, one per feature in feed order. */
  function QuakeMarkers(features: seq<QuakeFeature>, fmt: Formats): (markers: seq<Layer>)
    ensures |markers| == |features|
    ensures forall i :: 0 <= i < |features| ==> markers[i] == QuakeMarker(features[i], fmt)
  {
    Collect(features, MarkerFor(fmt))
  }

  function AlertShapeOf(feature: AlertFeature, fmt: Formats): AlertShape {
    AlertShape(feature.geometry, WeatherStyle(feature), WeatherPopup(feature, fmt))
  }

  /** The single GeoJSON layer built from an alert collection: one styled region with its popup per feature. */
  function AlertsLayer(features: seq<AlertFeature>, fmt: Formats): (l: Layer)
    ensures l.GeoJsonLayer? && |l.shapes| == |features|
    ensures forall i :: 0 <= i < |features| ==> l.shapes[i] == AlertShapeOf(features[i], fmt)
  {
    GeoJsonLayer(seq(|features|, i requires 0 <= i < |features| => AlertShapeOf(features[i], fmt)))
  }

  /*
   * Status lines
   */

  const QuakesLoadedTail := " earthquakes loaded"
  const AlertsLoadedTail := " weather alerts loaded"
  const QuakesFailed := "Failed to load earthquake data"
  const AlertsFailed := "Failed to load weather alerts"

  /** `n + tail`: the status after a successful load of n features. */
  function LoadedStatus(n: nat, tail: string): (s: string)
    ensures ShowsCount(s, "", tail, n)
    ensures forall m: nat :: ShowsCount(s, "", tail, m) ==> m == n
  {
    CountInText("", n, tail);
    assert "" + NatText(n) + tail == NatText(n) + tail;
    NatText(n) + tail
  }

  /** A loaded status never reads like the failure status, so the two outcomes are distinguishable. */
  lemma LoadedIsNotFailed(n: nat)
    ensures LoadedStatus(n, QuakesLoadedTail) != QuakesFailed
    ensures LoadedStatus(n, AlertsLoadedTail) != AlertsFailed
  {
    assert LoadedStatus(n, QuakesLoadedTail)[0] == NatText(n)[0];
    assert LoadedStatus(n, AlertsLoadedTail)[0] == NatText(n)[0];
    assert IsDigit(NatText(n)[0]);
  }

  /*
   * Attaching and detaching layers
   */

  predicate NoDuplicates(layers: seq<LayerId>) {
    forall i, j :: 0 <= i < j < |layers| ==> layers[i] != layers[j]
  }

  /** `removeLayer`: the map's layers without `layer`, the rest in their order. */
  function Without(layers: seq<LayerId>, layer: LayerId): (r: seq<LayerId>)
    ensures layer !in r
    ensures forall other :: other != layer ==> (other in r <==> other in layers)
    ensures NoDuplicates(layers) ==> NoDuplicates(r)
  {
    if layers == [] then []
    else if layers[0] == layer then Without(layers[1..], layer)
    else
      var rest := Without(layers[1..], layer);
      assert NoDuplicates(layers) ==> layers[0] !in layers[1..];
      [layers[0]] + rest
  }

  /** The map's layers after `showHideLayer(layer, show)`: add if missing and wanted, remove if present and unwanted. */
  function ShowHide(layers: seq<LayerId>, layer: LayerId, show: bool): (r: seq<LayerId>)
    ensures layer in r <==> show
    ensures forall other :: other != layer ==> (other in r <==> other in layers)
    ensures NoDuplicates(layers) ==> NoDuplicates(r)
    ensures (layer in layers) == show ==> r == layers
  {
    if show then (if layer in layers then layers else layers + [layer])
    else (if layer in layers then Without(layers, layer) else layers)
  }

  /** Repeating a toggle changes nothing: attaching twice never duplicates, detaching twice is harmless. */
  lemma ShowHideIdempotent(layers: seq<LayerId>, layer: LayerId, show: bool)
    ensures ShowHide(ShowHide(layers, layer, show), layer, show) == ShowHide(layers, layer, show)
  {
  }

  /** Only the last of several toggles of one layer decides whether it is attached. */
  lemma LastToggleWins(layers: seq<LayerId>, layer: LayerId, first: bool, second: bool)
    requires NoDuplicates(layers)
    ensures layer in ShowHide(ShowHide(layers, layer, first), layer, second) <==> second
    ensures NoDuplicates(ShowHide(ShowHide(layers, layer, first), layer, second))
  {
  }

  /** `show ? 'block' : 'none'` */
  function Display(show: bool): (d: string)
    ensures d == "block" <==> show
    ensures d == "none" <==> !show
  {
    if show then "block" else "none"
  }

  /**
   The page's mutable state: the layers attached to `myMap`, the contents of
   the two layer groups, the two status lines and the legends' display values.
   */
  class CombinedMap {
    var attached: seq<LayerId>
    var weatherLayers: seq<Layer>
    var quakeLayers: seq<Layer>
    var weatherStatus: string
    var quakeStatus: string
    var legendDisplay: map<string, string>

    /** No layer is attached twice. */
    ghost predicate Valid()
      reads this`attached
    {
      NoDuplicates(attached)
    }

    /** The map with its base tiles, and two empty layer groups. */
    constructor ()
      ensures Valid()
      ensures attached == [BaseTiles]
      ensures weatherLayers == [] && quakeLayers == []
      ensures weatherStatus == "" && quakeStatus == ""
      ensures legendDisplay == map[]
    {
      attached := [BaseTiles];
      weatherLayers, quakeLayers := [], [];
      weatherStatus, quakeStatus := "", "";
      legendDisplay := map[];
    }

    /** The `.done` handler of the alerts request: the group is emptied, then holds the one GeoJSON layer. */
    method OnAlertsLoaded(features: seq<AlertFeature>, fmt: Formats)
      requires Valid()
      modifies this`weatherLayers, this`weatherStatus
      ensures Valid()
      ensures weatherLayers == [AlertsLayer(features, fmt)]
      ensures weatherStatus == LoadedStatus(|features|, AlertsLoadedTail)
    {
      weatherLayers := [];
      var geoLayer := AlertsLayer(features, fmt);
      weatherLayers := weatherLayers + [geoLayer];
      weatherStatus := LoadedStatus(|features|, AlertsLoadedTail);
    }

    /** The `.fail` handler of the alerts request: only the alerts status changes. */
    method OnAlertsFailed()
      requires Valid()
      modifies this`weatherStatus
      ensures Valid()
      ensures weatherStatus == AlertsFailed
    {
      weatherStatus := AlertsFailed;
    }

    /**
     The `success` handler of the earthquake request: the group is emptied, then
     one marker per feature is added in feed order.
     */
    method OnQuakesLoaded(features: seq<QuakeFeature>, fmt: Formats)
      requires Valid()
      modifies this`quakeLayers, this`quakeStatus
      ensures Valid()
      ensures quakeLayers == QuakeMarkers(features, fmt)
      ensures quakeStatus == LoadedStatus(|features|, QuakesLoadedTail)
    {
      quakeLayers := [];
      for i := 0 to |features|
        invariant quakeLayers == QuakeMarkers(features[..i], fmt)
      {
        var marker := BuildQuakeMarker(features[i], fmt);
        CollectExtend(features, i, MarkerFor(fmt));
        quakeLayers := quakeLayers + [marker];
      }
      assert features[..|features|] == features;
      quakeStatus := LoadedStatus(|features|, QuakesLoadedTail);
    }

    /** The `error` handler of the earthquake request: only the earthquake status changes. */
    method OnQuakesFailed()
      requires Valid()
      modifies this`quakeStatus
      ensures Valid()
      ensures quakeStatus == QuakesFailed
    {
      quakeStatus := QuakesFailed;
    }

    /** `showHideLayer`: attach `layer` when `show` and it is missing, detach it when not `show` and present. */
    method ShowHideLayer(layer: LayerId, show: bool)
      requires Valid()
      modifies this`attached
      ensures Valid()
      ensures attached == ShowHide(old(attached), layer, show)
      ensures layer in attached <==> show
      ensures forall other :: other != layer ==> (other in attached <==> other in old(attached))
    {
      if show {
        if layer !in attached {
          attached := attached + [layer];
        }
      } else {
        if layer in attached {
          attached := Without(attached, layer);
        }
      }
    }

    /** `showHideLegend`: the legend is displayed exactly when `show`. */
    method ShowHideLegend(legendId: string, show: bool)
      modifies this`legendDisplay
      ensures legendDisplay == old(legendDisplay)[legendId := Display(show)]
    {
      legendDisplay := legendDisplay[legendId := Display(show)];
    }

    /** The weather checkbox's `onchange`: the alerts group and its legend follow the box. */
    method OnWeatherToggle(checked: bool)
      requires Valid()
      modifies this`attached, this`legendDisplay
      ensures Valid()
      ensures attached == ShowHide(old(attached), WeatherGroup, checked)
      ensures legendDisplay == old(legendDisplay)["weather-legend" := Display(checked)]
    {
      ShowHideLayer(WeatherGroup, checked);
      ShowHideLegend("weather-legend", checked);
    }

    /** The earthquake checkbox's `onchange`: the quake group and its legend follow the box. */
    method OnQuakeToggle(checked: bool)
      requires Valid()
      modifies this`attached, this`legendDisplay
      ensures Valid()
      ensures attached == ShowHide(old(attached), QuakeGroup, checked)
      ensures legendDisplay == old(legendDisplay)["earthquake-legend" := Display(checked)]
    {
      ShowHideLayer(QuakeGroup, checked);
      ShowHideLegend("earthquake-legend", checked);
    }

    /** The radar checkbox's `onchange`: only the radar overlay follows the box; it has no legend. */
    method OnRadarToggle(checked: bool)
      requires Valid()
      modifies this`attached
      ensures Valid()
      ensures attached == ShowHide(old(attached), RadarTiles, checked)
    {
      ShowHideLayer(RadarTiles, checked);
    }
  }
}
