# Earthquake and weather-alert maps: a Dafny model

The repository holds two browser maps built on Leaflet.

- `earthquake/earthquake.js` draws the last day of USGS earthquakes as circle
  markers. Each marker is coloured and sized by a six-band magnitude table
  (`pickColor`, `pickSize`, `makeMarkerStyle`). Each one carries an HTML popup,
  and a header line shows how many quakes were loaded.
- `combined/combined.js` draws the same earthquakes together with National
  Weather Service alert polygons and a radar overlay. Its earthquake colour
  (`quakeColor`) walks an object literal with `for … in`. Its radius is a clamped
  linear rule (`quakeSize`). Alert polygons are coloured by severity
  (`weatherAlertColor`). The two fetch handlers refill a layer group and write
  a status line, and the three checkboxes attach and detach layers
  (`showHideLayer`, `showHideLegend`).

The model is split into these modules:

- `Js` (js.dfy) covers the JavaScript semantics the scripts rely on:
  - truthiness of strings and numbers, as tested by `||` and `?:`;
  - how `features.length` prints, with a round-trip to the number it shows;
  - own-property enumeration order for integer keys (ECMA-262, section 10.1.11.1,
    OrdinaryOwnPropertyKeys);
  - the platform formatters, passed in as uninterpreted functions.
- `GeoJson` (geojson.dfy) holds the feed records.
- `MapLayers` (map_layers.dfy) holds the style records and layers.
- `Palette` (palette.dfy) holds the colours and the magnitude bands.
- `Popups` (popups.dfy) holds the popup markup that both maps assemble.
- `Earthquake` (earthquake.dfy) models the standalone map.
- `Combined` (combined.dfy) models the combined map. Its page state is the
  class `CombinedMap`: the layers attached to the map, the two layer groups,
  the two status lines and the legends' display values.
- `Variants` (variants.dfy) relates the two maps. It also holds the corrected
  colour walk.

## Model

| member | source | states |
|---|---|---|
| Js.TextOr | combined/combined.js:80-83 | `s \|\| fallback` on a string property gives the string when it is present and non-empty, and the fallback otherwise |
| Js.NumberOr | earthquake/earthquake.js:62 | `mag \|\| 'N/A'` prints the number when it is non-zero, and the fallback for 0 |
| Js.NatText | earthquake/earthquake.js:79-80 | a printed count is a non-empty digit string with no leading zero (except "0" itself) |
| Js.NatTextRoundTrip | earthquake/earthquake.js:79-80 | reading the printed count back as a decimal gives the count |
| Js.NatTextInjective | earthquake/earthquake.js:79-80 | two different counts never print the same |
| Js.CountInText | earthquake/earthquake.js:79-80 | `lead + n + tail` starts with lead, ends with tail, and holds between them the digits of n, without leading zeros, and of no other number |
| Js.IndexOrderPermutes | combined/combined.js:14-22 | for a literal with distinct array-index keys (as the colour table has), the for-in visiting order holds the same key/value pairs as the literal, each as often |
| Js.IndexOrderSorted | combined/combined.js:14-22 | `Js.IndexOrder`, the for-in visiting order, visits integer keys in ascending order, whatever order the literal writes them in |
| Js.IndexOrderOfDescending | combined/combined.js:14-22 | a literal written with strictly descending keys is visited in exactly the reverse of its written order |
| Palette.Reach | earthquake/earthquake.js:10-26 | the band of a magnitude (how many of the thresholds 3..7 it reaches) is below 6, so it indexes both six-entry tables |
| Palette.ReachBands | earthquake/earthquake.js:10-26 | the band is 0 below 3, 1 on [3,4), 2 on [4,5), 3 on [5,6), 4 on [6,7) and 5 from 7 up |
| Palette.CountReachedMonotone | earthquake/earthquake.js:10-26 | a larger magnitude never reaches fewer thresholds |
| Palette.LevelOfScale | earthquake/earthquake.js:10-17 | the six scale colours are distinct, so each colour's level is its band |
| Earthquake.PickColorByBand | earthquake/earthquake.js:10-17 | `Earthquake.PickColor` (`pickColor`) returns the colour of the magnitude's band: dark red from 7, red from 6, orange-red from 5, orange from 4, yellow from 3, green below |
| Earthquake.PickColorMonotone | earthquake/earthquake.js:10-17 | a stronger quake is never drawn in a calmer colour |
| Earthquake.PickSize | earthquake/earthquake.js:19-26 | the radius is one of 6, 8, 10, 12, 16, 20; it is 20 exactly when m >= 7 and 6 exactly when m < 3 |
| Earthquake.PickSizeByBand | earthquake/earthquake.js:19-26 | the radius is the size step of the magnitude's band |
| Earthquake.PickSizeMonotone | earthquake/earthquake.js:19-26 | the radius never decreases as the magnitude grows |
| Earthquake.MarkerStyleByBand | earthquake/earthquake.js:33-42 | `Earthquake.MakeMarkerStyle` (`makeMarkerStyle`) has the band's radius and colour, a black outline, weight 1, opacity 1 and fill opacity 0.8 |
| Earthquake.PopupText | earthquake/earthquake.js:59-74 | the standalone map binds the shared earthquake popup (`Popups.QuakePopup`); a missing place shows "Unknown location" |
| Earthquake.HeaderText | earthquake/earthquake.js:78-80 | the header reads "Displaying ", then the number of features in decimal without leading zeros, then " earthquakes from the past 24 hours worldwide" |
| Popups.ParagraphsShowEach | earthquake/earthquake.js:62-66 | every field's `<p><strong>…:</strong> …</p>` paragraph occurs in the rendered paragraphs |
| Popups.ParagraphsEndWithLast | earthquake/earthquake.js:62-66 | the rendered paragraphs end with the last field's paragraph |
| Popups.Popup | combined/combined.js:78-86 | a popup starts with its heading, ends with the extra markup and `</div>`, and contains every field's paragraph |
| Popups.PopupClosesLastParagraph | combined/combined.js:85-86 | a popup with nothing after its fields ends with `</p></div>` |
| Popups.QuakeFields | earthquake/earthquake.js:62-66 | the five fields are Magnitude, Location, Time, Depth and Coordinates. Magnitude is "N/A" exactly when mag is falsy, and otherwise the printed magnitude. Location is the place when it is truthy and the placeholder otherwise. Time is the locale date of the epoch time. Depth is "N/A" exactly when `coords[2]` is falsy, and otherwise `coords[2].toFixed(1) + " km"`. Coordinates print latitude (`coords[1]`) before longitude (`coords[0]`) to 3 decimals |
| Popups.PopupWithLink | earthquake/earthquake.js:68-72 | a popup followed by the "More details" link ends with `</a></p></div>` |
| Popups.QuakePopupWithoutLink | earthquake/earthquake.js:66-72 | without the link, the popup ends with the coordinates paragraph and so cannot end like the link |
| Popups.NoLinkEnding | earthquake/earthquake.js:66-72 | paragraphs ending in a value with no trailing `>` cannot close like the link paragraph |
| Popups.PlaceholdersShown | earthquake/earthquake.js:62-65 | a text showing every earthquake field shows "N/A" for a falsy magnitude or depth and the placeholder for a missing place |
| Popups.QuakePopup | earthquake/earthquake.js:59-72 | the earthquake popup opens with the heading and closes with `</div>`. It shows every field. When `url` is truthy it ends with the "More details" link to that url and `</div>`, and it ends like a link paragraph only then. A falsy magnitude or depth shows "N/A" and a missing place shows the placeholder |
| Combined.ForInVisitsAscending | combined/combined.js:14-22 | `for (threshold in colors)` visits 3, 4, 5, 6, 7 in that order, the reverse of the literal |
| Combined.FirstReachedNone | combined/combined.js:22-27 | a magnitude below every threshold falls through to the green default |
| Combined.QuakeColorCollapses | combined/combined.js:13-28 | `Combined.QuakeColorOf` (`quakeColor` as a function) returns yellow for every magnitude >= 3 and green below; the four redder colours are never returned |
| Combined.QuakeColor | combined/combined.js:13-28 | the for-in loop returns the colour of the first threshold reached in visiting order: yellow from 3, green below |
| Combined.QuakeSize | combined/combined.js:30-32 | the radius stays within 6..20; it is 3m for 2 <= m <= 20/3, 6 for m <= 2 and 20 for m >= 20/3 |
| Combined.QuakeSizeMonotone | combined/combined.js:30-32 | the radius never decreases as the magnitude grows |
| Combined.WeatherAlertColor | combined/combined.js:34-41 | Extreme gives dark red, Severe red, Minor yellow, each exactly; every other severity (missing, "Moderate", …) gives orange |
| Combined.MakeQuakeMarker | combined/combined.js:47-57 | the options have radius `quakeSize(m)`, fill `quakeColor(m)` (yellow from 3, else green), a black outline, weight 1, opacity 1 and fill opacity 0.8 |
| Combined.WeatherStyle | combined/combined.js:67-75 | outline and fill are both the severity's colour; weight 2, fill opacity 0.3 |
| Combined.WeatherFields | combined/combined.js:77-85 | the six fields are Event, Severity, Headline, Area, Effective and Expires. Each text field is its property when truthy and "N/A" otherwise. Each date field is the property's locale date when truthy and "N/A" otherwise |
| Combined.WeatherPopup | combined/combined.js:76-88 | the alert popup opens with the weather heading, shows every field and ends with `</p></div>` |
| Combined.QuakePopupText | combined/combined.js:117-128 | the combined map binds the shared earthquake popup (`Popups.QuakePopup`); a missing place shows "Unknown" |
| Combined.BuildQuakeMarker | combined/combined.js:109-130 | the marker is placed at `[coords[1], coords[0]]` (latitude first), with radius `quakeSize(mag)` and fill `quakeColor(mag)` |
| Combined.QuakeMarkers | combined/combined.js:108-132 | the loop yields one marker per feature, marker i built from feature i |
| Combined.AlertsLayer | combined/combined.js:66-89 | the GeoJSON layer has one styled region with its popup per alert feature, in order |
| Combined.LoadedStatus | combined/combined.js:92 | the status after a load shows the number of features in decimal without leading zeros, then the tail, and shows no other number; any tail will do |
| Combined.LoadedIsNotFailed | combined/combined.js:92-96 | a loaded status never equals the failure status of the same feed |
| Combined.Without | combined/combined.js:156 | `removeLayer` leaves every other layer attached and does not introduce duplicates |
| Combined.ShowHide | combined/combined.js:152-158 | after the toggle the layer is attached exactly when `show`. Every other layer keeps its state. No layer is duplicated, and the call does nothing when the layer is already as wanted |
| Combined.ShowHideIdempotent | combined/combined.js:152-158 | repeating a toggle changes nothing |
| Combined.LastToggleWins | combined/combined.js:152-158 | after two toggles of a layer only the second decides whether it is attached |
| Combined.Display | combined/combined.js:161 | the display value is "block" exactly when `show` and "none" exactly when not |
| Combined.CombinedMap.constructor | combined/combined.js:1-10 | the map starts with its base tiles attached and two empty layer groups |
| Combined.CombinedMap.OnAlertsLoaded | combined/combined.js:63-93 | the weather group is cleared and then holds exactly the one GeoJSON layer; the status shows the number of alerts |
| Combined.CombinedMap.OnAlertsFailed | combined/combined.js:94-96 | only the weather status changes, to "Failed to load weather alerts" |
| Combined.CombinedMap.OnQuakesLoaded | combined/combined.js:105-135 | the earthquake group is replaced by one marker per feature, in feed order; the status shows the number of quakes |
| Combined.CombinedMap.OnQuakesFailed | combined/combined.js:136-138 | only the earthquake status changes, to "Failed to load earthquake data" |
| Combined.CombinedMap.ShowHideLayer | combined/combined.js:152-158 | the attached layers become `ShowHide` of the old ones: the layer is attached exactly when `show`, the others are untouched, and there are never duplicates |
| Combined.CombinedMap.ShowHideLegend | combined/combined.js:160-162 | only the named legend's display changes, to "block" or "none" |
| Combined.CombinedMap.OnWeatherToggle | combined/combined.js:164-168 | the weather group and the weather legend follow the checkbox |
| Combined.CombinedMap.OnQuakeToggle | combined/combined.js:170-174 | the earthquake group and the earthquake legend follow the checkbox |
| Combined.CombinedMap.OnRadarToggle | combined/combined.js:176-179 | only the radar overlay follows the checkbox |
| Variants.QuakeColorVersusPickColor | combined/combined.js:13-28 | the combined map's colour and `pickColor` agree exactly for magnitudes below 4 |
| Variants.StrongQuakeShownYellow | combined/combined.js:13-28 | a magnitude 7.2 quake is yellow on the combined map and dark red on the standalone map |
| Variants.QuakeColorHighestFirst | combined/combined.js:14-27 | walking the literal highest threshold first gives the colour of the magnitude's band |
| Variants.HighestFirstIsPickColor | earthquake/earthquake.js:10-17 | the highest-first walk is exactly `pickColor` |
| Variants.HighestFirstMonotone | combined/combined.js:14-27 | the highest-first walk never shows a stronger quake in a calmer colour |
| Variants.PickSizeAtMostQuakeSize | combined/combined.js:30-32 | the step table's radius never exceeds the clamped linear radius, and the two agree below 2 and from 7 up |
| Variants.MissingPlaceSplit | earthquake/earthquake.js:63 | for a missing place, the earthquake popup is the same text before and after the location paragraph whatever the placeholder |
| Variants.PopupsDifferOnlyInPlaceholder | combined/combined.js:120 | the two maps' earthquake popups are identical when the place is known and differ when it is missing ("Unknown" against "Unknown location") |

## Left out

- Leaflet is not modelled: `L.map`, `tileLayer`, `tileLayer.wms`, `geoJSON`, `circleMarker`, `bindPopup` and `addTo`. Layers are records (`MapLayers.Layer`) and attached layers are identifiers (`MapLayers.LayerId`).
- jQuery's `$.getJSON` and `$.ajax` are not modelled, nor is the unordered completion of the two requests. Each handler is a method that takes the decoded feature collection.
- The DOM is not modelled: `getElementById`, `querySelector`, `textContent`, `style.display` and the `onchange` wiring. Status lines and legend display values are fields of `Combined.CombinedMap`.
- The standalone map's failure handler (earthquake/earthquake.js:82-85) is left out: it only writes to the console and shows a browser alert.
- `console.log` at earthquake/earthquake.js:47 is left out.
- `toFixed`, `String(number)` and `toLocaleString` are not modelled. They depend on the locale and on floating-point printing, so they are parameters (`Js.Formats`). The model assumes only that numbers print with digits, sign, point and exponent characters.
- Magnitudes are numbers (`real`). A `null` magnitude, which the seismic feed can send, behaves as 0 in every rule here. `null * 3` is 0, so `quakeSize` gives 6. `null >= '3'` and `null >= 7.0` compare 0, so both colour rules give green and `pickSize` gives 6. `null || 'N/A'` prints "N/A". A null magnitude is therefore read as 0.0 and is not a separate case.
- An `undefined` magnitude is left out. For it `mag * 3` is NaN, and NaN passes through `Math.min` and `Math.max`, so `quakeSize` is NaN.
- Combined.QuakeSize: does not model the NaN result for an `undefined` magnitude, for the reason above. It also multiplies exactly: JavaScript rounds `mag * 3` to a double, so between 2 and 20/3 the page's radius can differ from 3m in the last bit (2.1 gives 6.300000000000001). The bounds 6..20, the two clamps and monotonicity hold either way, because rounding to nearest never reverses an order and 6 and 20 are exact doubles.
- Depth is `coords[2]` when the position has a third element; an explicit `null` there is not distinguished from a missing one, since both are falsy.
- Startup wiring is not modelled: the initial view, the tile layer options, the attributions, `setupRadar` (combined/combined.js:142-150) and the unconditional attach of the three overlays at combined/combined.js:181-187. These are straight-line library calls. The checkbox handlers are modelled from whatever the attached layers are.
- The standalone map's `pointToLayer` receives a `latlng` that Leaflet computes from the coordinates. The coordinate swap is modelled only in the combined map, where the script does it itself.
- Leaflet's own skipping of alert features without a geometry is not modelled. Every alert feature becomes a region of the GeoJSON layer.
- Combined.CombinedMap.constructor: the initial status and legend text come from the HTML page, which is not part of this model. They start as empty strings and an empty map.
- `addLayer` is modelled as appending to the list of attached layers. Leaflet's internal layer bookkeeping is not modelled.

## Findings

| source | as written | input that shows it | evidently intended | confidence | as-written member | corrected member |
|---|---|---|---|---|---|---|
| combined/combined.js:13-28 | `for (threshold in colors)` visits the integer keys of `colors` in ascending order (ECMA-262, section 10.1.11.1), so threshold 3 is tested first and every magnitude >= 3 is yellow | magnitude 7.2 gives `#ffff00`; `pickColor` gives `#8b0000` | test the thresholds highest first, as the literal is written and as `pickColor` does | high; not executed | Combined.QuakeColor (with Combined.QuakeColorCollapses and Variants.StrongQuakeShownYellow) | Variants.QuakeColorHighestFirst (with Variants.HighestFirstIsPickColor) |

The page draws the colour the code computes, so the combined map's handler
model (`Combined.MakeQuakeMarker`, `Combined.BuildQuakeMarker`,
`Combined.CombinedMap.OnQuakesLoaded`) keeps the as-written colour. The
corrected walk is proved equal to `pickColor`, which is the colour the
standalone map's marker style (`Earthquake.MarkerStyleByBand`) uses.
