/**
 The standalone earthquake map (earthquake/earthquake.js): six-band colour and
 radius tables tested highest threshold first, the circle-marker options, the
 popup markup and the header line.
 */
module Earthquake {
  import opened Js
  import opened GeoJson
  import opened MapLayers
  import opened Palette
  import opened Popups

  /** `pickColor`: an if/else chain from the highest threshold down. */
  function PickColor(magnitude: real): Color {
    if magnitude >= 7.0 then DarkRed
    else if magnitude >= 6.0 then Red
    else if magnitude >= 5.0 then OrangeRed
    else if magnitude >= 4.0 then Orange
    else if magnitude >= 3.0 then Yellow
    else Green
  }

  /** `pickSize`: the matching radius chain. */
  function PickSize(magnitude: real): (r: real)
    ensures r in {6.0, 8.0, 10.0, 12.0, 16.0, 20.0}
    ensures r == 20.0 <==> magnitude >= 7.0
    ensures r == 6.0 <==> magnitude < 3.0
  {
    if magnitude >= 7.0 then 20.0
    else if magnitude >= 6.0 then 16.0
    else if magnitude >= 5.0 then 12.0
    else if magnitude >= 4.0 then 10.0
    else if magnitude >= 3.0 then 8.0
    else 6.0
  }

  /** The colour is the scale entry of the magnitude's band: as many steps up as thresholds reached. */
  lemma PickColorByBand(magnitude: real)
    ensures PickColor(magnitude) == QuakeScale[Reach(magnitude)]
  {
    ReachBands(magnitude);
  }

  /** The radius is the size step of the magnitude's band. */
  lemma PickSizeByBand(magnitude: real)
    ensures PickSize(magnitude) == SizeSteps[Reach(magnitude)]
  {
    ReachBands(magnitude);
  }

  /** A stronger quake is never drawn in a calmer colour. */
  lemma PickColorMonotone(m1: real, m2: real)
    requires m1 <= m2
    ensures Level(PickColor(m1)) <= Level(PickColor(m2))
  {
    PickColorByBand(m1);
    PickColorByBand(m2);
    CountReachedMonotone(QuakeThresholds, m1, m2);
    LevelOfScale(Reach(m1));
    LevelOfScale(Reach(m2));
  }

  /** A stronger quake is never drawn smaller. */
  lemma PickSizeMonotone(m1: real, m2: real)
    requires m1 <= m2
    ensures PickSize(m1) <= PickSize(m2)
  {
    PickSizeByBand(m1);
    PickSizeByBand(m2);
    CountReachedMonotone(QuakeThresholds, m1, m2);
    var k1, k2 := Reach(m1), Reach(m2);
    assert SizeSteps[k1] <= SizeSteps[k2];
  }

  /** `makeMarkerStyle`: the circle-marker options for a magnitude. */
  function MakeMarkerStyle(magnitude: real): MarkerStyle {
    MarkerStyle(
      radius := PickSize(magnitude),
      fillColor := PickColor(magnitude),
      color := Black,
      weight := 1.0,
      opacity := 1.0,
      fillOpacity := 0.8)
  }

  /**
   The marker is sized and filled by the magnitude's band and stroked the same
   way for every quake.
   */
  lemma MarkerStyleByBand(magnitude: real)
    ensures MakeMarkerStyle(magnitude).radius == SizeSteps[Reach(magnitude)]
    ensures MakeMarkerStyle(magnitude).fillColor == QuakeScale[Reach(magnitude)]
    ensures MakeMarkerStyle(magnitude).color == Black
    ensures MakeMarkerStyle(magnitude).weight == 1.0 && MakeMarkerStyle(magnitude).opacity == 1.0
    ensures MakeMarkerStyle(magnitude).fillOpacity == 0.8
  {
    PickColorByBand(magnitude);
    PickSizeByBand(magnitude);
  }

  /** The placeholder this map prints for a missing place. */
  const UnknownPlace := "Unknown location"

  /**
   The popup bound by `onEachFeature`: the shared earthquake popup, with
   "Unknown location" for a missing place.
   */
  function PopupText(feature: QuakeFeature, fmt: Formats): (r: string)
    ensures !TruthyText(feature.properties.place) ==> Contains(r, Paragraph(Field("Location", "Unknown location")))
  {
    QuakePopup(feature, UnknownPlace, fmt)
  }

  const HeaderLead := "Displaying "
  const HeaderTail := " earthquakes from the past 24 hours worldwide"

  /** The header line: `'Displaying ' + count + ' earthquakes from the past 24 hours worldwide'`. */
  function HeaderText(features: seq<QuakeFeature>): (r: string)
    ensures ShowsCount(r, HeaderLead, HeaderTail, |features|)
  {
    CountInText(HeaderLead, |features|, HeaderTail);
    HeaderLead + NatText(|features|) + HeaderTail
  }
}
