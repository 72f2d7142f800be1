/**
 The two maps style and describe earthquakes with separate code. This module
 relates them: where the colour rules agree and where they part, what the
 combined map's colour walk was evidently meant to do, how the two radius
 policies compare, and how the two popups differ.
 */
module Variants {
  import opened Js
  import opened GeoJson
  import opened MapLayers
  import opened Palette
  import opened Popups
  import Earthquake
  import Combined

  /** The two colour rules agree below magnitude 4 and disagree from 4 up. */
  lemma QuakeColorVersusPickColor(mag: real)
    ensures Combined.QuakeColorOf(mag) == Earthquake.PickColor(mag) <==> mag < 4.0
  {
    Combined.QuakeColorCollapses(mag);
  }

  /** A magnitude 7.2 quake, which the standalone map paints dark red, is yellow on the combined map. */
  lemma StrongQuakeShownYellow()
    ensures Combined.QuakeColorOf(7.2) == Yellow
    ensures Earthquake.PickColor(7.2) == DarkRed
  {
    Combined.QuakeColorCollapses(7.2);
  }

  /**
   The colour walk with the table visited as the literal lists it, highest
   threshold first: what the combined map's `quakeColor` evidently intended.
   */
  function QuakeColorHighestFirst(mag: real): (c: Color)
    ensures c == QuakeScale[Reach(mag)]
  {
    ReachBands(mag);
    var t := Combined.QuakeColorTable;
    var t1, t2, t3, t4 := t[1..], t[2..], t[3..], t[4..];
    assert t4[1..] == [] && t3[1..] == t4 && t2[1..] == t3 && t1[1..] == t2;
    assert Combined.FirstReached(t4, mag) == if mag >= 3.0 then Yellow else Green;
    assert Combined.FirstReached(t3, mag) == if mag >= 4.0 then Orange else Combined.FirstReached(t4, mag);
    assert Combined.FirstReached(t2, mag) == if mag >= 5.0 then OrangeRed else Combined.FirstReached(t3, mag);
    assert Combined.FirstReached(t1, mag) == if mag >= 6.0 then Red else Combined.FirstReached(t2, mag);
    Combined.FirstReached(t, mag)
  }

  /** The intended walk is exactly the standalone map's `pickColor`. */
  lemma HighestFirstIsPickColor(mag: real)
    ensures QuakeColorHighestFirst(mag) == Earthquake.PickColor(mag)
  {
    Earthquake.PickColorByBand(mag);
  }

  /** The intended walk never shows a stronger quake in a calmer colour. */
  lemma HighestFirstMonotone(m1: real, m2: real)
    requires m1 <= m2
    ensures Level(QuakeColorHighestFirst(m1)) <= Level(QuakeColorHighestFirst(m2))
  {
    HighestFirstIsPickColor(m1);
    HighestFirstIsPickColor(m2);
    Earthquake.PickColorMonotone(m1, m2);
  }

  /**
   The step table never draws a marker larger than the clamped linear rule,
   and the two coincide below magnitude 2 and from 7 up.
   */
  lemma PickSizeAtMostQuakeSize(mag: real)
    ensures Earthquake.PickSize(mag) <= Combined.QuakeSize(mag)
    ensures mag < 2.0 || mag >= 7.0 ==> Earthquake.PickSize(mag) == Combined.QuakeSize(mag)
  {
  }

  /** What follows the location paragraph of an earthquake popup; the placeholder plays no part in it. */
  function AfterLocation(quake: QuakeFeature, fmt: Formats): string {
    var url := quake.properties.url;
    var extra := if TruthyText(url) then MoreDetailsLink(url.value) else "";
    Paragraphs(QuakeFields(quake, "", fmt)[2..]) + extra + "</div>"
  }

  /** Rendered paragraphs, with the first two taken apart. */
  lemma ParagraphsFirstTwo(fields: seq<Field>)
    requires |fields| >= 2
    ensures Paragraphs(fields) == Paragraph(fields[0]) + (Paragraph(fields[1]) + Paragraphs(fields[2..]))
  {
    assert fields[1..][1..] == fields[2..];
  }

  /** The placeholder only enters the location field. */
  lemma FieldsBesideLocation(quake: QuakeFeature, placeholder: string, fmt: Formats)
    ensures QuakeFields(quake, placeholder, fmt)[0] == QuakeFields(quake, "", fmt)[0]
    ensures QuakeFields(quake, placeholder, fmt)[2..] == QuakeFields(quake, "", fmt)[2..]
    ensures !TruthyText(quake.properties.place) ==> QuakeFields(quake, placeholder, fmt)[1] == Field("Location", placeholder)
  {
  }

  /** What precedes the location paragraph of an earthquake popup. */
  function BeforeLocation(quake: QuakeFeature, fmt: Formats): string {
    QuakeHeading + Paragraph(QuakeFields(quake, "", fmt)[0])
  }

  /** The earthquake popup as its heading, paragraphs and closing markup. */
  lemma QuakePopupUnfold(quake: QuakeFeature, placeholder: string, fmt: Formats)
    ensures QuakePopup(quake, placeholder, fmt)
         == QuakeHeading + Paragraphs(QuakeFields(quake, placeholder, fmt))
            + (if TruthyText(quake.properties.url) then MoreDetailsLink(quake.properties.url.value) else "") + "</div>"
  {
  }

  lemma Regroup(h: string, p0: string, p1: string, rest: string, extra: string)
    ensures h + (p0 + (p1 + rest)) + extra + "</div>" == (h + p0) + p1 + (rest + extra + "</div>")
  {
  }

  /** For a missing place, the earthquake popup around the location paragraph. */
  lemma MissingPlaceSplit(quake: QuakeFeature, placeholder: string, fmt: Formats)
    requires !TruthyText(quake.properties.place)
    ensures QuakePopup(quake, placeholder, fmt)
         == BeforeLocation(quake, fmt) + Paragraph(Field("Location", placeholder)) + AfterLocation(quake, fmt)
  {
    var fields := QuakeFields(quake, placeholder, fmt);
    var url := quake.properties.url;
    var extra := if TruthyText(url) then MoreDetailsLink(url.value) else "";
    QuakePopupUnfold(quake, placeholder, fmt);
    FieldsBesideLocation(quake, placeholder, fmt);
    ParagraphsFirstTwo(fields);
    Regroup(QuakeHeading, Paragraph(fields[0]), Paragraph(fields[1]), Paragraphs(fields[2..]), extra);
  }

  /** Two texts that differ only in the location placeholder, "Unknown" against "Unknown location", differ. */
  lemma PlaceholdersDiffer(x: string, tail: string)
    ensures x + Paragraph(Field("Location", "Unknown")) + tail != x + Paragraph(Field("Location", "Unknown location")) + tail
  {
    var a := x + Paragraph(Field("Location", "Unknown")) + tail;
    var b := x + Paragraph(Field("Location", "Unknown location")) + tail;
    var lead := "<p><strong>" + "Location" + ":</strong> ";
    assert a == x + lead + "Unknown" + "</p>" + tail;
    assert b == x + lead + "Unknown location" + "</p>" + tail;
    var k := |x| + |lead| + 7;
    assert a[k] == '<';
    assert b[k] == ' ';
  }

  /**
   The two earthquake popups are the same markup whenever the place is known;
   for a missing place they differ ("Unknown" against "Unknown location").
   */
  lemma PopupsDifferOnlyInPlaceholder(quake: QuakeFeature, fmt: Formats)
    ensures TruthyText(quake.properties.place) ==> Combined.QuakePopupText(quake, fmt) == Earthquake.PopupText(quake, fmt)
    ensures !TruthyText(quake.properties.place) ==> Combined.QuakePopupText(quake, fmt) != Earthquake.PopupText(quake, fmt)
  {
    if TruthyText(quake.properties.place) {
      assert QuakeFields(quake, "Unknown", fmt) == QuakeFields(quake, "Unknown location", fmt);
    } else {
      MissingPlaceSplit(quake, "Unknown", fmt);
      MissingPlaceSplit(quake, "Unknown location", fmt);
      PlaceholdersDiffer(BeforeLocation(quake, fmt), AfterLocation(quake, fmt));
    }
  }
}
