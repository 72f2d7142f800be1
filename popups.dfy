/**
 Popup markup as both maps assemble it: a titled `div` holding one
 `<p><strong>Label:</strong> value</p>` paragraph per field, optionally
 followed by extra markup. The earthquake popup is shared by the two maps,
 which differ only in the placeholder for a missing place.
 */
module Popups {
  import opened Js
  import opened GeoJson

  datatype Field = Field(name: string, value: string)

  function Paragraph(f: Field): string {
    "<p><strong>" + f.name + ":</strong> " + f.value + "</p>"
  }

  function Paragraphs(fields: seq<Field>): string {
    if fields == [] then "" else Paragraph(fields[0]) + Paragraphs(fields[1..])
  }

  /** The `n` characters of `s` from position `k` (empty when out of range). */
  function Window(s: string, k: int, n: nat): string {
    if 0 <= k && k + n <= |s| then s[k..k + n] else ""
  }

  /** `t` occurs somewhere in `s`. */
  predicate Contains(s: string, t: string) {
    exists k :: 0 <= k <= |s| - |t| && Window(s, k, |t|) == t
  }

  lemma ContainsInMiddle(a: string, b: string, c: string, t: string)
    requires Contains(b, t)
    ensures Contains(a + b + c, t)
  {
    var k :| 0 <= k <= |b| - |t| && Window(b, k, |t|) == t;
    var s := a + b + c;
    assert Window(s, |a| + k, |t|) == Window(b, k, |t|);
  }

  /** Every field's paragraph appears in the rendered paragraphs. */
  lemma {:induction false} ParagraphsShowEach(fields: seq<Field>, i: nat)
    requires i < |fields|
    ensures Contains(Paragraphs(fields), Paragraph(fields[i]))
  {
    var head := Paragraph(fields[0]);
    if i == 0 {
      assert Window(Paragraphs(fields), 0, |head|) == head;
    } else {
      ParagraphsShowEach(fields[1..], i - 1);
      ContainsInMiddle(head, Paragraphs(fields[1..]), "", Paragraph(fields[i]));
      assert head + Paragraphs(fields[1..]) + "" == Paragraphs(fields);
    }
  }

  /** The rendered paragraphs end with the last field's paragraph. */
  lemma {:induction false} ParagraphsEndWithLast(fields: seq<Field>)
    requires |fields| > 0
    ensures EndsWith(Paragraphs(fields), Paragraph(fields[|fields| - 1]))
  {
    if |fields| > 1 {
      ParagraphsEndWithLast(fields[1..]);
      assert fields[1..][|fields| - 2] == fields[|fields| - 1];
    }
  }

  /** A popup: the opening `div` and title, the fields' paragraphs, then `extra`, closed by `</div>`. */
  function Popup(heading: string, fields: seq<Field>, extra: string): (r: string)
    ensures StartsWith(r, heading)
    ensures EndsWith(r, extra + "</div>")
    ensures forall i :: 0 <= i < |fields| ==> Contains(r, Paragraph(fields[i]))
  {
    var r := heading + Paragraphs(fields) + extra + "</div>";
    assert r == heading + (Paragraphs(fields) + extra + "</div>");
    assert r == (heading + Paragraphs(fields)) + (extra + "</div>");
    forall i | 0 <= i < |fields| ensures Contains(r, Paragraph(fields[i])) {
      ParagraphsShowEach(fields, i);
      ContainsInMiddle(heading, Paragraphs(fields), extra + "</div>", Paragraph(fields[i]));
    }
    r
  }

  /** A popup is its heading, its paragraphs, `extra` and the closing tag, in that order. */
  lemma PopupUnfold(heading: string, fields: seq<Field>, extra: string)
    ensures Popup(heading, fields, extra) == heading + Paragraphs(fields) + extra + "</div>"
  {
  }

  lemma ParagraphThenDivClose()
    ensures "</p>" + "</div>" == "</p></div>"
  {
  }

  /** A popup with nothing after its fields closes with the last paragraph's `</p>`. */
  lemma PopupClosesLastParagraph(heading: string, fields: seq<Field>)
    requires |fields| > 0
    ensures EndsWith(Popup(heading, fields, ""), "</p></div>")
  {
    var ps := Paragraphs(fields);
    ParagraphsEndWithLast(fields);
    EndsWithTrans(ps, Paragraph(fields[|fields| - 1]), "</p>");
    EndsWithExtended(heading, ps, "</p>", "</div>");
    PopupUnfold(heading, fields, "");
    assert heading + ps + "" == heading + ps;
    ParagraphThenDivClose();
  }

  const QuakeHeading := "<div class=\"earthquake-popup\"><h3>Earthquake Details</h3>"

  const QuakeFieldNames: seq<string> := ["Magnitude", "Location", "Time", "Depth", "Coordinates"]

  /** The closing markup of a popup that carries a "More details" link. */
  const LinkEnding := "</a></p></div>"

  function MoreDetailsLink(url: string): string {
    "<p><a href=\"" + url + "\" target=\"_blank\">More details</a></p>"
  }

  /** `coords[2] ? coords[2].toFixed(1) + ' km' : 'N/A'` */
  function DepthText(fmt: Formats, depth: Option<real>): string {
    if TruthyOptNumber(depth) then fmt.fixed(depth.value, 1) + " km" else "N/A"
  }

  /**
   The five paragraphs of an earthquake popup. A zero magnitude or depth is
   falsy and shows "N/A"; a missing or empty place shows `unknownPlace`; the
   coordinates print latitude (`coords[1]`) before longitude (`coords[0]`).
   */
  function QuakeFields(f: QuakeFeature, unknownPlace: string, fmt: Formats): (r: seq<Field>)
    ensures |r| == |QuakeFieldNames|
    ensures forall i :: 0 <= i < |r| ==> r[i].name == QuakeFieldNames[i]
    ensures r[0].value == "N/A" <==> !TruthyNumber(f.properties.mag)
    ensures TruthyNumber(f.properties.mag) ==> r[0].value == fmt.number(f.properties.mag)
    ensures TruthyText(f.properties.place) ==> r[1].value == f.properties.place.value
    ensures !TruthyText(f.properties.place) ==> r[1].value == unknownPlace
    ensures r[2].value == fmt.localeDate(EpochMillis(f.properties.time))
    ensures r[3].value == "N/A" <==> !TruthyOptNumber(Depth(f.coordinates))
    ensures TruthyOptNumber(Depth(f.coordinates)) ==> r[3].value == fmt.fixed(Depth(f.coordinates).value, 1) + " km"
    ensures TruthyOptNumber(Depth(f.coordinates)) ==> EndsWith(r[3].value, " km")
    ensures r[4].value == fmt.fixed(Latitude(f.coordinates), 3) + ", " + fmt.fixed(Longitude(f.coordinates), 3)
  {
    var p, c := f.properties, f.coordinates;
    var mag := NumberOr(fmt, p.mag, "N/A");
    assert !IsNumeral("N/A") by {
      assert !NumeralChar("N/A"[0]);
    }
    var depth := DepthText(fmt, Depth(c));
    assert TruthyOptNumber(Depth(c)) ==> depth[|depth| - 3..] == " km";
    [ Field("Magnitude", mag),
      Field("Location", TextOr(p.place, unknownPlace)),
      Field("Time", fmt.localeDate(EpochMillis(p.time))),
      Field("Depth", depth),
      Field("Coordinates", fmt.fixed(Latitude(c), 3) + ", " + fmt.fixed(Longitude(c), 3)) ]
  }

  lemma EndsWithExtended(a: string, b: string, c: string, z: string)
    requires EndsWith(b, c)
    ensures EndsWith(a + b + z, c + z)
  {
    var s := a + b + z;
    assert s[|s| - |c + z|..] == b[|b| - |c|..] + z;
  }

  lemma EndsWithTrans(a: string, b: string, c: string)
    requires EndsWith(a, b) && EndsWith(b, c)
    ensures EndsWith(a, c)
  {
    assert a[|a| - |c|..] == a[|a| - |b|..][|b| - |c|..];
  }

  /** A popup whose paragraphs end with `v + "</p>"` for a `v` ending in no `>` cannot close like a link paragraph. */
  lemma NoLinkEnding(heading: string, ps: string, v: string)
    requires |v| > 0 && v[|v| - 1] != '>'
    requires EndsWith(ps, v + "</p>")
    ensures !EndsWith(heading + ps + "" + "</div>", LinkEnding)
  {
    var r := heading + ps + "" + "</div>";
    EndsWithExtended(heading, ps, v + "</p>", "</div>");
    assert r == heading + ps + "</div>";
    assert r[|r| - 11] == (v + "</p>" + "</div>")[|v| - 1] == v[|v| - 1];
    assert LinkEnding[3] == '>';
  }

  /** Without the link, the popup closes with the coordinates paragraph, whose last character is no `>`. */
  lemma QuakePopupWithoutLink(fields: seq<Field>, lat: Numeral, lng: Numeral)
    requires |fields| == 5 && fields[4] == Field("Coordinates", lat + ", " + lng)
    ensures !EndsWith(Popup(QuakeHeading, fields, ""), LinkEnding)
  {
    var ps := Paragraphs(fields);
    var v := lat + ", " + lng;
    assert v[|v| - 1] != '>' by {
      if |lng| > 0 {
        assert v[|v| - 1] == lng[|lng| - 1];
        assert NumeralChar(lng[|lng| - 1]);
      } else {
        assert v[|v| - 1] == ' ';
      }
    }
    ParagraphsEndWithLast(fields);
    EndsWithExtended("<p><strong>Coordinates:</strong> ", v, v, "</p>");
    EndsWithTrans(ps, Paragraph(fields[4]), v + "</p>");
    NoLinkEnding(QuakeHeading, ps, v);
  }

  /** A popup followed by the "More details" link closes like a link paragraph. */
  lemma PopupWithLink(heading: string, fields: seq<Field>, url: string)
    ensures EndsWith(Popup(heading, fields, MoreDetailsLink(url)), LinkEnding)
  {
    var tail := MoreDetailsLink(url) + "</div>";
    assert tail[|tail| - |LinkEnding|..] == LinkEnding;
    EndsWithTrans(Popup(heading, fields, MoreDetailsLink(url)), tail, LinkEnding);
  }

  /** A text showing every earthquake field shows the "N/A" and place placeholders where they apply. */
  lemma PlaceholdersShown(r: string, f: QuakeFeature, unknownPlace: string, fmt: Formats)
    requires forall i :: 0 <= i < |QuakeFieldNames| ==> Contains(r, Paragraph(QuakeFields(f, unknownPlace, fmt)[i]))
    ensures !TruthyNumber(f.properties.mag) ==> Contains(r, Paragraph(Field("Magnitude", "N/A")))
    ensures !TruthyText(f.properties.place) ==> Contains(r, Paragraph(Field("Location", unknownPlace)))
    ensures !TruthyOptNumber(Depth(f.coordinates)) ==> Contains(r, Paragraph(Field("Depth", "N/A")))
  {
    var fields := QuakeFields(f, unknownPlace, fmt);
    assert Contains(r, Paragraph(fields[0])) && Contains(r, Paragraph(fields[1])) && Contains(r, Paragraph(fields[3]));
  }

  /**
   The earthquake popup. It opens with the fixed heading, closes with `</div>`,
   shows every field, and ends in the "More details" link to `url` exactly when
   `url` is truthy. A falsy magnitude or depth shows "N/A" and a missing place
   shows `unknownPlace`.
   */
  function QuakePopup(f: QuakeFeature, unknownPlace: string, fmt: Formats): (r: string)
    ensures StartsWith(r, QuakeHeading)
    ensures EndsWith(r, "</div>")
    ensures forall i :: 0 <= i < |QuakeFieldNames| ==> Contains(r, Paragraph(QuakeFields(f, unknownPlace, fmt)[i]))
    ensures TruthyText(f.properties.url) ==> EndsWith(r, MoreDetailsLink(f.properties.url.value) + "</div>")
    ensures TruthyText(f.properties.url) <==> EndsWith(r, LinkEnding)
    ensures !TruthyNumber(f.properties.mag) ==> Contains(r, Paragraph(Field("Magnitude", "N/A")))
    ensures !TruthyText(f.properties.place) ==> Contains(r, Paragraph(Field("Location", unknownPlace)))
    ensures !TruthyOptNumber(Depth(f.coordinates)) ==> Contains(r, Paragraph(Field("Depth", "N/A")))
  {
    var fields := QuakeFields(f, unknownPlace, fmt);
    var url := f.properties.url;
    var extra := if TruthyText(url) then MoreDetailsLink(url.value) else "";
    var r := Popup(QuakeHeading, fields, extra);
    assert TruthyText(url) <==> EndsWith(r, LinkEnding) by {
      if TruthyText(url) {
        PopupWithLink(QuakeHeading, fields, url.value);
      } else {
        QuakePopupWithoutLink(fields, fmt.fixed(Latitude(f.coordinates), 3), fmt.fixed(Longitude(f.coordinates), 3));
      }
    }
    PlaceholdersShown(r, f, unknownPlace, fmt);
    r
  }
}
